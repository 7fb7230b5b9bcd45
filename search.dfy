/**
 * The autosearch selection rule: over the readings of a sweep, in channel
 * order, keep the first strictly greatest RSSI, starting from best 0 on
 * channel 0.
 */
module Search {
  import opened Wrappers

  /**
   * The RSSI a sweep takes for channel k from the replies on the link: an
   * empty, unparsable or missing reply (a read that timed out) counts as 0.
   */
  function ReplyValue(replies: seq<Option<int>>, k: nat): (v: int)
    ensures k < |replies| && replies[k].Some? ==> v == replies[k].value
    ensures (k >= |replies| || replies[k].None?) ==> v == 0
  {
    if k < |replies| then (match replies[k] case Some(r) => r case None => 0) else 0
  }

  /**
   * The readings of a sweep over n channels. Without a serial link nothing
   * is asked and the last reading, rssi0, stands for every channel.
   */
  function SweepValues(replies: seq<Option<int>>, n: nat, linked: bool, rssi0: int): (values: seq<int>)
    ensures |values| == n
    ensures forall k | 0 <= k < n :: values[k] == if linked then ReplyValue(replies, k) else rssi0
  {
    seq(n, (k: int) => if linked && k >= 0 then ReplyValue(replies, k) else rssi0)
  }

  /** The best channel and its reading. */
  datatype Best = Best(channel: nat, rssi: int)

  /** The running best after the readings so far. */
  function BestOf(values: seq<int>): (b: Best)
    ensures values != [] ==> b.channel < |values|
    decreases |values|
  {
    if values == [] then Best(0, 0)
    else
      var prev := BestOf(values[..|values| - 1]);
      var v := values[|values| - 1];
      if v > prev.rssi then Best(|values| - 1, v) else prev
  }

  /** The best reading is the largest one when that is positive, and 0 otherwise. */
  ghost predicate IsBest(values: seq<int>, b: Best)
  {
    && b.rssi >= 0
    && (forall i | 0 <= i < |values| :: values[i] <= b.rssi)
    && (b.rssi > 0 ==>
          b.channel < |values| && values[b.channel] == b.rssi
          && forall i | 0 <= i < b.channel :: values[i] < b.rssi)
    && (b.rssi == 0 ==> b.channel == 0)
  }

  /**
   * The sweep ends on the first channel holding the maximum reading if that
   * maximum is positive, and on channel 0 with best 0 otherwise.
   */
  lemma {:induction false} BestIsFirstMaximum(values: seq<int>)
    ensures IsBest(values, BestOf(values))
    decreases |values|
  {
    if values != [] {
      var init := values[..|values| - 1];
      BestIsFirstMaximum(init);
      assert forall i | 0 <= i < |init| :: init[i] == values[i];
    }
  }

  /** The rule has exactly one answer for each sweep. */
  lemma BestIsUnique(values: seq<int>, b: Best, c: Best)
    requires IsBest(values, b) && IsBest(values, c)
    ensures b == c
  {
    if b.rssi > 0 && c.rssi > 0 {
      assert values[b.channel] <= c.rssi && values[c.channel] <= b.rssi;
    }
  }

  /**
   * Each reading can only raise the best, and raises it (moving the best
   * channel to k) exactly when it strictly exceeds the best so far.
   */
  lemma BestMonotone(values: seq<int>, k: nat)
    requires k < |values|
    ensures BestOf(values[..k]).rssi <= BestOf(values[..k + 1]).rssi
    ensures BestOf(values[..k + 1]) != BestOf(values[..k]) <==> values[k] > BestOf(values[..k]).rssi
    ensures values[k] > BestOf(values[..k]).rssi ==> BestOf(values[..k + 1]) == Best(k, values[k])
  {
    var p := values[..k + 1];
    assert p[..k] == values[..k];
    BestIsFirstMaximum(values[..k]);
  }

  /** With no positive reading the sweep ends on channel 0 with best 0. */
  lemma {:induction false} NoSignalGivesChannelZero(values: seq<int>)
    requires forall i | 0 <= i < |values| :: values[i] <= 0
    ensures BestOf(values) == Best(0, 0)
  {
    BestIsFirstMaximum(values);
  }
}
