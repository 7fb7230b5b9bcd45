/**
 * The controller's session state and the events that drive it: the remote
 * commands read from the serial link and the local buttons read by the
 * polling loop. Hardware effects go to a trace (`hw`), lines sent on the
 * serial link to another (`sent`).
 */
module Controller {
  import opened Wrappers
  import opened Catalog
  import opened Hardware
  import opened Tuning
  import opened Indexing
  import opened Text
  import opened Search
  import opened Buttons

  /** The two screens: receiver selection and the tuning screen of one receiver. */
  datatype Screen = VrxSelect | Main

  /** What autosearch asks the link for each channel. */
  const GetRssi: string := "GET_RSSI\n"

  /** Press lengths, in milliseconds: shorter than Debounce is ignored, longer than LongPress is a long press. */
  const DebounceMs: int := 100
  const LongPressMs: int := 2000

  /** The receivers that should be powered given the active one. */
  function ActiveSet(a: Option<ReceiverId>): (s: set<ReceiverId>)
    ensures a.Some? ==> s == {a.value}
    ensures a.None? ==> s == {}
  {
    if a.Some? then {a.value} else {}
  }

  /** The power-off that deactivating the active receiver (if any) drives. */
  function PowerOffWrites(a: Option<ReceiverId>): seq<HwEvent>
  {
    if a.Some? then [Power(a.value, false)] else []
  }

  /** The status line sent for a receiver's channel, when there is a link to send it on. */
  function StatusReport(linked: bool, id: ReceiverId, ch: int, rssi: int): (r: seq<string>)
    requires 0 <= ch < ChannelCount(id)
    ensures linked <==> |r| == 1
  {
    if linked then [StatusLine(id, ch, ChannelFreq(id, ch), rssi)] else []
  }

  /** The status report, read back by the ESP32, gives the receiver, channel, frequency and RSSI. */
  lemma StatusReportParses(linked: bool, id: ReceiverId, ch: int, rssi: int)
    requires 0 <= ch < ChannelCount(id)
    ensures var r := StatusReport(linked, id, ch, rssi);
      linked ==> ParseStatusLine(r[0]) == Some(Status(id, ch, ChannelFreq(id, ch), rssi))
  {
    StatusRoundTrip(id, ch, ChannelFreq(id, ch), rssi);
  }

  /** The RSSI requests of a sweep over k channels. */
  function Queries(k: nat): (q: seq<string>)
    ensures |q| == k && forall j | 0 <= j < k :: q[j] == GetRssi
  {
    seq(k, _ => GetRssi)
  }

  /** Every receiver has a stored channel, and each is an index into its table. */
  ghost predicate ChannelsInRange(m: map<ReceiverId, int>)
  {
    forall id :: id in m && 0 <= m[id] < ChannelCount(id)
  }

  /**
   * The clamp of a stored channel that the display refresh and the status
   * report apply (show_main_screen, send_state_to_esp32) changes nothing
   * while every stored channel is in range.
   */
  lemma ClampKeepsChannels(m: map<ReceiverId, int>, id: ReceiverId)
    requires ChannelsInRange(m)
    ensures m[id := Clamp(m[id], ChannelCount(id))] == m
  {
  }

  /** Resetting one stored channel to 0 keeps every stored channel in range. */
  lemma ResetKeepsInRange(m: map<ReceiverId, int>, id: ReceiverId)
    requires ChannelsInRange(m)
    ensures ChannelsInRange(m[id := 0])
  {
  }

  /** The power-off writes of the first k receivers in declaration order. */
  function PowerOffAll(k: nat): (w: seq<HwEvent>)
    requires k <= |Order|
    ensures |w| == k && forall j | 0 <= j < k :: w[j] == Power(Order[j], false)
  {
    seq(k, (j: int) => if 0 <= j < k then Power(Order[j], false) else Power(VRX1, false))
  }

  /** The stored channels with the first k receivers, in declaration order, reset to 0. */
  function ResetFirst(m: map<ReceiverId, int>, k: nat): map<ReceiverId, int>
    requires k <= |Order|
  {
    if k == 0 then m else ResetFirst(m, k - 1)[Order[k - 1] := 0]
  }

  /** Resetting every receiver in turn leaves every stored channel at 0. */
  lemma ResetAll(m: map<ReceiverId, int>)
    requires ChannelsInRange(m)
    ensures forall id :: id in ResetFirst(m, |Order|) && ResetFirst(m, |Order|)[id] == 0
  {
    var r := ResetFirst(m, |Order|);
    assert ResetFirst(m, 1) == m[VRX1 := 0];
    assert ResetFirst(m, 2) == m[VRX1 := 0][VRX2 := 0];
    assert ResetFirst(m, 3) == m[VRX1 := 0][VRX2 := 0][VRX3 := 0];
    assert r == m[VRX1 := 0][VRX2 := 0][VRX3 := 0][VRX4 := 0];
    forall id: ReceiverId ensures id in r && r[id] == 0 {
      assert id == VRX1 || id == VRX2 || id == VRX3 || id == VRX4;
    }
  }

  /** After switching every receiver off in turn, none is powered, whatever came before. */
  lemma AllOff(t: seq<HwEvent>)
    ensures Powered(t + PowerOffAll(|Order|)) == {}
  {
    var t1 := t + [Power(VRX1, false)];
    var t2 := t1 + [Power(VRX2, false)];
    var t3 := t2 + [Power(VRX3, false)];
    var t4 := t3 + [Power(VRX4, false)];
    PoweredAfterPower(t, VRX1, false);
    PoweredAfterPower(t1, VRX2, false);
    PoweredAfterPower(t2, VRX3, false);
    PoweredAfterPower(t3, VRX4, false);
    assert t + PowerOffAll(|Order|) == t4;
    forall id: ReceiverId ensures id !in Powered(t4) {
      assert id == VRX1 || id == VRX2 || id == VRX3 || id == VRX4;
    }
  }

  /** A sweep and the final tune write no power pin. */
  lemma SearchKeepsPower(t: seq<HwEvent>, freqs: seq<int>, c: nat)
    requires AllTunable(freqs) && c < |freqs|
    ensures Powered(t + SweepFrames(freqs, |freqs|) + [Spi(Vrx1Frame(freqs[c]))]) == Powered(t)
  {
    PoweredAfterQuiet(t, SweepFrames(freqs, |freqs|));
    PoweredAfterQuiet(t + SweepFrames(freqs, |freqs|), [Spi(Vrx1Frame(freqs[c]))]);
  }

  /** One line read from the link, with the replies that would follow it should it start a sweep. */
  datatype RemoteLine = RemoteLine(text: string, replies: seq<Option<int>>)

  class VrxController {
    /** Whether a serial port to the ESP32 was found at startup. */
    const linked: bool
    var current: ReceiverId
    var active: Option<ReceiverId>
    var screen: Screen
    var channels: map<ReceiverId, int>
    var rssi: int
    var searching: bool
    var hw: seq<HwEvent>
    var sent: seq<string>

    /**
     * The session invariant between events: every stored channel is in range,
     * no receiver is active on the selection screen, the active receiver is
     * the current one, the powered receivers are exactly the active one, and
     * no sweep is running.
     */
    ghost predicate Valid()
      reads this
    {
      && ChannelsInRange(channels)
      && (screen == VrxSelect ==> active == None)
      && (active.Some? ==> current == active.value)
      && Powered(hw) == ActiveSet(active)
      && !searching
    }

    /** The state at startup, after the GPIO setup has switched every receiver off. */
    constructor (linked: bool)
      ensures Valid() && this.linked == linked
      ensures current == VRX1 && active == None && screen == VrxSelect
      ensures channels == map[VRX1 := 0, VRX2 := 0, VRX3 := 0, VRX4 := 0]
      ensures rssi == 0 && !searching && hw == [] && sent == []
    {
      this.linked := linked;
      current := VRX1;
      active := None;
      screen := VrxSelect;
      channels := map[VRX1 := 0, VRX2 := 0, VRX3 := 0, VRX4 := 0];
      rssi := 0;
      searching := false;
      hw := [];
      sent := [];
      new;
      forall id: ReceiverId ensures id in channels && 0 <= channels[id] < ChannelCount(id) {
        assert id == VRX1 || id == VRX2 || id == VRX3 || id == VRX4;
      }
    }

    // ---------- transitions, stated over the old and new state ----------

    twostate predicate Same()
      reads this
    {
      && current == old(current) && active == old(active) && screen == old(screen)
      && channels == old(channels) && rssi == old(rssi) && searching == old(searching)
      && hw == old(hw) && sent == old(sent)
    }

    /** SELECT_<id>: the previous receiver off and reset, then id on, tuned and reported. */
    twostate predicate Activated(id: ReceiverId)
      reads this
    {
      var prev := old(active);
      && ChannelsInRange(channels)
      && current == id && active == Some(id) && screen == Main
      && channels == (if prev.Some? then old(channels)[prev.value := 0] else old(channels))
      && hw == old(hw) + PowerOffWrites(prev) + [Power(id, true)] + ApplyWrites(id, channels[id])
      && sent == old(sent) + StatusReport(linked, id, channels[id], rssi)
      && rssi == old(rssi) && searching == old(searching)
    }

    /** A short SELECT press on the selection screen: the cursor's receiver on and tuned. */
    twostate predicate SwitchedOn()
      reads this
    {
      && ChannelsInRange(channels)
      && current == old(current) && active == Some(current) && screen == Main
      && channels == old(channels)
      && hw == old(hw) + [Power(current, true)] + ApplyWrites(current, channels[current])
      && sent == old(sent) && rssi == old(rssi) && searching == old(searching)
    }

    /** Back to the selection screen: the active receiver (if any) off and its channel reset. */
    twostate predicate Deactivated()
      reads this
    {
      var prev := old(active);
      && current == old(current) && active == None && screen == VrxSelect
      && channels == (if prev.Some? then old(channels)[prev.value := 0] else old(channels))
      && hw == old(hw) + PowerOffWrites(prev)
      && sent == old(sent) && rssi == old(rssi) && searching == old(searching)
    }

    /** MENU outside the tuning screen: the tuning screen, with nothing powered or tuned. */
    twostate predicate EnteredMain()
      reads this
    {
      && current == old(current) && active == old(active) && screen == Main
      && channels == old(channels) && rssi == old(rssi) && searching == old(searching)
      && hw == old(hw) && sent == old(sent)
    }

    /** One channel step of the current receiver, driven and reported. */
    twostate predicate Stepped(up: bool)
      reads this
    {
      && ChannelsInRange(old(channels)) && current == old(current)
      && var c := StepIndex(old(channels)[current], ChannelCount(current), up);
      && channels == old(channels)[current := c]
      && hw == old(hw) + StepWrites(current, c, up)
      && sent == old(sent) + StatusReport(linked, current, c, rssi)
      && active == old(active) && screen == old(screen) && rssi == old(rssi) && searching == old(searching)
    }

    /** The selection cursor moved to the next or previous receiver. */
    twostate predicate CursorMoved(up: bool)
      reads this
    {
      && current == CursorStep(old(current), up)
      && active == old(active) && screen == old(screen) && channels == old(channels)
      && rssi == old(rssi) && searching == old(searching) && hw == old(hw) && sent == old(sent)
    }

    /**
     * An autosearch: nothing unless the current receiver is VRX1; otherwise a
     * sweep over every VRX1 channel in order, then VRX1 tuned to the best.
     */
    twostate predicate Searched(replies: seq<Option<int>>)
      reads this
    {
      if old(current) != VRX1 then Same()
      else
        Vrx1Tunable();
        && current == old(current) && active == old(active) && screen == old(screen)
        && Swept(Vrx1Table, replies)
    }

    /**
     * A sweep over the frequency list `freqs` followed by tuning to the first
     * channel of greatest RSSI, that channel stored as VRX1's.
     */
    twostate predicate Swept(freqs: seq<int>, replies: seq<Option<int>>)
      requires AllTunable(freqs) && |freqs| > 0
      reads this
    {
      var values := SweepValues(replies, |freqs|, linked, old(rssi));
      var best := BestOf(values);
      && channels == old(channels)[VRX1 := best.channel]
      && hw == old(hw) + SweepFrames(freqs, |freqs|) + [Spi(Vrx1Frame(freqs[best.channel]))]
      && sent == old(sent) + Queries(if linked then |freqs| else 0)
      && rssi == values[|values| - 1]
      && !searching
    }

    /** What one remote command does, by its form (handle_esp32_commands). */
    twostate predicate Commanded(c: Command, replies: seq<Option<int>>)
      reads this
    {
      match c
      case SelectCmd(arg) => if ParseId(arg).Some? then Activated(ParseId(arg).value) else Same()
      case ChUp => if old(screen) == Main then Stepped(true) else Same()
      case ChDown => if old(screen) == Main then Stepped(false) else Same()
      case AutoSearch => if old(screen) == Main && old(current) == VRX1 then Searched(replies) else Same()
      case Menu => if old(screen) == Main then Deactivated() else EnteredMain()
      case Unrecognised => Same()
    }

    /**
     * What releasing SELECT does, by how long it was held: a long press on the
     * tuning screen of VRX1 searches; otherwise a press past the debounce
     * switches the cursor's receiver on or goes back to the selection screen.
     */
    twostate predicate SelectReleased(durationMs: int, replies: seq<Option<int>>)
      reads this
    {
      if durationMs > LongPressMs && old(screen) == Main && old(current) == VRX1 then Searched(replies)
      else if durationMs > DebounceMs then (if old(screen) == VrxSelect then SwitchedOn() else Deactivated())
      else Same()
    }

    /** UP or DOWN going down: the cursor on the selection screen, the channel on the tuning screen. */
    twostate predicate StepPressed(up: bool)
      reads this
    {
      if old(screen) == VrxSelect then CursorMoved(up) else Stepped(up)
    }

    /** What one button event does. */
    twostate predicate Reacted(e: ButtonEvent)
      reads this
    {
      match e
      case SelectRelease(d, r) => SelectReleased(d, r)
      case UpPress => StepPressed(true)
      case DownPress => StepPressed(false)
    }

    // ---------- hardware helpers ----------

    /** set_vrx_power. */
    method SetPower(id: ReceiverId, on: bool)
      modifies this`hw
      ensures hw == old(hw) + [Power(id, on)]
    {
      hw := hw + [Power(id, on)];
    }

    /** reset_vrx_channels. */
    method ResetChannel(id: ReceiverId)
      modifies this`channels
      ensures channels == old(channels)[id := 0]
    {
      channels := channels[id := 0];
    }

    /** set_frequency_vrx1: one SPI frame. */
    method SetFrequencyVrx1(mhz: int)
      requires mhz >= 479
      modifies this`hw
      ensures hw == old(hw) + [Spi(Vrx1Frame(mhz))]
    {
      hw := hw + [Spi(Vrx1Frame(mhz))];
    }

    /** set_frequency_vrx4: six line writes. */
    method SetFrequencyVrx4(i: int)
      requires 0 <= i < |Vrx4Table|
      modifies this`hw
      ensures hw == old(hw) + Vrx4Writes(i)
    {
      hw := hw + Vrx4Writes(i);
    }

    /** press_button: one pulse on a control pin. */
    method PressButton(pin: int)
      modifies this`hw
      ensures hw == old(hw) + [Pulse(pin)]
    {
      hw := hw + [Pulse(pin)];
    }

    /** apply_current_channel: re-drive the current receiver's stored channel. */
    method ApplyCurrentChannel()
      requires current in channels && 0 <= channels[current] < ChannelCount(current)
      modifies this`hw
      ensures hw == old(hw) + ApplyWrites(current, channels[current])
      ensures Powered(hw) == Powered(old(hw))
    {
      if current == VRX1 {
        CatalogFrameExact(channels[VRX1]);
        SetFrequencyVrx1(Vrx1Table[channels[VRX1]]);
      } else if current == VRX4 {
        SetFrequencyVrx4(channels[VRX4]);
      }
      PoweredAfterQuiet(old(hw), ApplyWrites(current, channels[current]));
    }

    /**
     * send_state_to_esp32: the status line of the current receiver, for its
     * clamped channel. The clamp's write-back into the stored channels is left
     * out: with every stored channel in range it changes nothing (ClampKeepsChannels).
     */
    method SendState()
      requires current in channels && 0 <= channels[current] < ChannelCount(current)
      modifies this`sent
      ensures sent == old(sent) + StatusReport(linked, current, channels[current], rssi)
    {
      if linked {
        var id := current;
        var ch := Clamp(channels[id], ChannelCount(id));
        sent := sent + [StatusLine(id, ch, ChannelFreq(id, ch), rssi)];
      }
    }

    // ---------- operations ----------

    /** The hardware half of change_channel: retune VRX1 or VRX4, pulse a button of VRX2 or VRX3. */
    method DriveStep(id: ReceiverId, ch: int, up: bool)
      requires 0 <= ch < ChannelCount(id)
      modifies this`hw
      ensures hw == old(hw) + StepWrites(id, ch, up)
      ensures Powered(hw) == Powered(old(hw))
    {
      if id == VRX1 {
        CatalogFrameExact(ch);
        SetFrequencyVrx1(Vrx1Table[ch]);
      } else if id == VRX4 {
        SetFrequencyVrx4(ch);
      } else {
        PressButton(ControlPin(id, up));
      }
      PoweredAfterQuiet(old(hw), StepWrites(id, ch, up));
    }

    /** change_channel: step the current receiver's channel, drive it, report it. */
    method ChangeChannel(up: bool)
      requires ChannelsInRange(channels)
      modifies this`channels, this`hw, this`sent
      ensures ChannelsInRange(channels) && Stepped(up)
      ensures Powered(hw) == Powered(old(hw))
    {
      var id := current;
      var c := StepIndex(channels[id], ChannelCount(id), up);
      channels := channels[id := c];
      DriveStep(id, c, up);
      SendState();
    }

    /** change_vrx: move the selection cursor. */
    method ChangeVrx(up: bool)
      modifies this`current
      ensures current == CursorStep(old(current), up)
    {
      current := CursorStep(current, up);
    }

    /**
     * One pass of the autosearch loop over the frequency list `freqs`: tune
     * the channel, store it, read its RSSI over the link, and keep it as the
     * best if it beats the best so far. The ghost parameters name the state
     * the sweep started from.
     */
    method SweepStep(freqs: seq<int>, channel: nat, replies: seq<Option<int>>, bestChannel: nat, bestRssi: int,
                     ghost base: seq<HwEvent>, ghost sent0: seq<string>, ghost rssi0: int)
      returns (newChannel: nat, newRssi: int)
      requires AllTunable(freqs) && channel < |freqs|
      requires hw == base + SweepFrames(freqs, channel)
      requires sent == sent0 + Queries(if linked then channel else 0)
      requires !linked ==> rssi == rssi0
      requires Best(bestChannel, bestRssi) == BestOf(SweepValues(replies, |freqs|, linked, rssi0)[..channel])
      modifies this`channels, this`hw, this`sent, this`rssi
      ensures channels == old(channels)[VRX1 := channel]
      ensures hw == base + SweepFrames(freqs, channel + 1)
      ensures sent == sent0 + Queries(if linked then channel + 1 else 0)
      ensures rssi == SweepValues(replies, |freqs|, linked, rssi0)[channel]
      ensures Best(newChannel, newRssi) == BestOf(SweepValues(replies, |freqs|, linked, rssi0)[..channel + 1])
    {
      SweepFramesStep(base, freqs, channel);
      SetFrequencyVrx1(freqs[channel]);
      channels := channels[VRX1 := channel];
      if linked {
        sent := sent + [GetRssi];
        assert Queries(channel + 1) == Queries(channel) + [GetRssi];
        rssi := ReplyValue(replies, channel);
      }
      BestMonotone(SweepValues(replies, |freqs|, linked, rssi0), channel);
      newChannel, newRssi := bestChannel, bestRssi;
      if rssi > bestRssi {
        newChannel, newRssi := channel, rssi;
      }
    }

    /**
     * The loop of autosearch over the frequency list `freqs`: tune every
     * channel in order, ask the link for one RSSI per channel (a failed or
     * missing reply reads 0), and keep the first strictly greatest reading.
     */
    method Sweep(freqs: seq<int>, replies: seq<Option<int>>) returns (best: Best)
      requires AllTunable(freqs) && |freqs| > 0 && VRX1 in channels
      modifies this`channels, this`hw, this`sent, this`rssi
      ensures best == BestOf(SweepValues(replies, |freqs|, linked, old(rssi)))
      ensures channels == old(channels)[VRX1 := |freqs| - 1]
      ensures hw == old(hw) + SweepFrames(freqs, |freqs|)
      ensures sent == old(sent) + Queries(if linked then |freqs| else 0)
      ensures rssi == SweepValues(replies, |freqs|, linked, old(rssi))[|freqs| - 1]
    {
      var bestRssi := 0;
      var bestChannel := 0;
      var n := |freqs|;
      ghost var values := SweepValues(replies, n, linked, rssi);
      ghost var stored := channels[VRX1];
      assert channels == old(channels)[VRX1 := stored];
      var channel := 0;
      while channel < n
        invariant 0 <= channel <= n
        invariant channels == old(channels)[VRX1 := stored]
        invariant hw == old(hw) + SweepFrames(freqs, channel)
        invariant sent == old(sent) + Queries(if linked then channel else 0)
        invariant channel > 0 ==> stored == channel - 1
        invariant rssi == if channel == 0 then old(rssi) else values[channel - 1]
        invariant Best(bestChannel, bestRssi) == BestOf(values[..channel])
      {
        bestChannel, bestRssi := SweepStep(freqs, channel, replies, bestChannel, bestRssi, old(hw), old(sent), old(rssi));
        stored := channel;
        channel := channel + 1;
      }
      assert values[..n] == values;
      best := Best(bestChannel, bestRssi);
    }

    /**
     * The body of autosearch over the frequency list `freqs`: the sweep, then
     * VRX1 tuned to and storing the best channel found.
     */
    method SearchOver(freqs: seq<int>, replies: seq<Option<int>>)
      requires AllTunable(freqs) && |freqs| > 0 && VRX1 in channels && !searching
      modifies this`channels, this`hw, this`sent, this`rssi, this`searching
      ensures Swept(freqs, replies)
      ensures channels == old(channels)[VRX1 := channels[VRX1]] && 0 <= channels[VRX1] < |freqs|
      ensures Powered(hw) == Powered(old(hw))
    {
      searching := true;
      var best := Sweep(freqs, replies);
      searching := false;
      SetFrequencyVrx1(freqs[best.channel]);
      channels := channels[VRX1 := best.channel];
      SearchKeepsPower(old(hw), freqs, best.channel);
    }

    /**
     * autosearch: nothing unless the current receiver is VRX1; otherwise
     * the sweep over the VRX1 list, then VRX1 tuned to the best channel found.
     */
    method Autosearch(replies: seq<Option<int>>)
      requires ChannelsInRange(channels) && !searching
      modifies this`channels, this`hw, this`sent, this`rssi, this`searching
      ensures ChannelsInRange(channels) && Searched(replies)
      ensures Powered(hw) == Powered(old(hw))
    {
      if current != VRX1 {
        return;
      }
      Vrx1Tunable();
      SearchOver(Vrx1Table, replies);
      forall id: ReceiverId ensures id in channels && 0 <= channels[id] < ChannelCount(id) {
        if id != VRX1 {
          assert channels[id] == old(channels)[id];
        }
      }
    }

    // ---------- screens and receivers ----------

    /** The active receiver, if any, switched off and its stored channel reset (active_vrx itself is left to the caller). */
    method PowerOffActive()
      requires Valid()
      modifies this`channels, this`hw
      ensures ChannelsInRange(channels) && Powered(hw) == {}
      ensures channels == if old(active).Some? then old(channels)[old(active).value := 0] else old(channels)
      ensures hw == old(hw) + PowerOffWrites(old(active))
    {
      if active.Some? {
        var prev := active.value;
        PoweredAfterPower(hw, prev, false);
        SetPower(prev, false);
        ResetChannel(prev);
        ResetKeepsInRange(old(channels), prev);
      }
    }

    /** The current receiver switched on, tuned to its stored channel, and shown on the tuning screen. */
    method SwitchOn()
      requires ChannelsInRange(channels) && Powered(hw) == {}
      modifies this`active, this`screen, this`hw
      ensures active == Some(current) && screen == Main
      ensures hw == old(hw) + [Power(current, true)] + ApplyWrites(current, channels[current])
      ensures Powered(hw) == {current}
    {
      PoweredAfterPower(hw, current, true);
      SetPower(current, true);
      ApplyCurrentChannel();
      active := Some(current);
      screen := Main;
    }

    /** SELECT_<id> for a known receiver. */
    method Select(id: ReceiverId)
      requires Valid()
      modifies this`current, this`active, this`screen, this`channels, this`hw, this`sent
      ensures Valid() && Activated(id)
    {
      PowerOffActive();
      current := id;
      SwitchOn();
      SendState();
    }

    /** Back from the tuning screen to the selection screen. */
    method Deactivate()
      requires Valid()
      modifies this`active, this`screen, this`channels, this`hw
      ensures Valid() && Deactivated()
    {
      PowerOffActive();
      active := None;
      screen := VrxSelect;
    }

    /** MENU outside the tuning screen. */
    method EnterMain()
      requires Valid()
      modifies this`screen
      ensures Valid() && EnteredMain()
    {
      screen := Main;
    }

    // ---------- the command thread ----------

    /** One line from the link, decoded and stripped, acted on (handle_esp32_commands). */
    method HandleCommand(line: string, replies: seq<Option<int>>)
      requires Valid()
      modifies this`current, this`active, this`screen, this`channels, this`hw, this`sent, this`rssi, this`searching
      ensures Valid() && Commanded(ParseCommand(line), replies)
    {
      match ParseCommand(line)
      case SelectCmd(arg) =>
        var id := ParseId(arg);
        if id.Some? {
          Select(id.value);
        }
      case ChUp =>
        if screen == Main {
          ChangeChannel(true);
        }
      case ChDown =>
        if screen == Main {
          ChangeChannel(false);
        }
      case AutoSearch =>
        if screen == Main && current == VRX1 {
          Autosearch(replies);
        }
      case Menu =>
        if screen == Main {
          Deactivate();
        } else {
          EnterMain();
        }
      case Unrecognised =>
    }

    /** The command thread over the lines it reads, in order; without a link there is no thread. */
    method ServeCommands(lines: seq<RemoteLine>) returns (commands: seq<Command>)
      requires Valid()
      modifies this`current, this`active, this`screen, this`channels, this`hw, this`sent, this`rssi, this`searching
      ensures Valid()
      ensures !linked ==> commands == [] && Same()
      ensures linked ==> |commands| == |lines| && forall k | 0 <= k < |lines| :: commands[k] == ParseCommand(lines[k].text)
    {
      commands := [];
      if !linked {
        return;
      }
      var k := 0;
      while k < |lines|
        invariant 0 <= k <= |lines| && Valid()
        invariant |commands| == k && forall j | 0 <= j < k :: commands[j] == ParseCommand(lines[j].text)
      {
        HandleCommand(lines[k].text, lines[k].replies);
        commands := commands + [ParseCommand(lines[k].text)];
        k := k + 1;
      }
    }

    // ---------- the button loop ----------

    /** SELECT released after durationMs milliseconds (the SELECT branch of main). */
    method OnSelectRelease(durationMs: int, replies: seq<Option<int>>)
      requires Valid()
      modifies this`active, this`screen, this`channels, this`hw, this`sent, this`rssi, this`searching
      ensures Valid() && SelectReleased(durationMs, replies)
    {
      if durationMs > LongPressMs && screen == Main && current == VRX1 {
        Autosearch(replies);
      } else if durationMs > DebounceMs {
        if screen == VrxSelect {
          SwitchOn();
        } else {
          Deactivate();
        }
      }
    }

    /** UP or DOWN pressed (the UP and DOWN branches of main). */
    method OnStepPress(up: bool)
      requires Valid()
      modifies this`current, this`channels, this`hw, this`sent
      ensures Valid() && StepPressed(up)
    {
      if screen == VrxSelect {
        ChangeVrx(up);
      } else {
        ChangeChannel(up);
      }
    }

    /** One button event acted on. */
    method HandleButton(e: ButtonEvent)
      requires Valid()
      modifies this`current, this`active, this`screen, this`channels, this`hw, this`sent, this`rssi, this`searching
      ensures Valid() && Reacted(e)
    {
      match e
      case SelectRelease(d, r) => OnSelectRelease(d, r);
      case UpPress => OnStepPress(true);
      case DownPress => OnStepPress(false);
    }

    /**
     * The polling loop of main over the passes it makes: each pass's edges
     * are detected and acted on in order, SELECT before UP before DOWN.
     */
    method PollButtons(samples: seq<Sample>) returns (d: Detector, events: seq<ButtonEvent>)
      requires Valid()
      modifies this`current, this`active, this`screen, this`channels, this`hw, this`sent, this`rssi, this`searching
      ensures Valid() && (d, events) == Run(InitialDetector, samples)
    {
      d, events := InitialDetector, [];
      var k := 0;
      while k < |samples|
        invariant 0 <= k <= |samples| && Valid()
        invariant (d, events) == Run(InitialDetector, samples[..k])
      {
        var pass := Step(d, samples[k]);
        var j := 0;
        while j < |pass.1|
          invariant 0 <= j <= |pass.1| && Valid()
        {
          HandleButton(pass.1[j]);
          j := j + 1;
        }
        assert samples[..k + 1][..k] == samples[..k];
        d, events := pass.0, events + pass.1;
        k := k + 1;
      }
      assert samples[..|samples|] == samples;
    }

    /** The finally block of main: every receiver switched off and its stored channel reset, in order. */
    method Shutdown()
      requires ChannelsInRange(channels)
      modifies this`channels, this`hw
      ensures hw == old(hw) + PowerOffAll(|Order|) && Powered(hw) == {}
      ensures forall id :: id in channels && channels[id] == 0
    {
      var k := 0;
      while k < |Order|
        invariant 0 <= k <= |Order|
        invariant hw == old(hw) + PowerOffAll(k)
        invariant channels == ResetFirst(old(channels), k)
      {
        var id := Order[k];
        SetPower(id, false);
        assert PowerOffAll(k + 1) == PowerOffAll(k) + [Power(id, false)];
        ResetChannel(id);
        k := k + 1;
      }
      AllOff(old(hw));
      ResetAll(old(channels));
    }
  }
}
