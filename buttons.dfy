/**
 * Edge detection for the three local buttons, as the polling loop does it:
 * the last level seen of each button and the time SELECT went down.
 */
module Buttons {
  import opened Wrappers

  /** A button input level; buttons are pulled up, so pressed reads Low. */
  datatype Level = Low | High

  /**
   * One pass of the polling loop: the time in milliseconds, the three levels
   * read, and the RSSI replies the link would give should this pass start a
   * sweep.
   */
  datatype Sample = Sample(nowMs: int, select: Level, up: Level, down: Level, replies: seq<Option<int>>)

  /** What the loop acts on. */
  datatype ButtonEvent =
    | SelectRelease(durationMs: int, replies: seq<Option<int>>)
    | UpPress
    | DownPress

  /** The loop's edge-detection variables. */
  datatype Detector = Detector(lastSelect: Level, lastUp: Level, lastDown: Level, pressTimeMs: int)

  /** Before the first pass every button reads as released and no press has been timed. */
  const InitialDetector: Detector := Detector(High, High, High, 0)

  /**
   * One pass: SELECT going down records the time and going up yields a
   * release with its duration; UP and DOWN yield an event only going down.
   */
  function Step(d: Detector, s: Sample): (r: (Detector, seq<ButtonEvent>))
    ensures r.0.lastSelect == s.select && r.0.lastUp == s.up && r.0.lastDown == s.down
    ensures r.0.pressTimeMs == if d.lastSelect == High && s.select == Low then s.nowMs else d.pressTimeMs
    ensures r.1 == (if d.lastSelect == Low && s.select == High then [SelectRelease(s.nowMs - d.pressTimeMs, s.replies)] else [])
                 + (if d.lastUp == High && s.up == Low then [UpPress] else [])
                 + (if d.lastDown == High && s.down == Low then [DownPress] else [])
  {
    var changed := s.select != d.lastSelect;
    var pressTime := if changed && s.select == Low then s.nowMs else d.pressTimeMs;
    var selectEvents :=
      if changed && s.select != Low then [SelectRelease(s.nowMs - d.pressTimeMs, s.replies)] else [];
    var upEvents := if s.up != d.lastUp && s.up == Low then [UpPress] else [];
    var downEvents := if s.down != d.lastDown && s.down == Low then [DownPress] else [];
    (Detector(s.select, s.up, s.down, pressTime), selectEvents + upEvents + downEvents)
  }

  /** The passes in order: the detector after them and every event they yield. */
  function Run(d: Detector, samples: seq<Sample>): (Detector, seq<ButtonEvent>)
    decreases |samples|
  {
    if samples == [] then (d, [])
    else
      var before := Run(d, samples[..|samples| - 1]);
      var last := Step(before.0, samples[|samples| - 1]);
      (last.0, before.1 + last.1)
  }

  /** Passes that read the levels already seen yield nothing and change nothing. */
  lemma {:induction false} SteadyLevelsAreQuiet(d: Detector, samples: seq<Sample>)
    requires forall k | 0 <= k < |samples| ::
      samples[k].select == d.lastSelect && samples[k].up == d.lastUp && samples[k].down == d.lastDown
    ensures Run(d, samples) == (d, [])
    decreases |samples|
  {
    if samples != [] {
      SteadyLevelsAreQuiet(d, samples[..|samples| - 1]);
    }
  }

  /** A SELECT press at t0 released at t1 yields one release lasting t1 - t0. */
  lemma PressAndRelease(t0: int, t1: int, r0: seq<Option<int>>, r1: seq<Option<int>>)
    ensures Run(InitialDetector, [Sample(t0, Low, High, High, r0), Sample(t1, High, High, High, r1)]).1
         == [SelectRelease(t1 - t0, r1)]
  {
    var s := [Sample(t0, Low, High, High, r0), Sample(t1, High, High, High, r1)];
    assert s[..1][..0] == [] && s[..1] == [s[0]] && s[..2] == s;
    assert Run(InitialDetector, []) == (InitialDetector, []);
    var first := Step(InitialDetector, s[0]);
    assert [] + first.1 == first.1;
    assert Run(InitialDetector, s[..1]) == (first.0, first.1);
    var second := Step(first.0, s[1]);
    assert Run(InitialDetector, s) == (second.0, first.1 + second.1);
  }

  /** Holding UP down over any number of passes yields one press, on the first of them. */
  lemma {:induction false} HeldUpPressesOnce(samples: seq<Sample>)
    requires |samples| >= 1
    requires forall k | 0 <= k < |samples| ::
      samples[k].select == High && samples[k].up == Low && samples[k].down == High
    ensures Run(InitialDetector, samples).1 == [UpPress]
    ensures var d := Run(InitialDetector, samples).0;
      d.lastSelect == High && d.lastUp == Low && d.lastDown == High
    decreases |samples|
  {
    var init := samples[..|samples| - 1];
    if init == [] {
      assert Run(InitialDetector, init) == (InitialDetector, []);
    } else {
      HeldUpPressesOnce(init);
    }
  }
}
