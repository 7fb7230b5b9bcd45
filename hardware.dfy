/**
 * The hardware effects of the controller, recorded as an output trace, and
 * the set of powered receivers that a trace leaves behind.
 */
module Hardware {
  import opened Wrappers
  import opened Catalog

  /** One effect on the receivers' wiring. */
  datatype HwEvent =
    | Spi(frame: seq<int>)            // one SPI transfer to VRX1, with its chip select held low around it
    | Line(pin: int, level: int)      // one VRX4 address line driven to a level
    | Pulse(pin: int)                 // one emulated button press on a VRX2/VRX3 control pin
    | Power(id: ReceiverId, on: bool) // a receiver's power pin (active low) switched on or off

  /** A trace that touches no power pin. */
  ghost predicate Quiet(t: seq<HwEvent>)
  {
    forall k | 0 <= k < |t| :: !t[k].Power?
  }

  /**
   * The receivers powered after a trace, starting from the state the GPIO
   * setup leaves (every power pin high, so every receiver off).
   */
  function Powered(t: seq<HwEvent>): set<ReceiverId>
    decreases |t|
  {
    if t == [] then {}
    else
      var before := Powered(t[..|t| - 1]);
      match t[|t| - 1]
      case Power(id, on) => if on then before + {id} else before - {id}
      case _ => before
  }

  /** The most recent power write for one receiver, if any (a reference definition for Powered). */
  function LastPowerWrite(t: seq<HwEvent>, id: ReceiverId): (r: Option<bool>)
    decreases |t|
  {
    if t == [] then None
    else if t[|t| - 1] == Power(id, true) then Some(true)
    else if t[|t| - 1] == Power(id, false) then Some(false)
    else LastPowerWrite(t[..|t| - 1], id)
  }

  /** A receiver is powered exactly when its most recent power write switched it on. */
  lemma {:induction false} PoweredIsLastWrite(t: seq<HwEvent>, id: ReceiverId)
    ensures id in Powered(t) <==> LastPowerWrite(t, id) == Some(true)
    decreases |t|
  {
    if t != [] {
      PoweredIsLastWrite(t[..|t| - 1], id);
    }
  }

  /** Appending one power write switches exactly that receiver. */
  lemma PoweredAfterPower(t: seq<HwEvent>, id: ReceiverId, on: bool)
    ensures Powered(t + [Power(id, on)]) == if on then Powered(t) + {id} else Powered(t) - {id}
  {
    assert (t + [Power(id, on)])[..|t|] == t;
  }

  /** Appending a trace without power writes leaves the powered set alone. */
  lemma {:induction false} PoweredAfterQuiet(t: seq<HwEvent>, u: seq<HwEvent>)
    requires Quiet(u)
    ensures Powered(t + u) == Powered(t)
    decreases |u|
  {
    if u != [] {
      var u' := u[..|u| - 1];
      assert (t + u)[..|t + u| - 1] == t + u';
      assert Quiet(u');
      assert (t + u)[|t + u| - 1] == u[|u| - 1] && !u[|u| - 1].Power?;
      assert Powered(t + u) == Powered(t + u');
      PoweredAfterQuiet(t, u');
    } else {
      assert t + u == t;
    }
  }
}
