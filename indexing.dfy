/**
 * Channel index arithmetic: stepping a channel with wrap-around, moving the
 * receiver cursor on the selection screen, and clamping a stored index into
 * the channel list before it is shown or reported.
 */
module Indexing {
  import opened Catalog

  /**
   * One channel step, wrapping modulo the channel count (Python's % with a
   * positive divisor never goes negative, as Dafny's does not).
   */
  function StepIndex(c: int, n: int, up: bool): (r: int)
    requires n > 0
    ensures 0 <= r < n
    ensures 0 <= c < n ==>
      r == (if up then (if c == n - 1 then 0 else c + 1)
            else (if c == 0 then n - 1 else c - 1))
  {
    if up then (c + 1) % n else (c - 1) % n
  }

  /** A step up and a step down undo each other. */
  lemma StepInverse(c: int, n: int, up: bool)
    requires 0 <= c < n
    ensures StepIndex(StepIndex(c, n, up), n, !up) == c
  {
  }

  /** k steps up in a row. */
  function StepsUp(c: int, n: int, k: nat): int
    requires n > 0
  {
    if k == 0 then c else StepIndex(StepsUp(c, n, k - 1), n, true)
  }

  /** k steps up from an in-range channel land on (c + k) mod n; n steps come back. */
  lemma {:induction false} StepsUpModulo(c: int, n: int, k: nat)
    requires 0 <= c < n
    ensures StepsUp(c, n, k) == (c + k) % n
    ensures k == n ==> StepsUp(c, n, k) == c
  {
    if k > 0 {
      StepsUpModulo(c, n, k - 1);
      ModSucc(c + k - 1, n);
    }
    if k == n {
      DivModUnique(c + k, n, 1, c);
    }
  }

  /** The remainder of x + 1 is the next remainder after x's, wrapping at n. */
  lemma ModSucc(x: int, n: int)
    requires n > 0
    ensures (x + 1) % n == if x % n == n - 1 then 0 else x % n + 1
  {
    var q, y := x / n, x % n;
    assert x == n * q + y;
    if y == n - 1 {
      assert x + 1 == n * (q + 1) + 0;
      DivModUnique(x + 1, n, q + 1, 0);
    } else {
      DivModUnique(x + 1, n, q, y + 1);
    }
  }

  lemma MulAtLeast(n: int, d: int)
    requires n > 0 && d >= 1
    ensures n * d >= n
  {
    if d > 1 { MulAtLeast(n, d - 1); assert n * d == n * (d - 1) + n; }
  }

  /** Division by a positive n is determined by any quotient and remainder in range. */
  lemma DivModUnique(a: int, n: int, q: int, r: int)
    requires n > 0 && 0 <= r < n && a == n * q + r
    ensures a / n == q && a % n == r
  {
    var q', r' := a / n, a % n;
    assert a == n * q' + r';
    assert n * (q - q') == r' - r by {
      assert n * (q - q') == n * q - n * q';
    }
    if q > q' {
      MulAtLeast(n, q - q');
    } else if q < q' {
      MulAtLeast(n, q' - q);
    }
  }

  /** change_vrx: the cursor moves to the next or previous receiver in declaration order, wrapping. */
  function CursorStep(id: ReceiverId, up: bool): (r: ReceiverId)
    ensures r != id
    ensures IndexOf(r) == StepIndex(IndexOf(id), |Order|, up)
  {
    Order[StepIndex(IndexOf(id), |Order|, up)]
  }

  /** The cursor visits VRX1, VRX2, VRX3, VRX4 and back, and a step down undoes a step up. */
  lemma CursorCycle(id: ReceiverId, up: bool)
    ensures CursorStep(VRX1, true) == VRX2 && CursorStep(VRX2, true) == VRX3
    ensures CursorStep(VRX3, true) == VRX4 && CursorStep(VRX4, true) == VRX1
    ensures CursorStep(CursorStep(id, up), !up) == id
  {
  }

  /** The clamp applied to a stored index: first the top of the range, then the bottom. */
  function Clamp(c: int, n: int): (r: int)
    ensures n > 0 ==> 0 <= r < n
    ensures 0 <= c < n ==> r == c
    ensures n > 0 && c >= n ==> r == n - 1
    ensures c < 0 || n <= 0 ==> r == 0
  {
    var capped := if c >= n then n - 1 else c;
    if capped < 0 then 0 else capped
  }

  /** Clamping twice is clamping once, and the clamp picks the in-range index nearest to c. */
  lemma ClampIdempotentNearest(c: int, n: int, j: int)
    requires 0 <= j < n
    ensures Clamp(Clamp(c, n), n) == Clamp(c, n)
    ensures Dist(Clamp(c, n), c) <= Dist(j, c)
  {
  }

  function Dist(a: int, b: int): nat
  {
    if a >= b then a - b else b - a
  }
}
