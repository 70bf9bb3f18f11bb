/** The signed 64-bit counter of a latch, and the count-down that releases it. */
module LatchCount {
  const HALF: int := 0x8000_0000_0000_0000
  const RANGE: int := 0x1_0000_0000_0000_0000

  /** The value of a signed 64-bit integer. */
  function Wrap(n: int): (w: int)
    ensures -HALF <= w < HALF
  {
    var m := n % RANGE;
    if m < HALF then m else m - RANGE
  }

  lemma WrapOnce(n: int)
    ensures Wrap(Wrap(n) - 1) == Wrap(n - 1)
  {
  }

  /** Some count-down of the first k finds at most one left, or the latch was built with none. */
  ghost predicate Released(n: nat, k: nat) {
    if k == 0 then n == 0 else Released(n, k - 1) || Wrap(n - (k - 1)) <= 1
  }

  lemma {:induction false} ReleasedAfter(n: nat, k: nat)
    requires n < 0x1_0000_0000_0000_0000
    ensures Released(n, k) <==> k >= n || (n >= 0x8000_0000_0000_0000 && k >= 1)
  {
    if k > 0 { ReleasedAfter(n, k - 1); }
  }

  /** A latch takes exactly n count-downs if and only if n fits the signed counter. */
  lemma LatchIsExact(n: nat)
    requires n < 0x1_0000_0000_0000_0000
    ensures (forall k: nat :: Released(n, k) <==> k >= n) <==> n < 0x8000_0000_0000_0000
  {
    forall k: nat ensures Released(n, k) <==> k >= n || (n >= 0x8000_0000_0000_0000 && k >= 1) { ReleasedAfter(n, k); }
    assert Released(n, 1) <==> 1 >= n || n >= 0x8000_0000_0000_0000;
  }
}
