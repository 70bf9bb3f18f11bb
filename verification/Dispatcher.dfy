/** Round-robin dispatch over n contexts, with the 64-bit counter's wrap-around. */
module Dispatcher {
  import opened Powers

  const SIZE: nat := 0x1_0000_0000_0000_0000

  class RoundRobin {
    const n: nat
    var cur: nat

    ghost predicate Valid()
      reads this
    {
      n > 0 && cur < SIZE
    }

    constructor (n: nat)
      requires n > 0
      ensures Valid() && this.n == n && cur == 0
    {
      this.n, cur := n, 0;
    }

    /** fetch_add, then the remainder. */
    method Dispatch() returns (x: nat)
      requires Valid()
      modifies this`cur
      ensures Valid() && x < n && x == Pick(old(cur), n) && cur == After(old(cur), 1)
    {
      x := cur % n;
      cur := (cur + 1) % SIZE;
    }
  }

  /** The context that a counter value stands for. */
  function Pick(cur: nat, n: nat): (x: nat)
    requires n > 0
  {
    cur % n
  }

  /** The counter after k dispatches. */
  function After(cur: nat, k: nat): (c: nat) {
    (cur + k) % SIZE
  }

  /** How many of the k dispatches from counter value cur on go to context x. */
  function Share(cur: nat, k: nat, n: nat, x: nat): nat
    requires n > 0
  {
    if k == 0 then 0 else Share(cur, k - 1, n, x) + if Pick(After(cur, k - 1), n) == x then 1 else 0
  }

  /** floor(k/n) or ceil(k/n) dispatches each. */
  predicate FairWindow(cur: nat, k: nat, n: nat)
    requires n > 0
  {
    forall x | 0 <= x < n :: k / n <= Share(cur, k, n, x) <= (k + n - 1) / n
  }

  /** How many of 0 .. m - 1 leave remainder x. */
  function Below(m: nat, n: nat, x: nat): int
    requires x < n
  {
    (m + n - 1 - x) / n
  }

  lemma Division(a: int, n: nat, q: int, r: int)
    requires n > 0 && a == q * n + r && 0 <= r < n
    ensures a / n == q && a % n == r
  {
    var e := q - a / n;
    assert e * n == a % n - r;
    assert e >= 1 ==> (e - 1) * n >= 0;
    assert e <= -1 ==> (-1 - e) * n >= 0;
  }

  /** Every full round counts once, and the last one if it came past x. */
  lemma BelowAt(m: nat, q: nat, r: nat, n: nat, x: nat)
    requires m == q * n + r && r < n && x < n
    ensures Below(m, n, x) == q + if r > x then 1 else 0
  {
    if r > x {
      NextMultiple(q, n);
      Division(m + n - 1 - x, n, q + 1, r - 1 - x);
    } else {
      Division(m + n - 1 - x, n, q, r + n - 1 - x);
    }
  }

  lemma NextMultiple(q: nat, n: nat)
    ensures (q + 1) * n == q * n + n
  {
  }

  lemma BelowNext(m: nat, n: nat, x: nat)
    requires x < n
    ensures Below(m + 1, n, x) == Below(m, n, x) + if m % n == x then 1 else 0
  {
    var q, r := m / n, m % n;
    BelowAt(m, q, r, n, x);
    if r + 1 < n {
      BelowAt(m + 1, q, r + 1, n, x);
    } else {
      NextMultiple(q, n);
      BelowAt(m + 1, q + 1, 0, n, x);
    }
  }

  /** Remainders do not notice the wrap: either the window does not reach it, or n divides the counter's range. */
  predicate Smooth(cur: nat, k: nat, n: nat)
    requires n > 0
  {
    cur + k <= SIZE || SIZE % n == 0
  }

  lemma PickSmooth(cur: nat, j: nat, n: nat)
    requires n > 0 && Smooth(cur, j + 1, n)
    ensures Pick(After(cur, j), n) == (cur + j) % n
  {
    if cur + j >= SIZE {
      var q, r, p := (cur + j) / SIZE, (cur + j) % SIZE, SIZE / n;
      assert SIZE == p * n && cur + j == q * SIZE + r;
      assert q * (p * n) == (q * p) * n;
      Division(cur + j, n, q * p + r / n, r % n) by {
        assert (q * p + r / n) * n == (q * p) * n + (r / n) * n;
      }
    }
  }

  lemma {:induction false} ShareIsBelow(cur: nat, k: nat, n: nat, x: nat)
    requires x < n && Smooth(cur, k, n)
    ensures Share(cur, k, n, x) == Below(cur + k, n, x) - Below(cur, n, x)
  {
    if k > 0 {
      ShareIsBelow(cur, k - 1, n, x);
      PickSmooth(cur, k - 1, n);
      BelowNext(cur + k - 1, n, x);
    }
  }

  lemma SumOfQuotients(a: nat, k: nat, n: nat)
    requires n > 0
    ensures (a + k) / n == a / n + k / n + if a % n + k % n < n then 0 else 1
  {
    var r, t := a % n + k % n, a / n + k / n;
    assert a == (a / n) * n + a % n && k == (k / n) * n + k % n;
    assert t * n == (a / n) * n + (k / n) * n;
    if r < n {
      Division(a + k, n, t, r);
    } else {
      assert (t + 1) * n == t * n + n;
      Division(a + k, n, t + 1, r - n);
    }
  }

  lemma RoundedUp(k: nat, n: nat)
    requires n > 0
    ensures (k + n - 1) / n == k / n + if k % n == 0 then 0 else 1
  {
    var q, r := k / n, k % n;
    assert k == q * n + r;
    if r == 0 {
      Division(k + n - 1, n, q, n - 1);
    } else {
      assert (q + 1) * n == q * n + n;
      Division(k + n - 1, n, q + 1, r - 1);
    }
  }

  lemma QuotientOfSum(a: nat, k: nat, n: nat)
    requires n > 0
    ensures k / n <= (a + k) / n - a / n <= (k + n - 1) / n
  {
    SumOfQuotients(a, k, n);
    RoundedUp(k, n);
  }

  /** Every window that does not reach the wrap is fair, and so is every window if n divides the counter's range. */
  lemma RoundRobinIsFair(cur: nat, k: nat, n: nat)
    requires n > 0 && Smooth(cur, k, n)
    ensures FairWindow(cur, k, n)
  {
    forall x | 0 <= x < n ensures k / n <= Share(cur, k, n, x) <= (k + n - 1) / n {
      ShareIsBelow(cur, k, n, x);
      QuotientOfSum(cur + n - 1 - x, k, n);
    }
  }

  /** A context served in two rounds of a window has a share of two at least. */
  lemma {:induction false} ServedTwice(cur: nat, k: nat, n: nat, x: nat, i: nat, j: nat)
    requires n > 0 && i < j < k && Pick(After(cur, i), n) == x && Pick(After(cur, j), n) == x
    ensures Share(cur, k, n, x) >= 2
  {
    if j < k - 1 {
      ServedTwice(cur, k - 1, n, x, i, j);
    } else {
      ServedOnce(cur, k - 1, n, x, i);
    }
  }

  lemma {:induction false} ServedOnce(cur: nat, k: nat, n: nat, x: nat, i: nat)
    requires n > 0 && i < k && Pick(After(cur, i), n) == x
    ensures Share(cur, k, n, x) >= 1
  {
    if i < k - 1 { ServedOnce(cur, k - 1, n, x, i); }
  }

  /** The window of n dispatches that begins at the counter's last incomplete round serves context 0 twice. */
  lemma WrapIsUnfair(n: nat)
    requires 0 < n <= SIZE && SIZE % n != 0
    ensures !FairWindow(SIZE - SIZE % n, n, n)
  {
    var r := SIZE % n;
    var cur := SIZE - r;
    assert cur == (SIZE / n) * n;
    Division(cur, n, SIZE / n, 0);
    assert Pick(After(cur, 0), n) == 0;
    assert Pick(After(cur, r), n) == 0;
    ServedTwice(cur, n, n, 0, 0, r);
    Division(n + n - 1, n, 1, n - 1);
    assert Share(cur, n, n, 0) >= 2;
  }

  /** Exactly when dispatch is fair for ever: the number of contexts divides 2^64. */
  lemma FairForEver(n: nat)
    requires 0 < n <= SIZE
    ensures (forall cur: nat, k: nat | cur < SIZE :: FairWindow(cur, k, n)) <==> SIZE % n == 0
  {
    if SIZE % n == 0 {
      forall cur: nat, k: nat | cur < SIZE ensures FairWindow(cur, k, n) { RoundRobinIsFair(cur, k, n); }
    } else {
      WrapIsUnfair(n);
    }
  }

  /** The counter has 64 bits, so dispatch to a power of two of contexts is fair for ever. */
  lemma PowersOfTwoAreFair(e: nat)
    requires e <= 64
    ensures 0 < Power(e) <= SIZE == Power(64)
    ensures forall cur: nat, k: nat | cur < SIZE :: FairWindow(cur, k, Power(e))
  {
    PowersMultiply(e, 64 - e);
    PowersAreHuge(e);
    PowersAreHuge(64 - e);
    Power64();
    Division(SIZE, Power(e), Power(64 - e), 0) by { assert SIZE == Power(64 - e) * Power(e); }
    FairForEver(Power(e));
  }
}
