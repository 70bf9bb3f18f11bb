/** How many entries of a sequence satisfy a predicate. */
module Counting {
  function Count<T>(xs: seq<T>, p: T -> bool): nat {
    if xs == [] then 0 else Count(xs[..|xs| - 1], p) + if p(xs[|xs| - 1]) then 1 else 0
  }

  /** Overwriting one entry moves the count by that entry alone. */
  lemma {:induction false} CountUpdate<T>(xs: seq<T>, i: nat, x: T, p: T -> bool)
    requires i < |xs|
    ensures Count(xs[i := x], p) + (if p(xs[i]) then 1 else 0) == Count(xs, p) + if p(x) then 1 else 0
  {
    var n := |xs| - 1;
    if i < n {
      CountUpdate(xs[..n], i, x, p);
      assert xs[i := x][..n] == xs[..n][i := x];
    } else {
      assert xs[i := x][..n] == xs[..n];
    }
  }

  /** A positive count has a witness, a zero count has none. */
  lemma {:induction false} CountPositive<T>(xs: seq<T>, p: T -> bool)
    ensures Count(xs, p) > 0 <==> exists i :: 0 <= i < |xs| && p(xs[i])
  {
    if xs != [] {
      var n := |xs| - 1;
      CountPositive(xs[..n], p);
      if Count(xs[..n], p) > 0 {
        var i :| 0 <= i < n && p(xs[..n][i]);
        assert p(xs[i]);
      }
      forall i | 0 <= i < n && p(xs[i]) ensures Count(xs[..n], p) > 0 {
        assert p(xs[..n][i]);
      }
    }
  }

  lemma {:induction false} CountAtMost<T>(xs: seq<T>, p: T -> bool)
    ensures Count(xs, p) <= |xs|
    ensures Count(xs, p) == |xs| <==> forall i | 0 <= i < |xs| :: p(xs[i])
  {
    if xs != [] {
      var n := |xs| - 1;
      CountAtMost(xs[..n], p);
      if forall i | 0 <= i < n :: p(xs[..n][i]) {
        assert forall i | 0 <= i < n :: p(xs[i]) by {
          forall i | 0 <= i < n ensures p(xs[i]) { assert p(xs[..n][i]); }
        }
      }
      if forall i | 0 <= i < |xs| :: p(xs[i]) {
        assert forall i | 0 <= i < n :: p(xs[..n][i]);
      }
    }
  }

  lemma {:induction false} CountSingle<T>(xs: seq<T>, i: nat, p: T -> bool)
    requires i < |xs| && forall k | 0 <= k < |xs| && k != i :: !p(xs[k])
    ensures Count(xs, p) == if p(xs[i]) then 1 else 0
  {
    var n := |xs| - 1;
    if i < n {
      CountSingle(xs[..n], i, p);
    } else {
      CountPositive(xs[..n], p);
    }
  }
}
