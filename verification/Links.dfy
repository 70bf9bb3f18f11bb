/** Intrusive list pointers shared by the awaiter lists of the mutex, the condition variable and the event. */
module Links {
  /** An awaiter node is named by the coroutine whose frame holds it; a frame slot is reused by later waits. */
  type Id = nat

  datatype Ptr = Null | Node(id: Id)

  /** A non-null pointer that names one of `count` existing nodes. */
  predicate Valid(p: Ptr, count: nat) {
    p.Node? && p.id < count
  }

  /** l is what a walk along m_next from p visits. */
  ghost predicate IsList(next: seq<Ptr>, p: Ptr, l: seq<Id>)
    decreases l
  {
    if l == [] then p == Null else p == Node(l[0]) && l[0] < |next| && IsList(next, next[l[0]], l[1..])
  }

  lemma {:induction false} ListsAreUnique(next: seq<Ptr>, p: Ptr, l: seq<Id>, m: seq<Id>)
    requires IsList(next, p, l) && IsList(next, p, m)
    ensures l == m
    decreases l
  {
    if l != [] && m != [] {
      ListsAreUnique(next, next[l[0]], l[1..], m[1..]);
      assert l == [l[0]] + l[1..] && m == [m[0]] + m[1..];
    }
  }

  function Rev<T>(l: seq<T>): seq<T> {
    if l == [] then [] else Rev(l[1..]) + [l[0]]
  }

  lemma {:induction false} RevLast<T>(l: seq<T>)
    requires l != []
    ensures Rev(l) == [l[|l| - 1]] + Rev(l[..|l| - 1])
  {
    if |l| > 1 {
      RevLast(l[1..]);
      assert l[1..][..|l| - 2] == l[..|l| - 1][1..];
      assert Rev(l[..|l| - 1]) == Rev(l[..|l| - 1][1..]) + [l[0]];
    }
  }

  lemma {:induction false} RevIn<T>(l: seq<T>, c: T)
    ensures c in Rev(l) <==> c in l
  {
    if l != [] {
      RevIn(l[1..], c);
      assert l == [l[0]] + l[1..];
    }
  }

  lemma {:induction false} Suffix(next: seq<Ptr>, p: Ptr, l: seq<Id>, i: nat)
    requires IsList(next, p, l) && i <= |l|
    ensures IsList(next, if i < |l| then Node(l[i]) else Null, l[i..])
    decreases i
  {
    if i == 0 {
      assert l[0..] == l;
    } else {
      Suffix(next, next[l[0]], l[1..], i - 1);
      assert l[1..][i - 1..] == l[i..];
    }
  }

  /** A chain that ends cannot come back to a node: both visits would see the same rest of the list. */
  lemma NoRepeats(next: seq<Ptr>, p: Ptr, l: seq<Id>)
    requires IsList(next, p, l)
    ensures forall i, j | 0 <= i < j < |l| :: l[i] != l[j]
  {
    forall i, j | 0 <= i < j < |l| ensures l[i] != l[j] {
      if l[i] == l[j] {
        Suffix(next, p, l, i);
        Suffix(next, p, l, j);
        ListsAreUnique(next, Node(l[i]), l[i..], l[j..]);
        assert false;
      }
    }
  }
}
