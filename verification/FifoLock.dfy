/** The lock the mutex is meant to be: one holder, one first-in-first-out queue, hand-over on release. */
module FifoLock {
  import opened Links

  datatype Lock = Lock(held: bool, queue: seq<Id>)

  datatype Op = Take | Enqueue(n: Id) | Offer(n: Id) | Release

  /** A free lock may only be taken while nobody waits; a waiter is served only from the front. */
  predicate Can(l: Lock, op: Op) {
    match op
    case Take => !l.held && l.queue == []
    case Enqueue(_) => l.held
    case Offer(n) => l.held && |l.queue| > 0 && l.queue[0] == n
    case Release => l.held && l.queue == []
  }

  function Do(l: Lock, op: Op): Lock
    requires Can(l, op)
  {
    match op
    case Take => l.(held := true)
    case Enqueue(n) => l.(queue := l.queue + [n])
    case Offer(_) => l.(queue := l.queue[1..])
    case Release => l.(held := false)
  }

  /** `ops` is a legal history leading from l to m. */
  predicate Accepts(l: Lock, ops: seq<Op>, m: Lock)
    decreases ops
  {
    if ops == [] then l == m else Can(l, ops[0]) && Accepts(Do(l, ops[0]), ops[1..], m)
  }

  /** A history of one operation. */
  lemma OneStep(l: Lock, op: Op)
    ensures Can(l, op) ==> Accepts(l, [op], Do(l, op))
  {
    if Can(l, op) {
      assert [op][1..] == [];
      assert Accepts(Do(l, op), [], Do(l, op));
    }
  }

  function Enqueued(ops: seq<Op>): seq<Id> {
    if ops == [] then [] else (if ops[0].Enqueue? then [ops[0].n] else []) + Enqueued(ops[1..])
  }

  function Offered(ops: seq<Op>): seq<Id> {
    if ops == [] then [] else (if ops[0].Offer? then [ops[0].n] else []) + Offered(ops[1..])
  }

  lemma {:induction false} AcceptsAppend(l: Lock, ops: seq<Op>, m: Lock, more: seq<Op>, k: Lock)
    requires Accepts(l, ops, m) && Accepts(m, more, k)
    ensures Accepts(l, ops + more, k)
    decreases ops
  {
    if ops == [] {
      assert ops + more == more;
    } else {
      AcceptsAppend(Do(l, ops[0]), ops[1..], m, more, k);
      assert (ops + more)[1..] == ops[1..] + more;
    }
  }

  /** Nobody overtakes: who has been served, followed by who still waits, is who came, in that order. */
  lemma {:induction false} FirstInFirstOut(l: Lock, ops: seq<Op>, m: Lock)
    requires Accepts(l, ops, m)
    ensures l.queue + Enqueued(ops) == Offered(ops) + m.queue
    decreases ops
  {
    if ops != [] {
      var l1 := Do(l, ops[0]);
      FirstInFirstOut(l1, ops[1..], m);
      match ops[0]
      case Enqueue(n) =>
        assert l.queue + Enqueued(ops) == l1.queue + Enqueued(ops[1..]);
      case Offer(n) =>
        assert l.queue == [n] + l1.queue;
        assert l.queue + Enqueued(ops) == [n] + (l1.queue + Enqueued(ops[1..]));
      case _ =>
    }
  }

  /** Nobody waits for a free lock. */
  lemma {:induction false} FreeMeansNobodyWaits(l: Lock, ops: seq<Op>, m: Lock)
    requires Accepts(l, ops, m) && (l.held || l.queue == [])
    ensures m.held || m.queue == []
    decreases ops
  {
    if ops != [] { FreeMeansNobodyWaits(Do(l, ops[0]), ops[1..], m); }
  }
}
