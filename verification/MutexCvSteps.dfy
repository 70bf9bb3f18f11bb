/** The steps on condition variable lists (enlist, notify_one, notify_all) keep the invariant. */
module MutexCvSteps {
  import opened Links
  import opened MutexModel
  import opened MutexGhost
  import opened MutexFrame

  // ---------------------------------------------------------------- register_cv

  predicate CanEnlist(s: State, a: Id, n: Id, k: nat) {
    && Sized(s) && a < |s.pc| && n < |s.pc| && s.pc[a].Enlist? && s.pc[a].n == n && s.kind[n].Cv? && s.kind[n].cv == k
    && (s.cvTail[k].Null? || s.cvTail[k].id < |s.pc|)
  }

  lemma EnlistDelta(s: State, g: Ghost, a: Id, n: Id, k: nat)
    requires Around(s, g, a, n) && CanEnlist(s, a, n, k) && CvOk(s, g, k)
    requires s.cvTail[k].Node? ==> CvSlot(s, g, k, |g.cvLog[k]| - 1)
    ensures Delta(s, g, EnlistStep(s, a), EnlistGhost(g, n, k), a, n)
  {
  }

  lemma EnlistTouched(s: State, g: Ghost, a: Id, n: Id, k: nat)
    requires Around(s, g, a, n) && CanEnlist(s, a, n, k) && CvOk(s, g, k)
    requires s.cvTail[k].Node? ==> CvSlot(s, g, k, |g.cvLog[k]| - 1)
    ensures Shape(EnlistStep(s, a), EnlistGhost(g, n, k)) && |EnlistStep(s, a).pc| == |s.pc|
    ensures Touched(EnlistStep(s, a), EnlistGhost(g, n, k), a, n)
  {
  }

  lemma EnlistWord(s: State, g: Ghost, a: Id, n: Id, k: nat)
    requires Around(s, g, a, n) && CanEnlist(s, a, n, k) && CvOk(s, g, k)
    requires s.cvTail[k].Node? ==> CvSlot(s, g, k, |g.cvLog[k]| - 1)
    ensures Shape(EnlistStep(s, a), EnlistGhost(g, n, k))
    ensures WordOk(EnlistStep(s, a), EnlistGhost(g, n, k)) && HolderOk(EnlistStep(s, a), EnlistGhost(g, n, k))
  {
  }

  lemma EnlistLocal(s: State, g: Ghost, a: Id, n: Id, k: nat)
    requires Around(s, g, a, n) && CanEnlist(s, a, n, k) && CvOk(s, g, k)
    requires s.cvTail[k].Node? ==> CvSlot(s, g, k, |g.cvLog[k]| - 1)
    ensures Stepped(s, g, EnlistStep(s, a), EnlistGhost(g, n, k), a, n)
  {
    EnlistDelta(s, g, a, n, k);
    EnlistTouched(s, g, a, n, k);
    EnlistWord(s, g, a, n, k);
  }

  lemma EnlistCv(s: State, g: Ghost, a: Id, n: Id, k: nat)
    requires Around(s, g, a, n) && CanEnlist(s, a, n, k) && CvOk(s, g, k)
    ensures CvOk(EnlistStep(s, a), EnlistGhost(g, n, k), k)
  {
    var t, h := EnlistStep(s, a), EnlistGhost(g, n, k);
    var last := |g.cvLog[k]| - 1;
    if s.cvTail[k].Node? { assert CvSlot(s, g, k, last); }
    forall i | |h.cvTaker[k]| <= i < |h.cvLog[k]| ensures CvSlot(t, h, k, i) {
      if i <= last { assert CvSlot(s, g, k, i); }
    }
  }

  lemma EnlistMoves(s: State, g: Ghost, a: Id, n: Id, k: nat)
    requires Shape(s, g) && CanEnlist(s, a, n, k) && AgentOk(s, g, a) && CvOk(s, g, k)
    requires s.cvTail[k].Node? ==> CvSlot(s, g, k, |g.cvLog[k]| - 1)
    requires Shape(EnlistStep(s, a), EnlistGhost(g, n, k)) && |EnlistStep(s, a).pc| == |s.pc|
    ensures OnlyCv(s, g, EnlistStep(s, a), EnlistGhost(g, n, k), a, n, k)
    ensures forall m | 0 <= m < |s.pc| && Taken(g, m) :: Kept(s, g, EnlistStep(s, a), EnlistGhost(g, n, k), m)
  {
  }

  lemma EnlistKeeps(s: State, g: Ghost, a: Id, n: Id, k: nat)
    requires Inv(s, g) && CanEnlist(s, a, n, k)
    ensures Inv(EnlistStep(s, a), EnlistGhost(g, n, k))
  {
    var t, h := EnlistStep(s, a), EnlistGhost(g, n, k);
    LookAround(s, g, a, n);
    assert CvOk(s, g, k);
    if s.cvTail[k].Node? { assert CvSlot(s, g, k, |g.cvLog[k]| - 1); }
    EnlistLocal(s, g, a, n, k);
    EnlistCv(s, g, a, n, k);
    EnlistMoves(s, g, a, n, k);
    OwnLoop(s, g, t, h, a, n, k);
    CvMove(s, g, t, h, a, n, k);
  }

  // ---------------------------------------------------------------- notify_one

  predicate CanNotifyOne(s: State, a: Id, n: Id, k: nat) {
    && Sized(s) && a < |s.pc| && n < |s.pc| && s.pc[a].User? && k < |s.cvHead| && s.cvHead[k] == Node(n)
  }

  lemma NotifyOneDelta(s: State, g: Ghost, a: Id, n: Id, k: nat)
    requires Around(s, g, a, n) && CanNotifyOne(s, a, n, k) && CvOk(s, g, k)
    requires |g.cvTaker[k]| < |g.cvLog[k]| && CvSlot(s, g, k, |g.cvTaker[k]|)
    ensures Delta(s, g, NotifyOneStep(s, a, k), NotifyOneGhost(g, a, k, n), a, n)
  {
  }

  lemma NotifyOneTouched(s: State, g: Ghost, a: Id, n: Id, k: nat)
    requires Around(s, g, a, n) && CanNotifyOne(s, a, n, k) && CvOk(s, g, k)
    requires |g.cvTaker[k]| < |g.cvLog[k]| && CvSlot(s, g, k, |g.cvTaker[k]|)
    ensures Shape(NotifyOneStep(s, a, k), NotifyOneGhost(g, a, k, n)) && |NotifyOneStep(s, a, k).pc| == |s.pc|
    ensures Touched(NotifyOneStep(s, a, k), NotifyOneGhost(g, a, k, n), a, n)
  {
  }

  lemma NotifyOneWord(s: State, g: Ghost, a: Id, n: Id, k: nat)
    requires Around(s, g, a, n) && CanNotifyOne(s, a, n, k) && CvOk(s, g, k)
    requires |g.cvTaker[k]| < |g.cvLog[k]| && CvSlot(s, g, k, |g.cvTaker[k]|)
    ensures Shape(NotifyOneStep(s, a, k), NotifyOneGhost(g, a, k, n))
    ensures WordOk(NotifyOneStep(s, a, k), NotifyOneGhost(g, a, k, n))
    ensures HolderOk(NotifyOneStep(s, a, k), NotifyOneGhost(g, a, k, n))
  {
  }

  lemma NotifyOneLocal(s: State, g: Ghost, a: Id, n: Id, k: nat)
    requires Around(s, g, a, n) && CanNotifyOne(s, a, n, k) && CvOk(s, g, k)
    requires |g.cvTaker[k]| < |g.cvLog[k]| && CvSlot(s, g, k, |g.cvTaker[k]|)
    ensures Stepped(s, g, NotifyOneStep(s, a, k), NotifyOneGhost(g, a, k, n), a, n)
  {
    NotifyOneDelta(s, g, a, n, k);
    NotifyOneTouched(s, g, a, n, k);
    NotifyOneWord(s, g, a, n, k);
  }

  lemma NotifyOneCv(s: State, g: Ghost, a: Id, n: Id, k: nat)
    requires Around(s, g, a, n) && CanNotifyOne(s, a, n, k) && CvOk(s, g, k)
    ensures CvOk(NotifyOneStep(s, a, k), NotifyOneGhost(g, a, k, n), k)
  {
    var t, h := NotifyOneStep(s, a, k), NotifyOneGhost(g, a, k, n);
    assert CvSlot(s, g, k, |g.cvTaker[k]|);
    forall i | |h.cvTaker[k]| <= i < |h.cvLog[k]| ensures CvSlot(t, h, k, i) {
      assert CvSlot(s, g, k, i);
    }
  }

  lemma NotifyOneMoves(s: State, g: Ghost, a: Id, n: Id, k: nat)
    requires Shape(s, g) && CanNotifyOne(s, a, n, k) && CvOk(s, g, k)
    requires |g.cvTaker[k]| < |g.cvLog[k]| && CvSlot(s, g, k, |g.cvTaker[k]|)
    requires Shape(NotifyOneStep(s, a, k), NotifyOneGhost(g, a, k, n)) && |NotifyOneStep(s, a, k).pc| == |s.pc|
    ensures OnlyCv(s, g, NotifyOneStep(s, a, k), NotifyOneGhost(g, a, k, n), a, n, k)
    ensures forall m | 0 <= m < |s.pc| && Taken(g, m) ::
              Kept(s, g, NotifyOneStep(s, a, k), NotifyOneGhost(g, a, k, n), m)
  {
  }

  lemma NotifyOneKeeps(s: State, g: Ghost, a: Id, n: Id, k: nat)
    requires Inv(s, g) && CanNotifyOne(s, a, n, k)
    ensures Inv(NotifyOneStep(s, a, k), NotifyOneGhost(g, a, k, n))
  {
    var t, h := NotifyOneStep(s, a, k), NotifyOneGhost(g, a, k, n);
    LookAround(s, g, a, n);
    assert CvOk(s, g, k);
    assert CvSlot(s, g, k, |g.cvTaker[k]|);
    NotifyOneLocal(s, g, a, n, k);
    NotifyOneCv(s, g, a, n, k);
    NotifyOneMoves(s, g, a, n, k);
    OwnLoop(s, g, t, h, a, n, k);
    CvMove(s, g, t, h, a, n, k);
  }

  // ---------------------------------------------------------------- notify_all: the list swap

  predicate CanNotifyAll(s: State, a: Id, k: nat) {
    Sized(s) && a < |s.pc| && s.pc[a].User? && k < |s.cvHead|
  }

  lemma NotifyAllLocal(s: State, g: Ghost, a: Id, k: nat)
    requires Around(s, g, a, a) && CanNotifyAll(s, a, k) && CvOk(s, g, k)
    ensures Stepped(s, g, NotifyAllStep(s, a, k), NotifyAllGhost(g, a, k), a, a)
  {
  }

  lemma NotifyAllLoop(s: State, g: Ghost, a: Id, k: nat)
    requires Shape(s, g) && CanNotifyAll(s, a, k) && CvOk(s, g, k)
    requires Shape(NotifyAllStep(s, a, k), NotifyAllGhost(g, a, k))
    ensures LoopOk(NotifyAllStep(s, a, k), NotifyAllGhost(g, a, k), a)
  {
    var t, h := NotifyAllStep(s, a, k), NotifyAllGhost(g, a, k);
    forall i | |g.cvTaker[k]| <= i < |g.cvLog[k]| ensures LoopSlot(t, h, a, i) {
      assert CvSlot(s, g, k, i);
    }
  }

  lemma NotifyAllKeeps(s: State, g: Ghost, a: Id, k: nat)
    requires Inv(s, g) && CanNotifyAll(s, a, k)
    ensures Inv(NotifyAllStep(s, a, k), NotifyAllGhost(g, a, k))
  {
    LookAround(s, g, a, a);
    assert CvOk(s, g, k);
    NotifyAllLocal(s, g, a, k);
    NotifyAllLoop(s, g, a, k);
    CvMove(s, g, NotifyAllStep(s, a, k), NotifyAllGhost(g, a, k), a, a, k);
  }

  // ---------------------------------------------------------------- notify_all: one turn of the loop

  predicate CanNotify(s: State, a: Id) {
    Sized(s) && a < |s.pc| && s.pc[a].NotifyLoop? && (s.pc[a].cur.Null? || s.pc[a].cur.id < |s.pc|)
  }

  lemma LoopEndLocal(s: State, g: Ghost, a: Id)
    requires CanNotify(s, a) && s.pc[a].cur.Null? && Around(s, g, a, a)
    ensures Stepped(s, g, NotifyStep(s, a), NotifyGhost(g, a, Null), a, a)
    ensures LoopOk(NotifyStep(s, a), NotifyGhost(g, a, Null), a)
  {
  }

  lemma LoopEndKeeps(s: State, g: Ghost, a: Id)
    requires Inv(s, g) && CanNotify(s, a) && s.pc[a].cur.Null?
    ensures Inv(NotifyStep(s, a), NotifyGhost(g, a, Null))
  {
    LookAround(s, g, a, a);
    var k, t, h := g.loops[a].k, NotifyStep(s, a), NotifyGhost(g, a, Null);
    assert CvOk(s, g, k);
    LoopEndLocal(s, g, a);
    CvFrame(s, g, t, h, k);
    CvMove(s, g, t, h, a, a, k);
  }

  lemma TurnDelta(s: State, g: Ghost, a: Id, n: Id)
    requires CanNotify(s, a) && s.pc[a].cur == Node(n) && Around(s, g, a, n)
    requires LoopSlot(s, g, a, g.loops[a].lo)
    ensures Delta(s, g, NotifyStep(s, a), NotifyGhost(g, a, Node(n)), a, n)
  {
  }

  lemma TurnTouched(s: State, g: Ghost, a: Id, n: Id)
    requires CanNotify(s, a) && s.pc[a].cur == Node(n) && Around(s, g, a, n)
    requires LoopSlot(s, g, a, g.loops[a].lo)
    ensures Shape(NotifyStep(s, a), NotifyGhost(g, a, Node(n))) && |NotifyStep(s, a).pc| == |s.pc|
    ensures Touched(NotifyStep(s, a), NotifyGhost(g, a, Node(n)), a, n)
  {
  }

  lemma TurnWord(s: State, g: Ghost, a: Id, n: Id)
    requires CanNotify(s, a) && s.pc[a].cur == Node(n) && Around(s, g, a, n)
    requires LoopSlot(s, g, a, g.loops[a].lo)
    ensures Shape(NotifyStep(s, a), NotifyGhost(g, a, Node(n)))
    ensures WordOk(NotifyStep(s, a), NotifyGhost(g, a, Node(n)))
    ensures HolderOk(NotifyStep(s, a), NotifyGhost(g, a, Node(n)))
  {
  }

  lemma TurnLocal(s: State, g: Ghost, a: Id, n: Id)
    requires CanNotify(s, a) && s.pc[a].cur == Node(n) && Around(s, g, a, n)
    requires LoopSlot(s, g, a, g.loops[a].lo)
    ensures Stepped(s, g, NotifyStep(s, a), NotifyGhost(g, a, Node(n)), a, n)
  {
    TurnDelta(s, g, a, n);
    TurnTouched(s, g, a, n);
    TurnWord(s, g, a, n);
  }

  lemma TurnLoop(s: State, g: Ghost, a: Id, n: Id)
    requires CanNotify(s, a) && s.pc[a].cur == Node(n) && Shape(s, g) && AgentOk(s, g, a) && LoopOk(s, g, a)
    requires Shape(NotifyStep(s, a), NotifyGhost(g, a, Node(n)))
    ensures LoopOk(NotifyStep(s, a), NotifyGhost(g, a, Node(n)), a)
  {
    var t, h := NotifyStep(s, a), NotifyGhost(g, a, Node(n));
    assert LoopSlot(s, g, a, g.loops[a].lo);
    forall i | g.loops[a].lo + 1 <= i < g.loops[a].hi ensures LoopSlot(t, h, a, i) {
      assert LoopSlot(s, g, a, i);
    }
  }

  lemma TurnCv(s: State, g: Ghost, a: Id, n: Id)
    requires CanNotify(s, a) && s.pc[a].cur == Node(n) && Shape(s, g) && LoopOk(s, g, a)
    requires Shape(NotifyStep(s, a), NotifyGhost(g, a, Node(n)))
    requires CvOk(s, g, g.loops[a].k)
    ensures CvOk(NotifyStep(s, a), NotifyGhost(g, a, Node(n)), g.loops[a].k)
  {
    var k, t, h := g.loops[a].k, NotifyStep(s, a), NotifyGhost(g, a, Node(n));
    assert LoopSlot(s, g, a, g.loops[a].lo);
    forall i | |h.cvTaker[k]| <= i < |h.cvLog[k]| ensures CvSlot(t, h, k, i) {
      assert CvSlot(s, g, k, i);
    }
  }

  lemma TurnMoves(s: State, g: Ghost, a: Id, n: Id)
    requires CanNotify(s, a) && s.pc[a].cur == Node(n) && n < |s.pc| && Shape(s, g) && LoopOk(s, g, a)
    requires AgentOk(s, g, a)
    requires CvOk(s, g, g.loops[a].k) && LoopSlot(s, g, a, g.loops[a].lo)
    requires Shape(NotifyStep(s, a), NotifyGhost(g, a, Node(n))) && |NotifyStep(s, a).pc| == |s.pc|
    ensures OnlyCv(s, g, NotifyStep(s, a), NotifyGhost(g, a, Node(n)), a, n, g.loops[a].k)
  {
  }

  lemma TurnKeeps(s: State, g: Ghost, a: Id, n: Id)
    requires Inv(s, g) && CanNotify(s, a) && s.pc[a].cur == Node(n)
    ensures Inv(NotifyStep(s, a), NotifyGhost(g, a, Node(n)))
  {
    LookAround(s, g, a, n);
    assert CvOk(s, g, g.loops[a].k);
    assert LoopSlot(s, g, a, g.loops[a].lo);
    TurnLocal(s, g, a, n);
    TurnLoop(s, g, a, n);
    TurnCv(s, g, a, n);
    TurnMoves(s, g, a, n);
    CvMove(s, g, NotifyStep(s, a), NotifyGhost(g, a, Node(n)), a, n, g.loops[a].k);
  }
}
