/** The steps on the mutex's two lists (push, grab, reverse, hand over) keep the invariant. */
module MutexQueueSteps {
  import opened Links
  import opened MutexModel
  import opened MutexGhost
  import opened MutexFrame

  // ---------------------------------------------------------------- a waiter's CAS puts it on top of the stack

  lemma PushDelta(s: State, g: Ghost, a: Id, n: Id)
    requires Around(s, g, a, n) && s.pc[a].LockPush? && n == s.pc[a].n && s.word == Held(s.pc[a].seen)
    ensures Delta(s, g, PushStep(s, a, false), PushGhost(g, n), a, n)
  {
  }

  lemma PushTouched(s: State, g: Ghost, a: Id, n: Id)
    requires Around(s, g, a, n) && s.pc[a].LockPush? && n == s.pc[a].n && s.word == Held(s.pc[a].seen)
    ensures Shape(PushStep(s, a, false), PushGhost(g, n)) && |PushStep(s, a, false).pc| == |s.pc|
    ensures Touched(PushStep(s, a, false), PushGhost(g, n), a, n)
  {
  }

  lemma PushWord(s: State, g: Ghost, a: Id, n: Id)
    requires Around(s, g, a, n) && s.pc[a].LockPush? && n == s.pc[a].n && s.word == Held(s.pc[a].seen)
    ensures Shape(PushStep(s, a, false), PushGhost(g, n))
    ensures WordOk(PushStep(s, a, false), PushGhost(g, n)) && HolderOk(PushStep(s, a, false), PushGhost(g, n))
  {
  }

  lemma PushLocal(s: State, g: Ghost, a: Id, n: Id)
    requires Around(s, g, a, n) && s.pc[a].LockPush? && n == s.pc[a].n && s.word == Held(s.pc[a].seen)
    ensures Stepped(s, g, PushStep(s, a, false), PushGhost(g, n), a, n)
  {
    PushDelta(s, g, a, n);
    PushTouched(s, g, a, n);
    PushWord(s, g, a, n);
  }

  /** Whatever happened since the load, a successful CAS found the top that the node's m_next already names. */
  lemma PushQueue(s: State, g: Ghost, a: Id, n: Id)
    requires Around(s, g, a, n) && s.pc[a].LockPush? && n == s.pc[a].n && s.word == Held(s.pc[a].seen)
    requires s.next[n] == s.pc[a].seen
    requires QueueOk(s, g)
    ensures QueueOk(PushStep(s, a, false), PushGhost(g, n))
  {
    var t, h := PushStep(s, a, false), PushGhost(g, n);
    forall i | h.off <= i < |h.log| ensures QueueSlot(t, h, i) {
      if i < |g.log| { assert QueueSlot(s, g, i); }
    }
  }

  lemma PushKeeps(s: State, g: Ghost, a: Id)
    requires Inv(s, g) && a < |s.pc| && s.pc[a].LockPush? && s.pc[a].n < |s.pc| && s.word == Held(s.pc[a].seen)
    ensures Inv(PushStep(s, a, false), PushGhost(g, s.pc[a].n))
  {
    var n := s.pc[a].n;
    LookAround(s, g, a, n);
    PushLocal(s, g, a, n);
    PushQueue(s, g, a, n);
    QueueMove(s, g, PushStep(s, a, false), PushGhost(g, n), a, n);
  }

  // ---------------------------------------------------------------- unlock exchanges the whole stack out

  lemma GrabLocal(s: State, g: Ghost, a: Id)
    requires Around(s, g, a, a) && s.pc[a].UnlockGrab? && s.word.Held?
    ensures Stepped(s, g, UnlockGrabStep(s, a), GrabGhost(g), a, a)
  {
  }

  lemma GrabQueue(s: State, g: Ghost, a: Id)
    requires Around(s, g, a, a) && s.pc[a].UnlockGrab? && s.word.Held?
    requires QueueOk(s, g)
    ensures QueueOk(UnlockGrabStep(s, a), GrabGhost(g))
  {
    var t, h := UnlockGrabStep(s, a), GrabGhost(g);
    forall i | h.off <= i < |h.log| ensures QueueSlot(t, h, i) {
      assert QueueSlot(s, g, i);
    }
  }

  lemma GrabKeeps(s: State, g: Ghost, a: Id)
    requires Inv(s, g) && a < |s.pc| && s.pc[a].UnlockGrab? && s.word.Held?
    ensures Inv(UnlockGrabStep(s, a), GrabGhost(g))
  {
    LookAround(s, g, a, a);
    GrabLocal(s, g, a);
    GrabQueue(s, g, a);
    QueueMove(s, g, UnlockGrabStep(s, a), GrabGhost(g), a, a);
  }

  // ---------------------------------------------------------------- one turn of the reversal loop

  lemma ReverseLocal(s: State, g: Ghost, a: Id)
    requires Around(s, g, a, a) && s.pc[a].Reverse? && Valid(s.pc[a].rest, |s.pc|)
    requires g.off < g.mid && QueueSlot(s, g, g.mid - 1)
    ensures Stepped(s, g, ReverseStep(s, a), ReverseGhost(g), a, a)
  {
  }

  lemma ReverseQueue(s: State, g: Ghost, a: Id)
    requires Around(s, g, a, a) && s.pc[a].Reverse? && Valid(s.pc[a].rest, |s.pc|)
    requires g.off < g.mid && QueueOk(s, g)
    ensures QueueOk(ReverseStep(s, a), ReverseGhost(g))
  {
    var t, h := ReverseStep(s, a), ReverseGhost(g);
    assert QueueSlot(s, g, g.mid - 1);
    forall i | h.off <= i < |h.log| ensures QueueSlot(t, h, i) {
      assert QueueSlot(s, g, i);
    }
  }

  lemma ReverseKeeps(s: State, g: Ghost, a: Id)
    requires Inv(s, g) && a < |s.pc| && s.pc[a].Reverse? && Valid(s.pc[a].rest, |s.pc|)
    ensures g.off < g.mid && Inv(ReverseStep(s, a), ReverseGhost(g))
  {
    LookAround(s, g, a, a);
    assert QueueSlot(s, g, g.mid - 1);
    ReverseLocal(s, g, a);
    ReverseQueue(s, g, a);
    QueueMove(s, g, ReverseStep(s, a), ReverseGhost(g), a, a);
  }

  // ---------------------------------------------------------------- the lock goes to the oldest waiter

  lemma HandOverLocal(s: State, g: Ghost, a: Id, n: Id)
    requires Around(s, g, a, n) && s.pc[a].HandOver? && s.pc[a].to == Node(n)
    requires g.off < |g.log| && QueueSlot(s, g, g.off)
    ensures Stepped(s, g, HandOverStep(s, a), HandOverGhost(g, a, n), a, n)
  {
  }

  lemma HandOverQueue(s: State, g: Ghost, a: Id, n: Id)
    requires Around(s, g, a, n) && s.pc[a].HandOver? && s.pc[a].to == Node(n)
    requires QueueOk(s, g)
    ensures g.mid < g.split && QueueOk(HandOverStep(s, a), HandOverGhost(g, a, n))
  {
    var t, h := HandOverStep(s, a), HandOverGhost(g, a, n);
    assert QueueSlot(s, g, g.off);
    forall i | h.off <= i < |h.log| ensures QueueSlot(t, h, i) {
      assert QueueSlot(s, g, i);
    }
  }

  lemma HandOverKeeps(s: State, g: Ghost, a: Id)
    requires Inv(s, g) && a < |s.pc| && s.pc[a].HandOver? && Valid(s.pc[a].to, |s.pc|)
    ensures g.mid < g.split && Inv(HandOverStep(s, a), HandOverGhost(g, a, s.pc[a].to.id))
  {
    var n := s.pc[a].to.id;
    LookAround(s, g, a, n);
    assert QueueSlot(s, g, g.off);
    HandOverLocal(s, g, a, n);
    HandOverQueue(s, g, a, n);
    QueueMove(s, g, HandOverStep(s, a), HandOverGhost(g, a, n), a, n);
  }
}
