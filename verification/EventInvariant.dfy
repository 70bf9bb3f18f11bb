/** The invariant of the event: one stack of waiters, walked once, by the setter that took it. */
module EventInvariant {
  import opened Links
  import opened Options
  import opened EventModel

  datatype Place = Out | OnList(i: nat) | Submitted

  /**
   Bookkeeping that never influences a step: the successful pushes so far, how many of them are still to be
   submitted, and who walks the list.
   */
  datatype Ghost = Ghost(place: seq<Place>, log: seq<Id>, left: nat, walker: Option<Id>)

  ghost predicate Shape(s: State, g: Ghost) {
    Sized(s) && |g.place| == |s.pc| && g.left <= |g.log|
  }

  /** Entry i of the first `left` pushes, if there is one. */
  function Entry(g: Ghost, i: int): Ptr
    requires g.left <= |g.log|
  {
    if 0 <= i < g.left then Node(g.log[i]) else Null
  }

  predicate Walking(pc: Pc) {
    pc.Walk? || pc.Submit?
  }

  ghost predicate SlotOk(s: State, g: Ghost, i: nat)
    requires Shape(s, g) && i < g.left
  {
    g.log[i] < |s.pc| && g.place[g.log[i]] == OnList(i) && s.next[g.log[i]] == Entry(g, i - 1)
  }

  ghost predicate NodeOk(s: State, g: Ghost, n: Id)
    requires Shape(s, g) && n < |s.pc|
  {
    && (s.pc[n].Suspended? <==> g.place[n] != Out)
    && (s.pc[n].Granted? ==> s.word == Set)
    && (s.pc[n].PushCas? ==> s.next[n] == s.pc[n].seen)
    && match g.place[n]
       case Out => s.queued[n] == 0
       case OnList(i) => s.queued[n] == 0 && i < g.left && g.log[i] == n
       case Submitted => s.queued[n] == 1 && s.word == Set
  }

  ghost predicate WalkerOk(s: State, g: Ghost, a: Id)
    requires Shape(s, g) && a < |s.pc|
  {
    && (Walking(s.pc[a]) <==> g.walker == Some(a))
    && (s.pc[a].Walk? ==> s.pc[a].cur == Entry(g, g.left - 1))
    && (s.pc[a].Submit? ==> g.left > 0 && s.pc[a].n == g.log[g.left - 1] && s.pc[a].rest == Entry(g, g.left - 2))
  }

  ghost predicate WordOk(s: State, g: Ghost)
    requires Shape(s, g)
  {
    && (g.walker.Some? ==> g.walker.value < |s.pc|)
    && match s.word
    case Unset(top) => g.walker == None && g.left == |g.log| && top == Entry(g, g.left - 1)
    case Set => g.walker == None ==> g.left == 0
  }

  ghost predicate Inv(s: State, g: Ghost) {
    && Shape(s, g) && WordOk(s, g)
    && (forall i | 0 <= i < g.left :: SlotOk(s, g, i))
    && (forall n | 0 <= n < |s.pc| :: NodeOk(s, g, n) && WalkerOk(s, g, n))
  }

  ghost function InitGhost(s: State): Ghost {
    Ghost(seq(|s.pc|, _ => Out), [], 0, None)
  }

  ghost function NextGhost(s: State, g: Ghost, st: Step): Ghost
    requires Shape(s, g) && Enabled(s, st)
  {
    match st
    case DoCas(a, spurious) =>
      if s.word == Unset(s.pc[a].seen) && !spurious
      then g.(place := g.place[a := OnList(|g.log|)], log := g.log + [a], left := |g.log| + 1)
      else g
    case DoPublish(a) => if s.word.Set? then g else g.(walker := Some(a))
    case DoWalk(a) => if s.pc[a].cur.Null? then g.(walker := None) else g
    case DoSubmit(a) => if g.left == 0 then g else g.(place := g.place[s.pc[a].n := Submitted], left := g.left - 1)
    case Dispatch(a) => g.(place := g.place[a := Out])
    case _ => g
  }

  lemma InitHolds(s: State)
    requires Init(s)
    ensures Inv(s, InitGhost(s))
  {
  }

  lemma PushKeeps(s: State, g: Ghost, a: Id)
    requires Inv(s, g) && a < |s.pc| && s.pc[a].PushCas? && s.word == Unset(s.pc[a].seen)
    ensures Inv(CasStep(s, a, false), NextGhost(s, g, DoCas(a, false)))
  {
    var t, h := CasStep(s, a, false), NextGhost(s, g, DoCas(a, false));
    assert NodeOk(s, g, a);
    forall i | 0 <= i < h.left ensures SlotOk(t, h, i) {
      if i < g.left { assert SlotOk(s, g, i); }
    }
    forall n | 0 <= n < |t.pc| ensures NodeOk(t, h, n) && WalkerOk(t, h, n) {
      assert NodeOk(s, g, n) && WalkerOk(s, g, n);
    }
  }

  lemma LoadKeeps(s: State, g: Ghost, a: Id)
    requires Inv(s, g) && a < |s.pc| && s.pc[a].PushLoad?
    ensures Inv(LoadStep(s, a), g)
  {
    var t := LoadStep(s, a);
    assert NodeOk(s, g, a);
    forall i | 0 <= i < g.left ensures SlotOk(t, g, i) { assert SlotOk(s, g, i); }
    forall n | 0 <= n < |t.pc| ensures NodeOk(t, g, n) && WalkerOk(t, g, n) {
      assert NodeOk(s, g, n) && WalkerOk(s, g, n);
    }
  }

  lemma PublishKeeps(s: State, g: Ghost, a: Id)
    requires Inv(s, g) && a < |s.pc| && s.pc[a].Publish?
    ensures Inv(PublishStep(s, a), NextGhost(s, g, DoPublish(a)))
  {
    var t, h := PublishStep(s, a), NextGhost(s, g, DoPublish(a));
    forall i | 0 <= i < h.left ensures SlotOk(t, h, i) { assert SlotOk(s, g, i); }
    forall n | 0 <= n < |t.pc| ensures NodeOk(t, h, n) && WalkerOk(t, h, n) {
      assert NodeOk(s, g, n) && WalkerOk(s, g, n);
    }
  }

  lemma WalkKeeps(s: State, g: Ghost, a: Id)
    requires Inv(s, g) && Enabled(s, DoWalk(a))
    ensures Inv(WalkStep(s, a), NextGhost(s, g, DoWalk(a)))
  {
    var t, h := WalkStep(s, a), NextGhost(s, g, DoWalk(a));
    assert NodeOk(s, g, a) && WalkerOk(s, g, a);
    if s.pc[a].cur.Node? { assert SlotOk(s, g, g.left - 1); }
    forall i | 0 <= i < h.left ensures SlotOk(t, h, i) { assert SlotOk(s, g, i); }
    forall n | 0 <= n < |t.pc| ensures NodeOk(t, h, n) && WalkerOk(t, h, n) {
      assert NodeOk(s, g, n) && WalkerOk(s, g, n);
    }
  }

  lemma SubmitKeeps(s: State, g: Ghost, a: Id)
    requires Inv(s, g) && Enabled(s, DoSubmit(a))
    ensures Inv(Next(s, DoSubmit(a)), NextGhost(s, g, DoSubmit(a)))
  {
    var t, h := Next(s, DoSubmit(a)), NextGhost(s, g, DoSubmit(a));
    assert NodeOk(s, g, a) && WalkerOk(s, g, a);
    assert SlotOk(s, g, g.left - 1);
    assert NodeOk(s, g, s.pc[a].n);
    forall i | 0 <= i < h.left ensures SlotOk(t, h, i) { assert SlotOk(s, g, i); }
    forall n | 0 <= n < |t.pc| ensures NodeOk(t, h, n) && WalkerOk(t, h, n) {
      assert NodeOk(s, g, n) && WalkerOk(s, g, n);
    }
  }

  lemma OtherKeeps(s: State, g: Ghost, st: Step)
    requires Inv(s, g) && Enabled(s, st)
    requires !st.DoLoad? && !st.DoPublish? && !st.DoWalk? && !st.DoSubmit?
    requires st.DoCas? ==> s.word != Unset(s.pc[st.a].seen) || st.spurious
    ensures Inv(Next(s, st), NextGhost(s, g, st))
  {
    var t, h := Next(s, st), NextGhost(s, g, st);
    NextIsSized(s, st);
    assert NodeOk(s, g, st.a) && WalkerOk(s, g, st.a);
    forall i | 0 <= i < h.left ensures SlotOk(t, h, i) { assert SlotOk(s, g, i); }
    forall n | 0 <= n < |t.pc| ensures NodeOk(t, h, n) && WalkerOk(t, h, n) {
      assert NodeOk(s, g, n) && WalkerOk(s, g, n);
    }
  }

  lemma StepKeeps(s: State, g: Ghost, st: Step)
    requires Inv(s, g) && Enabled(s, st)
    ensures Inv(Next(s, st), NextGhost(s, g, st))
  {
    match st
    case DoLoad(a) => LoadKeeps(s, g, a);
    case DoCas(a, spurious) =>
      if s.word == Unset(s.pc[a].seen) && !spurious { PushKeeps(s, g, a); } else { OtherKeeps(s, g, st); }
    case DoPublish(a) => PublishKeeps(s, g, a);
    case DoWalk(a) => WalkKeeps(s, g, a);
    case DoSubmit(a) => SubmitKeeps(s, g, a);
    case _ => OtherKeeps(s, g, st);
  }

  ghost function GhostAt(trace: seq<State>, steps: seq<Step>, i: nat): (g: Ghost)
    requires Run(trace, steps) && i < |trace|
    ensures Inv(trace[i], g)
  {
    if i == 0 then
      InitHolds(trace[0]);
      InitGhost(trace[0])
    else
      var g := GhostAt(trace, steps, i - 1);
      assert Follows(trace, steps, i - 1);
      StepKeeps(trace[i - 1], g, steps[i - 1]);
      NextGhost(trace[i - 1], g, steps[i - 1])
  }
}
