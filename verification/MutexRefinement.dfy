/** The two-list mutex, under any interleaving of its atomic accesses, refines the first-in-first-out lock. */
module MutexRefinement {
  import opened Links
  import opened MutexModel
  import opened MutexGhost
  import opened MutexInvariant
  import FifoLock

  /** The linearization point, if the step is one: a successful CAS on m_state, or the advance of the resume list. */
  function OpOf(s: State, st: Step): seq<FifoLock.Op>
    requires Sized(s) && Enabled(s, st)
  {
    match st
    case TryLock(a) => if s.word.Free? then [FifoLock.Take] else []
    case DoTake(a, spurious) => if s.word.Free? && !spurious then [FifoLock.Take] else []
    case DoPush(a, spurious) => if s.word == Held(s.pc[a].seen) && !spurious then [FifoLock.Enqueue(s.pc[a].n)] else []
    case DoUnlockFree(a) => if s.word == Held(Null) then [FifoLock.Release] else []
    case DoHandOver(a) => [FifoLock.Offer(s.pc[a].to.id)]
    case _ => []
  }

  ghost function Abs(s: State, g: Ghost): FifoLock.Lock
    requires g.off <= |g.log|
  {
    FifoLock.Lock(s.word.Held?, g.log[g.off..])
  }

  /** What the refinement needs to know about the concrete state. */
  ghost predicate Near(s: State, g: Ghost, st: Step) {
    && Shape(s, g) && Enabled(s, st) && AgentOk(s, g, st.a) && WordOk(s, g) && HolderOk(s, g)
    && (Nested(s.pc[st.a]) && Carried(s.pc[st.a]).Node? ==> Carried(s.pc[st.a]).id < |s.pc|)
  }

  lemma PushRefines(s: State, g: Ghost, a: Id, spurious: bool)
    requires Near(s, g, DoPush(a, spurious))
    requires NextGhost(s, g, DoPush(a, spurious)).off <= |NextGhost(s, g, DoPush(a, spurious)).log|
    ensures FifoLock.Accepts(Abs(s, g), OpOf(s, DoPush(a, spurious)),
                             Abs(PushStep(s, a, spurious), NextGhost(s, g, DoPush(a, spurious))))
  {
    var n := s.pc[a].n;
    FifoLock.OneStep(Abs(s, g), FifoLock.Enqueue(n));
    assert (g.log + [n])[g.off..] == g.log[g.off..] + [n];
  }

  lemma HandOverRefines(s: State, g: Ghost, a: Id)
    requires Near(s, g, DoHandOver(a))
    requires NextGhost(s, g, DoHandOver(a)).off <= |NextGhost(s, g, DoHandOver(a)).log|
    ensures FifoLock.Accepts(Abs(s, g), OpOf(s, DoHandOver(a)), Abs(HandOverStep(s, a), NextGhost(s, g, DoHandOver(a))))
  {
    assert g.log[g.off..][1..] == g.log[g.off + 1..];
    FifoLock.OneStep(Abs(s, g), FifoLock.Offer(s.pc[a].to.id));
  }

  lemma WordStepRefines(s: State, g: Ghost, st: Step)
    requires Near(s, g, st) && (st.TryLock? || st.DoTake? || st.DoUnlockFree? || st.DoUnlockGrab?)
    requires NextGhost(s, g, st).off <= |NextGhost(s, g, st).log|
    ensures FifoLock.Accepts(Abs(s, g), OpOf(s, st), Abs(Next(s, st), NextGhost(s, g, st)))
  {
  }

  /** Every other step leaves the lock as it was. */
  lemma QuietStepRefines(s: State, g: Ghost, st: Step)
    requires Near(s, g, st)
    requires !st.DoPush? && !st.DoHandOver? && !st.TryLock? && !st.DoTake? && !st.DoUnlockFree? && !st.DoUnlockGrab?
    ensures OpOf(s, st) == []
    ensures Next(s, st).word == s.word && NextGhost(s, g, st).log == g.log && NextGhost(s, g, st).off == g.off
  {
  }

  lemma StepRefines(s: State, g: Ghost, st: Step)
    requires Near(s, g, st)
    requires NextGhost(s, g, st).off <= |NextGhost(s, g, st).log|
    ensures FifoLock.Accepts(Abs(s, g), OpOf(s, st), Abs(Next(s, st), NextGhost(s, g, st)))
  {
    if st.DoPush? { PushRefines(s, g, st.a, st.spurious); }
    else if st.DoHandOver? { HandOverRefines(s, g, st.a); }
    else if st.TryLock? || st.DoTake? || st.DoUnlockFree? || st.DoUnlockGrab? { WordStepRefines(s, g, st); }
    else { QuietStepRefines(s, g, st); }
  }

  /** The lock operations of the first i steps. */
  ghost function Ops(trace: seq<State>, steps: seq<Step>, i: nat): seq<FifoLock.Op>
    requires Run(trace, steps) && i < |trace|
  {
    if i == 0 then [] else
      assert Follows(trace, steps, i - 1);
      Ops(trace, steps, i - 1) + OpOf(trace[i - 1], steps[i - 1])
  }

  const IDLE := FifoLock.Lock(false, [])

  lemma InvRefines(s: State, g: Ghost, st: Step)
    requires Inv(s, g) && Enabled(s, st)
    requires Nested(s.pc[st.a]) && Carried(s.pc[st.a]).Node? ==> Carried(s.pc[st.a]).id < |s.pc|
    ensures NextGhost(s, g, st).off <= |NextGhost(s, g, st).log|
    ensures FifoLock.Accepts(Abs(s, g), OpOf(s, st), Abs(Next(s, st), NextGhost(s, g, st)))
  {
    assert AgentOk(s, g, st.a);
    StepKeeps(s, g, st);
    StepRefines(s, g, st);
  }

  /** The abstract lock beside state i of a run. */
  ghost function LockAt(trace: seq<State>, steps: seq<Step>, i: nat): FifoLock.Lock
    requires Run(trace, steps) && i < |trace|
  {
    Abs(trace[i], GhostAt(trace, steps, i))
  }

  lemma RunStepRefines(trace: seq<State>, steps: seq<Step>, i: nat)
    requires Run(trace, steps) && i < |steps|
    ensures Follows(trace, steps, i)
    ensures FifoLock.Accepts(LockAt(trace, steps, i), OpOf(trace[i], steps[i]), LockAt(trace, steps, i + 1))
  {
    assert Follows(trace, steps, i);
    var s, g, st := trace[i], GhostAt(trace, steps, i), steps[i];
    assert AgentOk(s, g, st.a);
    InvRefines(s, g, st);
    assert GhostAt(trace, steps, i + 1) == NextGhost(s, g, st);
  }

  lemma StartsIdle(trace: seq<State>, steps: seq<Step>)
    requires Run(trace, steps)
    ensures LockAt(trace, steps, 0) == IDLE
  {
  }

  ghost predicate RefinedUpTo(trace: seq<State>, steps: seq<Step>, i: nat)
    requires Run(trace, steps)
  {
    i < |trace| && FifoLock.Accepts(IDLE, Ops(trace, steps, i), LockAt(trace, steps, i))
  }

  lemma RefinesOneMore(trace: seq<State>, steps: seq<Step>, i: nat, next: nat)
    requires Run(trace, steps) && i < |steps| && next == i + 1 && RefinedUpTo(trace, steps, i)
    ensures RefinedUpTo(trace, steps, next)
  {
    RunStepRefines(trace, steps, i);
    FifoLock.AcceptsAppend(IDLE, Ops(trace, steps, i), LockAt(trace, steps, i),
                           OpOf(trace[i], steps[i]), LockAt(trace, steps, next));
  }

  lemma RefinedThroughout(trace: seq<State>, steps: seq<Step>, i: nat)
    requires Run(trace, steps) && i < |trace|
    ensures RefinedUpTo(trace, steps, i)
  {
    StartsIdle(trace, steps);
    var p := (m: nat) => RefinedUpTo(trace, steps, m);
    forall m: nat, n: nat | 0 <= m < i && n == m + 1 && p(m) ensures p(n) { RefinesOneMore(trace, steps, m, n); }
    Climb(p, 0, i);
  }

  /** Simulation: the first i steps are a legal history of the first-in-first-out lock, from idle to LockAt(i). */
  lemma RunRefines(trace: seq<State>, steps: seq<Step>, i: nat)
    requires Run(trace, steps) && i < |trace|
    ensures FifoLock.Accepts(IDLE, Ops(trace, steps, i), LockAt(trace, steps, i))
  {
    RefinedThroughout(trace, steps, i);
  }

  /** Served so far, then still waiting, is everybody who ever queued, in the order of their successful CAS. */
  lemma ServedThenWaiting(trace: seq<State>, steps: seq<Step>, i: nat)
    requires Run(trace, steps) && i < |trace|
    ensures FifoLock.Enqueued(Ops(trace, steps, i))
         == FifoLock.Offered(Ops(trace, steps, i)) + LockAt(trace, steps, i).queue
  {
    RunRefines(trace, steps, i);
    FifoLock.FirstInFirstOut(IDLE, Ops(trace, steps, i), LockAt(trace, steps, i));
    assert [] + FifoLock.Enqueued(Ops(trace, steps, i)) == FifoLock.Enqueued(Ops(trace, steps, i));
  }
}
