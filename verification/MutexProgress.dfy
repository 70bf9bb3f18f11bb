/**
 Every call of the mutex and the condition variable ends: each step its own coroutine takes, short of a spurious
 failure, lowers a measure in which the resume list, the stack and the detached list are counted. Other coroutines can
 only raise it by queueing or by changing m_state under a compare-exchange.
 */
module MutexProgress {
  import opened Links
  import opened MutexModel
  import opened MutexGhost
  import opened MutexInvariant

  predicate InCall(pc: Pc) {
    !pc.User? && !pc.Suspended?
  }

  predicate Spurious(st: Step) {
    (st.DoTake? || st.DoPush?) && st.spurious
  }

  /** What is left of a's notify_all loop. */
  ghost function LoopLeft(g: Ghost, a: Id): int
    requires a < |g.loops|
  {
    if g.loops[a].Loop? then 14 * (g.loops[a].hi - g.loops[a].lo) else 0
  }

  /** Waiters for the mutex, ten steps each, and the links still to be reversed. */
  ghost function QueueLeft(g: Ghost): int {
    10 * (|g.log| - g.off) + (|g.log| - g.split) + (g.mid - g.off)
  }

  /** A bound on the steps a's call has left if nobody interferes. */
  ghost function Rank(s: State, g: Ghost, a: Id): int
    requires Shape(s, g) && a < |s.pc|
  {
    var rest := LoopLeft(g, a) + 2;
    match s.pc[a]
    case User => 0
    case Suspended => 0
    case Granted => 1
    case NotifyLoop(_) => rest
    case LockLoad(_, _) => rest + 12
    case LockTake(_, _) => rest + if s.word.Free? then 11 else 14
    case LockPush(_, seen, _) => rest + if s.word == Held(seen) then 11 else 14
    case ResumeNode(_, _) => rest + QueueLeft(g) + 9
    case RegisterWait(_, _) => rest + QueueLeft(g) + 8
    case Enlist(_, _) => rest + QueueLeft(g) + 7
    case UnlockTop(_) => rest + QueueLeft(g) + 6
    case UnlockFree(_) => rest + QueueLeft(g) + 5
    case UnlockGrab(_) => rest + QueueLeft(g) + 4
    case Reverse(_, _, _) => rest + QueueLeft(g) + 3
    case HandOver(_, _) => rest + QueueLeft(g) + 2
  }

  /** What the invariant says about a's own call. */
  ghost predicate OwnPart(s: State, g: Ghost, a: Id) {
    && Shape(s, g) && a < |s.pc| && AgentOk(s, g, a) && LoopOk(s, g, a) && WordOk(s, g) && HolderOk(s, g)
    && (Nested(s.pc[a]) && Carried(s.pc[a]).Node? ==> Carried(s.pc[a]).id < |s.pc|)
    && (s.pc[a].Reverse? && g.off < g.mid ==> QueueSlot(s, g, g.mid - 1))
  }

  lemma LockStepDecreases(s: State, g: Ghost, st: Step)
    requires OwnPart(s, g, st.a) && Enabled(s, st) && InCall(s.pc[st.a]) && !Spurious(st) && LockStep(st)
    requires Shape(Next(s, st), NextGhost(s, g, st)) && |Next(s, st).pc| == |s.pc|
    ensures 0 <= Rank(Next(s, st), NextGhost(s, g, st), st.a) < Rank(s, g, st.a)
  {
  }

  lemma UnlockStepDecreases(s: State, g: Ghost, st: Step)
    requires OwnPart(s, g, st.a) && Enabled(s, st) && InCall(s.pc[st.a]) && UnlockStep(st)
    requires Shape(Next(s, st), NextGhost(s, g, st)) && |Next(s, st).pc| == |s.pc|
    ensures 0 <= Rank(Next(s, st), NextGhost(s, g, st), st.a) < Rank(s, g, st.a)
  {
    if st.DoReverse? { ReverseDecreases(s, g, st); }
    else if st.DoResume? || st.DoHandOver? { HandingDecreases(s, g, st); }
    else { FreeingDecreases(s, g, st); }
  }

  lemma ReverseDecreases(s: State, g: Ghost, st: Step)
    requires OwnPart(s, g, st.a) && Enabled(s, st) && InCall(s.pc[st.a]) && st.DoReverse?
    requires Shape(Next(s, st), NextGhost(s, g, st)) && |Next(s, st).pc| == |s.pc|
    ensures 0 <= Rank(Next(s, st), NextGhost(s, g, st), st.a) < Rank(s, g, st.a)
  {
  }

  lemma HandingDecreases(s: State, g: Ghost, st: Step)
    requires OwnPart(s, g, st.a) && Enabled(s, st) && InCall(s.pc[st.a])
    requires st.DoResume? || st.DoHandOver?
    requires Shape(Next(s, st), NextGhost(s, g, st)) && |Next(s, st).pc| == |s.pc|
    ensures 0 <= Rank(Next(s, st), NextGhost(s, g, st), st.a) < Rank(s, g, st.a)
  {
  }

  lemma FreeingDecreases(s: State, g: Ghost, st: Step)
    requires OwnPart(s, g, st.a) && Enabled(s, st) && InCall(s.pc[st.a]) && UnlockStep(st)
    requires !st.DoReverse? && !st.DoResume? && !st.DoHandOver?
    requires Shape(Next(s, st), NextGhost(s, g, st)) && |Next(s, st).pc| == |s.pc|
    ensures 0 <= Rank(Next(s, st), NextGhost(s, g, st), st.a) < Rank(s, g, st.a)
  {
  }

  lemma CvStepDecreases(s: State, g: Ghost, st: Step)
    requires OwnPart(s, g, st.a) && Enabled(s, st) && InCall(s.pc[st.a]) && !LockStep(st) && !UnlockStep(st)
    requires Shape(Next(s, st), NextGhost(s, g, st)) && |Next(s, st).pc| == |s.pc|
    ensures 0 <= Rank(Next(s, st), NextGhost(s, g, st), st.a) < Rank(s, g, st.a)
  {
  }

  lemma StepDecreases(s: State, g: Ghost, st: Step)
    requires Inv(s, g) && Enabled(s, st) && InCall(s.pc[st.a]) && !Spurious(st)
    ensures Nested(s.pc[st.a]) && Carried(s.pc[st.a]).Node? ==> Carried(s.pc[st.a]).id < |s.pc|
    ensures Shape(Next(s, st), NextGhost(s, g, st)) && |Next(s, st).pc| == |s.pc|
    ensures 0 <= Rank(Next(s, st), NextGhost(s, g, st), st.a) < Rank(s, g, st.a)
  {
    StepKeeps(s, g, st);
    NextIsSized(s, st);
    assert AgentOk(s, g, st.a) && LoopOk(s, g, st.a);
    assert s.pc[st.a].Reverse? && g.off < g.mid ==> QueueSlot(s, g, g.mid - 1);
    if LockStep(st) { LockStepDecreases(s, g, st); }
    else if UnlockStep(st) { UnlockStepDecreases(s, g, st); }
    else { CvStepDecreases(s, g, st); }
  }

  ghost function RankAt(trace: seq<State>, steps: seq<Step>, i: nat, a: Id): int
    requires Run(trace, steps) && i < |trace| && a < |trace[i].pc|
  {
    Rank(trace[i], GhostAt(trace, steps, i), a)
  }

  /** Every step of a call by its own coroutine brings the call nearer to its end. */
  lemma OwnStepsDecrease(trace: seq<State>, steps: seq<Step>, i: nat, a: Id)
    requires Run(trace, steps) && i < |steps| && steps[i].a == a && a < |trace[i].pc|
    requires InCall(trace[i].pc[a]) && !Spurious(steps[i])
    ensures a < |trace[i + 1].pc|
    ensures 0 <= RankAt(trace, steps, i + 1, a) < RankAt(trace, steps, i, a)
  {
    assert Follows(trace, steps, i);
    var s, g, st := trace[i], GhostAt(trace, steps, i), steps[i];
    StepDecreases(s, g, st);
    assert GhostAt(trace, steps, i + 1) == NextGhost(s, g, st);
  }

  /** a runs alone from i to j, inside one call, without spurious failures. */
  ghost predicate Alone(trace: seq<State>, steps: seq<Step>, i: nat, j: nat, a: Id) {
    && i <= j <= |steps| && |trace| == |steps| + 1
    && forall m | i <= m < j :: a < |trace[m].pc| && InCall(trace[m].pc[a]) && steps[m].a == a && !Spurious(steps[m])
  }

  /** After running alone from i to m the measure has fallen by the number of steps. */
  ghost predicate HasFallen(trace: seq<State>, steps: seq<Step>, i: nat, m: nat, a: Id)
    requires Run(trace, steps) && i < |trace| && a < |trace[i].pc|
  {
    && i <= m < |trace| && a < |trace[m].pc|
    && 0 <= RankAt(trace, steps, m, a) <= RankAt(trace, steps, i, a) - (m - i)
  }

  lemma FallsOnce(trace: seq<State>, steps: seq<Step>, i: nat, m: nat, n: nat, a: Id)
    requires Run(trace, steps) && i < |trace| && a < |trace[i].pc| && m < |steps| && n == m + 1
    requires HasFallen(trace, steps, i, m, a) && InCall(trace[m].pc[a]) && steps[m].a == a && !Spurious(steps[m])
    ensures HasFallen(trace, steps, i, n, a)
  {
    OwnStepsDecrease(trace, steps, m, a);
  }

  lemma RankIsNotNegative(trace: seq<State>, steps: seq<Step>, i: nat, a: Id)
    requires Run(trace, steps) && i < |steps| && steps[i].a == a && a < |trace[i].pc|
    requires InCall(trace[i].pc[a]) && !Spurious(steps[i])
    ensures HasFallen(trace, steps, i, i, a)
  {
    OwnStepsDecrease(trace, steps, i, a);
  }

  lemma FallsThroughout(trace: seq<State>, steps: seq<Step>, i: nat, j: nat, a: Id)
    requires Run(trace, steps) && Alone(trace, steps, i, j, a) && a < |trace[i].pc| && i < j
    ensures HasFallen(trace, steps, i, j, a)
  {
    RankIsNotNegative(trace, steps, i, a);
    var p := (m: nat) => HasFallen(trace, steps, i, m, a);
    forall m: nat, n: nat | i <= m < j && n == m + 1 && p(m) ensures p(n) { FallsOnce(trace, steps, i, m, n, a); }
    Climb(p, i, j);
  }

  /** A call that nobody interferes with ends within its measure, recursive resumes of `unlock` included. */
  lemma CallsEnd(trace: seq<State>, steps: seq<Step>, i: nat, j: nat, a: Id)
    requires Run(trace, steps) && Alone(trace, steps, i, j, a) && a < |trace[i].pc| && i < j
    ensures j - i <= RankAt(trace, steps, i, a)
  {
    FallsThroughout(trace, steps, i, j, a);
  }
}
