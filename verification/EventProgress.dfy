/**
 Every wait and every set ends: each step of a coroutine's own call, short of a spurious failure, lowers a measure in
 which the waiters still to be submitted are counted.
 */
module EventProgress {
  import opened Links
  import opened Options
  import opened EventModel
  import opened EventInvariant

  predicate InProgress(pc: Pc) {
    !pc.User? && !pc.Suspended?
  }

  predicate Spurious(st: Step) {
    st.DoCas? && st.spurious
  }

  /** A bound on the steps a's call has left if nobody interferes. */
  ghost function Rank(s: State, g: Ghost, a: Id): nat
    requires Shape(s, g) && a < |s.pc|
  {
    match s.pc[a]
    case User => 0
    case Suspended => 0
    case Granted => 1
    case Ready => 5
    case PushLoad => 3
    case PushCas(seen) => if s.word == Unset(seen) then 2 else 4
    case Publish => 2 * g.left + 3
    case Walk(_) => 2 * g.left + 2
    case Submit(_, _) => 2 * g.left + 1
  }

  lemma StepDecreases(s: State, g: Ghost, st: Step)
    requires Inv(s, g) && Enabled(s, st) && InProgress(s.pc[st.a]) && !Spurious(st)
    ensures Shape(Next(s, st), NextGhost(s, g, st)) && |Next(s, st).pc| == |s.pc|
    ensures Rank(Next(s, st), NextGhost(s, g, st), st.a) < Rank(s, g, st.a)
  {
    StepKeeps(s, g, st);
    NextIsSized(s, st);
    assert WalkerOk(s, g, st.a);
    LocalDecreases(s, g, st);
  }

  lemma LocalDecreases(s: State, g: Ghost, st: Step)
    requires Shape(s, g) && Enabled(s, st) && InProgress(s.pc[st.a]) && !Spurious(st)
    requires WalkerOk(s, g, st.a) && WordOk(s, g)
    requires Shape(Next(s, st), NextGhost(s, g, st)) && |Next(s, st).pc| == |s.pc|
    ensures Rank(Next(s, st), NextGhost(s, g, st), st.a) < Rank(s, g, st.a)
  {
  }

  ghost function RankAt(trace: seq<State>, steps: seq<Step>, i: nat, a: Id): nat
    requires Run(trace, steps) && i < |trace| && a < |trace[i].pc|
  {
    Rank(trace[i], GhostAt(trace, steps, i), a)
  }

  /** Every step of a wait or a set by its own coroutine brings it nearer to its end. */
  lemma OwnStepsDecrease(trace: seq<State>, steps: seq<Step>, i: nat, a: Id)
    requires Run(trace, steps) && i < |steps| && steps[i].a == a && a < |trace[i].pc|
    requires InProgress(trace[i].pc[a]) && !Spurious(steps[i])
    ensures a < |trace[i + 1].pc| && RankAt(trace, steps, i + 1, a) < RankAt(trace, steps, i, a)
  {
    assert Follows(trace, steps, i);
    var s, g, st := trace[i], GhostAt(trace, steps, i), steps[i];
    StepDecreases(s, g, st);
    assert GhostAt(trace, steps, i + 1) == NextGhost(s, g, st);
  }

  /** A call that runs alone from i to j, without spurious failures, is over within its measure. */
  lemma {:induction false} CallsEnd(trace: seq<State>, steps: seq<Step>, i: nat, j: nat, a: Id)
    requires Run(trace, steps) && i <= j < |trace| && a < |trace[i].pc|
    requires forall m | i <= m < j ::
               a < |trace[m].pc| && InProgress(trace[m].pc[a]) && steps[m].a == a && !Spurious(steps[m])
    ensures a < |trace[j].pc| && RankAt(trace, steps, j, a) + (j - i) <= RankAt(trace, steps, i, a)
    decreases j
  {
    if i < j {
      CallsEnd(trace, steps, i, j - 1, a);
      OwnStepsDecrease(trace, steps, j - 1, a);
    }
  }

  /** The step a coroutine inside a call takes next. */
  function Pending(s: State, a: Id): Step
    requires a < |s.pc|
  {
    match s.pc[a]
    case Ready => DoReady(a)
    case PushLoad => DoLoad(a)
    case PushCas(_) => DoCas(a, false)
    case Publish => DoPublish(a)
    case Walk(_) => DoWalk(a)
    case Submit(_, _) => DoSubmit(a)
    case _ => DoAwaitResume(a)
  }

  /** Nothing but sleep ever holds a coroutine up: a call can take its next step, and user code may begin any. */
  lemma NeverStuck(trace: seq<State>, steps: seq<Step>, i: nat, a: Id, x: nat, v: int)
    requires Run(trace, steps) && i < |trace| && a < |trace[i].pc| && x < |trace[i].waits|
    ensures InProgress(trace[i].pc[a]) ==> Enabled(trace[i], Pending(trace[i], a))
    ensures trace[i].pc[a].Suspended? && trace[i].queued[a] > 0 ==> Enabled(trace[i], Dispatch(a))
    ensures trace[i].pc[a].User? ==>
              Enabled(trace[i], StartWait(a, x)) && Enabled(trace[i], StartSet(a, v)) && Enabled(trace[i], CountDown(a))
  {
    var s, g := trace[i], GhostAt(trace, steps, i);
    assert WalkerOk(s, g, a) && WordOk(s, g);
    if Walking(s.pc[a]) && g.left > 0 { assert SlotOk(s, g, g.left - 1); }
  }
}
