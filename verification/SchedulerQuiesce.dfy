/**
 Termination detection. Assumption: no context is between its last idle test and the clearing of its flag while a
 scheduler submit aimed at it is between setting that flag and pushing (`Apart`). The code does not enforce it;
 SchedulerCounterexample.PrematureStop shows what happens otherwise.
 */
module SchedulerQuiesce {
  import opened Counting
  import opened SchedulerModel
  import opened SchedulerCounts

  /** Worker i is inside submit_task_impl towards j, between the flag and the push. */
  predicate InFlight(op: Op, j: nat) {
    (op.AddToken? && op.j == j) || op == PushTask(j, Scheduled)
  }

  ghost predicate Apart(s: State)
    requires Shape(s)
  {
    forall i, j | 0 <= i < |s.flag| && 0 <= j < |s.flag| && s.pc[j].ClearFlag? :: !InFlight(s.op[i], j)
  }

  /** Positions at which a worker runs no task, no completion, and has started. */
  predicate Resting(pc: Pc) {
    !pc.NotStarted? && !pc.Task? && !pc.Cqe? && (pc.Loop? ==> pc.rem == 0)
  }

  /** Nothing queued, running, waiting or in IO. */
  predicate NoWork(s: State, j: nat)
    requires Shape(s) && j < |s.flag|
  {
    Resting(s.pc[j]) && Queue(s, j) == 0 && s.waits[j] == 0 && s.ioWait[j] == 0 && s.ioRun[j] == 0
  }

  /** When a pending flip of a flag happened; only meaningful for workers at AddToken(_, true). */
  datatype Times = Times(flip: seq<nat>, clock: nat)

  ghost function InitTimes(s: State): Times {
    Times(seq(|s.flag|, _ => 0), 0)
  }

  ghost function NextTimes(s: State, w: Times, st: Step): Times
    requires Shape(s) && Enabled(s, st) && |w.flip| == |s.flag|
  {
    Times(if st.Submit? then w.flip[st.i := w.clock] else w.flip, w.clock + 1)
  }

  predicate Flipping(op: Op, j: nat) {
    op.AddToken? && op.flipped && op.j == j
  }

  /** j is marked busy and counted in the token. */
  ghost predicate Settled(s: State, j: nat)
    requires Shape(s) && j < |s.flag|
  {
    s.flag[j] && forall i | 0 <= i < |s.flag| :: !Flipping(s.op[i], j)
  }

  /** The idle tests passed so far stay true up to the clearing of the flag. */
  predicate IdleOk(s: State, j: nat)
    requires Shape(s) && j < |s.flag|
  {
    && (s.pc[j] == TestIo(true) || s.pc[j] == TestReady(true) || s.pc[j].ClearFlag? ==> s.waits[j] == 0)
    && (s.pc[j] == TestReady(true) || s.pc[j].ClearFlag? ==> s.ioWait[j] == 0 && s.ioRun[j] == 0)
    && (s.pc[j].ClearFlag? ==> Queue(s, j) == 0)
  }

  ghost predicate BusyOk(s: State, j: nat)
    requires Shape(s) && j < |s.flag|
  {
    && (!s.flag[j] ==> NoWork(s, j))
    && (s.op[j] != NoOp ==> s.pc[j].Task? || s.pc[j].Cqe?)
    && (s.op[j].PushTask? && s.op[j].kind.Local? ==> s.op[j].j == j)
    && (s.pc[j].Cqe? ==> s.pc[j].num > 0)
  }

  /** A submit in flight has marked its target busy, and no two flips of one flag are pending together. */
  ghost predicate PairOk(s: State, w: Times, i: nat, j: nat)
    requires Shape(s) && |w.flip| == |s.flag| && i < |s.flag| && j < |s.flag|
  {
    && (InFlight(s.op[i], j) ==> s.flag[j])
    && (s.op[i].AddToken? ==> s.op[i].j < |s.flag| && w.flip[i] < w.clock)
    && (s.op[i].AddToken? && s.op[i].flipped && Flipping(s.op[j], i) ==> w.flip[j] < w.flip[i])
    && (i != j && s.op[i].AddToken? && s.op[i].flipped ==> !Flipping(s.op[j], s.op[i].j))
  }

  ghost predicate Quiet(s: State, w: Times) {
    && Shape(s) && |w.flip| == |s.flag|
    && (forall j | 0 <= j < |s.flag| :: IdleOk(s, j) && BusyOk(s, j) && WaitsOk(s, j) && WakeOk(s, j) && CqesIn(s, j))
    && (forall i, j | 0 <= i < |s.flag| && 0 <= j < |s.flag| :: PairOk(s, w, i, j))
  }

  // ---------------------------------------------------------------- steps

  /** A push never hits a context that is at rest or about to clear its flag. */
  lemma PushHitsBusy(s: State, w: Times, i: nat)
    requires Quiet(s, w) && Apart(s) && i < |s.flag| && s.op[i].PushTask? && s.op[i].j < |s.flag|
    ensures s.flag[s.op[i].j] && !s.pc[s.op[i].j].ClearFlag?
  {
    var j := s.op[i].j;
    assert PairOk(s, w, i, j) && BusyOk(s, i) && BusyOk(s, j) && IdleOk(s, j) && WaitsOk(s, j);
    if s.op[i].kind.Resumed? {
      assert ArrivingAt(j)(s.op[i]);
      CountPositive(s.op, ArrivingAt(j));
    }
  }

  lemma StepIdleInLoop(s: State, st: Step, j: nat)
    requires Shape(s) && Enabled(s, st) && OwnLoop(st) && j < |s.flag| && IdleOk(s, j)
    requires s.op[j] != NoOp ==> s.pc[j].Task? || s.pc[j].Cqe?
    ensures Shape(Next(s, st)) && |Next(s, st).flag| == |s.flag| && IdleOk(Next(s, st), j)
  {
    NextHasShape(s, st);
  }

  lemma StepIdleElsewhere(s: State, st: Step, j: nat)
    requires Shape(s) && Enabled(s, st) && !OwnLoop(st) && j < |s.flag| && IdleOk(s, j)
    requires st.DoPush? && s.op[st.i].j == j ==> !s.pc[j].ClearFlag?
    requires s.op[j] != NoOp ==> s.pc[j].Task? || s.pc[j].Cqe?
    ensures Shape(Next(s, st)) && |Next(s, st).flag| == |s.flag| && IdleOk(Next(s, st), j)
  {
    NextHasShape(s, st);
  }

  lemma StepIdle(s: State, st: Step, j: nat)
    requires Shape(s) && Enabled(s, st) && j < |s.flag| && IdleOk(s, j)
    requires st.DoPush? && s.op[st.i].j == j ==> !s.pc[j].ClearFlag?
    requires s.op[j] != NoOp ==> s.pc[j].Task? || s.pc[j].Cqe?
    ensures Shape(Next(s, st)) && |Next(s, st).flag| == |s.flag| && IdleOk(Next(s, st), j)
  {
    if OwnLoop(st) { StepIdleInLoop(s, st, j); } else { StepIdleElsewhere(s, st, j); }
  }

  /** Another worker's loop step cannot disturb j: at most it marks j for stopping. */
  lemma StepBusyInLoop(s: State, st: Step, j: nat)
    requires Shape(s) && Enabled(s, st) && OwnLoop(st) && j < |s.flag| && IdleOk(s, j) && BusyOk(s, j) && CqesIn(s, j)
    ensures Shape(Next(s, st)) && |Next(s, st).flag| == |s.flag| && BusyOk(Next(s, st), j)
  {
    if st.i == j { StepBusyOwn(s, st); } else { LoopOfAnother(s, st, j); }
  }

  lemma StepBusyOwn(s: State, st: Step)
    requires Shape(s) && Enabled(s, st) && OwnLoop(st) && IdleOk(s, st.i) && BusyOk(s, st.i) && CqesIn(s, st.i)
    ensures Shape(Next(s, st)) && |Next(s, st).flag| == |s.flag| && BusyOk(Next(s, st), st.i)
  {
    if s.flag[st.i] && !st.DoClearFlag? { BusyLoop(s, st); } else { RestingLoop(s, st); }
  }

  lemma BusyLoop(s: State, st: Step)
    requires Shape(s) && Enabled(s, st) && OwnLoop(st) && BusyOk(s, st.i) && s.flag[st.i] && !st.DoClearFlag?
    ensures Shape(Next(s, st)) && |Next(s, st).flag| == |s.flag| && BusyOk(Next(s, st), st.i)
  {
    NextHasShape(s, st);
  }

  /** A worker whose flag is clear, or being cleared after the idle tests, stays without work in its loop. */
  lemma RestingLoop(s: State, st: Step)
    requires Shape(s) && Enabled(s, st) && OwnLoop(st) && IdleOk(s, st.i) && BusyOk(s, st.i) && CqesIn(s, st.i)
    requires !s.flag[st.i] || st.DoClearFlag?
    ensures Shape(Next(s, st)) && |Next(s, st).flag| == |s.flag| && BusyOk(Next(s, st), st.i)
  {
    NextHasShape(s, st);
    assert NoWork(s, st.i);
  }

  lemma LoopOfAnother(s: State, st: Step, j: nat)
    requires Shape(s) && Enabled(s, st) && OwnLoop(st) && j < |s.flag| && st.i != j
    ensures var t := Next(s, st);
      Shape(t) && |t.flag| == |s.flag| && t.flag[j] == s.flag[j] && t.pc[j] == s.pc[j] && t.op[j] == s.op[j]
      && Queue(t, j) == Queue(s, j) && t.waits[j] == s.waits[j]
      && t.ioWait[j] == s.ioWait[j] && t.ioRun[j] == s.ioRun[j]
  {
    NextHasShape(s, st);
  }

  lemma StepBusyElsewhere(s: State, st: Step, j: nat)
    requires Shape(s) && Enabled(s, st) && !OwnLoop(st) && j < |s.flag| && IdleOk(s, j) && BusyOk(s, j) && CqesIn(s, j)
    requires st.DoPush? && s.op[st.i].j == j ==> s.flag[j]
    ensures Shape(Next(s, st)) && |Next(s, st).flag| == |s.flag| && BusyOk(Next(s, st), j)
  {
    NextHasShape(s, st);
  }

  lemma StepBusy(s: State, st: Step, j: nat)
    requires Shape(s) && Enabled(s, st) && j < |s.flag| && IdleOk(s, j) && BusyOk(s, j) && CqesIn(s, j)
    requires st.DoPush? && s.op[st.i].j == j ==> s.flag[j]
    ensures Shape(Next(s, st)) && |Next(s, st).flag| == |s.flag| && BusyOk(Next(s, st), j)
  {
    if OwnLoop(st) { StepBusyInLoop(s, st, j); } else { StepBusyElsewhere(s, st, j); }
  }

  lemma StepPair(s: State, w: Times, st: Step, i: nat, j: nat)
    requires Quiet(s, w) && Apart(s) && Enabled(s, st) && i < |s.flag| && j < |s.flag|
    requires Shape(Next(s, st)) && |Next(s, st).flag| == |s.flag|
    ensures |NextTimes(s, w, st).flip| == |s.flag| && PairOk(Next(s, st), NextTimes(s, w, st), i, j)
  {
    assert PairOk(s, w, i, j) && PairOk(s, w, j, i) && BusyOk(s, i) && BusyOk(s, j);
    if st.Submit? {
      SubmitPair(s, w, st.i, st.j, i, j);
    } else {
      OtherPair(s, w, st, i, j);
    }
  }

  lemma OtherPair(s: State, w: Times, st: Step, i: nat, j: nat)
    requires Shape(s) && Enabled(s, st) && !st.Submit? && |w.flip| == |s.flag| && i < |s.flag| && j < |s.flag|
    requires PairOk(s, w, i, j) && (st.DoClearFlag? ==> !InFlight(s.op[i], st.i))
    requires Shape(Next(s, st)) && |Next(s, st).flag| == |s.flag|
    ensures PairOk(Next(s, st), NextTimes(s, w, st), i, j)
  {
    OneWorker(s, st);
    FlagsStay(s, st);
    NoNewFlight(s, st);
  }

  lemma FlagsStay(s: State, st: Step)
    requires Shape(s) && Enabled(s, st) && !st.Submit?
    ensures Next(s, st).flag == if st.DoClearFlag? then s.flag[st.i := false] else s.flag
  {
  }

  lemma NoNewFlight(s: State, st: Step)
    requires Shape(s) && Enabled(s, st) && !st.Submit?
    ensures Next(s, st).op[st.i].AddToken? ==> Next(s, st).op[st.i] == s.op[st.i]
    ensures forall j :: InFlight(Next(s, st).op[st.i], j) ==> InFlight(s.op[st.i], j)
  {
  }

  lemma SubmitPair(s: State, w: Times, a: nat, b: nat, i: nat, j: nat)
    requires Quiet(s, w) && Enabled(s, Submit(a, b)) && i < |s.flag| && j < |s.flag|
    ensures PairOk(SubmitStep(s, a, b), NextTimes(s, w, Submit(a, b)), i, j)
  {
    assert PairOk(s, w, i, j) && PairOk(s, w, j, i) && BusyOk(s, a) && BusyOk(s, b);
    assert PairOk(s, w, i, b) && PairOk(s, w, j, b) && PairOk(s, w, a, i) && PairOk(s, w, a, j) && PairOk(s, w, a, b);
    assert BusyOk(s, i) && BusyOk(s, j);
  }

  lemma StepQuiet(s: State, w: Times, st: Step)
    requires Quiet(s, w) && Apart(s) && Enabled(s, st)
    ensures Quiet(Next(s, st), NextTimes(s, w, st))
  {
    NextHasShape(s, st);
    var t, x := Next(s, st), NextTimes(s, w, st);
    if st.DoPush? { PushHitsBusy(s, w, st.i); }
    forall j | 0 <= j < |t.flag| ensures IdleOk(t, j) && BusyOk(t, j) && WaitsOk(t, j) && WakeOk(t, j) && CqesIn(t, j) {
      assert IdleOk(s, j) && BusyOk(s, j) && WaitsOk(s, j) && WakeOk(s, j) && CqesIn(s, j);
      StepIdle(s, st, j);
      StepBusy(s, st, j);
      StepWaits(s, st, j);
      StepWakes(s, st, j);
      StepCqesIn(s, st, j);
    }
    forall i, j | 0 <= i < |t.flag| && 0 <= j < |t.flag| ensures PairOk(t, x, i, j) {
      StepPair(s, w, st, i, j);
    }
  }
}
