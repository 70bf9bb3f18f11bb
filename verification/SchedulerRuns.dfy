/** What happens over whole runs: broadcasts, exits, rounds, and where tasks and IO go. No assumption is needed. */
module SchedulerRuns {
  import EventFd
  import opened Counting
  import opened SchedulerModel
  import opened SchedulerCounts
  import opened SchedulerTheorems

  // ---------------------------------------------------------------- a broadcast reaches every context

  /** A broadcast has asked every context before its position. */
  predicate AskedSoFar(s: State, k: nat)
    requires Shape(s) && k < |s.flag|
  {
    && (s.pc[k].NotifyReq? ==> forall j | 0 <= j < |s.flag| && j < s.pc[k].i :: s.stopReq[j])
    && (s.pc[k].NotifyWake? ==> forall j | 0 <= j < |s.flag| && j <= s.pc[k].i :: s.stopReq[j])
  }

  lemma StepAsks(s: State, st: Step, k: nat)
    requires Shape(s) && Enabled(s, st) && k < |s.flag| && AskedSoFar(s, k)
    ensures Shape(Next(s, st)) && |Next(s, st).flag| == |s.flag| && AskedSoFar(Next(s, st), k)
    ensures Broadcasting(s.pc[k]) && !Broadcasting(Next(s, st).pc[k]) ==> forall j | 0 <= j < |s.flag| :: s.stopReq[j]
  {
    NextHasShape(s, st);
    if OwnLoop(st) { LoopAsks(s, st, k); } else { OneWorkerInTask(s, st); }
  }

  lemma LoopAsks(s: State, st: Step, k: nat)
    requires Shape(s) && Enabled(s, st) && OwnLoop(st) && k < |s.flag| && AskedSoFar(s, k)
    requires Shape(Next(s, st)) && |Next(s, st).flag| == |s.flag|
    ensures AskedSoFar(Next(s, st), k)
    ensures Broadcasting(s.pc[k]) && !Broadcasting(Next(s, st).pc[k]) ==> forall j | 0 <= j < |s.flag| :: s.stopReq[j]
  {
    if Notifying(st) { NotifyAsks(s, st, k); } else { OtherAsks(s, st, k); }
  }

  lemma NotifyAsks(s: State, st: Step, k: nat)
    requires Shape(s) && Enabled(s, st) && Notifying(st) && k < |s.flag| && AskedSoFar(s, k)
    requires Shape(Next(s, st)) && |Next(s, st).flag| == |s.flag|
    ensures AskedSoFar(Next(s, st), k)
    ensures Broadcasting(s.pc[k]) && !Broadcasting(Next(s, st).pc[k]) ==> forall j | 0 <= j < |s.flag| :: s.stopReq[j]
  {
  }

  lemma OtherAsks(s: State, st: Step, k: nat)
    requires Shape(s) && Enabled(s, st) && OwnLoop(st) && !Notifying(st) && k < |s.flag| && AskedSoFar(s, k)
    requires Shape(Next(s, st)) && |Next(s, st).flag| == |s.flag|
    ensures AskedSoFar(Next(s, st), k)
    ensures Broadcasting(s.pc[k]) && !Broadcasting(Next(s, st).pc[k]) ==> forall j | 0 <= j < |s.flag| :: s.stopReq[j]
  {
  }

  lemma {:induction false} AskedThroughout(trace: seq<State>, steps: seq<Step>, i: nat, k: nat)
    requires Run(trace, steps) && i < |trace| && k < |trace[i].flag|
    ensures AskedSoFar(trace[i], k)
  {
    if i == 0 {
      assert InitCtx(trace[0], k);
    } else {
      assert Follows(trace, steps, i - 1);
      NextHasShape(trace[i - 1], steps[i - 1]);
      AskedThroughout(trace, steps, i - 1, k);
      StepAsks(trace[i - 1], steps[i - 1], k);
    }
  }

  /** A broadcast that ends has asked every context to stop. */
  lemma BroadcastReachesAll(trace: seq<State>, steps: seq<Step>, i: nat, k: nat, j: nat)
    requires Run(trace, steps) && i < |steps| && k < |trace[i].pc| && j < |trace[i].flag|
    requires k < |trace[i + 1].pc| && Broadcasting(trace[i].pc[k]) && !Broadcasting(trace[i + 1].pc[k])
    ensures trace[i].stopReq[j]
  {
    assert Follows(trace, steps, i);
    AskedThroughout(trace, steps, i, k);
    StepAsks(trace[i], steps[i], k);
  }

  /** A context that has been asked stays asked. */
  lemma {:induction false} AskedForEver(trace: seq<State>, steps: seq<Step>, i: nat, m: nat, j: nat)
    requires Run(trace, steps) && i <= m < |trace| && j < |trace[i].flag| && trace[i].stopReq[j]
    ensures j < |trace[m].flag| && trace[m].stopReq[j]
    decreases m
  {
    if i < m {
      AskedForEver(trace, steps, i, m - 1, j);
      assert Follows(trace, steps, m - 1);
      StopReqStays(trace[m - 1], steps[m - 1], j);
    }
  }

  lemma StopReqStays(s: State, st: Step, j: nat)
    requires Shape(s) && Enabled(s, st) && j < |s.flag| && s.stopReq[j]
    ensures Shape(Next(s, st)) && |Next(s, st).flag| == |s.flag| && Next(s, st).stopReq[j]
  {
    NextHasShape(s, st);
  }

  // ---------------------------------------------------------------- the two ifs of run

  /** The state after at most n tests by worker j, nobody else moving. */
  function ThroughTests(s: State, j: nat, n: nat): State
    requires Shape(s) && j < |s.flag|
    decreases n
  {
    if n == 0 || !Testing(s.pc[j]) then s else ThroughTests(Next(s, DoTest(j)), j, n - 1)
  }

  /** Where the tests lead from position pc, all of them finding what s holds. */
  function TestedFrom(s: State, j: nat, pc: Pc, n: nat): Pc
    requires Shape(s) && j < |s.flag|
    decreases n
  {
    if n == 0 || !Testing(pc) then pc else TestedFrom(s, j, AfterTest(Goto(s, j, pc), j), n - 1)
  }

  lemma {:induction false} TestsOnlyMove(s: State, j: nat, pc: Pc, n: nat)
    requires Shape(s) && j < |s.flag|
    ensures ThroughTests(Goto(s, j, pc), j, n) == Goto(s, j, TestedFrom(s, j, pc, n))
    decreases n
  {
    var t := Goto(s, j, pc);
    if n > 0 && Testing(pc) {
      var q := AfterTest(t, j);
      assert Next(t, DoTest(j)) == Goto(s, j, q) by { assert t.pc[j := q] == s.pc[j := q]; }
      TestsOnlyMove(s, j, q, n - 1);
    }
  }

  lemma TestedOnce(s: State, j: nat, pc: Pc, n: nat)
    requires Shape(s) && j < |s.flag| && Testing(pc)
    ensures TestedFrom(s, j, pc, n + 1) == TestedFrom(s, j, AfterTest(Goto(s, j, pc), j), n)
  {
  }

  /** The second if of run. */
  lemma SecondIf(s: State, j: nat, n: nat)
    requires Shape(s) && j < |s.flag| && n >= 4
    ensures TestedFrom(s, j, TestStop(true), n) ==
            if !s.stopReq[j] && s.waits[j] == 0 && s.ioWait[j] == 0 && s.ioRun[j] == 0 && Queue(s, j) == 0
            then ClearFlag else Poll
  {
    TestedOnce(s, j, TestStop(true), n - 1);
    TestedOnce(s, j, TestWait(true), n - 2);
    TestedOnce(s, j, TestIo(true), n - 3);
    TestedOnce(s, j, TestReady(true), n - 4);
  }

  /** The first if of run: out of the loop, round again, or on to the second if. */
  lemma FirstIf(s: State, j: nat)
    requires Shape(s) && j < |s.flag|
    ensures var quiet := s.waits[j] == 0 && s.ioWait[j] == 0 && s.ioRun[j] == 0;
      TestedFrom(s, j, TestStop(false), 7) ==
      if s.stopReq[j] && quiet then (if Queue(s, j) > 0 then Snapshot else Exited)
      else if !s.stopReq[j] then TestedFrom(s, j, TestStop(true), 6)
      else if s.waits[j] != 0 then TestedFrom(s, j, TestStop(true), 5)
      else TestedFrom(s, j, TestStop(true), 4)
  {
    TestedOnce(s, j, TestStop(false), 6);
    TestedOnce(s, j, TestWait(false), 5);
    TestedOnce(s, j, TestIo(false), 4);
    TestedOnce(s, j, TestReady(false), 3);
  }

  /**
   Exit if asked to stop with nothing left to do, another round if something has been queued meanwhile; the stop
   callback if not asked with nothing to do; otherwise poll. Nothing but the position changes.
   */
  lemma TestsDecide(s: State, j: nat)
    requires Shape(s) && j < |s.flag| && s.pc[j] == TestStop(false)
    ensures var quiet := s.waits[j] == 0 && s.ioWait[j] == 0 && s.ioRun[j] == 0;
      ThroughTests(s, j, 7) == Goto(s, j,
        if s.stopReq[j] && quiet then (if Queue(s, j) > 0 then Snapshot else Exited)
        else if !s.stopReq[j] && quiet && Queue(s, j) == 0 then ClearFlag
        else Poll)
  {
    assert Goto(s, j, TestStop(false)) == s;
    TestsOnlyMove(s, j, TestStop(false), 7);
    FirstIf(s, j);
    SecondIf(s, j, 4);
    SecondIf(s, j, 5);
    SecondIf(s, j, 6);
  }

  // ---------------------------------------------------------------- a worker that exits is done

  /** What the tests passed so far have found is still true: only the worker itself can change it. */
  predicate ExitOk(s: State, j: nat)
    requires Shape(s) && j < |s.flag|
  {
    && (s.pc[j].TestIo? || s.pc[j].TestReady? || s.pc[j].Exited? ==> s.waits[j] == 0)
    && (s.pc[j].TestReady? || s.pc[j].Exited? ==> s.ioWait[j] == 0 && s.ioRun[j] == 0)
    && (s.pc[j].Exited? ==> s.stopReq[j])
    && (Testing(s.pc[j]) && !s.pc[j].second && !s.pc[j].TestStop? ==> s.stopReq[j])
  }

  lemma StepExits(s: State, st: Step, j: nat)
    requires Shape(s) && Enabled(s, st) && j < |s.flag| && ExitOk(s, j)
    ensures Shape(Next(s, st)) && |Next(s, st).flag| == |s.flag| && ExitOk(Next(s, st), j)
    ensures Next(s, st).pc[j].Exited? && !s.pc[j].Exited? ==> Queue(s, j) == 0
  {
    NextHasShape(s, st);
    if OwnLoop(st) { LoopExits(s, st, j); } else { TaskExits(s, st, j); }
  }

  lemma LoopExits(s: State, st: Step, j: nat)
    requires Shape(s) && Enabled(s, st) && OwnLoop(st) && j < |s.flag| && ExitOk(s, j)
    requires Shape(Next(s, st)) && |Next(s, st).flag| == |s.flag|
    ensures ExitOk(Next(s, st), j)
    ensures Next(s, st).pc[j].Exited? && !s.pc[j].Exited? ==> Queue(s, j) == 0
  {
    if st.DoTest? { TestExits(s, st, j); } else { OtherExits(s, st, j); }
  }

  lemma TestExits(s: State, st: Step, j: nat)
    requires Shape(s) && Enabled(s, st) && st.DoTest? && j < |s.flag| && ExitOk(s, j)
    requires Shape(Next(s, st)) && |Next(s, st).flag| == |s.flag|
    ensures ExitOk(Next(s, st), j)
    ensures Next(s, st).pc[j].Exited? && !s.pc[j].Exited? ==> Queue(s, j) == 0
  {
  }

  lemma OtherExits(s: State, st: Step, j: nat)
    requires Shape(s) && Enabled(s, st) && OwnLoop(st) && !st.DoTest? && j < |s.flag| && ExitOk(s, j)
    requires Shape(Next(s, st)) && |Next(s, st).flag| == |s.flag|
    ensures ExitOk(Next(s, st), j)
    ensures Next(s, st).pc[j].Exited? && !s.pc[j].Exited? ==> Queue(s, j) == 0
  {
    if Processing(st) { WorkExits(s, st, j); } else { IdleExits(s, st, j); }
  }

  lemma WorkExits(s: State, st: Step, j: nat)
    requires Shape(s) && Enabled(s, st) && Processing(st) && j < |s.flag| && ExitOk(s, j)
    requires Shape(Next(s, st)) && |Next(s, st).flag| == |s.flag|
    ensures ExitOk(Next(s, st), j)
    ensures Next(s, st).pc[j].Exited? && !s.pc[j].Exited? ==> Queue(s, j) == 0
  {
  }

  lemma IdleExits(s: State, st: Step, j: nat)
    requires Shape(s) && Enabled(s, st) && OwnLoop(st) && !Processing(st) && !st.DoTest? && j < |s.flag| && ExitOk(s, j)
    requires Shape(Next(s, st)) && |Next(s, st).flag| == |s.flag|
    ensures ExitOk(Next(s, st), j)
    ensures Next(s, st).pc[j].Exited? && !s.pc[j].Exited? ==> Queue(s, j) == 0
  {
  }

  lemma TaskExits(s: State, st: Step, j: nat)
    requires Shape(s) && Enabled(s, st) && !OwnLoop(st) && j < |s.flag| && ExitOk(s, j)
    requires Shape(Next(s, st)) && |Next(s, st).flag| == |s.flag|
    ensures ExitOk(Next(s, st), j) && (Next(s, st).pc[j].Exited? ==> s.pc[j].Exited?)
  {
  }

  lemma {:induction false} ExitThroughout(trace: seq<State>, steps: seq<Step>, i: nat, j: nat)
    requires Run(trace, steps) && i < |trace| && j < |trace[i].flag|
    ensures ExitOk(trace[i], j)
  {
    if i == 0 {
      assert InitCtx(trace[0], j);
    } else {
      assert Follows(trace, steps, i - 1);
      NextHasShape(trace[i - 1], steps[i - 1]);
      ExitThroughout(trace, steps, i - 1, j);
      StepExits(trace[i - 1], steps[i - 1], j);
    }
  }

  /** A worker that has left its loop was asked to, and leaves no wait and no IO behind. */
  lemma ExitMeansDone(trace: seq<State>, steps: seq<Step>, i: nat, j: nat)
    requires Run(trace, steps) && i < |trace| && j < |trace[i].flag| && trace[i].pc[j].Exited?
    ensures var s := trace[i];
      && s.stopReq[j] && s.waits[j] == 0 && s.parked[j] == 0 && s.resumed[j] == 0
      && s.ioWait[j] == 0 && s.inKernel[j] == 0 && s.cqes[j] == 0
  {
    ExitThroughout(trace, steps, i, j);
    WaitsNeverUnderflow(trace, steps, i, j);
    RunAlways(trace, steps, i);
    assert CqesIn(trace[i], j);
  }

  /** At the step that leaves the loop nothing is queued. */
  lemma ExitFindsNothingQueued(trace: seq<State>, steps: seq<Step>, i: nat, j: nat)
    requires Run(trace, steps) && i < |steps| && j < |trace[i].flag| && !trace[i].pc[j].Exited?
    requires j < |trace[i + 1].pc| && trace[i + 1].pc[j].Exited?
    ensures Queue(trace[i], j) == 0
  {
    assert Follows(trace, steps, i);
    ExitThroughout(trace, steps, i, j);
    StepExits(trace[i], steps[i], j);
  }

  // ---------------------------------------------------------------- rounds end

  /** Steps a worker has left, apart from what its tasks do, before it snapshots its queue again, reads or exits. */
  function Left(s: State, j: nat): nat
    requires Shape(s) && j < |s.flag|
  {
    var n := 2 * |s.flag|;
    match s.pc[j]
    case Loop(rem) => n + 20 + 2 * rem
    case Task(rem) => n + 21 + 2 * rem
    case TestStop(second) => n + if second then 15 else 19
    case TestWait(second) => n + if second then 14 else 18
    case TestIo(second) => n + if second then 13 else 17
    case TestReady(second) => n + if second then 12 else 16
    case ClearFlag => n + 11
    case SubToken(_) => n + 10
    case NotifyReq(i) => if i <= |s.flag| then 2 * (|s.flag| - i) + 6 else 6
    case NotifyWake(i) => if i <= |s.flag| then 2 * (|s.flag| - i) + 5 else 5
    case Poll => 4
    case ReadFd => 3
    case Peek => s.cqes[j] + 3
    case Cqe(_, left) => left + 2
    case _ => 0
  }

  /** Every step of its own brings a worker nearer to its next snapshot or read. */
  lemma RoundsEnd(s: State, st: Step)
    requires Shape(s) && Enabled(s, st) && OwnLoop(st) && !st.Start? && !st.DoSnapshot? && !st.DoRead?
    ensures Shape(Next(s, st)) && |Next(s, st).flag| == |s.flag| && Left(Next(s, st), st.i) < Left(s, st.i)
  {
    NextHasShape(s, st);
  }

  /** The step a worker takes next on its own account; which kind of handle it pops is not its choice. */
  function Pending(s: State, j: nat): Step
    requires Shape(s) && j < |s.flag|
  {
    match s.pc[j]
    case NotStarted => Start(j)
    case Snapshot => DoSnapshot(j)
    case Loop(_) => DoLoop(j, s.resumed[j] > 0)
    case ClearFlag => DoClearFlag(j)
    case SubToken(_) => DoSubToken(j)
    case NotifyReq(_) => DoNotifyReq(j)
    case NotifyWake(_) => DoNotifyWake(j)
    case Poll => DoPoll(j)
    case ReadFd => DoRead(j)
    case Peek => DoPeek(j)
    case Cqe(_, _) => DoCqe(j)
    case _ => DoTest(j)
  }

  /** The broadcast's position is a context, once it is about to wake it. */
  predicate WakesContext(s: State, j: nat)
    requires Shape(s) && j < |s.flag|
  {
    s.pc[j].NotifyWake? ==> s.pc[j].i < |s.flag|
  }

  lemma {:induction false} WakesThroughout(trace: seq<State>, steps: seq<Step>, i: nat, j: nat)
    requires Run(trace, steps) && i < |trace| && j < |trace[i].flag|
    ensures WakesContext(trace[i], j)
  {
    if i == 0 {
      assert InitCtx(trace[0], j);
    } else {
      assert Follows(trace, steps, i - 1);
      NextHasShape(trace[i - 1], steps[i - 1]);
      WakesThroughout(trace, steps, i - 1, j);
      StepWakesContext(trace[i - 1], steps[i - 1], j);
    }
  }

  lemma StepWakesContext(s: State, st: Step, j: nat)
    requires Shape(s) && Enabled(s, st) && j < |s.flag| && WakesContext(s, j)
    ensures Shape(Next(s, st)) && |Next(s, st).flag| == |s.flag| && WakesContext(Next(s, st), j)
  {
    NextHasShape(s, st);
  }

  /**
   A worker is held up only by its task, by a push to a full queue, at an empty eventfd, or in a broadcast by a worker
   that has not started. Otherwise it can take its next step until it exits.
   */
  lemma WorkersMove(trace: seq<State>, steps: seq<Step>, i: nat, j: nat)
    requires Run(trace, steps) && i < |trace| && j < |trace[i].flag|
    requires var s := trace[i];
      && !s.pc[j].Task? && !s.pc[j].Exited? && s.op[j] == NoOp
      && (s.pc[j].ReadFd? ==> s.task[j] > 0 || s.low[j] > 0)
      && (s.pc[j].NotifyReq? && s.pc[j].i < |s.flag| ==> !s.pc[s.pc[j].i].NotStarted?)
    ensures Enabled(trace[i], Pending(trace[i], j))
  {
    RunAlways(trace, steps, i);
    assert WakeOk(trace[i], j);
    WakesThroughout(trace, steps, i, j);
  }

  /** What a running task may do, and how a submit goes on. */
  lemma TasksMayAct(s: State, i: nat, j: nat)
    requires Shape(s) && i < |s.flag| && j < |s.flag| && s.pc[i].Task?
    ensures s.op[i] == NoOp ==>
              && Enabled(s, Submit(i, j)) && Enabled(s, SubmitLocal(i)) && Enabled(s, AddIo(i))
              && (Enabled(s, Resume(i, j)) <==> s.parked[j] > 0)
              && (if s.owed[i] then Enabled(s, Unregister(i)) && Enabled(s, Park(i))
                  else Enabled(s, Register(i)) && Enabled(s, Finish(i)))
    ensures s.op[i].AddToken? ==> Enabled(s, DoAddToken(i))
    ensures s.op[i] == WakeTask(j) ==> Enabled(s, DoWake(i))
  {
  }

  // ---------------------------------------------------------------- where tasks go

  function PushesTo(trace: seq<State>, steps: seq<Step>, i: nat, j: nat): nat
    requires |trace| == |steps| + 1 && i < |trace|
  {
    if i == 0 then 0 else
    var s, st := trace[i - 1], steps[i - 1];
    PushesTo(trace, steps, i - 1, j)
    + if st.DoPush? && st.i < |s.op| && s.op[st.i].PushTask? && s.op[st.i].j == j then 1 else 0
  }

  /** How often worker j has begun to run a task. */
  function Resumptions(trace: seq<State>, steps: seq<Step>, i: nat, j: nat): nat
    requires |trace| == |steps| + 1 && i < |trace|
  {
    if i == 0 then 0 else
    Resumptions(trace, steps, i - 1, j)
    + if steps[i - 1].DoLoop? && steps[i - 1].i == j && j < |trace[i].pc| && trace[i].pc[j].Task? then 1 else 0
  }

  lemma StepMovesTasks(s: State, st: Step, j: nat)
    requires Shape(s) && Enabled(s, st) && j < |s.flag|
    ensures var t := Next(s, st);
      && Shape(t) && |t.flag| == |s.flag|
      && Queue(t, j) + (if st.DoLoop? && st.i == j && t.pc[j].Task? then 1 else 0)
         == Queue(s, j) + (if st.DoPush? && s.op[st.i].j == j then 1 else 0)
  {
    NextHasShape(s, st);
    if OwnLoop(st) { LoopMovesTasks(s, st, j); } else { TaskMovesTasks(s, st, j); }
  }

  lemma LoopMovesTasks(s: State, st: Step, j: nat)
    requires Shape(s) && Enabled(s, st) && OwnLoop(st) && j < |s.flag|
    requires Shape(Next(s, st)) && |Next(s, st).flag| == |s.flag|
    ensures Queue(Next(s, st), j) + (if st.DoLoop? && st.i == j && Next(s, st).pc[j].Task? then 1 else 0) == Queue(s, j)
  {
  }

  lemma TaskMovesTasks(s: State, st: Step, j: nat)
    requires Shape(s) && Enabled(s, st) && !OwnLoop(st) && j < |s.flag|
    requires Shape(Next(s, st)) && |Next(s, st).flag| == |s.flag|
    ensures Queue(Next(s, st), j) == Queue(s, j) + (if st.DoPush? && s.op[st.i].j == j then 1 else 0)
  {
  }

  /** Every handle pushed to a context is queued there or has been resumed by its worker, once. */
  lemma {:induction false} TasksAreConserved(trace: seq<State>, steps: seq<Step>, i: nat, j: nat)
    requires Run(trace, steps) && i < |trace| && j < |trace[i].flag|
    ensures |trace[0].flag| == |trace[i].flag|
    ensures Queue(trace[i], j) + Resumptions(trace, steps, i, j) == Queue(trace[0], j) + PushesTo(trace, steps, i, j)
  {
    if i > 0 {
      assert Follows(trace, steps, i - 1);
      NextHasShape(trace[i - 1], steps[i - 1]);
      TasksAreConserved(trace, steps, i - 1, j);
      StepMovesTasks(trace[i - 1], steps[i - 1], j);
    }
  }

  /** A submit to j in progress that has not pushed yet. */
  function Towards(j: nat): Op -> bool {
    (o: Op) => (o.AddToken? || o.PushTask?) && o.j == j
  }

  /** The step begins a submit to j: through the scheduler, of a parked coroutine, to itself, or for a completion. */
  predicate BeginsSubmit(s: State, st: Step, j: nat)
    requires Shape(s) && Enabled(s, st)
  {
    || (st.Submit? && st.j == j) || (st.Resume? && st.j == j) || st == SubmitLocal(j)
    || (st == DoCqe(j) && s.pc[j].left > 0)
  }

  ghost function Submits(trace: seq<State>, steps: seq<Step>, i: nat, j: nat): nat
    requires Run(trace, steps) && i < |trace|
  {
    if i == 0 then 0 else
    assert Follows(trace, steps, i - 1);
    Submits(trace, steps, i - 1, j) + if BeginsSubmit(trace[i - 1], steps[i - 1], j) then 1 else 0
  }

  lemma StepMovesSubmits(s: State, st: Step, j: nat)
    requires Shape(s) && Enabled(s, st) && j < |s.flag| && (s.op[st.i] != NoOp ==> s.pc[st.i].Task? || s.pc[st.i].Cqe?)
    ensures var t := Next(s, st);
      && Shape(t) && |t.flag| == |s.flag|
      && Count(t.op, Towards(j)) + (if st.DoPush? && s.op[st.i].j == j then 1 else 0)
         == Count(s.op, Towards(j)) + (if BeginsSubmit(s, st, j) then 1 else 0)
  {
    OneWorker(s, st);
    CountUpdate(s.op, st.i, Next(s, st).op[st.i], Towards(j));
    OpMoves(s, st, j);
  }

  lemma OpMoves(s: State, st: Step, j: nat)
    requires Shape(s) && Enabled(s, st) && j < |s.flag| && Shape(Next(s, st)) && |Next(s, st).flag| == |s.flag|
    requires s.op[st.i] != NoOp ==> s.pc[st.i].Task? || s.pc[st.i].Cqe?
    ensures var o, p := s.op[st.i], Next(s, st).op[st.i];
      && (if Towards(j)(p) then 1 else 0) + (if st.DoPush? && s.op[st.i].j == j then 1 else 0)
         == (if Towards(j)(o) then 1 else 0) + (if BeginsSubmit(s, st, j) then 1 else 0)
  {
    if OwnLoop(st) { LoopOpMoves(s, st, j); } else { TaskOpMoves(s, st, j); }
  }

  lemma LoopOpMoves(s: State, st: Step, j: nat)
    requires Shape(s) && Enabled(s, st) && OwnLoop(st) && j < |s.flag|
    requires Shape(Next(s, st)) && |Next(s, st).flag| == |s.flag|
    requires s.op[st.i] != NoOp ==> s.pc[st.i].Task? || s.pc[st.i].Cqe?
    ensures var o, p := s.op[st.i], Next(s, st).op[st.i];
      && (if Towards(j)(p) then 1 else 0)
         == (if Towards(j)(o) then 1 else 0) + (if BeginsSubmit(s, st, j) then 1 else 0)
  {
  }

  lemma TaskOpMoves(s: State, st: Step, j: nat)
    requires Shape(s) && Enabled(s, st) && !OwnLoop(st) && j < |s.flag|
    requires Shape(Next(s, st)) && |Next(s, st).flag| == |s.flag|
    requires s.op[st.i] != NoOp ==> s.pc[st.i].Task? || s.pc[st.i].Cqe?
    ensures var o, p := s.op[st.i], Next(s, st).op[st.i];
      && (if Towards(j)(p) then 1 else 0) + (if st.DoPush? && s.op[st.i].j == j then 1 else 0)
         == (if Towards(j)(o) then 1 else 0) + (if BeginsSubmit(s, st, j) then 1 else 0)
  {
  }

  /** A worker is inside a submit only while it runs a task or handles completions. */
  predicate OpOk(s: State, k: nat)
    requires Shape(s) && k < |s.flag|
  {
    s.op[k] != NoOp ==> s.pc[k].Task? || s.pc[k].Cqe?
  }

  lemma StepOp(s: State, st: Step, k: nat)
    requires Shape(s) && Enabled(s, st) && k < |s.flag| && OpOk(s, k)
    ensures Shape(Next(s, st)) && |Next(s, st).flag| == |s.flag| && OpOk(Next(s, st), k)
  {
    NextHasShape(s, st);
  }

  lemma {:induction false} OpThroughout(trace: seq<State>, steps: seq<Step>, i: nat, k: nat)
    requires Run(trace, steps) && i < |trace| && k < |trace[i].flag|
    ensures OpOk(trace[i], k)
  {
    if i == 0 {
      assert InitCtx(trace[0], k);
    } else {
      assert Follows(trace, steps, i - 1);
      NextHasShape(trace[i - 1], steps[i - 1]);
      OpThroughout(trace, steps, i - 1, k);
      StepOp(trace[i - 1], steps[i - 1], k);
    }
  }

  /** Every submit begun towards a context has been pushed to it or is still in progress. */
  lemma {:induction false} SubmitsAreConserved(trace: seq<State>, steps: seq<Step>, i: nat, j: nat)
    requires Run(trace, steps) && i < |trace| && j < |trace[i].flag|
    ensures Submits(trace, steps, i, j) == PushesTo(trace, steps, i, j) + Count(trace[i].op, Towards(j))
  {
    if i == 0 {
      NoSubmitYet(trace[0], j);
    } else {
      assert Follows(trace, steps, i - 1);
      NextHasShape(trace[i - 1], steps[i - 1]);
      SubmitsAreConserved(trace, steps, i - 1, j);
      OpThroughout(trace, steps, i - 1, steps[i - 1].i);
      StepMovesSubmits(trace[i - 1], steps[i - 1], j);
    }
  }

  lemma NoSubmitYet(s: State, j: nat)
    requires Init(s)
    ensures Count(s.op, Towards(j)) == 0
  {
    forall k | 0 <= k < |s.flag| ensures s.op[k] == NoOp { assert InitCtx(s, k); }
    CountPositive(s.op, Towards(j));
  }

  // ---------------------------------------------------------------- where IO goes

  function Started(steps: seq<Step>, i: nat, j: nat): nat
    requires i <= |steps|
  {
    if i == 0 then 0 else Started(steps, i - 1, j) + if steps[i - 1] == AddIo(j) then 1 else 0
  }

  /** How many completions worker j has handed to their coroutines. */
  function Handed(trace: seq<State>, steps: seq<Step>, i: nat, j: nat): nat
    requires |trace| == |steps| + 1 && i < |trace|
  {
    if i == 0 then 0 else
    Handed(trace, steps, i - 1, j)
    + if steps[i - 1] == DoCqe(j) && j < |trace[i].op| && trace[i].op[j] == PushTask(j, Local) then 1 else 0
  }

  function InHand(s: State, j: nat): nat
    requires Shape(s) && j < |s.flag|
  {
    s.ioWait[j] + s.inKernel[j] + s.cqes[j] + if s.pc[j].Cqe? then s.pc[j].left else 0
  }

  lemma StepMovesIo(s: State, st: Step, j: nat)
    requires Shape(s) && Enabled(s, st) && j < |s.flag|
    ensures var t := Next(s, st);
      && Shape(t) && |t.flag| == |s.flag|
      && InHand(t, j) + (if st == DoCqe(j) && t.op[j] == PushTask(j, Local) then 1 else 0)
         == InHand(s, j) + (if st == AddIo(j) then 1 else 0)
  {
    NextHasShape(s, st);
    if OwnLoop(st) { LoopMovesIo(s, st, j); } else { TaskMovesIo(s, st, j); }
  }

  lemma LoopMovesIo(s: State, st: Step, j: nat)
    requires Shape(s) && Enabled(s, st) && OwnLoop(st) && j < |s.flag|
    requires Shape(Next(s, st)) && |Next(s, st).flag| == |s.flag|
    ensures InHand(Next(s, st), j) + (if st == DoCqe(j) && Next(s, st).op[j] == PushTask(j, Local) then 1 else 0)
         == InHand(s, j)
  {
  }

  lemma TaskMovesIo(s: State, st: Step, j: nat)
    requires Shape(s) && Enabled(s, st) && !OwnLoop(st) && j < |s.flag|
    requires Shape(Next(s, st)) && |Next(s, st).flag| == |s.flag|
    ensures InHand(Next(s, st), j) == InHand(s, j) + (if st == AddIo(j) then 1 else 0)
  {
  }

  /** Every IO started is prepared, in the kernel, completed, in hand, or its coroutine has been queued, once. */
  lemma {:induction false} IoIsConserved(trace: seq<State>, steps: seq<Step>, i: nat, j: nat)
    requires Run(trace, steps) && i < |trace| && j < |trace[i].flag|
    ensures InHand(trace[i], j) + Handed(trace, steps, i, j) == Started(steps, i, j)
  {
    if i == 0 {
      assert InitCtx(trace[0], j);
    } else {
      assert Follows(trace, steps, i - 1);
      NextHasShape(trace[i - 1], steps[i - 1]);
      IoIsConserved(trace, steps, i - 1, j);
      StepMovesIo(trace[i - 1], steps[i - 1], j);
    }
  }

  // ---------------------------------------------------------------- what a read of the eventfd returns

  /** Completion signals and stop wakes written to j since its worker last read. */
  function LowWrites(trace: seq<State>, steps: seq<Step>, i: nat, j: nat): nat
    requires |trace| == |steps| + 1 && i < |trace|
  {
    if i == 0 then 0 else
    var s, st := trace[i - 1], steps[i - 1];
    var wake := st == Signal(j) || (st.DoNotifyWake? && st.i < |s.pc| && s.pc[st.i] == NotifyWake(j));
    if st == DoRead(j) then 0 else LowWrites(trace, steps, i - 1, j) + if wake then 1 else 0
  }

  /** task_flag writes to j since its worker last read; those before the run count until then. */
  function TaskWrites(trace: seq<State>, steps: seq<Step>, i: nat, j: nat): nat
    requires |trace| == |steps| + 1 && i < |trace|
  {
    if i == 0 then (if j < |trace[0].task| then trace[0].task[j] else 0) else
    var s, st := trace[i - 1], steps[i - 1];
    var wake := st.DoWake? && st.i < |s.op| && s.op[st.i] == WakeTask(j);
    if st == DoRead(j) then 0 else TaskWrites(trace, steps, i - 1, j) + if wake then 1 else 0
  }

  lemma StepWritesFd(s: State, st: Step, j: nat)
    requires Shape(s) && Enabled(s, st) && j < |s.flag|
    ensures var t := Next(s, st);
      var low := st == Signal(j) || (st.DoNotifyWake? && s.pc[st.i] == NotifyWake(j));
      var task := st.DoWake? && s.op[st.i] == WakeTask(j);
      && Shape(t) && |t.flag| == |s.flag|
      && t.low[j] == (if st == DoRead(j) then 0 else s.low[j] + if low then 1 else 0)
      && t.task[j] == (if st == DoRead(j) then 0 else s.task[j] + if task then 1 else 0)
  {
    NextHasShape(s, st);
    if OwnLoop(st) { LoopWritesFd(s, st, j); } else { TaskWritesFd(s, st, j); }
  }

  lemma LoopWritesFd(s: State, st: Step, j: nat)
    requires Shape(s) && Enabled(s, st) && OwnLoop(st) && j < |s.flag|
    requires Shape(Next(s, st)) && |Next(s, st).flag| == |s.flag|
    ensures var low := st.DoNotifyWake? && s.pc[st.i] == NotifyWake(j);
      Next(s, st).low[j] == if st == DoRead(j) then 0 else s.low[j] + if low then 1 else 0
    ensures Next(s, st).task[j] == if st == DoRead(j) then 0 else s.task[j]
  {
  }

  lemma TaskWritesFd(s: State, st: Step, j: nat)
    requires Shape(s) && Enabled(s, st) && !OwnLoop(st) && j < |s.flag|
    requires Shape(Next(s, st)) && |Next(s, st).flag| == |s.flag|
    ensures Next(s, st).low[j] == s.low[j] + if st == Signal(j) then 1 else 0
    ensures Next(s, st).task[j] == s.task[j] + if st.DoWake? && s.op[st.i] == WakeTask(j) then 1 else 0
  {
  }

  /** The eventfd holds exactly what has been written since the last read. */
  lemma {:induction false} FdHoldsTheWrites(trace: seq<State>, steps: seq<Step>, i: nat, j: nat)
    requires Run(trace, steps) && i < |trace| && j < |trace[i].flag|
    ensures trace[i].low[j] == LowWrites(trace, steps, i, j) && trace[i].task[j] == TaskWrites(trace, steps, i, j)
  {
    if i == 0 {
      assert InitCtx(trace[0], j);
    } else {
      assert Follows(trace, steps, i - 1);
      NextHasShape(trace[i - 1], steps[i - 1]);
      FdHoldsTheWrites(trace, steps, i - 1, j);
      StepWritesFd(trace[i - 1], steps[i - 1], j);
    }
  }

  /**
   A read leads to the completions exactly if a completion or a stop wake has been written since the last one, as long
   as those writes do not fill their field; otherwise straight to the tasks.
   */
  lemma PeeksExactlyIfWoken(trace: seq<State>, steps: seq<Step>, i: nat, j: nat)
    requires Run(trace, steps) && i < |steps| && steps[i] == DoRead(j) && j < |trace[i + 1].pc|
    requires LowWrites(trace, steps, i, j) < 0x100_0000
    ensures trace[i + 1].pc[j] == if LowWrites(trace, steps, i, j) > 0 then Peek else Snapshot
  {
    assert Follows(trace, steps, i);
    FdHoldsTheWrites(trace, steps, i, j);
    EventFd.CqeField(trace[i].task[j], trace[i].low[j]);
  }

  /** Submitters that were between push and wake when worker j last read. */
  function LateAt(trace: seq<State>, steps: seq<Step>, i: nat, j: nat): nat
    requires |trace| == |steps| + 1 && i < |trace|
  {
    if i == 0 then 0
    else if steps[i - 1] == DoRead(j) then Count(trace[i - 1].op, WakingUp(j))
    else LateAt(trace, steps, i - 1, j)
  }

  lemma {:induction false} WindowIsLate(trace: seq<State>, steps: seq<Step>, i: nat, j: nat)
    requires Run(trace, steps) && i < |trace| && j < |trace[i].flag|
    ensures WindowAt(trace, steps, i).late[j] == LateAt(trace, steps, i, j)
  {
    if i > 0 {
      assert Follows(trace, steps, i - 1);
      NextHasShape(trace[i - 1], steps[i - 1]);
      WindowIsLate(trace, steps, i - 1, j);
    }
  }

  /**
   Until a context is asked to stop, the task writes since its last read number at most twice the queue's 16384 plus
   the submitters that were between push and wake at that read. With fewer contexts than would fill the field and
   fewer than 2^24 other writes nothing carries, and each wake test reports exactly its own writes.
   */
  lemma FieldsNeverCarry(trace: seq<State>, steps: seq<Step>, i: nat, j: nat)
    requires Run(trace, steps) && i < |trace| && j < |trace[i].flag| && !trace[i].stopReq[j]
    ensures TaskWrites(trace, steps, i, j) <= 2 * 16384 + LateAt(trace, steps, i, j)
    ensures LateAt(trace, steps, i, j) <= |trace[i].flag|
    ensures |trace[i].flag| < 0x10_0000 - 2 * 16384 && LowWrites(trace, steps, i, j) < 0x100_0000 ==>
              var value := EventFd.Value(trace[i].task[j], trace[i].low[j]);
              && value < 0x1_0000_0000_0000_0000
              && (EventFd.WakeByCqe(value) <==> LowWrites(trace, steps, i, j) > 0)
              && (EventFd.WakeByTask(value) <==> TaskWrites(trace, steps, i, j) > 0)
  {
    FdHoldsTheWrites(trace, steps, i, j);
    WindowIsLate(trace, steps, i, j);
    WindowBound(trace, steps, i, j);
    if |trace[i].flag| < 0x10_0000 - 2 * 16384 && trace[i].low[j] < 0x100_0000 {
      EventFd.FieldsAreExact(trace[i].task[j], trace[i].low[j]);
    }
  }

  /** A push waits exactly while the queue holds its 16384 handles. */
  lemma PushWaitsWhileFull(s: State, i: nat)
    requires Shape(s) && i < |s.flag| && s.op[i].PushTask? && s.op[i].j < |s.flag|
    ensures Enabled(s, DoPush(i)) <==> Queue(s, s.op[i].j) < 16384
  {
  }
}
