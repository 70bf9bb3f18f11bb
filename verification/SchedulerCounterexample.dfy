/**
 Without the assumption of SchedulerQuiesce stop can come too early. While a submit from context i to context j is
 between its flag access and its push, j runs its idle path and takes its own mark out of the token; if i is the last
 busy context, it then ends, finds the token at 1, and broadcasts stop while the new task sits in j's queue. A run of
 two contexts reaches such an overlap.
 */
module SchedulerCounterexample {
  import opened Counting
  import EventFd
  import opened SchedulerModel
  import opened SchedulerCounts
  import opened SchedulerQuiesce
  import opened SchedulerTheorems

  ghost predicate Reachable(s: State) {
    exists trace, steps :: Run(trace, steps) && trace[|steps|] == s
  }

  lemma Extend(s: State, st: Step)
    requires Reachable(s) && Shape(s) && Enabled(s, st)
    ensures Reachable(Next(s, st)) && Shape(Next(s, st))
  {
    var trace, steps :| Run(trace, steps) && trace[|steps|] == s;
    var t := Next(s, st);
    NextHasShape(s, st);
    var trace', steps' := trace + [t], steps + [st];
    forall i | 0 <= i < |steps'| ensures Follows(trace', steps', i) {
      if i < |steps| { assert Follows(trace, steps, i); }
    }
    assert Run(trace', steps') && trace'[|steps'|] == t;
  }

  /** Two contexts that differ from their initial state only in what is listed. */
  predicate Is(s: State, token: int, f0: bool, f1: bool, a0: nat, a1: nat, p0: Pc, p1: Pc, op0: Op) {
    && Shape(s) && |s.flag| == 2 && s.token == token
    && s.flag[0] == f0 && s.flag[1] == f1 && s.added[0] == a0 && s.added[1] == a1
    && s.pc[0] == p0 && s.pc[1] == p1 && s.op[0] == op0 && s.op[1] == NoOp
    && s.resumed[0] == 0 && s.resumed[1] == 0 && s.waits[0] == 0 && s.waits[1] == 0
    && s.ioWait[0] == 0 && s.ioWait[1] == 0 && s.ioRun[0] == 0 && s.ioRun[1] == 0
    && !s.stopReq[0] && !s.stopReq[1] && !s.owed[0] && s.low[1] == 0
  }

  function TwoContexts(): State {
    State(2, [true, true], [1, 0], [0, 0], [1, 0], [0, 0], [0, 0], [0, 0], [0, 0], [0, 0], [0, 0], [0, 0], [0, 0],
          [false, false], [NotStarted, NotStarted], [NoOp, NoOp], [false, false])
  }

  lemma Begun() returns (s: State)
    ensures Reachable(s) && Is(s, 2, true, true, 1, 0, NotStarted, NotStarted, NoOp)
  {
    s := TwoContexts();
    var none: seq<Step> := [];
    assert Run([s], none) && [s][|none|] == s;
  }

  lemma TaskRuns() returns (s: State)
    ensures Reachable(s) && Is(s, 2, true, true, 0, 0, Task(0), NotStarted, NoOp)
  {
    s := Begun();
    Extend(s, Start(0));
    s := Next(s, Start(0));
    Extend(s, DoSnapshot(0));
    s := Next(s, DoSnapshot(0));
    Extend(s, DoLoop(0, false));
    s := Next(s, DoLoop(0, false));
  }

  /** Context 0's task has set the flag of context 1 and raised nothing, and is about to push. */
  lemma SubmitUnderWay() returns (s: State)
    ensures Reachable(s) && Is(s, 2, true, true, 0, 0, Task(0), NotStarted, PushTask(1, Scheduled))
  {
    s := TaskRuns();
    Extend(s, Submit(0, 1));
    s := Next(s, Submit(0, 1));
    Extend(s, DoAddToken(0));
    s := Next(s, DoAddToken(0));
  }

  /** Worker i, with nothing queued, passes every idle test. */
  lemma IdlePath(s: State, i: nat) returns (t: State)
    requires Reachable(s) && Shape(s) && i < |s.flag| && s.pc[i] == Loop(0) && s.op[i] == NoOp
    requires Queue(s, i) == 0 && s.waits[i] == 0 && s.ioWait[i] == 0 && s.ioRun[i] == 0 && !s.stopReq[i]
    ensures Reachable(t) && t == Goto(s, i, ClearFlag)
  {
    Extend(s, DoLoop(i, false));
    t := Next(s, DoLoop(i, false));
    Extend(t, DoTest(i));
    t := Next(t, DoTest(i));
    assert t == Goto(s, i, TestStop(true));
    t := IdleTests(t, i);
    assert t.pc == s.pc[i := ClearFlag];
  }

  lemma IdleTests(s: State, i: nat) returns (t: State)
    requires Reachable(s) && Shape(s) && i < |s.flag| && s.pc[i] == TestStop(true)
    requires Queue(s, i) == 0 && s.waits[i] == 0 && s.ioWait[i] == 0 && s.ioRun[i] == 0 && !s.stopReq[i]
    ensures Reachable(t) && t == Goto(s, i, ClearFlag)
  {
    TestOnce(s, i, TestWait(true));
    var t1 := Goto(s, i, TestWait(true));
    TestOnce(t1, i, TestIo(true));
    var t2 := Goto(t1, i, TestIo(true));
    TestOnce(t2, i, TestReady(true));
    var t3 := Goto(t2, i, TestReady(true));
    TestOnce(t3, i, ClearFlag);
    t := Goto(t3, i, ClearFlag);
    assert t.pc == s.pc[i := ClearFlag];
  }

  lemma TestOnce(s: State, i: nat, pc: Pc)
    requires Reachable(s) && Shape(s) && i < |s.flag| && Testing(s.pc[i]) && AfterTest(s, i) == pc
    ensures Reachable(Goto(s, i, pc)) && Shape(Goto(s, i, pc))
  {
    Extend(s, DoTest(i));
  }

  /** Worker j is about to clear its flag while worker i is inside a scheduler submit, to j or to another context. */
  predicate Overlapping(s: State, i: nat, j: nat)
    requires Shape(s)
  {
    && i < |s.flag| && j < |s.flag| && i != j && s.pc[j].ClearFlag?
    && (s.op[i].AddToken? || (s.op[i].PushTask? && s.op[i].kind.Scheduled?))
    && s.op[i].j < |s.flag| && Queue(s, s.op[i].j) < CAP
  }

  /** The state after i raised the token, if it had not yet. */
  function Raised(s: State, i: nat): State
    requires Shape(s) && i < |s.flag|
  {
    if s.op[i].AddToken? then Next(s, DoAddToken(i)) else s
  }

  /** The submit goes on up to its push, and j clears its flag just before that. */
  function AfterOverlap(s: State, i: nat, j: nat): State
    requires Shape(s) && Overlapping(s, i, j)
  {
    var t := Next(Raised(s, i), DoClearFlag(j));
    assert t.op[i] == PushTask(s.op[i].j, Scheduled) && Queue(t, s.op[i].j) == Queue(s, s.op[i].j);
    Next(t, DoPush(i))
  }

  /** Every overlap is a threat, not only the one above: it leaves a context that has work without its busy mark. */
  lemma OverlapLosesTheMark(s: State, i: nat, j: nat)
    requires Reachable(s) && Shape(s) && Overlapping(s, i, j) && s.op[i].j == j
    ensures var t := AfterOverlap(s, i, j);
      Reachable(t) && Shape(t) && |t.flag| == |s.flag| && !t.flag[j] && !NoWork(t, j)
  {
    RaisedReachable(s, i);
    MarkLost(Raised(s, i), i, j);
  }

  lemma RaisedReachable(s: State, i: nat)
    requires Reachable(s) && Shape(s) && i < |s.flag|
    ensures Reachable(Raised(s, i)) && Shape(Raised(s, i))
  {
    if s.op[i].AddToken? { Extend(s, DoAddToken(i)); }
  }

  lemma MarkLost(s: State, i: nat, j: nat)
    requires Reachable(s) && Shape(s) && i < |s.flag| && j < |s.flag| && i != j && s.pc[j].ClearFlag?
    requires s.op[i] == PushTask(j, Scheduled) && Queue(s, j) < CAP
    ensures var t := Next(Next(s, DoClearFlag(j)), DoPush(i));
      Reachable(t) && Shape(t) && |t.flag| == |s.flag| && !t.flag[j] && !NoWork(t, j)
  {
    Extend(s, DoClearFlag(j));
    Extend(Next(s, DoClearFlag(j)), DoPush(i));
  }

  // ---------------------------------------------------------------- from an overlap to a premature stop

  /** Nothing is queued for i, and it has no wait, IO or stop request. */
  predicate Spent(s: State, i: nat)
    requires Shape(s) && i < |s.flag|
  {
    !s.owed[i] && Queue(s, i) == 0 && s.waits[i] == 0 && s.ioWait[i] == 0 && s.ioRun[i] == 0 && !s.stopReq[i]
  }

  /** Besides i and j every context has its flag down and no update of token or queue under way. */
  predicate OthersDone(s: State, i: nat, j: nat)
    requires Shape(s)
  {
    && i < |s.flag| && j < |s.flag| && i != j && s.op[j] == NoOp
    && forall k | 0 <= k < |s.flag| && k != i && k != j :: !s.flag[k] && s.op[k] == NoOp && !s.pc[k].SubToken?
  }

  /** i is the last busy context, in the last task of its round. */
  predicate LastTask(s: State, i: nat, j: nat)
    requires Shape(s)
  {
    OthersDone(s, i, j) && s.pc[i] == Task(0) && s.flag[i] && Spent(s, i)
  }

  /** The submit that overlaps j's idle path is made by the last busy context, in the last task of its round. */
  predicate LastSubmit(s: State, i: nat, j: nat)
    requires Shape(s)
  {
    Overlapping(s, i, j) && s.op[i].j == j && LastTask(s, i, j)
  }

  lemma ReachableAccounts(s: State)
    requires Reachable(s)
    ensures Shape(s) && Accounted(s)
  {
    var trace, steps :| Run(trace, steps) && trace[|steps|] == s;
    RunAlways(trace, steps, |steps|);
  }

  /** With no add pending and at most one subtraction, the token is what is left of flags and subtractions. */
  lemma TokenOf(s: State, i: nat, j: nat, k: nat)
    requires Reachable(s) && Shape(s) && OthersDone(s, i, j) && !s.flag[j] && !s.op[i].AddToken?
    requires k < |s.flag| && forall m | 0 <= m < |s.flag| && m != k :: !s.pc[m].SubToken?
    ensures s.token == (if s.flag[i] then 1 else 0) + (if SubsPending()(s.pc[k]) then 1 else 0)
    ensures s.pc[k].SubToken? ==> s.pc[k].cnt <= 1
  {
    ReachableAccounts(s);
    CountSingle(s.flag, i, IsBusy());
    CountSingle(s.op, i, AddsPending());
    CountSingle(s.pc, k, SubsPending());
  }

  /** After the push, j takes its own mark out of the token, which i keeps above zero. */
  lemma TargetSettles(s: State, i: nat, j: nat) returns (t: State)
    requires Reachable(s) && Shape(s) && LastSubmit(s, i, j)
    ensures Reachable(t) && Shape(t) && |t.flag| == |s.flag| && LastTask(t, i, j) && !t.flag[j]
    ensures t.op[i] == WakeTask(j) && t.pc[j] == Poll
    ensures Queue(t, j) == Queue(s, j) + 1 && t.low == s.low
  {
    OverlapLosesTheMark(s, i, j);
    var r := AfterOverlap(s, i, j);
    OverlapFrame(s, i, j);
    TokenOf(r, i, j, j);
    Extend(r, DoSubToken(j));
    t := Next(r, DoSubToken(j));
  }

  lemma OverlapFrame(s: State, i: nat, j: nat)
    requires Shape(s) && LastSubmit(s, i, j)
    ensures var r := AfterOverlap(s, i, j);
      && Shape(r) && |r.flag| == |s.flag| && LastTask(r, i, j) && !r.flag[j]
      && r.op[i] == WakeTask(j) && r.pc[j].SubToken? && Queue(r, j) == Queue(s, j) + 1 && r.low == s.low
  {
    RaiseFrame(s, i, j);
    var r := Raised(s, i);
    ClearFrame(r, i, j);
    PushFrame(Next(r, DoClearFlag(j)), i, j);
  }

  lemma RaiseFrame(s: State, i: nat, j: nat)
    requires Shape(s) && LastSubmit(s, i, j)
    ensures var r := Raised(s, i);
      && Shape(r) && |r.flag| == |s.flag| && LastTask(r, i, j)
      && r.op[i] == PushTask(j, Scheduled) && r.pc[j].ClearFlag? && Queue(r, j) == Queue(s, j) && r.low == s.low
  {
  }

  lemma ClearFrame(s: State, i: nat, j: nat)
    requires Shape(s) && LastTask(s, i, j) && s.pc[j].ClearFlag?
    ensures var r := Next(s, DoClearFlag(j));
      && Shape(r) && |r.flag| == |s.flag| && LastTask(r, i, j) && !r.flag[j]
      && r.op == s.op && r.pc[j].SubToken? && Queue(r, j) == Queue(s, j) && r.low == s.low
  {
  }

  lemma PushFrame(s: State, i: nat, j: nat)
    requires Shape(s) && LastTask(s, i, j) && s.op[i] == PushTask(j, Scheduled) && Queue(s, j) < CAP
    ensures var r := Next(s, DoPush(i));
      && Shape(r) && |r.flag| == |s.flag| && LastTask(r, i, j) && r.flag == s.flag
      && r.op[i] == WakeTask(j) && r.pc == s.pc && Queue(r, j) == Queue(s, j) + 1 && r.low == s.low
  {
  }

  /** i writes the eventfd and ends its task. */
  lemma SubmitterEnds(s: State, i: nat, j: nat) returns (t: State)
    requires Reachable(s) && Shape(s) && LastTask(s, i, j) && !s.flag[j] && s.pc[j] == Poll && s.op[i] == WakeTask(j)
    ensures Reachable(t) && Shape(t) && |t.flag| == |s.flag| && OthersDone(t, i, j) && t.flag == s.flag && Spent(t, i)
    ensures t.pc[i] == Loop(0) && t.op[i] == NoOp && t.pc[j] == Poll
    ensures Queue(t, j) == Queue(s, j) && t.low == s.low && t.task[j] > 0
  {
    Extend(s, DoWake(i));
    WakeFrame(s, i, j);
    t := Next(s, DoWake(i));
    Extend(t, Finish(i));
    FinishFrame(t, i, j);
    t := Next(t, Finish(i));
  }

  lemma WakeFrame(s: State, i: nat, j: nat)
    requires Shape(s) && LastTask(s, i, j) && s.op[i] == WakeTask(j)
    ensures var t := Next(s, DoWake(i));
      && Shape(t) && LastTask(t, i, j) && t.flag == s.flag && t.pc == s.pc && t.op[i] == NoOp
      && Queue(t, j) == Queue(s, j) && t.low == s.low && t.task[j] > 0
  {
  }

  lemma FinishFrame(s: State, i: nat, j: nat)
    requires Shape(s) && LastTask(s, i, j) && s.op[i] == NoOp
    ensures var t := Next(s, Finish(i));
      && Shape(t) && OthersDone(t, i, j) && t.flag == s.flag && Spent(t, i) && t.pc[i] == Loop(0) && t.pc[j] == s.pc[j]
      && t.op == s.op && Queue(t, j) == Queue(s, j) && t.low == s.low && t.task == s.task
  {
  }

  /** It finds nothing left to do, and clears its flag. */
  lemma SubmitterIdles(s: State, i: nat, j: nat) returns (t: State)
    requires Reachable(s) && Shape(s) && OthersDone(s, i, j) && !s.flag[j] && s.pc[j] == Poll
    requires s.pc[i] == Loop(0) && s.op[i] == NoOp && Spent(s, i)
    ensures Reachable(t) && Shape(t) && |t.flag| == |s.flag| && OthersDone(t, i, j) && !t.flag[j] && !t.flag[i]
    ensures t.pc[i].SubToken? && t.op == s.op && t.pc[j] == Poll
    ensures Queue(t, j) == Queue(s, j) && t.low == s.low && t.task == s.task
  {
    t := IdlePath(s, i);
    Extend(t, DoClearFlag(i));
    t := Next(t, DoClearFlag(i));
  }

  /**
   From every overlap whose submit is made by the last busy context, in the last task of its round, stop can be
   broadcast over the submitted task.
   */
  lemma OverlapStops(s: State, i: nat, j: nat) returns (t: State)
    requires Reachable(s) && Shape(s) && LastSubmit(s, i, j)
    ensures Reachable(t) && Shape(t) && |t.flag| == |s.flag| && t.pc[i] == NotifyReq(0) && t.token == 0
    ensures !NoWork(t, j) && Queue(t, j) == Queue(s, j) + 1 && t.pc[j] == Poll && t.op[j] == NoOp
    ensures t.low[j] == s.low[j] && t.task[j] > 0
  {
    var r := TargetSettles(s, i, j);
    r := SubmitterEnds(r, i, j);
    r := SubmitterIdles(r, i, j);
    TokenOf(r, i, j, i);
    Extend(r, DoSubToken(i));
    t := Next(r, DoSubToken(i));
  }

  /** Context 1 comes to the end of its idle path inside the submit aimed at it. */
  lemma IdleInside() returns (s: State)
    ensures Reachable(s) && Is(s, 2, true, true, 0, 0, Task(0), ClearFlag, PushTask(1, Scheduled))
  {
    s := SubmitUnderWay();
    Extend(s, Start(1));
    s := Next(s, Start(1));
    Extend(s, DoSnapshot(1));
    s := Next(s, DoSnapshot(1));
    s := IdlePath(s, 1);
  }

  /** A reachable state in which stop is being broadcast although context 1 has a task queued. */
  lemma PrematureStop() returns (s: State)
    ensures Reachable(s) && Shape(s) && |s.flag| == 2
    ensures s.pc[0] == NotifyReq(0) && s.token == 0 && Queue(s, 1) == 1 && !NoWork(s, 1)
    ensures s.pc[1] == Poll && s.op[1] == NoOp && s.low[1] == 0 && s.task[1] > 0
  {
    s := IdleInside();
    s := OverlapStops(s, 0, 1);
  }

  /** Context 1 reads its eventfd and starts the next round. */
  lemma Stranded() returns (s: State)
    ensures Reachable(s) && Shape(s) && |s.flag| == 2 && s.pc[1] == Snapshot && s.op[1] == NoOp && s.token == 0
    ensures Queue(s, 1) == 1
  {
    s := PrematureStop();
    Extend(s, DoPoll(1));
    s := Next(s, DoPoll(1));
    EventFd.CqeField(s.task[1], s.low[1]);
    Extend(s, DoRead(1));
    s := Next(s, DoRead(1));
  }

  lemma StrandedCounted() returns (s: State)
    ensures Reachable(s) && Shape(s) && |s.flag| == 2 && s.pc[1] == Loop(1) && s.op[1] == NoOp && s.token == 0
    ensures Queue(s, 1) == 1
  {
    s := Stranded();
    Extend(s, DoSnapshot(1));
    s := Next(s, DoSnapshot(1));
  }

  /** The stranded task then runs with the token at zero: if it submits, the assertion of submit_task_impl fails. */
  lemma StrandedTaskSubmits() returns (s: State)
    ensures Reachable(s) && Shape(s) && |s.flag| == 2 && Enabled(s, Submit(1, 0)) && s.token == 0
  {
    s := StrandedCounted();
    var resumed := s.resumed[1] > 0;
    Extend(s, DoLoop(1, resumed));
    s := Next(s, DoLoop(1, resumed));
  }
}
