/**
 The scheduler with its contexts after `loop` has been called, one atomic access per step.

 Context k and its worker thread share the index k. A running task may submit through the scheduler, resume a
 parked coroutine of any context, submit to its own context, register or unregister a wait, start IO and end.
 Tasks submitted before `loop` are already queued in the initial state; nobody outside submits afterwards.
 */
module SchedulerModel {
  import EventFd

  /** config::kQueCap */
  const CAP: nat := 16384

  datatype Kind = Scheduled | Resumed | Local

  /** The submit the running task (or completion callback) of a worker is in the middle of. */
  datatype Op =
    | NoOp
    | AddToken(j: nat, flipped: bool)  // flag of j fetched and set, token not yet raised
    | PushTask(j: nat, kind: Kind)     // about to push on j's queue
    | WakeTask(j: nat)                 // pushed, about to write task_flag to j's eventfd

  datatype Pc =
    | NotStarted
    | Snapshot                 // process_work: about to read the queue size
    | Loop(rem: nat)           // tasks of the snapshot still to run
    | Task(rem: nat)           // running one
    | TestStop(second: bool)   // the conditions of the two ifs in run, in order
    | TestWait(second: bool)
    | TestIo(second: bool)
    | TestReady(second: bool)
    | ClearFlag                // stop callback: about to fetch_and the flag
    | SubToken(cnt: nat)       // about to fetch_sub the token
    | NotifyReq(i: nat)        // stop_impl: about to request_stop of context i
    | NotifyWake(i: nat)       // about to wake it
    | Poll                     // do_io_submit
    | ReadFd                   // at or blocked in eventfd_read
    | Peek                     // wake_by_cqe: about to peek_batch_cqe
    | Cqe(num: nat, left: nat) // handling completions
    | Exited

  datatype State = State(
    token: int,          // m_stop_token
    flag: seq<bool>,     // m_ctx_stop_flag, per context from here on
    added: seq<nat>,     // task queue: newly submitted handles
    resumed: seq<nat>,   // task queue: handles of coroutines that had been parked
    task: seq<nat>,      // eventfd: task_flag units
    low: seq<nat>,       // eventfd: units of 1 (completions and stop wakes)
    waits: seq<int>,     // m_num_wait_task
    parked: seq<nat>,    // registered coroutines sitting in an awaiter list
    ioWait: seq<nat>,    // m_num_io_wait_submit
    ioRun: seq<nat>,     // m_num_io_running
    inKernel: seq<nat>,  // submitted, not completed
    cqes: seq<nat>,      // completed, not peeked
    unsignalled: seq<nat>, // completed, eventfd not written yet
    stopReq: seq<bool>,  // request_stop has been called
    pc: seq<Pc>,
    op: seq<Op>,
    owed: seq<bool>)     // the running task has registered and not unregistered

  predicate Shape(s: State) {
    var n := |s.flag|;
    && |s.added| == n && |s.resumed| == n && |s.task| == n && |s.low| == n && |s.waits| == n && |s.parked| == n
    && |s.ioWait| == n && |s.ioRun| == n && |s.inKernel| == n && |s.cqes| == n && |s.unsignalled| == n
    && |s.stopReq| == n && |s.pc| == n && |s.op| == n && |s.owed| == n
  }

  function Queue(s: State, j: nat): nat
    requires Shape(s) && j < |s.flag|
  {
    s.added[j] + s.resumed[j]
  }

  /** init_impl, then any number of finished submits: they find every flag at 1, so they leave token and flags alone. */
  predicate InitCtx(s: State, j: nat)
    requires Shape(s) && j < |s.flag|
  {
    && s.flag[j] && s.added[j] == s.task[j] <= CAP && s.resumed[j] == 0 && s.low[j] == 0
    && s.waits[j] == 0 && s.parked[j] == 0 && s.ioWait[j] == 0 && s.ioRun[j] == 0 && s.inKernel[j] == 0
    && s.cqes[j] == 0 && s.unsignalled[j] == 0 && !s.stopReq[j] && s.pc[j] == NotStarted && s.op[j] == NoOp
    && !s.owed[j]
  }

  predicate Init(s: State) {
    Shape(s) && s.token == |s.flag| && forall j | 0 <= j < |s.flag| :: InitCtx(s, j)
  }

  datatype Step =
    // the worker's own loop
    | Start(i: nat)
    | DoSnapshot(i: nat)
    | DoLoop(i: nat, takeResumed: bool)
    | DoTest(i: nat)
    | DoClearFlag(i: nat)
    | DoSubToken(i: nat)
    | DoNotifyReq(i: nat)
    | DoNotifyWake(i: nat)
    | DoPoll(i: nat)
    | DoRead(i: nat)
    | DoPeek(i: nat)
    | DoCqe(i: nat)
    // the running task
    | Submit(i: nat, j: nat)
    | Resume(i: nat, j: nat)
    | SubmitLocal(i: nat)
    | Register(i: nat)
    | Unregister(i: nat)
    | Park(i: nat)
    | AddIo(i: nat)
    | Finish(i: nat)
    // a submit in progress
    | DoAddToken(i: nat)
    | DoPush(i: nat)
    | DoWake(i: nat)
    // the kernel
    | Complete(i: nat)
    | Signal(i: nat)

  predicate Testing(pc: Pc) {
    pc.TestStop? || pc.TestWait? || pc.TestIo? || pc.TestReady?
  }

  predicate InTask(s: State, i: nat)
    requires Shape(s) && i < |s.flag|
  {
    s.pc[i].Task? && s.op[i] == NoOp
  }

  predicate Enabled(s: State, st: Step)
    requires Shape(s)
  {
    && st.i < |s.flag|
    && match st
       case Start(i) => s.pc[i].NotStarted?
       case DoSnapshot(i) => s.pc[i].Snapshot?
       case DoLoop(i, takeResumed) =>
         s.pc[i].Loop? && (s.pc[i].rem > 0 ==> if takeResumed then s.resumed[i] > 0 else s.added[i] > 0)
       case DoTest(i) => Testing(s.pc[i])
       case DoClearFlag(i) => s.pc[i].ClearFlag?
       case DoSubToken(i) => s.pc[i].SubToken?
       case DoNotifyReq(i) => s.pc[i].NotifyReq? && (s.pc[i].i < |s.flag| ==> !s.pc[s.pc[i].i].NotStarted?)
       case DoNotifyWake(i) => s.pc[i].NotifyWake? && s.pc[i].i < |s.flag|
       case DoPoll(i) => s.pc[i].Poll?
       case DoRead(i) => s.pc[i].ReadFd? && s.task[i] + s.low[i] > 0
       case DoPeek(i) => s.pc[i].Peek?
       case DoCqe(i) => s.pc[i].Cqe? && s.op[i] == NoOp
       case Submit(i, j) => InTask(s, i) && j < |s.flag|
       case Resume(i, j) => InTask(s, i) && j < |s.flag| && s.parked[j] > 0
       case SubmitLocal(i) => InTask(s, i)
       case Register(i) => InTask(s, i) && !s.owed[i]
       case Unregister(i) => InTask(s, i) && s.owed[i]
       case Park(i) => InTask(s, i) && s.owed[i]
       case AddIo(i) => InTask(s, i)
       case Finish(i) => InTask(s, i) && !s.owed[i]
       case DoAddToken(i) => s.op[i].AddToken?
       case DoPush(i) => s.op[i].PushTask? && s.op[i].j < |s.flag| && Queue(s, s.op[i].j) < CAP
       case DoWake(i) => s.op[i].WakeTask? && s.op[i].j < |s.flag|
       case Complete(i) => s.inKernel[i] > 0
       case Signal(i) => s.unsignalled[i] > 0
  }

  function Goto(s: State, i: nat, pc: Pc): State
    requires Shape(s) && i < |s.flag|
  {
    s.(pc := s.pc[i := pc])
  }

  function Begin(s: State, i: nat, op: Op): State
    requires Shape(s) && i < |s.flag|
  {
    s.(op := s.op[i := op])
  }

  function LoopStep(s: State, i: nat, takeResumed: bool): State
    requires Shape(s) && Enabled(s, DoLoop(i, takeResumed))
  {
    var rem := s.pc[i].rem;
    if rem == 0 then Goto(s, i, TestStop(false))
    else if takeResumed
    then Goto(s.(resumed := s.resumed[i := s.resumed[i] - 1], owed := s.owed[i := true]), i, Task(rem - 1))
    else Goto(s.(added := s.added[i := s.added[i] - 1], owed := s.owed[i := false]), i, Task(rem - 1))
  }

  /** Where the two ifs of context::run go from one of their conditions. */
  function AfterTest(s: State, i: nat): Pc
    requires Shape(s) && i < |s.flag| && Testing(s.pc[i])
  {
    match s.pc[i]
    case TestStop(second) =>
      if second then (if s.stopReq[i] then Poll else TestWait(true))
      else if s.stopReq[i] then TestWait(false) else TestStop(true)
    case TestWait(second) => if s.waits[i] == 0 then TestIo(second) else if second then Poll else TestStop(true)
    case TestIo(second) =>
      if s.ioWait[i] == 0 && s.ioRun[i] == 0 then TestReady(second) else if second then Poll else TestStop(true)
    case TestReady(second) =>
      if second then (if Queue(s, i) == 0 then ClearFlag else Poll)
      else if Queue(s, i) > 0 then Snapshot else Exited
  }

  function SubTokenStep(s: State, i: nat): State
    requires Shape(s) && Enabled(s, DoSubToken(i))
  {
    var cnt := s.pc[i].cnt;
    Goto(s.(token := s.token - cnt), i, if s.token == cnt then NotifyReq(0) else Poll)
  }

  function NotifyReqStep(s: State, i: nat): State
    requires Shape(s) && Enabled(s, DoNotifyReq(i))
  {
    var j := s.pc[i].i;
    if j < |s.flag| then Goto(s.(stopReq := s.stopReq[j := true]), i, NotifyWake(j)) else Goto(s, i, Poll)
  }

  function NotifyWakeStep(s: State, i: nat): State
    requires Shape(s) && Enabled(s, DoNotifyWake(i))
  {
    var j := s.pc[i].i;
    Goto(s.(low := s.low[j := s.low[j] + 1]), i, NotifyReq(j + 1))
  }

  function PollStep(s: State, i: nat): State
    requires Shape(s) && Enabled(s, DoPoll(i))
  {
    Goto(s.(ioRun := s.ioRun[i := s.ioRun[i] + s.ioWait[i]], inKernel := s.inKernel[i := s.inKernel[i] + s.ioWait[i]],
            ioWait := s.ioWait[i := 0]), i, ReadFd)
  }

  function ReadStep(s: State, i: nat): State
    requires Shape(s) && Enabled(s, DoRead(i))
  {
    var value := EventFd.Value(s.task[i], s.low[i]);
    Goto(s.(task := s.task[i := 0], low := s.low[i := 0]), i, if EventFd.WakeByCqe(value) then Peek else Snapshot)
  }

  /** peek_batch_cqe returns at most m_num_io_running entries. */
  function PeekStep(s: State, i: nat): State
    requires Shape(s) && Enabled(s, DoPeek(i))
  {
    var num := if s.cqes[i] < s.ioRun[i] then s.cqes[i] else s.ioRun[i];
    Goto(s.(cqes := s.cqes[i := s.cqes[i] - num]), i, if num == 0 then Snapshot else Cqe(num, num))
  }

  /** Every completion callback submits its coroutine to the local context; then the batch is subtracted. */
  function CqeStep(s: State, i: nat): State
    requires Shape(s) && Enabled(s, DoCqe(i))
  {
    var Cqe(num, left) := s.pc[i];
    if left > 0 then Begin(Goto(s, i, Cqe(num, left - 1)), i, PushTask(i, Local))
    else Goto(s.(ioRun := s.ioRun[i := if num <= s.ioRun[i] then s.ioRun[i] - num else 0]), i, Snapshot)
  }

  /** submit_task_impl, first access: fetch_or the flag of the dispatched context. */
  function SubmitStep(s: State, i: nat, j: nat): State
    requires Shape(s) && Enabled(s, Submit(i, j))
  {
    Begin(s.(flag := s.flag[j := true]), i, AddToken(j, !s.flag[j]))
  }

  function AddTokenStep(s: State, i: nat): State
    requires Shape(s) && Enabled(s, DoAddToken(i))
  {
    var AddToken(j, flipped) := s.op[i];
    Begin(s.(token := s.token + if flipped then 1 else 0), i, PushTask(j, Scheduled))
  }

  function PushStep(s: State, i: nat): State
    requires Shape(s) && Enabled(s, DoPush(i))
  {
    var PushTask(j, kind) := s.op[i];
    if kind.Resumed?
    then Begin(s.(resumed := s.resumed[j := s.resumed[j] + 1]), i, WakeTask(j))
    else Begin(s.(added := s.added[j := s.added[j] + 1]), i, WakeTask(j))
  }

  function WakeStep(s: State, i: nat): State
    requires Shape(s) && Enabled(s, DoWake(i))
  {
    var j := s.op[i].j;
    Begin(s.(task := s.task[j := s.task[j] + 1]), i, NoOp)
  }

  function Next(s: State, st: Step): State
    requires Shape(s) && Enabled(s, st)
  {
    match st
    case Start(i) => Goto(s, i, Snapshot)
    case DoSnapshot(i) => Goto(s, i, Loop(Queue(s, i)))
    case DoLoop(i, takeResumed) => LoopStep(s, i, takeResumed)
    case DoTest(i) => Goto(s, i, AfterTest(s, i))
    case DoClearFlag(i) => Goto(s.(flag := s.flag[i := false]), i, SubToken(if s.flag[i] then 1 else 0))
    case DoSubToken(i) => SubTokenStep(s, i)
    case DoNotifyReq(i) => NotifyReqStep(s, i)
    case DoNotifyWake(i) => NotifyWakeStep(s, i)
    case DoPoll(i) => PollStep(s, i)
    case DoRead(i) => ReadStep(s, i)
    case DoPeek(i) => PeekStep(s, i)
    case DoCqe(i) => CqeStep(s, i)
    case Submit(i, j) => SubmitStep(s, i, j)
    case Resume(i, j) => Begin(s.(parked := s.parked[j := s.parked[j] - 1]), i, PushTask(j, Resumed))
    case SubmitLocal(i) => Begin(s, i, PushTask(i, Local))
    case Register(i) => s.(waits := s.waits[i := s.waits[i] + 1], owed := s.owed[i := true])
    case Unregister(i) => s.(waits := s.waits[i := s.waits[i] - 1], owed := s.owed[i := false])
    case Park(i) => s.(parked := s.parked[i := s.parked[i] + 1], owed := s.owed[i := false])
    case AddIo(i) => s.(ioWait := s.ioWait[i := s.ioWait[i] + 1])
    case Finish(i) => Goto(s, i, Loop(s.pc[i].rem))
    case DoAddToken(i) => AddTokenStep(s, i)
    case DoPush(i) => PushStep(s, i)
    case DoWake(i) => WakeStep(s, i)
    case Complete(i) =>
      s.(inKernel := s.inKernel[i := s.inKernel[i] - 1], cqes := s.cqes[i := s.cqes[i] + 1],
         unsignalled := s.unsignalled[i := s.unsignalled[i] + 1])
    case Signal(i) => s.(unsignalled := s.unsignalled[i := s.unsignalled[i] - 1], low := s.low[i := s.low[i] + 1])
  }

  /** Steps of a worker's own loop, as opposed to those of its tasks and of the kernel. */
  predicate OwnLoop(st: Step) {
    st.Start? || st.DoSnapshot? || st.DoLoop? || st.DoTest? || st.DoClearFlag? || st.DoSubToken? || st.DoNotifyReq?
    || st.DoNotifyWake? || st.DoPoll? || st.DoRead? || st.DoPeek? || st.DoCqe?
  }

  lemma LoopHasShape(s: State, st: Step)
    requires Shape(s) && Enabled(s, st) && OwnLoop(st)
    ensures Shape(Next(s, st)) && |Next(s, st).flag| == |s.flag|
  {
  }

  lemma TaskHasShape(s: State, st: Step)
    requires Shape(s) && Enabled(s, st) && !OwnLoop(st)
    ensures Shape(Next(s, st)) && |Next(s, st).flag| == |s.flag|
  {
  }

  lemma NextHasShape(s: State, st: Step)
    requires Shape(s) && Enabled(s, st)
    ensures Shape(Next(s, st)) && |Next(s, st).flag| == |s.flag|
  {
    if OwnLoop(st) { LoopHasShape(s, st); } else { TaskHasShape(s, st); }
  }

  ghost predicate Follows(trace: seq<State>, steps: seq<Step>, i: nat)
    requires i < |steps| && |trace| == |steps| + 1
  {
    Shape(trace[i]) && Enabled(trace[i], steps[i]) && trace[i + 1] == Next(trace[i], steps[i])
  }

  ghost predicate Run(trace: seq<State>, steps: seq<Step>) {
    && |trace| == |steps| + 1
    && (forall i | 0 <= i < |trace| :: Shape(trace[i]))
    && Init(trace[0])
    && (forall i | 0 <= i < |steps| :: Follows(trace, steps, i))
  }
}
