/** Invariants of every run of the scheduler, without any assumption on the interleaving. */
module SchedulerCounts {
  import opened Counting
  import EventFd
  import opened SchedulerModel

  // ---------------------------------------------------------------- what a step leaves alone

  /** A step moves the program position and the submit of one worker at most. */
  lemma OneWorker(s: State, st: Step)
    requires Shape(s) && Enabled(s, st)
    ensures var t := Next(s, st);
      && Shape(t) && |t.flag| == |s.flag|
      && t.pc == s.pc[st.i := t.pc[st.i]]
      && t.op == s.op[st.i := t.op[st.i]]
  {
    if OwnLoop(st) { OneWorkerInLoop(s, st); } else { OneWorkerInTask(s, st); }
  }

  lemma OneWorkerInLoop(s: State, st: Step)
    requires Shape(s) && Enabled(s, st) && OwnLoop(st)
    ensures var t := Next(s, st);
      && Shape(t) && |t.flag| == |s.flag|
      && t.pc == s.pc[st.i := t.pc[st.i]]
      && t.op == s.op[st.i := t.op[st.i]]
  {
    LoopHasShape(s, st);
  }

  lemma OneWorkerInTask(s: State, st: Step)
    requires Shape(s) && Enabled(s, st) && !OwnLoop(st)
    ensures var t := Next(s, st);
      && Shape(t) && |t.flag| == |s.flag|
      && t.pc == s.pc[st.i := t.pc[st.i]]
      && t.op == s.op[st.i := t.op[st.i]]
  {
    TaskHasShape(s, st);
  }

  // ---------------------------------------------------------------- the token

  function AddsPending(): Op -> bool {
    (o: Op) => o.AddToken? && o.flipped
  }

  function SubsPending(): Pc -> bool {
    (p: Pc) => p.SubToken? && p.cnt == 1
  }

  function IsBusy(): bool -> bool {
    f => f
  }

  /** Token and flags differ exactly by the updates under way. */
  ghost predicate Accounted(s: State)
    requires Shape(s)
  {
    && s.token == Count(s.flag, IsBusy()) - Count(s.op, AddsPending()) + Count(s.pc, SubsPending())
    && forall i | 0 <= i < |s.flag| :: s.pc[i].SubToken? ==> s.pc[i].cnt <= 1
  }

  lemma StepAccounts(s: State, st: Step)
    requires Shape(s) && Enabled(s, st) && Accounted(s)
    ensures Shape(Next(s, st)) && Accounted(Next(s, st))
  {
    if st.Submit? || st.DoClearFlag? || st.DoSubToken? || st.DoAddToken? { MovesAccount(s, st); }
    else { StaysAccount(s, st); }
  }

  lemma MovesAccount(s: State, st: Step)
    requires Shape(s) && Enabled(s, st) && Accounted(s)
    requires st.Submit? || st.DoClearFlag? || st.DoSubToken? || st.DoAddToken?
    ensures Shape(Next(s, st)) && Accounted(Next(s, st))
  {
    OneWorker(s, st);
    var t := Next(s, st);
    CountUpdate(s.pc, st.i, t.pc[st.i], SubsPending());
    CountUpdate(s.op, st.i, t.op[st.i], AddsPending());
    if st.Submit? { CountUpdate(s.flag, st.j, true, IsBusy()); }
    if st.DoClearFlag? { CountUpdate(s.flag, st.i, false, IsBusy()); }
    TokenMoves(s, st);
  }

  lemma StaysAccount(s: State, st: Step)
    requires Shape(s) && Enabled(s, st) && Accounted(s)
    requires !st.Submit? && !st.DoClearFlag? && !st.DoSubToken? && !st.DoAddToken?
    ensures Shape(Next(s, st)) && Accounted(Next(s, st))
  {
    OneWorker(s, st);
    var t := Next(s, st);
    CountUpdate(s.pc, st.i, t.pc[st.i], SubsPending());
    CountUpdate(s.op, st.i, t.op[st.i], AddsPending());
    TokenStays(s, st);
  }

  /** The four accesses to token and flags: what they change, and which pending update they open or settle. */
  lemma TokenMoves(s: State, st: Step)
    requires Shape(s) && Enabled(s, st) && Accounted(s)
    requires st.Submit? || st.DoClearFlag? || st.DoSubToken? || st.DoAddToken?
    ensures var t, i := Next(s, st), st.i;
      var dAdd := (if AddsPending()(t.op[i]) then 1 else 0) - (if AddsPending()(s.op[i]) then 1 else 0);
      var dSub := (if SubsPending()(t.pc[i]) then 1 else 0) - (if SubsPending()(s.pc[i]) then 1 else 0);
      && (t.pc[i].SubToken? ==> t.pc[i].cnt <= 1)
      && if st.Submit? then t.flag == s.flag[st.j := true] && t.token == s.token && dSub == 0
                            && dAdd == (if s.flag[st.j] then 0 else 1)
         else if st.DoClearFlag? then t.flag == s.flag[i := false] && t.token == s.token && dAdd == 0
                                      && dSub == (if s.flag[i] then 1 else 0)
         else t.flag == s.flag && t.token == s.token - dAdd + dSub
  {
  }

  lemma TokenStays(s: State, st: Step)
    requires Shape(s) && Enabled(s, st)
    requires !st.Submit? && !st.DoClearFlag? && !st.DoSubToken? && !st.DoAddToken?
    ensures var t, i := Next(s, st), st.i;
      && t.flag == s.flag && t.token == s.token
      && AddsPending()(t.op[i]) == AddsPending()(s.op[i])
      && SubsPending()(t.pc[i]) == SubsPending()(s.pc[i])
      && (t.pc[i].SubToken? ==> t.pc[i] == s.pc[i])
  {
    if OwnLoop(st) { TokenStaysInLoop(s, st); } else { TokenStaysInTask(s, st); }
  }

  lemma TokenStaysInLoop(s: State, st: Step)
    requires Shape(s) && Enabled(s, st)
    requires OwnLoop(st) && !st.DoClearFlag? && !st.DoSubToken?
    ensures var t, i := Next(s, st), st.i;
      && t.flag == s.flag && t.token == s.token
      && AddsPending()(t.op[i]) == AddsPending()(s.op[i])
      && SubsPending()(t.pc[i]) == SubsPending()(s.pc[i])
      && (t.pc[i].SubToken? ==> t.pc[i] == s.pc[i])
  {
  }

  lemma TokenStaysInTask(s: State, st: Step)
    requires Shape(s) && Enabled(s, st)
    requires !OwnLoop(st) && !st.Submit? && !st.DoAddToken?
    ensures var t, i := Next(s, st), st.i;
      && t.flag == s.flag && t.token == s.token
      && AddsPending()(t.op[i]) == AddsPending()(s.op[i])
      && SubsPending()(t.pc[i]) == SubsPending()(s.pc[i])
      && (t.pc[i].SubToken? ==> t.pc[i] == s.pc[i])
  {
  }

  // ---------------------------------------------------------------- wait counters

  function ArrivingAt(j: nat): Op -> bool {
    (o: Op) => o == PushTask(j, Resumed)
  }

  /** Every registered wait of a context is parked, on its way back, queued again, or held by the running task. */
  ghost predicate WaitsOk(s: State, j: nat)
    requires Shape(s) && j < |s.flag|
  {
    && s.waits[j] == s.parked[j] + Count(s.op, ArrivingAt(j)) + s.resumed[j] + (if s.owed[j] then 1 else 0)
    && (s.owed[j] ==> s.pc[j].Task?)
  }

  lemma StepWaits(s: State, st: Step, j: nat)
    requires Shape(s) && Enabled(s, st) && j < |s.flag| && WaitsOk(s, j)
    ensures Shape(Next(s, st)) && |Next(s, st).flag| == |s.flag| && WaitsOk(Next(s, st), j)
  {
    OneWorker(s, st);
    CountUpdate(s.op, st.i, Next(s, st).op[st.i], ArrivingAt(j));
    if OwnLoop(st) { WaitsInLoop(s, st, j); } else { WaitsInTask(s, st, j); }
  }

  lemma WaitsInLoop(s: State, st: Step, j: nat)
    requires Shape(s) && Enabled(s, st) && OwnLoop(st) && j < |s.flag| && WaitsOk(s, j)
    requires Shape(Next(s, st)) && |Next(s, st).flag| == |s.flag|
    requires Count(Next(s, st).op, ArrivingAt(j)) == Count(s.op, ArrivingAt(j))
    ensures WaitsOk(Next(s, st), j)
  {
  }

  lemma WaitsInTask(s: State, st: Step, j: nat)
    requires Shape(s) && Enabled(s, st) && !OwnLoop(st) && j < |s.flag| && WaitsOk(s, j)
    requires Shape(Next(s, st)) && |Next(s, st).flag| == |s.flag|
    requires Count(Next(s, st).op, ArrivingAt(j)) + (if ArrivingAt(j)(s.op[st.i]) then 1 else 0)
          == Count(s.op, ArrivingAt(j)) + (if ArrivingAt(j)(Next(s, st).op[st.i]) then 1 else 0)
    ensures WaitsOk(Next(s, st), j)
  {
  }

  // ---------------------------------------------------------------- task wake-ups

  function WakingUp(j: nat): Op -> bool {
    (o: Op) => o == WakeTask(j)
  }

  /** Positions from the queue-size snapshot to the eventfd read. */
  predicate AfterSnapshot(pc: Pc) {
    !pc.NotStarted? && !pc.Snapshot? && !pc.Peek? && !pc.Cqe?
  }

  function Remaining(pc: Pc): nat {
    match pc
    case Loop(rem) => rem
    case Task(rem) => rem
    case _ => 0
  }

  /** Tasks beyond those the worker is about to run are covered by eventfd units, written or about to be. */
  ghost predicate WakeOk(s: State, j: nat)
    requires Shape(s) && j < |s.flag|
  {
    && (AfterSnapshot(s.pc[j]) ==> Queue(s, j) <= Remaining(s.pc[j]) + s.task[j] + Count(s.op, WakingUp(j)))
    && Remaining(s.pc[j]) <= Queue(s, j) <= CAP
  }

  lemma StepWakes(s: State, st: Step, j: nat)
    requires Shape(s) && Enabled(s, st) && j < |s.flag| && WakeOk(s, j)
    ensures Shape(Next(s, st)) && |Next(s, st).flag| == |s.flag| && WakeOk(Next(s, st), j)
  {
    OneWorker(s, st);
    CountUpdate(s.op, st.i, Next(s, st).op[st.i], WakingUp(j));
    if OwnLoop(st) { WakesInLoop(s, st, j); }
  }

  lemma WakesInLoop(s: State, st: Step, j: nat)
    requires Shape(s) && Enabled(s, st) && OwnLoop(st) && j < |s.flag| && WakeOk(s, j)
    requires Shape(Next(s, st)) && |Next(s, st).flag| == |s.flag|
    requires Count(Next(s, st).op, WakingUp(j)) == Count(s.op, WakingUp(j))
    ensures WakeOk(Next(s, st), j)
  {
    if st.i == j { WakesInOwnLoop(s, st); }
  }

  /** Steps of process_work and of the completions. */
  predicate Processing(st: Step) {
    st.Start? || st.DoSnapshot? || st.DoLoop? || st.DoPeek? || st.DoCqe?
  }

  lemma WakesInOwnLoop(s: State, st: Step)
    requires Shape(s) && Enabled(s, st) && OwnLoop(st) && WakeOk(s, st.i)
    requires Shape(Next(s, st)) && |Next(s, st).flag| == |s.flag|
    requires Count(Next(s, st).op, WakingUp(st.i)) == Count(s.op, WakingUp(st.i))
    ensures WakeOk(Next(s, st), st.i)
  {
    if Processing(st) { WakesInWork(s, st); } else { WakesInRest(s, st); }
  }

  lemma WakesInWork(s: State, st: Step)
    requires Shape(s) && Enabled(s, st) && Processing(st) && WakeOk(s, st.i)
    requires Shape(Next(s, st)) && |Next(s, st).flag| == |s.flag|
    requires Count(Next(s, st).op, WakingUp(st.i)) == Count(s.op, WakingUp(st.i))
    ensures WakeOk(Next(s, st), st.i)
  {
  }

  lemma WakesInRest(s: State, st: Step)
    requires Shape(s) && Enabled(s, st) && OwnLoop(st) && !Processing(st) && WakeOk(s, st.i)
    requires Shape(Next(s, st)) && |Next(s, st).flag| == |s.flag|
    requires Count(Next(s, st).op, WakingUp(st.i)) == Count(s.op, WakingUp(st.i))
    ensures WakeOk(Next(s, st), st.i)
  {
  }

  // ---------------------------------------------------------------- completions

  /** Running IO is in the kernel, posted or in hand. */
  predicate CqesIn(s: State, j: nat)
    requires Shape(s) && j < |s.flag|
  {
    s.inKernel[j] + s.cqes[j] + (if s.pc[j].Cqe? then s.pc[j].num else 0) == s.ioRun[j]
  }

  lemma StepCqesIn(s: State, st: Step, j: nat)
    requires Shape(s) && Enabled(s, st) && j < |s.flag| && CqesIn(s, j)
    ensures Shape(Next(s, st)) && |Next(s, st).flag| == |s.flag| && CqesIn(Next(s, st), j)
  {
    NextHasShape(s, st);
    if OwnLoop(st) { CqesInLoop(s, st, j); } else { CqesInTask(s, st, j); }
  }

  lemma CqesInLoop(s: State, st: Step, j: nat)
    requires Shape(s) && Enabled(s, st) && OwnLoop(st) && j < |s.flag| && CqesIn(s, j)
    requires Shape(Next(s, st)) && |Next(s, st).flag| == |s.flag|
    ensures CqesIn(Next(s, st), j)
  {
  }

  lemma CqesInTask(s: State, st: Step, j: nat)
    requires Shape(s) && Enabled(s, st) && !OwnLoop(st) && j < |s.flag| && CqesIn(s, j)
    requires Shape(Next(s, st)) && |Next(s, st).flag| == |s.flag|
    ensures CqesIn(Next(s, st), j)
  {
  }

  /** Completions nobody has peeked at are covered by eventfd units, except between read and peek. */
  predicate CqesOk(s: State, j: nat)
    requires Shape(s) && j < |s.flag|
  {
    !s.pc[j].Peek? ==> s.cqes[j] <= s.unsignalled[j] + s.low[j]
  }

  /** The completion field has not overflowed. */
  predicate LowFits(s: State)
    requires Shape(s)
  {
    forall j | 0 <= j < |s.flag| :: s.low[j] < EventFd.CQE_LIMIT
  }

  lemma StepCqes(s: State, st: Step, j: nat)
    requires Shape(s) && Enabled(s, st) && j < |s.flag| && CqesIn(s, j) && CqesOk(s, j)
    requires s.low[j] < EventFd.CQE_LIMIT
    ensures Shape(Next(s, st)) && |Next(s, st).flag| == |s.flag| && CqesOk(Next(s, st), j)
  {
    NextHasShape(s, st);
    if st.DoRead? { EventFd.CqeField(s.task[st.i], s.low[st.i]); }
  }

  // ---------------------------------------------------------------- stop requests

  /** Positions past the first test of the stop token, up to the eventfd read. */
  predicate PastFirstTest(pc: Pc) {
    (Testing(pc) && pc.second) || pc.ClearFlag? || pc.SubToken? || pc.NotifyReq? || pc.NotifyWake? || pc.Poll?
    || pc.ReadFd?
  }

  predicate Waiting(s: State, j: nat)
    requires Shape(s) && j < |s.flag|
  {
    s.waits[j] != 0 || s.ioWait[j] + s.ioRun[j] > 0
  }

  ghost predicate NotifierFor(s: State, j: nat)
    requires Shape(s)
  {
    exists i :: 0 <= i < |s.flag| && s.pc[i] == NotifyWake(j)
  }

  ghost predicate StopOk(s: State, j: nat)
    requires Shape(s) && j < |s.flag|
  {
    && (s.stopReq[j] && PastFirstTest(s.pc[j]) ==> s.low[j] > 0 || NotifierFor(s, j) || Waiting(s, j))
    && (Testing(s.pc[j]) && !s.pc[j].second && !s.pc[j].TestStop? ==> s.stopReq[j])
  }

  lemma StepStops(s: State, st: Step, j: nat)
    requires Shape(s) && Enabled(s, st) && j < |s.flag| && StopOk(s, j)
    ensures Shape(Next(s, st)) && |Next(s, st).flag| == |s.flag| && StopOk(Next(s, st), j)
  {
    OneWorker(s, st);
    var t := Next(s, st);
    if NotifierFor(s, j) {
      var i :| 0 <= i < |s.flag| && s.pc[i] == NotifyWake(j);
      if i != st.i { assert t.pc[i] == NotifyWake(j); }
    }
    if st.DoNotifyReq? && s.pc[st.i].i == j { assert t.pc[st.i] == NotifyWake(j); }
    if OwnLoop(st) { StopInLoop(s, st, j); } else { StopElsewhere(s, st, j); }
  }

  lemma StopInLoop(s: State, st: Step, j: nat)
    requires Shape(s) && Enabled(s, st) && j < |s.flag| && StopOk(s, j) && OwnLoop(st)
    requires Shape(Next(s, st)) && |Next(s, st).flag| == |s.flag|
    requires NotifierFor(s, j) && !(st.DoNotifyWake? && s.pc[st.i].i == j) ==> NotifierFor(Next(s, st), j)
    requires st.DoNotifyReq? && s.pc[st.i].i == j ==> NotifierFor(Next(s, st), j)
    ensures StopOk(Next(s, st), j)
  {
    if st.i == j { StopInOwnLoop(s, st); } else { StopInOtherLoop(s, st, j); }
  }

  lemma StopInOwnLoop(s: State, st: Step)
    requires Shape(s) && Enabled(s, st) && StopOk(s, st.i) && OwnLoop(st)
    requires Shape(Next(s, st)) && |Next(s, st).flag| == |s.flag|
    requires NotifierFor(s, st.i) && !(st.DoNotifyWake? && s.pc[st.i].i == st.i) ==> NotifierFor(Next(s, st), st.i)
    requires st.DoNotifyReq? && s.pc[st.i].i == st.i ==> NotifierFor(Next(s, st), st.i)
    ensures StopOk(Next(s, st), st.i)
  {
    if st.DoTest? { StopInTests(s, st); } else { StopInRest(s, st); }
  }

  lemma StopInTests(s: State, st: Step)
    requires Shape(s) && Enabled(s, st) && StopOk(s, st.i) && st.DoTest?
    requires Shape(Next(s, st)) && |Next(s, st).flag| == |s.flag|
    requires NotifierFor(s, st.i) ==> NotifierFor(Next(s, st), st.i)
    ensures StopOk(Next(s, st), st.i)
  {
  }

  /** Steps of the broadcast. */
  predicate Notifying(st: Step) {
    st.DoNotifyReq? || st.DoNotifyWake?
  }

  lemma StopInRest(s: State, st: Step)
    requires Shape(s) && Enabled(s, st) && StopOk(s, st.i) && OwnLoop(st) && !st.DoTest?
    requires Shape(Next(s, st)) && |Next(s, st).flag| == |s.flag|
    requires NotifierFor(s, st.i) && !(st.DoNotifyWake? && s.pc[st.i].i == st.i) ==> NotifierFor(Next(s, st), st.i)
    requires st.DoNotifyReq? && s.pc[st.i].i == st.i ==> NotifierFor(Next(s, st), st.i)
    ensures StopOk(Next(s, st), st.i)
  {
    if Notifying(st) { StopInNotify(s, st); } else { StopInWork(s, st); }
  }

  lemma StopInNotify(s: State, st: Step)
    requires Shape(s) && Enabled(s, st) && StopOk(s, st.i) && Notifying(st)
    requires Shape(Next(s, st)) && |Next(s, st).flag| == |s.flag|
    requires NotifierFor(s, st.i) && !(st.DoNotifyWake? && s.pc[st.i].i == st.i) ==> NotifierFor(Next(s, st), st.i)
    requires st.DoNotifyReq? && s.pc[st.i].i == st.i ==> NotifierFor(Next(s, st), st.i)
    ensures StopOk(Next(s, st), st.i)
  {
  }

  lemma StopInWork(s: State, st: Step)
    requires Shape(s) && Enabled(s, st) && StopOk(s, st.i) && OwnLoop(st) && !st.DoTest? && !Notifying(st)
    requires Shape(Next(s, st)) && |Next(s, st).flag| == |s.flag|
    requires NotifierFor(s, st.i) ==> NotifierFor(Next(s, st), st.i)
    ensures StopOk(Next(s, st), st.i)
  {
    if Processing(st) { StopInProcessing(s, st); } else { StopInIdling(s, st); }
  }

  lemma StopInProcessing(s: State, st: Step)
    requires Shape(s) && Enabled(s, st) && StopOk(s, st.i) && Processing(st)
    requires Shape(Next(s, st)) && |Next(s, st).flag| == |s.flag|
    requires NotifierFor(s, st.i) ==> NotifierFor(Next(s, st), st.i)
    ensures StopOk(Next(s, st), st.i)
  {
  }

  lemma StopInIdling(s: State, st: Step)
    requires Shape(s) && Enabled(s, st) && StopOk(s, st.i) && OwnLoop(st) && !st.DoTest? && !Notifying(st)
    requires !Processing(st)
    requires Shape(Next(s, st)) && |Next(s, st).flag| == |s.flag|
    requires NotifierFor(s, st.i) ==> NotifierFor(Next(s, st), st.i)
    ensures StopOk(Next(s, st), st.i)
  {
  }

  lemma StopInOtherLoop(s: State, st: Step, j: nat)
    requires Shape(s) && Enabled(s, st) && j < |s.flag| && StopOk(s, j) && OwnLoop(st) && st.i != j
    requires Shape(Next(s, st)) && |Next(s, st).flag| == |s.flag|
    requires NotifierFor(s, j) && !(st.DoNotifyWake? && s.pc[st.i].i == j) ==> NotifierFor(Next(s, st), j)
    requires st.DoNotifyReq? && s.pc[st.i].i == j ==> NotifierFor(Next(s, st), j)
    ensures StopOk(Next(s, st), j)
  {
  }

  lemma StopElsewhere(s: State, st: Step, j: nat)
    requires Shape(s) && Enabled(s, st) && j < |s.flag| && StopOk(s, j) && !OwnLoop(st)
    requires Shape(Next(s, st)) && |Next(s, st).flag| == |s.flag|
    requires NotifierFor(s, j) ==> NotifierFor(Next(s, st), j)
    ensures StopOk(Next(s, st), j)
  {
  }
}
