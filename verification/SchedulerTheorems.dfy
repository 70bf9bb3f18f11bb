/** What every run of the scheduler guarantees. */
module SchedulerTheorems {
  import opened Counting
  import EventFd
  import opened SchedulerModel
  import opened SchedulerCounts
  import opened SchedulerWindow
  import opened SchedulerQuiesce
  import opened SchedulerStop

  // ---------------------------------------------------------------- without assumptions

  /** The invariants that hold under every interleaving. */
  ghost predicate Always(s: State) {
    && Shape(s) && Accounted(s)
    && forall j | 0 <= j < |s.flag| :: WaitsOk(s, j) && WakeOk(s, j) && StopOk(s, j) && CqesIn(s, j)
  }

  lemma StepAlways(s: State, st: Step)
    requires Always(s) && Enabled(s, st)
    ensures Always(Next(s, st))
  {
    NextHasShape(s, st);
    StepAccounts(s, st);
    forall j | 0 <= j < |s.flag|
      ensures WaitsOk(Next(s, st), j) && WakeOk(Next(s, st), j) && StopOk(Next(s, st), j) && CqesIn(Next(s, st), j)
    {
      StepWaits(s, st, j);
      StepWakes(s, st, j);
      StepStops(s, st, j);
      StepCqesIn(s, st, j);
    }
  }

  /** Nothing is pending anywhere in the initial state. */
  lemma InitCounts(s: State, j: nat)
    requires Init(s)
    ensures Count(s.op, AddsPending()) == Count(s.op, ArrivingAt(j)) == Count(s.op, WakingUp(j)) == 0
    ensures Count(s.pc, SubsPending()) == 0 && Count(s.flag, IsBusy()) == |s.flag|
  {
    forall k | 0 <= k < |s.flag|
      ensures s.op[k] == NoOp && s.pc[k] == NotStarted && s.flag[k]
    {
      assert InitCtx(s, k);
    }
    CountPositive(s.op, AddsPending());
    CountPositive(s.op, ArrivingAt(j));
    CountPositive(s.op, WakingUp(j));
    CountPositive(s.pc, SubsPending());
    CountAtMost(s.flag, IsBusy());
  }

  lemma InitAlways(s: State)
    requires Init(s)
    ensures Always(s)
  {
    InitCounts(s, 0);
    forall j | 0 <= j < |s.flag| ensures WaitsOk(s, j) && WakeOk(s, j) && StopOk(s, j) && CqesIn(s, j) {
      InitCounts(s, j);
      assert InitCtx(s, j);
    }
    forall j | 0 <= j < |s.flag| ensures !s.pc[j].SubToken? { assert InitCtx(s, j); }
  }

  lemma {:induction false} RunAlways(trace: seq<State>, steps: seq<Step>, i: nat)
    requires Run(trace, steps) && i < |trace|
    ensures Always(trace[i])
  {
    if i == 0 {
      InitAlways(trace[0]);
    } else {
      RunAlways(trace, steps, i - 1);
      assert Follows(trace, steps, i - 1);
      StepAlways(trace[i - 1], steps[i - 1]);
    }
  }

  /** The stop token is the number of busy flags, less the pending adds, plus the pending subtractions. */
  lemma TokenAccounting(trace: seq<State>, steps: seq<Step>, i: nat)
    requires Run(trace, steps) && i < |trace|
    ensures trace[i].token
         == Count(trace[i].flag, IsBusy()) - Count(trace[i].op, AddsPending()) + Count(trace[i].pc, SubsPending())
  {
    RunAlways(trace, steps, i);
  }

  /** Wait counters never underflow, and a zero counter means no parked, returning or queued-again coroutine. */
  lemma WaitsNeverUnderflow(trace: seq<State>, steps: seq<Step>, i: nat, j: nat)
    requires Run(trace, steps) && i < |trace| && j < |trace[i].flag|
    ensures trace[i].waits[j] >= 0
    ensures trace[i].waits[j] == 0 ==> trace[i].parked[j] == 0 && trace[i].resumed[j] == 0 && !trace[i].owed[j]
  {
    RunAlways(trace, steps, i);
    assert WaitsOk(trace[i], j);
  }

  /** A worker at the eventfd read sleeps on a non-empty queue only if some submitter is about to wake it. */
  lemma NoLostWakeUp(trace: seq<State>, steps: seq<Step>, i: nat, j: nat)
    requires Run(trace, steps) && i < |trace| && j < |trace[i].flag| && trace[i].pc[j].ReadFd?
    ensures Queue(trace[i], j) <= trace[i].task[j] + Count(trace[i].op, WakingUp(j))
    ensures trace[i].task[j] == 0 && Queue(trace[i], j) > 0 ==>
              exists k :: 0 <= k < |trace[i].op| && trace[i].op[k] == WakeTask(j)
  {
    RunAlways(trace, steps, i);
    assert WakeOk(trace[i], j);
    CountPositive(trace[i].op, WakingUp(j));
    if Count(trace[i].op, WakingUp(j)) > 0 {
      var k :| 0 <= k < |trace[i].op| && WakingUp(j)(trace[i].op[k]);
      assert trace[i].op[k] == WakeTask(j);
    }
  }

  /** The tasks a worker counted are still there when it pops them. */
  lemma PopNeverSpins(trace: seq<State>, steps: seq<Step>, i: nat, j: nat)
    requires Run(trace, steps) && i < |trace| && j < |trace[i].flag| && trace[i].pc[j].Loop?
    ensures exists takeResumed :: Enabled(trace[i], DoLoop(j, takeResumed))
  {
    RunAlways(trace, steps, i);
    assert WakeOk(trace[i], j);
    assert Enabled(trace[i], DoLoop(j, true)) || Enabled(trace[i], DoLoop(j, false));
  }

  /** A worker asked to stop never sleeps for good: it is about to be woken, or still has waits or IO of its own. */
  lemma NoLostStop(trace: seq<State>, steps: seq<Step>, i: nat, j: nat)
    requires Run(trace, steps) && i < |trace| && j < |trace[i].flag|
    requires trace[i].pc[j].ReadFd? && trace[i].stopReq[j] && trace[i].task[j] == 0 && trace[i].low[j] == 0
    ensures NotifierFor(trace[i], j) || trace[i].waits[j] > 0 || trace[i].ioWait[j] + trace[i].ioRun[j] > 0
  {
    RunAlways(trace, steps, i);
    assert StopOk(trace[i], j) && WaitsOk(trace[i], j);
  }

  /** While the completion field holds, a sleeping worker's posted completions all have a signal on the way. */
  lemma {:induction false} NoLostCompletion(trace: seq<State>, steps: seq<Step>, i: nat, j: nat)
    requires Run(trace, steps) && i < |trace| && j < |trace[i].flag|
    requires forall m | 0 <= m < i :: LowFits(trace[m])
    ensures CqesOk(trace[i], j)
  {
    if i == 0 {
      assert InitCtx(trace[0], j);
    } else {
      assert Follows(trace, steps, i - 1);
      NextHasShape(trace[i - 1], steps[i - 1]);
      NoLostCompletion(trace, steps, i - 1, j);
      RunAlways(trace, steps, i - 1);
      assert CqesIn(trace[i - 1], j);
      assert LowFits(trace[i - 1]);
      StepCqes(trace[i - 1], steps[i - 1], j);
    }
  }

  // ---------------------------------------------------------------- the eventfd fields

  ghost function WindowAt(trace: seq<State>, steps: seq<Step>, i: nat): (w: Window)
    requires Run(trace, steps) && i < |trace|
    ensures |w.late| == |w.popped| == |trace[i].flag|
    ensures forall j | 0 <= j < |trace[i].flag| :: WindowOk(trace[i], w, j)
  {
    if i == 0 then
      InitWindows(trace[0]);
      InitWindow(trace[0])
    else
      var s, w, st := trace[i - 1], WindowAt(trace, steps, i - 1), steps[i - 1];
      assert Follows(trace, steps, i - 1);
      RunAlways(trace, steps, i - 1);
      StepWindows(s, w, st);
      NextWindow(s, w, st)
  }

  lemma InitWindows(s: State)
    requires Init(s)
    ensures forall j | 0 <= j < |s.flag| :: WindowOk(s, InitWindow(s), j)
  {
    forall j | 0 <= j < |s.flag| ensures WindowOk(s, InitWindow(s), j) {
      assert InitCtx(s, j);
      InitCounts(s, j);
    }
  }

  lemma StepWindows(s: State, w: Window, st: Step)
    requires Always(s) && Enabled(s, st) && |w.late| == |w.popped| == |s.flag|
    requires forall j | 0 <= j < |s.flag| :: WindowOk(s, w, j)
    ensures Shape(Next(s, st)) && |Next(s, st).flag| == |s.flag|
    ensures |NextWindow(s, w, st).late| == |NextWindow(s, w, st).popped| == |s.flag|
    ensures forall j | 0 <= j < |s.flag| :: WindowOk(Next(s, st), NextWindow(s, w, st), j)
  {
    NextHasShape(s, st);
    forall j | 0 <= j < |s.flag| ensures WindowOk(Next(s, st), NextWindow(s, w, st), j) {
      StepWindow(s, w, st, j);
    }
  }

  lemma WindowBound(trace: seq<State>, steps: seq<Step>, i: nat, j: nat)
    requires Run(trace, steps) && i < |trace| && j < |trace[i].flag| && !trace[i].stopReq[j]
    ensures trace[i].task[j] <= 2 * CAP + WindowAt(trace, steps, i).late[j]
    ensures WindowAt(trace, steps, i).late[j] <= |trace[i].flag|
  {
    var s, w := trace[i], WindowAt(trace, steps, i);
    RunAlways(trace, steps, i);
    assert WindowOk(s, w, j) && WakeOk(s, j);
  }

  // ---------------------------------------------------------------- stop only when quiescent

  ghost predicate ApartAt(trace: seq<State>, i: nat)
    requires i < |trace|
  {
    Shape(trace[i]) && Apart(trace[i])
  }

  ghost function TimesAt(trace: seq<State>, steps: seq<Step>, i: nat): (w: Times)
    requires Run(trace, steps) && i < |trace| && forall m | 0 <= m < i :: ApartAt(trace, m)
    ensures Quiet(trace[i], w) && Tallied(trace[i])
  {
    if i == 0 then
      InitQuiet(trace[0]);
      InitTimes(trace[0])
    else
      var s, w, st := trace[i - 1], TimesAt(trace, steps, i - 1), steps[i - 1];
      assert Follows(trace, steps, i - 1);
      assert ApartAt(trace, i - 1);
      RunAlways(trace, steps, i - 1);
      StepQuiet(s, w, st);
      StepTallies(s, w, st);
      NextTimes(s, w, st)
  }

  lemma InitQuiet(s: State)
    requires Init(s)
    ensures Quiet(s, InitTimes(s)) && Tallied(s)
  {
    InitAlways(s);
    forall j | 0 <= j < |s.flag| ensures IdleOk(s, j) && BusyOk(s, j) && WaitsOk(s, j) && WakeOk(s, j) && CqesIn(s, j) {
      assert InitCtx(s, j) && WaitsOk(s, j) && WakeOk(s, j) && CqesIn(s, j);
    }
    forall i, j | 0 <= i < |s.flag| && 0 <= j < |s.flag| ensures PairOk(s, InitTimes(s), i, j) {
      assert InitCtx(s, i);
    }
    InitTallied(s);
  }

  lemma InitTallied(s: State)
    requires Init(s)
    ensures Tallied(s)
  {
    InitCounts(s, 0);
    forall j | 0 <= j < |s.flag| ensures Settled(s, j) && !s.pc[j].SubToken? {
      assert InitCtx(s, j);
      forall i | 0 <= i < |s.flag| ensures !Flipping(s.op[i], j) { assert InitCtx(s, i); }
    }
    BelowSize(|s.flag|);
    assert SettledSet(s) == Below(|s.flag|);
  }

  function Below(n: nat): set<nat> {
    if n == 0 then {} else Below(n - 1) + {n - 1}
  }

  lemma {:induction false} BelowSize(n: nat)
    ensures |Below(n)| == n && forall j: nat :: j in Below(n) <==> j < n
  {
    if n > 0 { BelowSize(n - 1); }
  }

  /**
   As long as no idle path has overlapped a submit aimed at it: a stop callback broadcasts stop exactly when it
   leaves every context idle with no other token update under way, and then no context has a queued or running task,
   a registered wait or IO, and every worker has started.
   */
  lemma StopExactlyWhenQuiescent(trace: seq<State>, steps: seq<Step>, i: nat, k: nat)
    requires Run(trace, steps) && i < |steps| && steps[i] == DoSubToken(k) && k < |trace[i + 1].pc|
    requires forall m | 0 <= m <= i :: ApartAt(trace, m)
    ensures var t := trace[i + 1];
      && (t.pc[k].NotifyReq? <==> (forall j | 0 <= j < |t.flag| :: !t.flag[j]) && Count(t.pc, SubsPending()) == 0)
      && (t.pc[k].NotifyReq? ==> forall j | 0 <= j < |t.flag| :: NoWork(t, j))
  {
    assert Follows(trace, steps, i);
    assert ApartAt(trace, i);
    var t, w := trace[i + 1], TimesAt(trace, steps, i + 1);
    if t.pc[k].NotifyReq? {
      ZeroMeansIdle(t, w);
      forall j | 0 <= j < |t.flag| ensures NoWork(t, j) { assert BusyOk(t, j); }
    }
    assert (forall j | 0 <= j < |t.flag| :: !t.flag[j]) ==> SettledSet(t) == {};
  }

  /** Once stop has been broadcast by such a callback, no task ever runs again. */
  lemma {:induction false} QuiescentForEver(trace: seq<State>, steps: seq<Step>, i: nat, m: nat)
    requires Run(trace, steps) && i <= m < |trace|
    requires forall n | 0 <= n < m :: ApartAt(trace, n)
    requires forall j | 0 <= j < |trace[i].flag| :: !trace[i].flag[j]
    ensures |trace[m].flag| == |trace[i].flag|
    ensures forall j | 0 <= j < |trace[m].flag| :: !trace[m].flag[j] && NoWork(trace[m], j)
    decreases m
  {
    var w := TimesAt(trace, steps, m);
    if i < m {
      QuiescentForEver(trace, steps, i, m - 1);
      assert Follows(trace, steps, m - 1);
      var s, st := trace[m - 1], steps[m - 1];
      assert st.Submit? ==> NoWork(s, st.i);
      FlagsStay(s, st);
    }
    forall j | 0 <= j < |trace[m].flag| ensures !trace[m].flag[j] && NoWork(trace[m], j) {
      assert BusyOk(trace[m], j);
    }
  }

  /** As long as no idle path has overlapped a submit aimed at it, no submit finds the token at zero. */
  lemma SubmitFindsToken(trace: seq<State>, steps: seq<Step>, i: nat)
    requires Run(trace, steps) && i < |steps| && steps[i].Submit?
    requires forall m | 0 <= m < i :: ApartAt(trace, m)
    ensures trace[i].token > 0
  {
    assert Follows(trace, steps, i);
    var s, w := trace[i], TimesAt(trace, steps, i);
    assert BusyOk(s, steps[i].i);
    if s.token == 0 { ZeroMeansIdle(s, w); }
  }

  /** Nor does a broadcast ever reach a context whose worker has not started. */
  lemma NotifiedHasStarted(trace: seq<State>, steps: seq<Step>, i: nat, k: nat, j: nat)
    requires Run(trace, steps) && i < |trace| && k < |trace[i].pc| && j < |trace[i].pc| && Broadcasting(trace[i].pc[k])
    requires forall m | 0 <= m < i :: ApartAt(trace, m)
    ensures !trace[i].pc[j].NotStarted?
  {
    var w := TimesAt(trace, steps, i);
    BroadcastMeansIdle(trace, steps, i, k);
    assert BusyOk(trace[i], j);
  }

  predicate Broadcasting(pc: Pc) {
    pc.NotifyReq? || pc.NotifyWake?
  }

  /** During a broadcast nobody is marked busy. */
  lemma {:induction false} BroadcastMeansIdle(trace: seq<State>, steps: seq<Step>, i: nat, k: nat)
    requires Run(trace, steps) && i < |trace| && k < |trace[i].pc| && Broadcasting(trace[i].pc[k])
    requires forall m | 0 <= m < i :: ApartAt(trace, m)
    ensures forall j | 0 <= j < |trace[i].flag| :: !trace[i].flag[j]
  {
    var w := TimesAt(trace, steps, i);
    if i == 0 {
      NobodyStarted(trace[0]);
    } else {
      assert Follows(trace, steps, i - 1);
      var s, st := trace[i - 1], steps[i - 1];
      BroadcastBefore(s, st, k);
      if Broadcasting(s.pc[k]) {
        BroadcastMeansIdle(trace, steps, i - 1, k);
        NobodySubmits(s, TimesAt(trace, steps, i - 1), st);
        FlagsStay(s, st);
      } else {
        ZeroMeansIdle(trace[i], w);
      }
    }
  }

  lemma NobodyStarted(s: State)
    requires Init(s)
    ensures forall k | 0 <= k < |s.pc| :: s.pc[k].NotStarted?
  {
    forall k | 0 <= k < |s.pc| ensures s.pc[k].NotStarted? { assert InitCtx(s, k); }
  }

  lemma NobodySubmits(s: State, w: Times, st: Step)
    requires Quiet(s, w) && Enabled(s, st) && forall j | 0 <= j < |s.flag| :: !s.flag[j]
    ensures !st.Submit?
  {
    assert BusyOk(s, st.i);
  }

  /** A broadcast goes on, or begins with the subtraction that took the token to zero. */
  lemma BroadcastBefore(s: State, st: Step, k: nat)
    requires Shape(s) && Enabled(s, st) && Shape(Next(s, st)) && |Next(s, st).flag| == |s.flag| && k < |s.flag|
    requires Broadcasting(Next(s, st).pc[k])
    ensures Broadcasting(s.pc[k]) || (st == DoSubToken(k) && Next(s, st).token == 0)
  {
  }
}
