/** What every run of an event, and of a latch built on it, guarantees. */
module EventTheorems {
  import opened Links
  import opened Options
  import opened Counting
  import opened LatchCount
  import opened EventModel
  import opened EventInvariant

  // ---------------------------------------------------------------- who is pushed, who is submitted

  /** The coroutines whose CAS succeeded in the first i steps, oldest first. */
  ghost function Pushed(trace: seq<State>, steps: seq<Step>, i: nat): seq<Id>
    requires Run(trace, steps) && i < |trace|
  {
    if i == 0 then [] else
      assert Follows(trace, steps, i - 1);
      var s, st := trace[i - 1], steps[i - 1];
      Pushed(trace, steps, i - 1)
      + if st.DoCas? && s.word == Unset(s.pc[st.a].seen) && !st.spurious then [st.a] else []
  }

  /** The coroutines whose handle a setter submitted in the first i steps, in order. */
  ghost function Submits(trace: seq<State>, steps: seq<Step>, i: nat): seq<Id>
    requires Run(trace, steps) && i < |trace|
  {
    if i == 0 then [] else
      assert Follows(trace, steps, i - 1);
      var s, st := trace[i - 1], steps[i - 1];
      Submits(trace, steps, i - 1) + if st.DoSubmit? then [s.pc[st.a].n] else []
  }

  /** The agent of the first exchange that found the event unset. */
  ghost function Publisher(trace: seq<State>, steps: seq<Step>, i: nat): Option<Id>
    requires Run(trace, steps) && i < |trace|
  {
    if i == 0 then None else
      assert Follows(trace, steps, i - 1);
      var s, st := trace[i - 1], steps[i - 1];
      if st.DoPublish? && s.word.Unset? then Some(st.a) else Publisher(trace, steps, i - 1)
  }

  ghost predicate History(g: Ghost, pushed: seq<Id>, submits: seq<Id>, publisher: Option<Id>) {
    && g.left <= |g.log|
    && pushed == g.log && submits == Rev(g.log[g.left..])
    && (g.walker.Some? ==> publisher == g.walker)
  }

  lemma SubmitHistory(s: State, g: Ghost, a: Id, submits: seq<Id>)
    requires Inv(s, g) && Enabled(s, DoSubmit(a)) && submits == Rev(g.log[g.left..])
    ensures var h := NextGhost(s, g, DoSubmit(a));
      h.left <= |h.log| && submits + [s.pc[a].n] == Rev(h.log[h.left..]) && g.walker == Some(a)
  {
    assert WalkerOk(s, g, a);
    assert g.log[g.left - 1..] == [g.log[g.left - 1]] + g.log[g.left..];
  }

  lemma PushHistory(s: State, g: Ghost, a: Id)
    requires Inv(s, g) && a < |s.pc| && s.pc[a].PushCas? && s.word == Unset(s.pc[a].seen)
    ensures var h := NextGhost(s, g, DoCas(a, false));
      h.left <= |h.log| && h.log == g.log + [a] && h.log[h.left..] == [] && g.log[g.left..] == []
  {
  }

  /** What one step adds to the three histories. */
  lemma StepHistory(s: State, g: Ghost, st: Step, pushed: seq<Id>, submits: seq<Id>, publisher: Option<Id>)
    requires Inv(s, g) && Enabled(s, st) && History(g, pushed, submits, publisher)
    ensures History(NextGhost(s, g, st),
                    pushed + (if st.DoCas? && s.word == Unset(s.pc[st.a].seen) && !st.spurious then [st.a] else []),
                    submits + (if st.DoSubmit? then [s.pc[st.a].n] else []),
                    if st.DoPublish? && s.word.Unset? then Some(st.a) else publisher)
  {
    if st.DoSubmit? {
      SubmitHistory(s, g, st.a, submits);
    } else if st.DoCas? && s.word == Unset(s.pc[st.a].seen) && !st.spurious {
      PushHistory(s, g, st.a);
    }
  }

  lemma {:induction false} Histories(trace: seq<State>, steps: seq<Step>, i: nat)
    requires Run(trace, steps) && i < |trace|
    ensures History(GhostAt(trace, steps, i), Pushed(trace, steps, i), Submits(trace, steps, i),
                    Publisher(trace, steps, i))
  {
    if i > 0 {
      Histories(trace, steps, i - 1);
      assert Follows(trace, steps, i - 1);
      var s, g, st := trace[i - 1], GhostAt(trace, steps, i - 1), steps[i - 1];
      StepHistory(s, g, st, Pushed(trace, steps, i - 1), Submits(trace, steps, i - 1), Publisher(trace, steps, i - 1));
      StepKeeps(s, g, st);
      assert GhostAt(trace, steps, i) == NextGhost(s, g, st);
    }
  }

  /**
   Before the first set nobody is submitted. From then on the waiters pushed before it, and only they, are submitted,
   each once, newest first; when nobody is inside a set any more, all of them have been.
   */
  lemma EveryWaiterSubmittedOnce(trace: seq<State>, steps: seq<Step>, i: nat)
    requires Run(trace, steps) && i < |trace|
    ensures Submits(trace, steps, i) <= Rev(Pushed(trace, steps, i))
    ensures trace[i].word.Unset? ==> Submits(trace, steps, i) == []
    ensures trace[i].word.Set? && (forall a | 0 <= a < |trace[i].pc| :: !Walking(trace[i].pc[a])) ==>
              Submits(trace, steps, i) == Rev(Pushed(trace, steps, i))
  {
    Histories(trace, steps, i);
    var s, g := trace[i], GhostAt(trace, steps, i);
    RevSuffix(g.log, g.left);
    assert g.walker.Some? ==> WalkerOk(s, g, g.walker.value);
    assert g.left == 0 ==> g.log[g.left..] == g.log;
  }

  lemma {:induction false} RevSuffix(l: seq<Id>, k: nat)
    requires k <= |l|
    ensures Rev(l[k..]) <= Rev(l)
    decreases k
  {
    if k == 0 {
      assert l[0..] == l;
    } else {
      RevSuffix(l[1..], k - 1);
      assert l[1..][k - 1..] == l[k..];
    }
  }

  /** Later sets resume nobody: every submission is by the agent of the first exchange. */
  lemma OnlyTheFirstSetterSubmits(trace: seq<State>, steps: seq<Step>, i: nat)
    requires Run(trace, steps) && i < |steps| && steps[i].DoSubmit?
    ensures Publisher(trace, steps, i) == Some(steps[i].a)
  {
    Histories(trace, steps, i);
    assert Follows(trace, steps, i);
    assert WalkerOk(trace[i], GhostAt(trace, steps, i), steps[i].a);
  }

  // ---------------------------------------------------------------- nobody is forgotten, nobody is touched too late

  /** Set, and no set in progress: every suspended coroutine is in a task queue, once. */
  lemma NoLostWakeUp(trace: seq<State>, steps: seq<Step>, i: nat, c: Id)
    requires Run(trace, steps) && i < |trace| && c < |trace[i].pc|
    requires trace[i].word.Set? && forall a | 0 <= a < |trace[i].pc| :: !Walking(trace[i].pc[a])
    ensures trace[i].queued[c] == if trace[i].pc[c].Suspended? then 1 else 0
  {
    var s, g := trace[i], GhostAt(trace, steps, i);
    assert NodeOk(s, g, c);
    assert g.walker.Some? ==> WalkerOk(s, g, g.walker.value);
  }

  /** A setter reads and submits only nodes of coroutines that are suspended and not submitted yet. */
  lemma WalkTouchesOnlySuspended(trace: seq<State>, steps: seq<Step>, i: nat, a: Id)
    requires Run(trace, steps) && i < |trace| && a < |trace[i].pc|
    ensures var s := trace[i];
      && (s.pc[a].Walk? && s.pc[a].cur.Node? ==>
            var n := s.pc[a].cur.id; n < |s.pc| && s.pc[n].Suspended? && s.queued[n] == 0)
      && (s.pc[a].Submit? ==>
            var n := s.pc[a].n; n < |s.pc| && s.pc[n].Suspended? && s.queued[n] == 0)
  {
    var s, g := trace[i], GhostAt(trace, steps, i);
    assert WalkerOk(s, g, a);
    if Walking(s.pc[a]) && g.left > 0 {
      assert SlotOk(s, g, g.left - 1);
      assert NodeOk(s, g, g.log[g.left - 1]);
    }
  }

  /** A waiter that goes on, with or without suspending, does so on a set event. */
  lemma ResumedOnlyWhenSet(trace: seq<State>, steps: seq<Step>, i: nat, c: Id)
    requires Run(trace, steps) && i < |trace| && c < |trace[i].pc|
    ensures trace[i].pc[c].Granted? || trace[i].queued[c] > 0 ==> trace[i].word.Set?
  {
    assert NodeOk(trace[i], GhostAt(trace, steps, i), c);
  }

  // ---------------------------------------------------------------- event<T>: the value

  predicate InSet(pc: Pc) {
    pc.Publish? || pc.Walk? || pc.Submit?
  }

  ghost predicate ValueOk(s: State)
    requires Sized(s)
  {
    (s.word.Set? ==> s.value.Some?) && forall a | 0 <= a < |s.pc| :: InSet(s.pc[a]) ==> s.value.Some?
  }

  /** The value is stored before the event is published, so whoever goes on finds one. */
  lemma {:induction false} ValueBeforeResume(trace: seq<State>, steps: seq<Step>, i: nat)
    requires Run(trace, steps) && i < |trace| && trace[0].word.Unset?
    requires forall m | 0 <= m < i :: !steps[m].CountDown?
    ensures ValueOk(trace[i])
    ensures forall c | 0 <= c < |trace[i].pc| :: trace[i].pc[c].Granted? ==> trace[i].value.Some?
  {
    if i > 0 {
      ValueBeforeResume(trace, steps, i - 1);
      assert Follows(trace, steps, i - 1);
      assert !steps[i - 1].CountDown?;
    }
    forall c | 0 <= c < |trace[i].pc| ensures trace[i].pc[c].Granted? ==> trace[i].value.Some? {
      ResumedOnlyWhenSet(trace, steps, i, c);
    }
  }

  /** State m finds the event set, or a about to set it. */
  ghost predicate SetOrAboutTo(trace: seq<State>, m: nat, a: Id) {
    m < |trace| && a < |trace[m].pc| && (trace[m].word.Set? || trace[m].pc[a].Publish?)
  }

  lemma StillSet(trace: seq<State>, steps: seq<Step>, m: nat, n: nat, a: Id)
    requires Run(trace, steps) && m < |steps| && n == m + 1 && SetOrAboutTo(trace, m, a)
    ensures SetOrAboutTo(trace, n, a)
  {
    assert Follows(trace, steps, m);
  }

  /** A set that has returned, or is past its exchange, leaves the event set for ever. */
  lemma {:induction false} SetSets(trace: seq<State>, steps: seq<Step>, b: nat, m: nat, a: Id, v: int)
    requires Run(trace, steps) && b < m < |trace| && steps[b] == StartSet(a, v)
    ensures a < |trace[m].pc| && (trace[m].pc[a].Publish? || trace[m].word.Set?)
    decreases m
  {
    if m == b + 1 {
      assert Follows(trace, steps, b);
    } else {
      SetSets(trace, steps, b, m - 1, a, v);
      StillSet(trace, steps, m - 1, m, a);
    }
  }

  /** The value in place is the argument of the set begun last. */
  lemma {:induction false} ValueIsTheLastSet(trace: seq<State>, steps: seq<Step>, i: nat) returns (m: nat)
    requires Run(trace, steps) && i < |trace| && trace[i].value.Some?
    ensures m < i && steps[m].StartSet? && steps[m].v == trace[i].value.value
    ensures forall q | m < q < i :: !steps[q].StartSet?
  {
    if i == 0 {
      assert false;
    } else {
      assert Follows(trace, steps, i - 1);
      if steps[i - 1].StartSet? {
        m := i - 1;
      } else {
        ValueStays(trace[i - 1], steps[i - 1]);
        m := ValueIsTheLastSet(trace, steps, i - 1);
      }
    }
  }

  lemma ValueStays(s: State, st: Step)
    requires Sized(s) && Enabled(s, st) && !st.StartSet?
    ensures Next(s, st).value == s.value
  {
  }

  // ---------------------------------------------------------------- wait counters

  predicate Registered(pc: Pc) {
    pc.Ready? || pc.PushLoad? || pc.PushCas? || pc.Suspended? || pc.Granted?
  }

  function RegisteredOn(s: State, x: nat): set<Id>
    requires Sized(s)
  {
    set c | 0 <= c < |s.pc| && Registered(s.pc[c]) && s.ctx[c] == x
  }

  ghost predicate CountersExact(s: State)
    requires Sized(s)
  {
    forall x | 0 <= x < |s.waits| :: s.waits[x] == |RegisteredOn(s, x)|
  }

  lemma StartWaitJoins(s: State, a: Id, x: nat, y: nat)
    requires Sized(s) && Enabled(s, StartWait(a, x)) && y < |s.waits|
    ensures var t := Next(s, StartWait(a, x));
      && Sized(t) && a !in RegisteredOn(s, y)
      && RegisteredOn(t, y) == if y == x then RegisteredOn(s, y) + {a} else RegisteredOn(s, y)
  {
    var t := Next(s, StartWait(a, x));
    forall c | 0 <= c < |s.pc| && c != a ensures c in RegisteredOn(t, y) <==> c in RegisteredOn(s, y) {
      assert t.pc[c] == s.pc[c] && t.ctx[c] == s.ctx[c];
    }
  }

  lemma StartWaitCounts(s: State, a: Id, x: nat)
    requires Sized(s) && Enabled(s, StartWait(a, x)) && CountersExact(s)
    ensures Sized(Next(s, StartWait(a, x))) && CountersExact(Next(s, StartWait(a, x)))
  {
    var t := Next(s, StartWait(a, x));
    forall y | 0 <= y < |t.waits| ensures t.waits[y] == |RegisteredOn(t, y)| { StartWaitJoins(s, a, x, y); }
  }

  lemma AwaitResumeLeaves(s: State, a: Id, y: nat)
    requires Sized(s) && Enabled(s, DoAwaitResume(a)) && y < |s.waits|
    ensures var t := Next(s, DoAwaitResume(a));
      && Sized(t) && RegisteredOn(t, y) == RegisteredOn(s, y) - {a}
      && (a in RegisteredOn(s, y) <==> y == s.ctx[a])
  {
  }

  lemma AwaitResumeCounts(s: State, a: Id)
    requires Sized(s) && Enabled(s, DoAwaitResume(a)) && CountersExact(s)
    ensures Sized(Next(s, DoAwaitResume(a))) && CountersExact(Next(s, DoAwaitResume(a)))
  {
    var t := Next(s, DoAwaitResume(a));
    forall y | 0 <= y < |t.waits| ensures t.waits[y] == |RegisteredOn(t, y)| { AwaitResumeLeaves(s, a, y); }
  }

  lemma OthersRegisteredAlike(s: State, st: Step, c: Id)
    requires Sized(s) && Enabled(s, st) && c < |s.pc| && !st.StartWait? && !st.DoAwaitResume?
    ensures var t := Next(s, st);
      |t.pc| == |s.pc| && t.waits == s.waits && t.ctx == s.ctx && Registered(t.pc[c]) == Registered(s.pc[c])
  {
  }

  lemma StepCounts(s: State, st: Step)
    requires Sized(s) && Enabled(s, st) && CountersExact(s)
    ensures Sized(Next(s, st)) && CountersExact(Next(s, st))
  {
    NextIsSized(s, st);
    var t := Next(s, st);
    if st.StartWait? { StartWaitCounts(s, st.a, st.x); }
    else if st.DoAwaitResume? { AwaitResumeCounts(s, st.a); }
    else {
      OthersRegisteredAlike(s, st, st.a);
      forall x | 0 <= x < |t.waits| ensures t.waits[x] == |RegisteredOn(t, x)| {
        forall c | 0 <= c < |s.pc| ensures Registered(t.pc[c]) == Registered(s.pc[c]) {
          OthersRegisteredAlike(s, st, c);
        }
        assert RegisteredOn(t, x) == RegisteredOn(s, x);
      }
    }
  }

  /** A context's counter is the number of its coroutines between registering and await_resume. */
  lemma {:induction false} WaitCountersExact(trace: seq<State>, steps: seq<Step>, i: nat)
    requires Run(trace, steps) && i < |trace|
    ensures CountersExact(trace[i])
  {
    if i == 0 {
      forall x | 0 <= x < |trace[0].waits| ensures trace[0].waits[x] == |RegisteredOn(trace[0], x)| {
        assert RegisteredOn(trace[0], x) == {};
      }
    } else {
      WaitCountersExact(trace, steps, i - 1);
      assert Follows(trace, steps, i - 1);
      StepCounts(trace[i - 1], steps[i - 1]);
    }
  }

  // ---------------------------------------------------------------- latch

  /** A latch: only counted down, built from an unsigned n and therefore set at once when n is zero. */
  ghost predicate LatchRun(trace: seq<State>, steps: seq<Step>, n: nat) {
    && Run(trace, steps) && n < RANGE
    && trace[0].count == Wrap(n) && (trace[0].word.Set? <==> n == 0)
    && forall i | 0 <= i < |steps| :: !steps[i].StartSet?
  }

  /** count_down calls begun in the first i steps. */
  function Calls(steps: seq<Step>, i: nat): nat
    requires i <= |steps|
  {
    if i == 0 then 0 else Calls(steps, i - 1) + if steps[i - 1].CountDown? then 1 else 0
  }

  function Publishing(): Pc -> bool {
    (p: Pc) => p.Publish?
  }

  function InCall(): Pc -> bool {
    (p: Pc) => InSet(p)
  }

  /**
   The counter is the wrapped difference; set or about to be set only if released, and if released, set or about to be.
   Until the event is set, the calls in progress are those that found at most one left.
   */
  ghost predicate LatchOk(s: State, n: nat, calls: nat) {
    && n < RANGE && s.count == Wrap(n - calls)
    && (s.word.Set? || Count(s.pc, Publishing()) > 0 ==> Released(n, calls))
    && (s.word.Unset? && Released(n, calls) ==> Count(s.pc, Publishing()) > 0)
    && (s.word.Unset? ==> Count(s.pc, InCall()) == Count(s.pc, Publishing()))
    && (s.word.Unset? && n < HALF && calls >= n ==>
          Count(s.pc, Publishing()) >= if calls - n < HALF then calls - n + 1 else HALF)
    && (n == 0 ==> s.word.Set?)
  }

  lemma StepLatch(s: State, g: Ghost, st: Step, n: nat, calls: nat)
    requires Inv(s, g) && Enabled(s, st) && !st.StartSet? && LatchOk(s, n, calls)
    ensures LatchOk(Next(s, st), n, calls + if st.CountDown? then 1 else 0)
  {
    assert WalkerOk(s, g, st.a) && WordOk(s, g);
    LatchMoves(s, st, n, calls);
  }

  lemma LatchMoves(s: State, st: Step, n: nat, calls: nat)
    requires Sized(s) && Enabled(s, st) && !st.StartSet? && LatchOk(s, n, calls)
    requires s.word.Unset? ==> !Walking(s.pc[st.a])
    ensures LatchOk(Next(s, st), n, calls + if st.CountDown? then 1 else 0)
  {
    InCallMoves(s, st);
    if st.CountDown? {
      CountDownOnce(n, calls);
      CountDownLatch(s, st.a, n, calls);
    } else {
      OtherLatch(s, st, n, calls);
    }
  }

  /** A step moves one coroutine into or out of a call. */
  lemma InCallMoves(s: State, st: Step)
    requires Sized(s) && Enabled(s, st)
    ensures var t, a := Next(s, st), st.a;
      && |t.pc| == |s.pc|
      && Count(t.pc, Publishing()) + (if s.pc[a].Publish? then 1 else 0)
         == Count(s.pc, Publishing()) + (if t.pc[a].Publish? then 1 else 0)
      && Count(t.pc, InCall()) + (if InSet(s.pc[a]) then 1 else 0)
         == Count(s.pc, InCall()) + (if InSet(t.pc[a]) then 1 else 0)
    ensures s.pc[st.a].Publish? ==> Count(s.pc, Publishing()) > 0
  {
    var t := Next(s, st);
    assert t.pc == s.pc[st.a := t.pc[st.a]];
    CountUpdate(s.pc, st.a, t.pc[st.a], Publishing());
    CountUpdate(s.pc, st.a, t.pc[st.a], InCall());
    CountPositive(s.pc, Publishing());
    assert s.pc[st.a].Publish? ==> Publishing()(s.pc[st.a]);
  }

  lemma CountDownLatch(s: State, a: Id, n: nat, calls: nat)
    requires Sized(s) && Enabled(s, CountDown(a)) && LatchOk(s, n, calls)
    requires Wrap(Wrap(n - calls) - 1) == Wrap(n - (calls + 1))
    requires Released(n, calls + 1) <==> Released(n, calls) || Wrap(n - calls) <= 1
    requires n < HALF && n - 1 <= calls && calls - n < HALF ==> Wrap(n - calls) <= 1
    requires var t, d := Next(s, CountDown(a)), if Wrap(n - calls) <= 1 then 1 else 0;
      Count(t.pc, Publishing()) == Count(s.pc, Publishing()) + d && Count(t.pc, InCall()) == Count(s.pc, InCall()) + d
    ensures LatchOk(Next(s, CountDown(a)), n, calls + 1)
  {
  }

  lemma OtherLatch(s: State, st: Step, n: nat, calls: nat)
    requires Sized(s) && Enabled(s, st) && !st.StartSet? && !st.CountDown? && LatchOk(s, n, calls)
    requires var t, a := Next(s, st), st.a;
      && Count(t.pc, Publishing()) + (if s.pc[a].Publish? then 1 else 0)
         == Count(s.pc, Publishing()) + (if t.pc[a].Publish? then 1 else 0)
      && Count(t.pc, InCall()) + (if InSet(s.pc[a]) then 1 else 0)
         == Count(s.pc, InCall()) + (if InSet(t.pc[a]) then 1 else 0)
    requires s.pc[st.a].Publish? ==> Count(s.pc, Publishing()) > 0
    requires s.word.Unset? ==> !Walking(s.pc[st.a])
    ensures LatchOk(Next(s, st), n, calls)
  {
  }

  /** What a count-down from n - calls does to the counter and to the release. */
  lemma CountDownOnce(n: nat, calls: nat)
    requires n < RANGE
    ensures Wrap(Wrap(n - calls) - 1) == Wrap(n - (calls + 1))
    ensures Released(n, calls + 1) <==> Released(n, calls) || Wrap(n - calls) <= 1
    ensures n < HALF && n - 1 <= calls && calls - n < HALF ==> Wrap(n - calls) <= 1
    ensures calls + 1 >= n ==> Released(n, calls + 1)
    ensures n < HALF && calls + 1 < n ==> !Released(n, calls + 1)
  {
    WrapOnce(n - calls);
    ReleasedAfter(n, calls);
    ReleasedAfter(n, calls + 1);
  }

  lemma {:induction false} LatchInvariant(trace: seq<State>, steps: seq<Step>, n: nat, i: nat)
    requires LatchRun(trace, steps, n) && i < |trace|
    ensures LatchOk(trace[i], n, Calls(steps, i))
  {
    if i == 0 {
      CountPositive(trace[0].pc, Publishing());
      CountPositive(trace[0].pc, InCall());
    } else {
      LatchInvariant(trace, steps, n, i - 1);
      assert Follows(trace, steps, i - 1);
      StepLatch(trace[i - 1], GhostAt(trace, steps, i - 1), steps[i - 1], n, Calls(steps, i - 1));
    }
  }

  /**
   The event of a latch is set only after the count-downs that release it: n of them, or a single one if n is 2^63 or
   more. Once they are made and no call is in progress, it is set.
   */
  lemma LatchSetExactly(trace: seq<State>, steps: seq<Step>, n: nat, i: nat)
    requires LatchRun(trace, steps, n) && i < |trace|
    ensures trace[i].word.Set? ==> Calls(steps, i) >= n || (n >= HALF && Calls(steps, i) >= 1)
    ensures Calls(steps, i) >= n || (n >= HALF && Calls(steps, i) >= 1) ==>
              trace[i].word.Set? || exists a :: 0 <= a < |trace[i].pc| && trace[i].pc[a].Publish?
  {
    LatchInvariant(trace, steps, n, i);
    ReleasedAfter(n, Calls(steps, i));
    CountPositive(trace[i].pc, Publishing());
    if Count(trace[i].pc, Publishing()) > 0 {
      var a :| 0 <= a < |trace[i].pc| && Publishing()(trace[i].pc[a]);
      assert trace[i].pc[a].Publish?;
    }
  }

  /** With n below 2^63, it is set as soon as n calls have returned, even while others are in progress. */
  lemma LatchSetInTime(trace: seq<State>, steps: seq<Step>, n: nat, i: nat)
    requires LatchRun(trace, steps, n) && i < |trace| && n < HALF && |trace[i].pc| < HALF
    requires Calls(steps, i) - Count(trace[i].pc, InCall()) >= n
    ensures trace[i].word.Set?
  {
    LatchInvariant(trace, steps, n, i);
    CountAtMost(trace[i].pc, Publishing());
  }

  /** Released and no call in progress: set, and every coroutine that ever queued has been submitted exactly once. */
  lemma LatchReleasesAll(trace: seq<State>, steps: seq<Step>, n: nat, i: nat)
    requires LatchRun(trace, steps, n) && i < |trace|
    requires Calls(steps, i) >= n || (n >= HALF && Calls(steps, i) >= 1)
    requires forall a | 0 <= a < |trace[i].pc| :: !InSet(trace[i].pc[a])
    ensures trace[i].word.Set?
    ensures Submits(trace, steps, i) == Rev(Pushed(trace, steps, i))
    ensures forall c | 0 <= c < |trace[i].pc| :: trace[i].pc[c].Suspended? ==> trace[i].queued[c] == 1
  {
    LatchSetExactly(trace, steps, n, i);
    EveryWaiterSubmittedOnce(trace, steps, i);
    forall c | 0 <= c < |trace[i].pc| ensures trace[i].pc[c].Suspended? ==> trace[i].queued[c] == 1 {
      NoLostWakeUp(trace, steps, i, c);
    }
  }
}
