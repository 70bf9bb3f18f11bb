/** A context's wait counter counts its waiting coroutines, each once. */
module MutexWaits {
  import opened Links
  import opened MutexModel
  import opened MutexGhost
  import opened MutexInvariant
  import opened MutexPlaces

  /** c is between the register_wait and the unregister_wait of its current wait. */
  predicate Counted(s: State, c: Id)
    requires Sized(s) && c < |s.pc|
  {
    if s.kind[c].Cv? then s.suspended[c] else Leaving(s.pc[c]) || s.pc[c].Granted?
  }

  function CountedOn(s: State, x: nat): set<Id>
    requires Sized(s)
  {
    set c | 0 <= c < |s.pc| && Counted(s, c) && s.ctx[c] == x
  }

  ghost predicate CountersExact(s: State)
    requires Sized(s)
  {
    forall x | 0 <= x < |s.waits| :: s.waits[x] == |CountedOn(s, x)|
  }

  /** Only lock(), the first suspension of a cv wait and await_resume change whom the counters count. */
  lemma OthersCountedAlike(s: State, g: Ghost, st: Step, c: Id)
    requires Inv(s, g) && Enabled(s, st) && c < |s.pc|
    requires !st.StartLock? && !st.DoRegisterWait? && !st.DoAwaitResume?
    requires Sized(Next(s, st)) && |Next(s, st).pc| == |s.pc|
    ensures Next(s, st).waits == s.waits
    ensures Counted(Next(s, st), c) == Counted(s, c) && (Counted(s, c) ==> Next(s, st).ctx[c] == s.ctx[c])
  {
    assert AgentOk(s, g, c) && CountedOk(s, g, c) && AgentOk(s, g, st.a);
    if c != st.a {
      BystanderCounted(s, st, c);
    } else {
      ActorCounted(s, g, st);
    }
  }

  lemma BystanderCounted(s: State, st: Step, c: Id)
    requires Sized(s) && Enabled(s, st) && c < |s.pc| && c != st.a
    requires !st.StartLock? && !st.DoRegisterWait? && !st.DoAwaitResume?
    ensures var t := Next(s, st);
      && t.pc[c] == s.pc[c] && t.kind[c] == s.kind[c] && t.suspended[c] == s.suspended[c] && t.ctx[c] == s.ctx[c]
      && t.waits == s.waits
  {
    if CvStep(st) { BystanderOfCv(s, st, c); } else { BystanderOfLock(s, st, c); }
  }

  lemma BystanderOfCv(s: State, st: Step, c: Id)
    requires Sized(s) && Enabled(s, st) && c < |s.pc| && c != st.a
    requires CvStep(st) && !st.DoRegisterWait? && !st.DoAwaitResume?
    ensures var t := Next(s, st);
      && t.pc[c] == s.pc[c] && t.kind[c] == s.kind[c] && t.suspended[c] == s.suspended[c] && t.ctx[c] == s.ctx[c]
      && t.waits == s.waits
  {
  }

  lemma BystanderOfLock(s: State, st: Step, c: Id)
    requires Sized(s) && Enabled(s, st) && c < |s.pc| && c != st.a
    requires !CvStep(st) && !st.StartLock?
    ensures var t := Next(s, st);
      && t.pc[c] == s.pc[c] && t.kind[c] == s.kind[c] && t.suspended[c] == s.suspended[c] && t.ctx[c] == s.ctx[c]
      && t.waits == s.waits
  {
  }

  lemma ActorCounted(s: State, g: Ghost, st: Step)
    requires Shape(s, g) && Enabled(s, st) && AgentOk(s, g, st.a) && CountedOk(s, g, st.a)
    requires !st.StartLock? && !st.DoRegisterWait? && !st.DoAwaitResume?
    requires Sized(Next(s, st)) && |Next(s, st).pc| == |s.pc|
    ensures Next(s, st).waits == s.waits
    ensures Counted(Next(s, st), st.a) == Counted(s, st.a)
    ensures Counted(s, st.a) ==> Next(s, st).ctx[st.a] == s.ctx[st.a]
  {
    if LockStep(st) { LockActorCounted(s, g, st); } else { OtherActorCounted(s, g, st); }
  }

  lemma LockActorCounted(s: State, g: Ghost, st: Step)
    requires Shape(s, g) && Enabled(s, st) && AgentOk(s, g, st.a)
    requires LockStep(st) && !st.StartLock? && !st.DoAwaitResume?
    requires Sized(Next(s, st)) && |Next(s, st).pc| == |s.pc|
    ensures Next(s, st).waits == s.waits && Next(s, st).ctx[st.a] == s.ctx[st.a]
    ensures Counted(Next(s, st), st.a) == Counted(s, st.a)
  {
  }

  lemma OtherActorCounted(s: State, g: Ghost, st: Step)
    requires Shape(s, g) && Enabled(s, st) && AgentOk(s, g, st.a) && CountedOk(s, g, st.a)
    requires !LockStep(st) && !st.DoRegisterWait?
    requires Sized(Next(s, st)) && |Next(s, st).pc| == |s.pc|
    ensures Next(s, st).waits == s.waits
    ensures Counted(Next(s, st), st.a) == Counted(s, st.a)
    ensures Counted(s, st.a) ==> Next(s, st).ctx[st.a] == s.ctx[st.a]
  {
    if UnlockStep(st) { UnlockActorCounted(s, g, st); } else { CvActorCounted(s, g, st); }
  }

  lemma UnlockActorCounted(s: State, g: Ghost, st: Step)
    requires Shape(s, g) && Enabled(s, st) && AgentOk(s, g, st.a) && CountedOk(s, g, st.a)
    requires UnlockStep(st)
    requires Sized(Next(s, st)) && |Next(s, st).pc| == |s.pc|
    ensures Next(s, st).waits == s.waits
    ensures Counted(Next(s, st), st.a) == Counted(s, st.a)
    ensures Counted(s, st.a) ==> Next(s, st).ctx[st.a] == s.ctx[st.a]
  {
  }

  lemma CvActorCounted(s: State, g: Ghost, st: Step)
    requires Shape(s, g) && Enabled(s, st) && AgentOk(s, g, st.a) && CountedOk(s, g, st.a)
    requires !LockStep(st) && !UnlockStep(st) && !st.DoRegisterWait?
    requires Sized(Next(s, st)) && |Next(s, st).pc| == |s.pc|
    ensures Next(s, st).waits == s.waits
    ensures Counted(Next(s, st), st.a) == Counted(s, st.a)
    ensures Counted(s, st.a) ==> Next(s, st).ctx[st.a] == s.ctx[st.a]
  {
  }

  lemma StartLockJoins(s: State, g: Ghost, a: Id, x: nat, y: nat)
    requires Shape(s, g) && Enabled(s, StartLock(a, x)) && AgentOk(s, g, a) && CountedOk(s, g, a) && y < |s.waits|
    ensures a !in CountedOn(s, y)
    ensures CountedOn(StartLockStep(s, a, x), y) == if y == x then CountedOn(s, y) + {a} else CountedOn(s, y)
  {
  }

  lemma StartLockCounts(s: State, g: Ghost, a: Id, x: nat)
    requires Inv(s, g) && Enabled(s, StartLock(a, x)) && CountersExact(s)
    ensures CountersExact(StartLockStep(s, a, x))
  {
    var t := StartLockStep(s, a, x);
    assert AgentOk(s, g, a) && CountedOk(s, g, a);
    forall y | 0 <= y < |t.waits| ensures t.waits[y] == |CountedOn(t, y)| { StartLockJoins(s, g, a, x, y); }
  }

  lemma RegisterCountsOne(s: State, g: Ghost, a: Id, n: Id, c: Id)
    requires Shape(s, g) && Enabled(s, DoRegisterWait(a)) && n == s.pc[a].n && c < |s.pc| && AgentOk(s, g, a)
    ensures Counted(RegisterStep(s, a), c) <==> c == n || Counted(s, c)
    ensures Counted(s, n) <==> s.suspended[n]
  {
  }

  lemma RegisterJoins(s: State, g: Ghost, a: Id, n: Id, y: nat)
    requires Shape(s, g) && Enabled(s, DoRegisterWait(a)) && n == s.pc[a].n && AgentOk(s, g, a) && y < |s.waits|
    ensures n in CountedOn(s, y) <==> y == s.ctx[n] && s.suspended[n]
    ensures CountedOn(RegisterStep(s, a), y) == if y == s.ctx[n] then CountedOn(s, y) + {n} else CountedOn(s, y)
  {
    var t := RegisterStep(s, a);
    forall c | 0 <= c < |s.pc|
      ensures c in CountedOn(t, y) <==> c in CountedOn(s, y) || (c == n && y == s.ctx[n])
    {
      RegisterCountsOne(s, g, a, n, c);
    }
    RegisterCountsOne(s, g, a, n, n);
  }

  lemma RegisterCounts(s: State, g: Ghost, a: Id)
    requires Inv(s, g) && Enabled(s, DoRegisterWait(a)) && CountersExact(s)
    ensures CountersExact(RegisterStep(s, a))
  {
    assert AgentOk(s, g, a);
    RegisterKeepsCounters(s, g, a, s.pc[a].n);
  }

  lemma RegisterKeepsCounters(s: State, g: Ghost, a: Id, n: Id)
    requires Shape(s, g) && Enabled(s, DoRegisterWait(a)) && n == s.pc[a].n && AgentOk(s, g, a) && CountersExact(s)
    ensures CountersExact(RegisterStep(s, a))
  {
    var t := RegisterStep(s, a);
    forall y | 0 <= y < |t.waits| ensures t.waits[y] == |CountedOn(t, y)| { RegisterJoins(s, g, a, n, y); }
  }

  lemma AwaitResumeLeaves(s: State, g: Ghost, a: Id, y: nat)
    requires Shape(s, g) && Enabled(s, DoAwaitResume(a)) && AgentOk(s, g, a) && y < |s.waits|
    ensures CountedOn(AwaitResumeStep(s, a), y) == CountedOn(s, y) - {a}
    ensures a in CountedOn(s, y) <==> y == s.ctx[a] && (s.kind[a].Plain? || s.suspended[a])
  {
  }

  lemma AwaitResumeCounts(s: State, g: Ghost, a: Id)
    requires Inv(s, g) && Enabled(s, DoAwaitResume(a)) && CountersExact(s)
    ensures CountersExact(AwaitResumeStep(s, a))
  {
    assert AgentOk(s, g, a);
    AwaitResumeKeepsCounters(s, g, a);
  }

  lemma AwaitResumeKeepsCounters(s: State, g: Ghost, a: Id)
    requires Shape(s, g) && Enabled(s, DoAwaitResume(a)) && AgentOk(s, g, a) && CountersExact(s)
    ensures CountersExact(AwaitResumeStep(s, a))
  {
    var t := AwaitResumeStep(s, a);
    forall y | 0 <= y < |t.waits| ensures t.waits[y] == |CountedOn(t, y)| { AwaitResumeLeaves(s, g, a, y); }
  }

  lemma StepCounts(s: State, g: Ghost, st: Step)
    requires Inv(s, g) && Enabled(s, st) && CountersExact(s)
    ensures Sized(Next(s, st)) && CountersExact(Next(s, st))
  {
    NextIsSized(s, st);
    var t := Next(s, st);
    if st.StartLock? { StartLockCounts(s, g, st.a, st.x); }
    else if st.DoRegisterWait? { RegisterCounts(s, g, st.a); }
    else if st.DoAwaitResume? { AwaitResumeCounts(s, g, st.a); }
    else {
      OthersCountedAlike(s, g, st, st.a);
      forall x | 0 <= x < |t.waits| ensures t.waits[x] == |CountedOn(t, x)| {
        forall c | 0 <= c < |s.pc| ensures c in CountedOn(t, x) <==> c in CountedOn(s, x) {
          OthersCountedAlike(s, g, st, c);
        }
        assert CountedOn(t, x) == CountedOn(s, x);
      }
    }
  }

  /** In every reachable state each counter is the number of its context's waiting coroutines. */
  lemma {:induction false} WaitCountersExact(trace: seq<State>, steps: seq<Step>, i: nat)
    requires Run(trace, steps) && i < |trace|
    ensures CountersExact(trace[i])
  {
    if i == 0 {
      var s := trace[0];
      forall x | 0 <= x < |s.waits| ensures s.waits[x] == |CountedOn(s, x)| {
        assert CountedOn(s, x) == {};
      }
    } else {
      WaitCountersExact(trace, steps, i - 1);
      assert Follows(trace, steps, i - 1);
      StepCounts(trace[i - 1], GhostAt(trace, steps, i - 1), steps[i - 1]);
    }
  }

  lemma ParkedIsCounted(s: State, g: Ghost, sp: Spot, c: Id)
    requires Inv(s, g) && c < |s.pc| && IsSpot(s, sp) && !sp.Hand? && At(s, sp, c)
    ensures c in CountedOn(s, s.ctx[c])
  {
    OnlySpot(s, g, sp, c);
    assert NodeOk(s, g, c) && AgentOk(s, g, c) && CountedOk(s, g, c);
  }

  /** A counter at zero: no list and no task queue entry anywhere belongs to a coroutine of that context. */
  lemma ZeroMeansNobodyParked(trace: seq<State>, steps: seq<Step>, i: nat, x: nat, c: Id, sp: Spot)
    requires Run(trace, steps) && i < |trace| && x < |trace[i].waits| && trace[i].waits[x] == 0
    requires c < |trace[i].pc| && trace[i].ctx[c] == x
    requires IsSpot(trace[i], sp) && !sp.Hand?
    ensures !At(trace[i], sp, c)
  {
    WaitCountersExact(trace, steps, i);
    assert CountedOn(trace[i], x) == {};
    if At(trace[i], sp, c) { ParkedIsCounted(trace[i], GhostAt(trace, steps, i), sp, c); }
  }
}
