/** The invariant of MutexGhost holds in every state of every run. */
module MutexInvariant {
  import opened Links
  import opened MutexModel
  import opened MutexGhost
  import opened MutexQuietSteps
  import opened MutexQueueSteps
  import opened MutexCvSteps

  lemma InitHolds(s: State)
    requires Init(s)
    ensures Inv(s, InitGhost(s))
  {
    var g := InitGhost(s);
    assert forall n | 0 <= n < |s.pc| :: NodeOk(s, g, n) && AgentOk(s, g, n) && CountedOk(s, g, n) && LoopOk(s, g, n);
    assert forall k | 0 <= k < |g.cvLog| :: CvOk(s, g, k);
  }

  predicate LockStep(st: Step) {
    st.StartLock? || st.TryLock? || st.DoLoad? || st.DoTake? || st.DoPush? || st.Dispatch? || st.DoAwaitResume?
  }

  predicate UnlockStep(st: Step) {
    st.StartUnlock? || st.DoUnlockTop? || st.DoUnlockFree? || st.DoUnlockGrab? || st.DoReverse? || st.DoHandOver?
    || st.DoResume?
  }

  lemma LockStepKeeps(s: State, g: Ghost, st: Step)
    requires Inv(s, g) && Enabled(s, st) && LockStep(st)
    requires Nested(s.pc[st.a]) && Carried(s.pc[st.a]).Node? ==> Carried(s.pc[st.a]).id < |s.pc|
    ensures Inv(Next(s, st), NextGhost(s, g, st))
  {
    match st
    case StartLock(a, x) => StartLockKeeps(s, g, a, x);
    case TryLock(a) => if s.word.Free? { TryLockKeeps(s, g, a); }
    case DoLoad(a) => LoadKeeps(s, g, a);
    case DoTake(a, spurious) =>
      if !s.word.Free? || spurious { RetryKeeps(s, g, a); }
      else if s.pc[a].after.OwnLock? { TakeOwnKeeps(s, g, a); }
      else { TakeWokenKeeps(s, g, a); }
    case DoPush(a, spurious) =>
      if s.word == Held(s.pc[a].seen) && !spurious { PushKeeps(s, g, a); } else { RetryKeeps(s, g, a); }
    case Dispatch(a) => DispatchKeeps(s, g, a);
    case DoAwaitResume(a) => AwaitResumeKeeps(s, g, a);
  }

  lemma UnlockStepKeeps(s: State, g: Ghost, st: Step)
    requires Inv(s, g) && Enabled(s, st) && UnlockStep(st)
    requires Nested(s.pc[st.a]) && Carried(s.pc[st.a]).Node? ==> Carried(s.pc[st.a]).id < |s.pc|
    ensures Inv(Next(s, st), NextGhost(s, g, st))
  {
    match st
    case StartUnlock(a) => StartUnlockKeeps(s, g, a);
    case DoUnlockTop(a) => UnlockTopKeeps(s, g, a);
    case DoUnlockFree(a) => if s.word == Held(Null) { ReleaseKeeps(s, g, a); } else { ReleaseFailsKeeps(s, g, a); }
    case DoUnlockGrab(a) => GrabKeeps(s, g, a);
    case DoReverse(a) => ReverseKeeps(s, g, a);
    case DoHandOver(a) => HandOverKeeps(s, g, a);
    case DoResume(a, pred) =>
      if Fails(s.kind[s.pc[a].n], pred) { RefuseKeeps(s, g, a); } else { SubmitKeeps(s, g, a, pred); }
  }

  lemma CvStepKeeps(s: State, g: Ghost, st: Step)
    requires Inv(s, g) && Enabled(s, st) && !LockStep(st) && !UnlockStep(st)
    requires Nested(s.pc[st.a]) && Carried(s.pc[st.a]).Node? ==> Carried(s.pc[st.a]).id < |s.pc|
    ensures Inv(Next(s, st), NextGhost(s, g, st))
  {
    match st
    case StartWait(a, k, hasPred, x, pred) => WaitKeeps(s, g, a, k, hasPred, x, pred);
    case DoRegisterWait(a) => RegisterKeeps(s, g, a);
    case DoEnlist(a) => EnlistKeeps(s, g, a, s.pc[a].n, s.kind[s.pc[a].n].cv);
    case NotifyOne(a, k) => if s.cvHead[k].Node? { NotifyOneKeeps(s, g, a, s.cvHead[k].id, k); }
    case NotifyAll(a, k) => NotifyAllKeeps(s, g, a, k);
    case DoNotify(a) => if s.pc[a].cur.Null? { LoopEndKeeps(s, g, a); } else { TurnKeeps(s, g, a, s.pc[a].cur.id); }
  }

  /** No step of any coroutine breaks the invariant. */
  lemma StepKeeps(s: State, g: Ghost, st: Step)
    requires Inv(s, g) && Enabled(s, st)
    ensures Nested(s.pc[st.a]) && Carried(s.pc[st.a]).Node? ==> Carried(s.pc[st.a]).id < |s.pc|
    ensures Inv(Next(s, st), NextGhost(s, g, st))
  {
    assert AgentOk(s, g, st.a);
    if LockStep(st) { LockStepKeeps(s, g, st); }
    else if UnlockStep(st) { UnlockStepKeeps(s, g, st); }
    else { CvStepKeeps(s, g, st); }
  }

  /** The bookkeeping beside state i of a run. */
  ghost function GhostAt(trace: seq<State>, steps: seq<Step>, i: nat): (g: Ghost)
    requires Run(trace, steps) && i < |trace|
    ensures Inv(trace[i], g)
  {
    if i == 0 then
      InitHolds(trace[0]);
      InitGhost(trace[0])
    else
      var g := GhostAt(trace, steps, i - 1);
      assert Follows(trace, steps, i - 1);
      StepKeeps(trace[i - 1], g, steps[i - 1]);
      NextGhost(trace[i - 1], g, steps[i - 1])
  }
}
