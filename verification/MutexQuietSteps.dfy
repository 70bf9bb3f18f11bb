/** The steps that leave every waiter list alone keep the invariant. */
module MutexQuietSteps {
  import opened Links
  import opened MutexModel
  import opened MutexGhost
  import opened MutexFrame

  lemma StartLockLocal(s: State, g: Ghost, a: Id, x: nat)
    requires Around(s, g, a, a) && s.pc[a].User? && !s.holds[a] && x < |s.waits|
    ensures Stepped(s, g, StartLockStep(s, a, x), Put(g, a, With(a)), a, a)
  {
  }

  lemma StartLockKeeps(s: State, g: Ghost, a: Id, x: nat)
    requires Inv(s, g) && a < |s.pc| && s.pc[a].User? && !s.holds[a] && x < |s.waits|
    ensures Inv(StartLockStep(s, a, x), Put(g, a, With(a)))
  {
    LookAround(s, g, a, a);
    StartLockLocal(s, g, a, x);
    Quiet(s, g, StartLockStep(s, a, x), Put(g, a, With(a)), a, a);
  }

  lemma TryLockLocal(s: State, g: Ghost, a: Id)
    requires Around(s, g, a, a) && s.pc[a].User? && !s.holds[a] && s.word.Free?
    ensures Stepped(s, g, TryLockStep(s, a), g.(token := Coro(a)), a, a)
  {
  }

  lemma TryLockKeeps(s: State, g: Ghost, a: Id)
    requires Inv(s, g) && a < |s.pc| && s.pc[a].User? && !s.holds[a] && s.word.Free?
    ensures Inv(TryLockStep(s, a), g.(token := Coro(a)))
  {
    LookAround(s, g, a, a);
    TryLockLocal(s, g, a);
    Quiet(s, g, TryLockStep(s, a), g.(token := Coro(a)), a, a);
  }

  lemma LoadDelta(s: State, g: Ghost, a: Id, n: Id)
    requires Around(s, g, a, n) && s.pc[a].LockLoad? && n == s.pc[a].n
    ensures Delta(s, g, LoadStep(s, a), g, a, n)
  {
  }

  lemma LoadTouched(s: State, g: Ghost, a: Id, n: Id)
    requires Around(s, g, a, n) && s.pc[a].LockLoad? && n == s.pc[a].n
    ensures Shape(LoadStep(s, a), g) && |LoadStep(s, a).pc| == |s.pc|
    ensures Touched(LoadStep(s, a), g, a, n)
  {
  }

  lemma LoadWord(s: State, g: Ghost, a: Id, n: Id)
    requires Around(s, g, a, n) && s.pc[a].LockLoad? && n == s.pc[a].n
    ensures Shape(LoadStep(s, a), g)
    ensures WordOk(LoadStep(s, a), g) && HolderOk(LoadStep(s, a), g)
  {
  }

  lemma LoadLocal(s: State, g: Ghost, a: Id, n: Id)
    requires Around(s, g, a, n) && s.pc[a].LockLoad? && n == s.pc[a].n
    ensures Stepped(s, g, LoadStep(s, a), g, a, n)
  {
    LoadDelta(s, g, a, n);
    LoadTouched(s, g, a, n);
    LoadWord(s, g, a, n);
  }

  lemma LoadKeeps(s: State, g: Ghost, a: Id)
    requires Inv(s, g) && a < |s.pc| && s.pc[a].LockLoad? && s.pc[a].n < |s.pc|
    ensures Inv(LoadStep(s, a), g)
  {
    LookAround(s, g, a, s.pc[a].n);
    LoadLocal(s, g, a, s.pc[a].n);
    Quiet(s, g, LoadStep(s, a), g, a, s.pc[a].n);
  }

  lemma TakeOwnLocal(s: State, g: Ghost, a: Id, n: Id)
    requires Around(s, g, a, n) && s.pc[a].LockTake? && s.word.Free? && s.pc[a].after.OwnLock? && n == s.pc[a].n
    ensures Stepped(s, g, TakeStep(s, a, false), TakeGhost(g, a, s.pc[a].n, s.pc[a].after), a, n)
  {
  }

  lemma TakeOwnKeeps(s: State, g: Ghost, a: Id)
    requires Inv(s, g) && a < |s.pc| && s.pc[a].LockTake? && s.word.Free? && s.pc[a].after.OwnLock?
    requires s.pc[a].n < |s.pc|
    ensures Inv(TakeStep(s, a, false), TakeGhost(g, a, s.pc[a].n, s.pc[a].after))
  {
    LookAround(s, g, a, s.pc[a].n);
    TakeOwnLocal(s, g, a, s.pc[a].n);
    Quiet(s, g, TakeStep(s, a, false), TakeGhost(g, a, s.pc[a].n, s.pc[a].after), a, s.pc[a].n);
  }

  lemma TakeWokenLocal(s: State, g: Ghost, a: Id, n: Id)
    requires Around(s, g, a, n) && s.pc[a].LockTake? && s.word.Free? && !s.pc[a].after.OwnLock? && n == s.pc[a].n
    ensures Stepped(s, g, TakeStep(s, a, false), TakeGhost(g, a, s.pc[a].n, s.pc[a].after), a, n)
  {
  }

  lemma TakeWokenKeeps(s: State, g: Ghost, a: Id)
    requires Inv(s, g) && a < |s.pc| && s.pc[a].LockTake? && s.word.Free? && !s.pc[a].after.OwnLock?
    requires s.pc[a].n < |s.pc|
    ensures Inv(TakeStep(s, a, false), TakeGhost(g, a, s.pc[a].n, s.pc[a].after))
  {
    LookAround(s, g, a, s.pc[a].n);
    TakeWokenLocal(s, g, a, s.pc[a].n);
    Quiet(s, g, TakeStep(s, a, false), TakeGhost(g, a, s.pc[a].n, s.pc[a].after), a, s.pc[a].n);
  }

  lemma RetryLocal(s: State, g: Ghost, a: Id, n: Id)
    requires Around(s, g, a, n) && (s.pc[a].LockTake? || s.pc[a].LockPush?) && n == s.pc[a].n
    ensures Stepped(s, g, Goto(s, a, LockLoad(s.pc[a].n, s.pc[a].after)), g, a, n)
  {
  }

  lemma RetryKeeps(s: State, g: Ghost, a: Id)
    requires Inv(s, g) && a < |s.pc| && (s.pc[a].LockTake? || s.pc[a].LockPush?) && s.pc[a].n < |s.pc|
    ensures Inv(Goto(s, a, LockLoad(s.pc[a].n, s.pc[a].after)), g)
  {
    LookAround(s, g, a, s.pc[a].n);
    RetryLocal(s, g, a, s.pc[a].n);
    Quiet(s, g, Goto(s, a, LockLoad(s.pc[a].n, s.pc[a].after)), g, a, s.pc[a].n);
  }

  lemma StartUnlockLocal(s: State, g: Ghost, a: Id)
    requires Around(s, g, a, a) && s.pc[a].User? && s.holds[a]
    ensures Stepped(s, g, StartUnlockStep(s, a), g.(token := Exec(a)), a, a)
  {
  }

  lemma StartUnlockKeeps(s: State, g: Ghost, a: Id)
    requires Inv(s, g) && a < |s.pc| && s.pc[a].User? && s.holds[a]
    ensures Inv(StartUnlockStep(s, a), g.(token := Exec(a)))
  {
    LookAround(s, g, a, a);
    StartUnlockLocal(s, g, a);
    Quiet(s, g, StartUnlockStep(s, a), g.(token := Exec(a)), a, a);
  }

  lemma UnlockTopLocal(s: State, g: Ghost, a: Id)
    requires Around(s, g, a, a) && s.pc[a].UnlockTop?
    ensures Stepped(s, g, UnlockTopStep(s, a), g, a, a)
  {
  }

  lemma UnlockTopKeeps(s: State, g: Ghost, a: Id)
    requires Inv(s, g) && a < |s.pc| && s.pc[a].UnlockTop?
    ensures Inv(UnlockTopStep(s, a), g)
  {
    LookAround(s, g, a, a);
    UnlockTopLocal(s, g, a);
    Quiet(s, g, UnlockTopStep(s, a), g, a, a);
  }

  lemma ReleaseLocal(s: State, g: Ghost, a: Id)
    requires Around(s, g, a, a) && s.pc[a].UnlockFree? && s.word == Held(Null)
    ensures Stepped(s, g, UnlockFreeStep(s, a), g.(token := NoOne), a, a)
  {
  }

  lemma ReleaseKeeps(s: State, g: Ghost, a: Id)
    requires Inv(s, g) && a < |s.pc| && s.pc[a].UnlockFree? && s.word == Held(Null)
    ensures Inv(UnlockFreeStep(s, a), g.(token := NoOne))
  {
    LookAround(s, g, a, a);
    ReleaseLocal(s, g, a);
    Quiet(s, g, UnlockFreeStep(s, a), g.(token := NoOne), a, a);
  }

  lemma ReleaseFailsLocal(s: State, g: Ghost, a: Id)
    requires Around(s, g, a, a) && s.pc[a].UnlockFree? && s.word != Held(Null)
    ensures Stepped(s, g, UnlockFreeStep(s, a), g, a, a)
  {
  }

  lemma ReleaseFailsKeeps(s: State, g: Ghost, a: Id)
    requires Inv(s, g) && a < |s.pc| && s.pc[a].UnlockFree? && s.word != Held(Null)
    ensures Inv(UnlockFreeStep(s, a), g)
  {
    LookAround(s, g, a, a);
    ReleaseFailsLocal(s, g, a);
    Quiet(s, g, UnlockFreeStep(s, a), g, a, a);
  }

  lemma RefuseLocal(s: State, g: Ghost, a: Id, n: Id)
    requires Around(s, g, a, n) && s.pc[a].ResumeNode? && n == s.pc[a].n
    requires Fails(s.kind[s.pc[a].n], false)
    ensures Stepped(s, g, ResumeStep(s, a, false), ResumeGhost(g, s.pc[a].n, s.kind[s.pc[a].n], false), a, n)
  {
  }

  lemma RefuseKeeps(s: State, g: Ghost, a: Id)
    requires Inv(s, g) && a < |s.pc| && s.pc[a].ResumeNode? && s.pc[a].n < |s.pc|
    requires Fails(s.kind[s.pc[a].n], false)
    ensures Inv(ResumeStep(s, a, false), ResumeGhost(g, s.pc[a].n, s.kind[s.pc[a].n], false))
  {
    LookAround(s, g, a, s.pc[a].n);
    RefuseLocal(s, g, a, s.pc[a].n);
    Quiet(s, g, ResumeStep(s, a, false), ResumeGhost(g, s.pc[a].n, s.kind[s.pc[a].n], false), a, s.pc[a].n);
  }

  lemma SubmitDelta(s: State, g: Ghost, a: Id, pred: bool, n: Id)
    requires Around(s, g, a, n) && s.pc[a].ResumeNode? && n == s.pc[a].n
    requires !Fails(s.kind[s.pc[a].n], pred)
    ensures Delta(s, g, ResumeStep(s, a, pred), ResumeGhost(g, s.pc[a].n, s.kind[s.pc[a].n], pred), a, n)
  {
  }

  lemma SubmitTouched(s: State, g: Ghost, a: Id, pred: bool, n: Id)
    requires Around(s, g, a, n) && s.pc[a].ResumeNode? && n == s.pc[a].n
    requires !Fails(s.kind[s.pc[a].n], pred)
    ensures Shape(ResumeStep(s, a, pred), ResumeGhost(g, s.pc[a].n, s.kind[s.pc[a].n], pred))
    ensures |ResumeStep(s, a, pred).pc| == |s.pc|
    ensures Touched(ResumeStep(s, a, pred), ResumeGhost(g, s.pc[a].n, s.kind[s.pc[a].n], pred), a, n)
  {
  }

  lemma SubmitWord(s: State, g: Ghost, a: Id, pred: bool, n: Id)
    requires Around(s, g, a, n) && s.pc[a].ResumeNode? && n == s.pc[a].n
    requires !Fails(s.kind[s.pc[a].n], pred)
    ensures Shape(ResumeStep(s, a, pred), ResumeGhost(g, s.pc[a].n, s.kind[s.pc[a].n], pred))
    ensures WordOk(ResumeStep(s, a, pred), ResumeGhost(g, s.pc[a].n, s.kind[s.pc[a].n], pred))
    ensures HolderOk(ResumeStep(s, a, pred), ResumeGhost(g, s.pc[a].n, s.kind[s.pc[a].n], pred))
  {
  }

  lemma SubmitLocal(s: State, g: Ghost, a: Id, pred: bool, n: Id)
    requires Around(s, g, a, n) && s.pc[a].ResumeNode? && n == s.pc[a].n
    requires !Fails(s.kind[s.pc[a].n], pred)
    ensures Stepped(s, g, ResumeStep(s, a, pred), ResumeGhost(g, s.pc[a].n, s.kind[s.pc[a].n], pred), a, n)
  {
    SubmitDelta(s, g, a, pred, n);
    SubmitTouched(s, g, a, pred, n);
    SubmitWord(s, g, a, pred, n);
  }

  lemma SubmitKeeps(s: State, g: Ghost, a: Id, pred: bool)
    requires Inv(s, g) && a < |s.pc| && s.pc[a].ResumeNode? && s.pc[a].n < |s.pc|
    requires !Fails(s.kind[s.pc[a].n], pred)
    ensures Inv(ResumeStep(s, a, pred), ResumeGhost(g, s.pc[a].n, s.kind[s.pc[a].n], pred))
  {
    LookAround(s, g, a, s.pc[a].n);
    SubmitLocal(s, g, a, pred, s.pc[a].n);
    Quiet(s, g, ResumeStep(s, a, pred), ResumeGhost(g, s.pc[a].n, s.kind[s.pc[a].n], pred), a, s.pc[a].n);
  }

  lemma WaitLocal(s: State, g: Ghost, a: Id, k: nat, hasPred: bool, x: nat, pred: bool)
    requires Around(s, g, a, a) && s.pc[a].User? && s.holds[a] && k < |s.cvHead| && x < |s.waits|
    ensures Stepped(s, g, WaitStep(s, a, k, hasPred, x, pred), WaitGhost(g, a, hasPred, pred), a, a)
  {
  }

  lemma WaitKeeps(s: State, g: Ghost, a: Id, k: nat, hasPred: bool, x: nat, pred: bool)
    requires Inv(s, g) && a < |s.pc| && s.pc[a].User? && s.holds[a] && k < |s.cvHead| && x < |s.waits|
    ensures Inv(WaitStep(s, a, k, hasPred, x, pred), WaitGhost(g, a, hasPred, pred))
  {
    LookAround(s, g, a, a);
    WaitLocal(s, g, a, k, hasPred, x, pred);
    Quiet(s, g, WaitStep(s, a, k, hasPred, x, pred), WaitGhost(g, a, hasPred, pred), a, a);
  }

  lemma RegisterLocal(s: State, g: Ghost, a: Id, n: Id)
    requires Around(s, g, a, n) && s.pc[a].RegisterWait? && n == s.pc[a].n
    ensures Stepped(s, g, RegisterStep(s, a), g, a, n)
  {
  }

  lemma RegisterKeeps(s: State, g: Ghost, a: Id)
    requires Inv(s, g) && a < |s.pc| && s.pc[a].RegisterWait? && s.pc[a].n < |s.pc|
    ensures Inv(RegisterStep(s, a), g)
  {
    LookAround(s, g, a, s.pc[a].n);
    RegisterLocal(s, g, a, s.pc[a].n);
    Quiet(s, g, RegisterStep(s, a), g, a, s.pc[a].n);
  }

  lemma DispatchLocal(s: State, g: Ghost, a: Id)
    requires Around(s, g, a, a) && s.pc[a].Suspended? && s.queued[a] > 0
    ensures Stepped(s, g, DispatchStep(s, a), Put(g, a, Out).(token := Coro(a)), a, a)
  {
  }

  lemma DispatchKeeps(s: State, g: Ghost, a: Id)
    requires Inv(s, g) && a < |s.pc| && s.pc[a].Suspended? && s.queued[a] > 0
    ensures Inv(DispatchStep(s, a), Put(g, a, Out).(token := Coro(a)))
  {
    LookAround(s, g, a, a);
    DispatchLocal(s, g, a);
    Quiet(s, g, DispatchStep(s, a), Put(g, a, Out).(token := Coro(a)), a, a);
  }

  lemma AwaitResumeLocal(s: State, g: Ghost, a: Id)
    requires Around(s, g, a, a) && s.pc[a].Granted?
    ensures Stepped(s, g, AwaitResumeStep(s, a), g, a, a)
  {
  }

  lemma AwaitResumeKeeps(s: State, g: Ghost, a: Id)
    requires Inv(s, g) && a < |s.pc| && s.pc[a].Granted?
    ensures Inv(AwaitResumeStep(s, a), g)
  {
    LookAround(s, g, a, a);
    AwaitResumeLocal(s, g, a);
    Quiet(s, g, AwaitResumeStep(s, a), g, a, a);
  }
}
