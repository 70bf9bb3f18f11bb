/**
 Coroutines sharing one `mutex` and several `condition_variable`s, one atomic access per step.

 Every coroutine owns one awaiter node (its frame slot is reused by every wait, so a node may leave a list and
 come back between another coroutine's load and its compare-exchange). A step belongs to the coroutine that is
 executing; the node it works on is often somebody else's, because `unlock` runs the virtual `resume` of the
 node it hands the lock to, and `wake_up` registers the notified node. Spinlock sections are single steps.
 */
module MutexModel {
  import opened Links

  /** `m_state`: `Free` is 1, `Held(Null)` is 0 (locked, nobody queued), `Held(Node(n))` the top of the waiter stack. */
  datatype Word = Free | Held(top: Ptr)

  /** Dynamic type of an awaiter node; a `cv_awaiter` may or may not carry a predicate. */
  datatype Kind = Plain | Cv(cv: nat, hasPred: bool)

  /** What the executing coroutine does once the current chain of nested calls returns. */
  datatype After =
    | OwnLock               // back in its own `await_suspend` of `lock()`
    | ToUser                // back in user code
    | ToSuspend             // its own `cv.wait` returns true: suspend
    | NotifyRest(rest: Ptr) // next turn of the `notify_all` loop

  datatype Pc =
    | User
    | LockLoad(n: Id, after: After)             // register_lock of n: about to load m_state
    | LockTake(n: Id, after: After)             // saw 1, about to CAS it to 0
    | LockPush(n: Id, seen: Ptr, after: After)  // saw a held lock, about to CAS itself on top
    | ResumeNode(n: Id, after: After)           // n owns the lock, about to run its virtual resume
    | RegisterWait(n: Id, after: After)         // predicate missing or false, about to register_wait
    | Enlist(n: Id, after: After)               // about to register_cv
    | UnlockTop(after: After)                   // about to read m_resume_list_head
    | UnlockFree(after: After)                  // about to CAS 0 to 1
    | UnlockGrab(after: After)                  // about to exchange the stack out
    | Reverse(done: Ptr, rest: Ptr, after: After)
    | HandOver(to: Ptr, after: After)           // about to advance m_resume_list_head past `to`
    | NotifyLoop(cur: Ptr)
    | Granted                                   // about to run await_resume, lock owned
    | Suspended

  datatype State = State(
    word: Word,             // m_state
    resumeHead: Ptr,        // m_resume_list_head
    cvHead: seq<Ptr>,       // m_head of every condition variable
    cvTail: seq<Ptr>,       // m_tail
    waits: seq<int>,        // m_num_wait_task of every context
    pc: seq<Pc>,            // one entry per coroutine from here on
    holds: seq<bool>,       // the coroutine's user code is inside its critical section
    kind: seq<Kind>,        // node: dynamic type
    suspended: seq<bool>,   // node: m_suspend_state
    ctx: seq<nat>,          // node: m_ctx
    next: seq<Ptr>,         // node: m_next
    queued: seq<nat>)       // how often the coroutine's handle sits in a context's task queue

  datatype Step =
    | StartLock(a: Id, x: nat)
    | TryLock(a: Id)
    | DoLoad(a: Id)
    | DoTake(a: Id, spurious: bool)
    | DoPush(a: Id, spurious: bool)
    | StartUnlock(a: Id)
    | DoUnlockTop(a: Id)
    | DoUnlockFree(a: Id)
    | DoUnlockGrab(a: Id)
    | DoReverse(a: Id)
    | DoHandOver(a: Id)
    | DoResume(a: Id, pred: bool)
    | StartWait(a: Id, k: nat, hasPred: bool, x: nat, pred: bool)
    | DoRegisterWait(a: Id)
    | DoEnlist(a: Id)
    | NotifyOne(a: Id, k: nat)
    | NotifyAll(a: Id, k: nat)
    | DoNotify(a: Id)
    | Dispatch(a: Id)
    | DoAwaitResume(a: Id)

  predicate Sized(s: State) {
    && |s.cvHead| == |s.cvTail|
    && |s.pc| == |s.holds| == |s.kind| == |s.suspended| == |s.ctx| == |s.next| == |s.queued|
    && (forall n | 0 <= n < |s.kind| :: s.kind[n].Cv? ==> s.kind[n].cv < |s.cvHead|)
    && (forall n | 0 <= n < |s.ctx| :: s.ctx[n] < |s.waits|)
  }

  /** Everything idle: `n` coroutines in user code, nobody holds, nobody waits. */
  predicate Init(s: State) {
    && Sized(s)
    && s.word == Free && s.resumeHead == Null
    && (forall k | 0 <= k < |s.cvHead| :: s.cvHead[k] == Null && s.cvTail[k] == Null)
    && (forall x | 0 <= x < |s.waits| :: s.waits[x] == 0)
    && (forall n | 0 <= n < |s.pc| ::
          s.pc[n] == User && !s.holds[n] && s.kind[n] == Plain && !s.suspended[n] && s.queued[n] == 0)
  }

  function Return(after: After): Pc {
    match after
    case OwnLock => Suspended
    case ToUser => User
    case ToSuspend => Suspended
    case NotifyRest(rest) => NotifyLoop(rest)
  }

  /** Client rules: lock without holding, unlock and wait only while holding. The rest are program positions. */
  predicate Enabled(s: State, st: Step)
    requires Sized(s)
  {
    && st.a < |s.pc|
    && var pc := s.pc[st.a];
       match st
       case StartLock(a, x) => pc.User? && !s.holds[a] && x < |s.waits|
       case TryLock(a) => pc.User? && !s.holds[a]
       case DoLoad(a) => pc.LockLoad? && pc.n < |s.pc|
       case DoTake(a, _) => pc.LockTake?
       case DoPush(a, _) => pc.LockPush?
       case StartUnlock(a) => pc.User? && s.holds[a]
       case DoUnlockTop(a) => pc.UnlockTop?
       case DoUnlockFree(a) => pc.UnlockFree?
       case DoUnlockGrab(a) => pc.UnlockGrab? && s.word.Held?
       case DoReverse(a) => pc.Reverse? && Valid(pc.rest, |s.pc|)
       case DoHandOver(a) => pc.HandOver? && Valid(pc.to, |s.pc|)
       case DoResume(a, _) => pc.ResumeNode? && pc.n < |s.pc|
       case StartWait(a, k, _, x, _) => pc.User? && s.holds[a] && k < |s.cvHead| && x < |s.waits|
       case DoRegisterWait(a) => pc.RegisterWait? && pc.n < |s.pc|
       case DoEnlist(a) => pc.Enlist? && pc.n < |s.pc| && s.kind[pc.n].Cv?
                           && (var t := s.cvTail[s.kind[pc.n].cv]; t.Null? || t.id < |s.pc|)
       case NotifyOne(a, k) => pc.User? && k < |s.cvHead| && (s.cvHead[k].Null? || s.cvHead[k].id < |s.pc|)
       case NotifyAll(a, k) => pc.User? && k < |s.cvHead|
       case DoNotify(a) => pc.NotifyLoop? && (pc.cur.Null? || pc.cur.id < |s.pc|)
       case Dispatch(a) => pc.Suspended? && s.queued[a] > 0
       case DoAwaitResume(a) => pc.Granted?
  }

  function Goto(s: State, a: Id, pc: Pc): State
    requires a < |s.pc|
  {
    s.(pc := s.pc[a := pc])
  }

  /** register_lock won the lock for n: its own `lock()` continues, a woken cv node is resumed by the waker. */
  function Won(n: Id, after: After): Pc {
    if after.OwnLock? then Granted else ResumeNode(n, after)
  }

  function StartLockStep(s: State, a: Id, x: nat): State
    requires Sized(s) && a < |s.pc| && x < |s.waits|
  {
    Goto(s.(kind := s.kind[a := Plain], ctx := s.ctx[a := x], waits := s.waits[x := s.waits[x] + 1]),
         a, LockLoad(a, OwnLock))
  }

  function TryLockStep(s: State, a: Id): State
    requires Sized(s) && a < |s.pc|
  {
    if s.word.Free? then s.(word := Held(Null), holds := s.holds[a := true]) else s
  }

  function LoadStep(s: State, a: Id): State
    requires Sized(s) && a < |s.pc| && s.pc[a].LockLoad? && s.pc[a].n < |s.pc|
  {
    var LockLoad(n, after) := s.pc[a];
    match s.word
    case Free => Goto(s.(next := s.next[n := Null]), a, LockTake(n, after))
    case Held(top) => Goto(s.(next := s.next[n := top]), a, LockPush(n, top, after))
  }

  /** compare_exchange_weak: fails on a changed word, and may fail for no reason. */
  function TakeStep(s: State, a: Id, spurious: bool): State
    requires Sized(s) && a < |s.pc| && s.pc[a].LockTake?
  {
    var LockTake(n, after) := s.pc[a];
    if s.word.Free? && !spurious
    then Goto(s.(word := Held(Null)), a, Won(n, after))
    else Goto(s, a, LockLoad(n, after))
  }

  function PushStep(s: State, a: Id, spurious: bool): State
    requires Sized(s) && a < |s.pc| && s.pc[a].LockPush?
  {
    var LockPush(n, seen, after) := s.pc[a];
    if s.word == Held(seen) && !spurious
    then Goto(s.(word := Held(Node(n))), a, Return(after))
    else Goto(s, a, LockLoad(n, after))
  }

  function StartUnlockStep(s: State, a: Id): State
    requires Sized(s) && a < |s.pc|
  {
    Goto(s.(holds := s.holds[a := false]), a, UnlockTop(ToUser))
  }

  function UnlockTopStep(s: State, a: Id): State
    requires Sized(s) && a < |s.pc| && s.pc[a].UnlockTop?
  {
    Goto(s, a, if s.resumeHead.Null? then UnlockFree(s.pc[a].after) else HandOver(s.resumeHead, s.pc[a].after))
  }

  function UnlockFreeStep(s: State, a: Id): State
    requires Sized(s) && a < |s.pc| && s.pc[a].UnlockFree?
  {
    if s.word == Held(Null) then Goto(s.(word := Free), a, Return(s.pc[a].after))
    else Goto(s, a, UnlockGrab(s.pc[a].after))
  }

  function UnlockGrabStep(s: State, a: Id): State
    requires Sized(s) && a < |s.pc| && s.pc[a].UnlockGrab? && s.word.Held?
  {
    Goto(s.(word := Held(Null)), a, Reverse(Null, s.word.top, s.pc[a].after))
  }

  /** One turn of the in-place reversal loop. */
  function ReverseStep(s: State, a: Id): State
    requires Sized(s) && a < |s.pc| && s.pc[a].Reverse? && Valid(s.pc[a].rest, |s.pc|)
  {
    var Reverse(done, rest, after) := s.pc[a];
    var temp := s.next[rest.id];
    Goto(s.(next := s.next[rest.id := done]), a,
         if temp.Null? then HandOver(rest, after) else Reverse(rest, temp, after))
  }

  function HandOverStep(s: State, a: Id): State
    requires Sized(s) && a < |s.pc| && s.pc[a].HandOver? && Valid(s.pc[a].to, |s.pc|)
  {
    var HandOver(to, after) := s.pc[a];
    Goto(s.(resumeHead := s.next[to.id]), a, ResumeNode(to.id, after))
  }

  predicate Fails(kind: Kind, pred: bool) {
    kind.Cv? && kind.hasPred && !pred
  }

  /** mutex_awaiter::resume submits the handle; the cv override first evaluates its predicate. */
  function ResumeStep(s: State, a: Id, pred: bool): State
    requires Sized(s) && a < |s.pc| && s.pc[a].ResumeNode? && s.pc[a].n < |s.pc|
  {
    var ResumeNode(n, after) := s.pc[a];
    if Fails(s.kind[n], pred)
    then Goto(s, a, RegisterWait(n, after))
    else Goto(s.(queued := s.queued[n := s.queued[n] + 1]), a, Return(after))
  }

  /** A fresh cv_awaiter; with a true predicate `cv.wait` does not suspend at all. */
  function WaitStep(s: State, a: Id, k: nat, hasPred: bool, x: nat, pred: bool): State
    requires Sized(s) && a < |s.pc| && k < |s.cvHead| && x < |s.waits|
  {
    var s1 := s.(kind := s.kind[a := Cv(k, hasPred)], suspended := s.suspended[a := false], ctx := s.ctx[a := x],
                 holds := s.holds[a := false]);
    Goto(s1, a, if hasPred && pred then Granted else RegisterWait(a, ToSuspend))
  }

  function RegisterStep(s: State, a: Id): State
    requires Sized(s) && a < |s.pc| && s.pc[a].RegisterWait? && s.pc[a].n < |s.pc|
  {
    var RegisterWait(n, after) := s.pc[a];
    var x := s.ctx[n];
    Goto(s.(waits := s.waits[x := s.waits[x] + if s.suspended[n] then 0 else 1], suspended := s.suspended[n := true]),
         a, Enlist(n, after))
  }

  function EnlistStep(s: State, a: Id): State
    requires Sized(s) && a < |s.pc| && s.pc[a].Enlist? && s.pc[a].n < |s.pc| && s.kind[s.pc[a].n].Cv?
    requires var t := s.cvTail[s.kind[s.pc[a].n].cv]; t.Null? || t.id < |s.pc|
  {
    var Enlist(n, after) := s.pc[a];
    var k := s.kind[n].cv;
    var cleared := s.next[n := Null];
    var s1 := if s.cvTail[k].Null?
              then s.(next := cleared, cvHead := s.cvHead[k := Node(n)], cvTail := s.cvTail[k := Node(n)])
              else s.(next := cleared[s.cvTail[k].id := Node(n)], cvTail := s.cvTail[k := Node(n)]);
    Goto(s1, a, UnlockTop(after))
  }

  function NotifyOneStep(s: State, a: Id, k: nat): State
    requires Sized(s) && a < |s.pc| && k < |s.cvHead| && (s.cvHead[k].Null? || s.cvHead[k].id < |s.pc|)
  {
    if s.cvHead[k].Null? then s
    else
      var h := s.next[s.cvHead[k].id];
      Goto(s.(cvHead := s.cvHead[k := h], cvTail := if h.Null? then s.cvTail[k := Null] else s.cvTail),
           a, LockLoad(s.cvHead[k].id, ToUser))
  }

  function NotifyAllStep(s: State, a: Id, k: nat): State
    requires Sized(s) && a < |s.pc| && k < |s.cvHead|
  {
    Goto(s.(cvHead := s.cvHead[k := Null], cvTail := s.cvTail[k := Null]), a, NotifyLoop(s.cvHead[k]))
  }

  function NotifyStep(s: State, a: Id): State
    requires Sized(s) && a < |s.pc| && s.pc[a].NotifyLoop? && (s.pc[a].cur.Null? || s.pc[a].cur.id < |s.pc|)
  {
    var cur := s.pc[a].cur;
    Goto(s, a, if cur.Null? then User else LockLoad(cur.id, NotifyRest(s.next[cur.id])))
  }

  function DispatchStep(s: State, a: Id): State
    requires Sized(s) && a < |s.pc| && s.queued[a] > 0
  {
    Goto(s.(queued := s.queued[a := s.queued[a] - 1]), a, Granted)
  }

  function AwaitResumeStep(s: State, a: Id): State
    requires Sized(s) && a < |s.pc|
  {
    var x := s.ctx[a];
    var cnt := if s.kind[a].Plain? || s.suspended[a] then 1 else 0;
    Goto(s.(waits := s.waits[x := s.waits[x] - cnt], suspended := s.suspended[a := false], holds := s.holds[a := true]),
         a, User)
  }

  function Next(s: State, st: Step): State
    requires Sized(s) && Enabled(s, st)
  {
    match st
    case StartLock(a, x) => StartLockStep(s, a, x)
    case TryLock(a) => TryLockStep(s, a)
    case DoLoad(a) => LoadStep(s, a)
    case DoTake(a, spurious) => TakeStep(s, a, spurious)
    case DoPush(a, spurious) => PushStep(s, a, spurious)
    case StartUnlock(a) => StartUnlockStep(s, a)
    case DoUnlockTop(a) => UnlockTopStep(s, a)
    case DoUnlockFree(a) => UnlockFreeStep(s, a)
    case DoUnlockGrab(a) => UnlockGrabStep(s, a)
    case DoReverse(a) => ReverseStep(s, a)
    case DoHandOver(a) => HandOverStep(s, a)
    case DoResume(a, pred) => ResumeStep(s, a, pred)
    case StartWait(a, k, hasPred, x, pred) => WaitStep(s, a, k, hasPred, x, pred)
    case DoRegisterWait(a) => RegisterStep(s, a)
    case DoEnlist(a) => EnlistStep(s, a)
    case NotifyOne(a, k) => NotifyOneStep(s, a, k)
    case NotifyAll(a, k) => NotifyAllStep(s, a, k)
    case DoNotify(a) => NotifyStep(s, a)
    case Dispatch(a) => DispatchStep(s, a)
    case DoAwaitResume(a) => AwaitResumeStep(s, a)
  }

  /** Steps of the condition variable and of the context, as opposed to those of lock and unlock. */
  predicate CvStep(st: Step) {
    st.StartWait? || st.DoRegisterWait? || st.DoEnlist? || st.NotifyOne? || st.NotifyAll? || st.DoNotify?
    || st.Dispatch? || st.DoAwaitResume?
  }

  lemma CvStepIsSized(s: State, st: Step)
    requires Sized(s) && Enabled(s, st) && CvStep(st)
    ensures Sized(Next(s, st)) && |Next(s, st).pc| == |s.pc| && |Next(s, st).cvHead| == |s.cvHead|
            && |Next(s, st).waits| == |s.waits|
  {
  }

  lemma LockStepIsSized(s: State, st: Step)
    requires Sized(s) && Enabled(s, st) && !CvStep(st)
    ensures Sized(Next(s, st)) && |Next(s, st).pc| == |s.pc| && |Next(s, st).cvHead| == |s.cvHead|
            && |Next(s, st).waits| == |s.waits|
  {
  }

  lemma NextIsSized(s: State, st: Step)
    requires Sized(s) && Enabled(s, st)
    ensures Sized(Next(s, st)) && |Next(s, st).pc| == |s.pc| && |Next(s, st).cvHead| == |s.cvHead|
            && |Next(s, st).waits| == |s.waits|
  {
    if CvStep(st) { CvStepIsSized(s, st); } else { LockStepIsSized(s, st); }
  }

  /** Entry i of a trace and the step beside it. */
  ghost predicate Follows(trace: seq<State>, steps: seq<Step>, i: nat)
    requires i < |steps| && |trace| == |steps| + 1
  {
    Sized(trace[i]) && Enabled(trace[i], steps[i]) && trace[i + 1] == Next(trace[i], steps[i])
  }

  /** `trace` is a run: it starts idle and every entry follows from the one before by the step beside it. */
  ghost predicate Run(trace: seq<State>, steps: seq<Step>) {
    && |trace| == |steps| + 1
    && (forall i | 0 <= i < |trace| :: Sized(trace[i]))
    && Init(trace[0])
    && (forall i | 0 <= i < |steps| :: Follows(trace, steps, i))
  }

  /** What holds at the start and survives every step holds at the end. */
  lemma {:induction false} Climb(p: nat -> bool, i: nat, j: nat)
    requires i <= j && p(i) && forall m: nat, n: nat | i <= m < j && n == m + 1 && p(m) :: p(n)
    ensures p(j)
  {
    if i < j { Climb(p, i, j - 1); }
  }
}
