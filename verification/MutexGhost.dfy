/**
 Bookkeeping for the proofs about MutexModel: who owns the lock, where every node is, and the logs of list
 insertions. It never influences a step. A node's place carries its position in an insertion log, so two places
 can never hold the same node.
 */
module MutexGhost {
  import opened Links
  import opened MutexModel

  datatype Place =
    | Out                       // in no list; its coroutine runs
    | With(a: Id)               // a is running register_lock, resume or register_cv on it
    | OnMutex(i: nat)           // waits for the mutex: entry i of the push log
    | OnCv(k: nat, i: nat)      // waits on condition variable k: entry i of its log
    | Submitted                 // its handle is in a context's task queue

  /** Who owns the lock: nobody, a coroutine's user code, an executing unlock/resume chain, or a submitted node. */
  datatype Token = NoOne | Coro(c: Id) | Exec(a: Id) | Handed(n: Id)

  /** A running notify_all: slots [start, hi) were detached, [start, lo) of them have been woken. */
  datatype Detached = NoLoop | Loop(k: nat, start: nat, lo: nat, hi: nat)

  datatype Ghost = Ghost(
    place: seq<Place>,
    token: Token,
    log: seq<Id>,             // successful pushes onto the mutex stack, oldest first
    off: nat,                 // log[..off] have been handed the lock
    mid: nat,                 // log[off..mid] still to be reversed
    split: nat,               // log[off..split] belong to the holder, log[split..] are on the stack
    cvLog: seq<seq<Id>>,      // insertions into every condition variable, oldest first
    cvTaker: seq<seq<Id>>,    // who removed entry i of the log
    loops: seq<Detached>)     // per coroutine

  // ---------------------------------------------------------------- reading a program position

  /** The node this coroutine is working on, if any. */
  function Carried(pc: Pc): Ptr {
    match pc
    case LockLoad(n, _) => Node(n)
    case LockTake(n, _) => Node(n)
    case LockPush(n, _, _) => Node(n)
    case ResumeNode(n, _) => Node(n)
    case RegisterWait(n, _) => Node(n)
    case Enlist(n, _) => Node(n)
    case _ => Null
  }

  /** Positions at which the executing chain owns the lock. */
  predicate Owning(pc: Pc) {
    pc.ResumeNode? || pc.RegisterWait? || pc.Enlist? || pc.UnlockTop? || pc.UnlockFree? || pc.UnlockGrab?
    || pc.Reverse? || pc.HandOver?
  }

  predicate Locking(pc: Pc) {
    pc.LockLoad? || pc.LockTake? || pc.LockPush?
  }

  predicate Nested(pc: Pc) {
    Owning(pc) || Locking(pc)
  }

  function AfterOf(pc: Pc): After
    requires Nested(pc)
  {
    pc.after
  }

  predicate InLoop(pc: Pc) {
    pc.NotifyLoop? || (Nested(pc) && AfterOf(pc).NotifyRest?)
  }

  function Cursor(pc: Pc): Ptr
    requires InLoop(pc)
  {
    if pc.NotifyLoop? then pc.cur else AfterOf(pc).rest
  }

  /** The coroutine has published its own node or is about to: it will not run user code before being resumed. */
  predicate Leaving(pc: Pc) {
    pc.Suspended? || (Nested(pc) && (AfterOf(pc).ToSuspend? || AfterOf(pc).OwnLock?))
  }

  // ---------------------------------------------------------------- the invariant

  ghost predicate Shape(s: State, g: Ghost) {
    && Sized(s)
    && |g.place| == |g.loops| == |s.pc|
    && |g.cvLog| == |g.cvTaker| == |s.cvHead|
    && g.off <= g.mid <= g.split <= |g.log|
  }

  function PtrAt(log: seq<Id>, i: int, lo: int, hi: int): Ptr
    requires 0 <= lo && hi <= |log|
  {
    if lo <= i < hi then Node(log[i]) else Null
  }

  ghost predicate NodeOk(s: State, g: Ghost, n: Id)
    requires Shape(s, g) && n < |s.pc|
  {
    && (g.place[n] != Submitted ==> s.queued[n] == 0)
    && match g.place[n]
       case Out => true
       case With(a) => a < |s.pc| && Carried(s.pc[a]) == Node(n)
       case OnMutex(i) => g.off <= i < |g.log| && g.log[i] == n
       case OnCv(k, i) =>
         && s.kind[n].Cv? && s.kind[n].cv == k
         && k < |g.cvLog| && i < |g.cvLog[k]| && g.cvLog[k][i] == n
         && (i < |g.cvTaker[k]| ==>
               var a := g.cvTaker[k][i];
               a < |s.pc| && g.loops[a].Loop? && g.loops[a].k == k && g.loops[a].lo <= i < g.loops[a].hi)
       case Submitted => s.queued[n] == 1 && g.token == Handed(n)
  }

  /** What a coroutine's own position says about it; `mine` and `user` are its claims on the lock token. */
  predicate PositionOk(a: Id, pc: Pc, holds: bool, mine: bool, user: bool, out: bool, plain: bool) {
    && (Owning(pc) <==> mine)
    && (holds || pc.Granted? <==> user)
    && (holds ==> !pc.Granted?)
    && (Locking(pc) && pc.after.OwnLock? ==> pc.n == a && plain)
    && (Locking(pc) ==> !pc.after.ToSuspend?)
    && (Owning(pc) ==> !pc.after.OwnLock?)
    && (Leaving(pc) ==> !holds)
    && (Leaving(pc) <==> !out)
  }

  ghost predicate AgentOk(s: State, g: Ghost, a: Id)
    requires Shape(s, g) && a < |s.pc|
  {
    && (Carried(s.pc[a]).Node? ==> Carried(s.pc[a]).id < |s.pc| && g.place[Carried(s.pc[a]).id] == With(a))
    && PositionOk(a, s.pc[a], s.holds[a], g.token == Exec(a), g.token == Coro(a), g.place[a] == Out, s.kind[a].Plain?)
    && (s.pc[a].RegisterWait? || s.pc[a].Enlist? ==> s.kind[s.pc[a].n].Cv?)
    && (s.pc[a].LockPush? ==> s.next[s.pc[a].n] == s.pc[a].seen)
  }

  /** Wait counters are raised once per wait: m_suspend_state says whether a cv node has already been counted. */
  ghost predicate CountedOk(s: State, g: Ghost, n: Id)
    requires Shape(s, g) && n < |s.pc|
  {
    s.kind[n].Cv? ==>
      && (g.place[n] != Out && !s.suspended[n] ==> s.pc[n] == RegisterWait(n, ToSuspend))
      && (g.place[n] == Out && s.suspended[n] ==> s.pc[n].Granted?)
  }

  /** Slot i of a running notify_all: still to be woken, linked to the next detached node. */
  ghost predicate LoopSlot(s: State, g: Ghost, a: Id, i: nat)
    requires Shape(s, g) && a < |s.pc|
    requires g.loops[a].Loop? && g.loops[a].k < |g.cvLog|
    requires i < g.loops[a].hi <= |g.cvTaker[g.loops[a].k]| <= |g.cvLog[g.loops[a].k]|
  {
    var Loop(k, _, lo, hi) := g.loops[a];
    var n := g.cvLog[k][i];
    && n < |s.pc|
    && g.place[n] == OnCv(k, i)
    && g.cvTaker[k][i] == a
    && s.next[n] == PtrAt(g.cvLog[k], i + 1, lo, hi)
  }

  ghost predicate LoopOk(s: State, g: Ghost, a: Id)
    requires Shape(s, g) && a < |s.pc|
  {
    var d := g.loops[a];
    && (InLoop(s.pc[a]) <==> d.Loop?)
    && (d.Loop? ==>
          && d.k < |g.cvLog| && d.start <= d.lo <= d.hi <= |g.cvTaker[d.k]| <= |g.cvLog[d.k]|
          && Cursor(s.pc[a]) == PtrAt(g.cvLog[d.k], d.lo, d.lo, d.hi)
          && forall i | d.lo <= i < d.hi :: LoopSlot(s, g, a, i))
  }

  /** Slot i of a condition variable's own list. */
  ghost predicate CvSlot(s: State, g: Ghost, k: nat, i: nat)
    requires Shape(s, g) && k < |g.cvLog| && i < |g.cvLog[k]|
  {
    var n := g.cvLog[k][i];
    && n < |s.pc|
    && g.place[n] == OnCv(k, i)
    && s.next[n] == PtrAt(g.cvLog[k], i + 1, 0, |g.cvLog[k]|)
  }

  ghost predicate CvOk(s: State, g: Ghost, k: nat)
    requires Shape(s, g) && k < |g.cvLog|
  {
    var log, lo, hi := g.cvLog[k], |g.cvTaker[k]|, |g.cvLog[k]|;
    && lo <= hi
    && s.cvHead[k] == PtrAt(log, lo, lo, hi)
    && s.cvTail[k] == PtrAt(log, hi - 1, lo, hi)
    && forall i | lo <= i < hi :: CvSlot(s, g, k, i)
  }

  /** Where the node of log entry i must point, by the part of the queue it is in. */
  ghost function QueueLink(g: Ghost, i: nat): Ptr
    requires g.off <= g.mid <= g.split <= |g.log| && g.off <= i < |g.log|
  {
    if g.split <= i then PtrAt(g.log, i - 1, g.split, |g.log|)     // stack: towards the bottom
    else if g.mid <= i then PtrAt(g.log, i + 1, g.mid, g.split)    // resume list: towards the newest
    else PtrAt(g.log, i - 1, g.off, g.mid)                         // grabbed, not reversed yet
  }

  ghost predicate QueueSlot(s: State, g: Ghost, i: nat)
    requires Shape(s, g) && g.off <= i < |g.log|
  {
    && g.log[i] < |s.pc|
    && g.place[g.log[i]] == OnMutex(i)
    && s.next[g.log[i]] == QueueLink(g, i)
  }

  /** The log's live entries are exactly the mutex waiters, linked as their part of the queue demands. */
  ghost predicate QueueOk(s: State, g: Ghost)
    requires Shape(s, g)
  {
    forall i | g.off <= i < |g.log| :: QueueSlot(s, g, i)
  }

  ghost predicate WordOk(s: State, g: Ghost)
    requires Shape(s, g)
  {
    && (g.token == NoOne <==> s.word == Free)
    && (s.word == Free ==> g.off == |g.log|)
    && (s.word.Held? ==> s.word.top == PtrAt(g.log, |g.log| - 1, g.split, |g.log|))
    && (g.token.Exec? ==> g.token.a < |s.pc|)
    && (g.token.Coro? ==> g.token.c < |s.pc|)
    && (g.token.Handed? ==> g.token.n < |s.pc| && g.place[g.token.n] == Submitted)
  }

  /** m_resume_list_head against the holder's part of the queue, by position of the unlocking chain. */
  ghost predicate HolderOk(s: State, g: Ghost)
    requires Shape(s, g)
  {
    var pc := if g.token.Exec? && g.token.a < |s.pc| then s.pc[g.token.a] else Pc.User;
    match pc
    case Reverse(done, rest, _) =>
      && s.resumeHead == Null && g.off < g.mid
      && rest == Node(g.log[g.mid - 1]) && done == PtrAt(g.log, g.mid, g.mid, g.split)
    case HandOver(to, _) =>
      && g.mid == g.off < g.split && to == Node(g.log[g.off]) && (s.resumeHead == Null || s.resumeHead == to)
    case UnlockFree(_) => g.off == g.split == g.mid && s.resumeHead == Null
    case UnlockGrab(_) => g.off == g.split == g.mid && s.resumeHead == Null && g.split < |g.log|
    case _ => g.mid == g.off && s.resumeHead == PtrAt(g.log, g.off, g.off, g.split)
  }

  ghost predicate Inv(s: State, g: Ghost) {
    && Shape(s, g)
    && (forall n | 0 <= n < |s.pc| :: NodeOk(s, g, n))
    && (forall a | 0 <= a < |s.pc| :: AgentOk(s, g, a))
    && (forall n | 0 <= n < |s.pc| :: CountedOk(s, g, n))
    && (forall a | 0 <= a < |s.pc| :: LoopOk(s, g, a))
    && (forall k | 0 <= k < |g.cvLog| :: CvOk(s, g, k))
    && QueueOk(s, g)
    && WordOk(s, g)
    && HolderOk(s, g)
  }

  // ---------------------------------------------------------------- how a step updates the bookkeeping

  ghost function InitGhost(s: State): Ghost
  {
    Ghost(seq(|s.pc|, _ => Out), NoOne, [], 0, 0, 0, seq(|s.cvHead|, _ => []), seq(|s.cvHead|, _ => []),
          seq(|s.pc|, _ => NoLoop))
  }

  ghost function Put(g: Ghost, n: Id, p: Place): Ghost
    requires n < |g.place|
  {
    g.(place := g.place[n := p])
  }

  /** The word is taken from Free on behalf of node n: its own lock() continues or the waker runs its resume. */
  ghost function TakeGhost(g: Ghost, a: Id, n: Id, after: After): Ghost
    requires n < |g.place|
  {
    if after.OwnLock? then Put(g, n, Out).(token := Coro(a))
    else g.(token := Exec(a))
  }

  ghost function PushGhost(g: Ghost, n: Id): Ghost
    requires n < |g.place|
  {
    Put(g, n, OnMutex(|g.log|)).(log := g.log + [n])
  }

  ghost function GrabGhost(g: Ghost): Ghost {
    g.(mid := |g.log|, split := |g.log|)
  }

  ghost function ReverseGhost(g: Ghost): Ghost
    requires 0 < g.mid
  {
    g.(mid := g.mid - 1)
  }

  ghost function HandOverGhost(g: Ghost, a: Id, n: Id): Ghost
    requires n < |g.place|
  {
    Put(g, n, With(a)).(off := g.off + 1, mid := g.mid + 1)
  }

  ghost function ResumeGhost(g: Ghost, n: Id, kind: Kind, pred: bool): Ghost
    requires n < |g.place|
  {
    if Fails(kind, pred) then g else Put(g, n, Submitted).(token := Handed(n))
  }

  ghost function WaitGhost(g: Ghost, a: Id, hasPred: bool, pred: bool): Ghost
    requires a < |g.place|
  {
    if hasPred && pred then g else Put(g, a, With(a)).(token := Exec(a))
  }

  ghost function EnlistGhost(g: Ghost, n: Id, k: nat): Ghost
    requires n < |g.place| && k < |g.cvLog|
  {
    Put(g, n, OnCv(k, |g.cvLog[k]|)).(cvLog := g.cvLog[k := g.cvLog[k] + [n]])
  }

  ghost function NotifyOneGhost(g: Ghost, a: Id, k: nat, n: Id): Ghost
    requires n < |g.place| && k < |g.cvTaker|
  {
    Put(g, n, With(a)).(cvTaker := g.cvTaker[k := g.cvTaker[k] + [a]])
  }

  ghost function NotifyAllGhost(g: Ghost, a: Id, k: nat): Ghost
    requires a < |g.loops| && k < |g.cvTaker| == |g.cvLog|
  {
    var lo, hi := |g.cvTaker[k]|, |g.cvLog[k]|;
    if hi < lo then g
    else g.(cvTaker := g.cvTaker[k := g.cvTaker[k] + seq(hi - lo, _ => a)], loops := g.loops[a := Loop(k, lo, lo, hi)])
  }

  ghost function NotifyGhost(g: Ghost, a: Id, cur: Ptr): Ghost
    requires a < |g.loops| && (cur.Null? || cur.id < |g.place|)
  {
    if cur.Null? then g.(loops := g.loops[a := NoLoop])
    else if g.loops[a].NoLoop? then g
    else Put(g, cur.id, With(a)).(loops := g.loops[a := g.loops[a].(lo := g.loops[a].lo + 1)])
  }

  ghost function NextGhost(s: State, g: Ghost, st: Step): Ghost
    requires Shape(s, g) && Enabled(s, st)
    requires Nested(s.pc[st.a]) && Carried(s.pc[st.a]).Node? ==> Carried(s.pc[st.a]).id < |s.pc|
  {
    match st
    case StartLock(a, _) => Put(g, a, With(a))
    case TryLock(a) => if s.word.Free? then g.(token := Coro(a)) else g
    case DoTake(a, spurious) => if s.word.Free? && !spurious then TakeGhost(g, a, s.pc[a].n, s.pc[a].after) else g
    case DoPush(a, spurious) => if s.word == Held(s.pc[a].seen) && !spurious then PushGhost(g, s.pc[a].n) else g
    case StartUnlock(a) => g.(token := Exec(a))
    case DoUnlockFree(a) => if s.word == Held(Null) then g.(token := NoOne) else g
    case DoUnlockGrab(a) => GrabGhost(g)
    case DoReverse(a) => if g.off < g.mid then ReverseGhost(g) else g
    case DoHandOver(a) => if g.mid < g.split then HandOverGhost(g, a, s.pc[a].to.id) else g
    case DoResume(a, pred) => ResumeGhost(g, s.pc[a].n, s.kind[s.pc[a].n], pred)
    case StartWait(a, k, hasPred, x, pred) => WaitGhost(g, a, hasPred, pred)
    case DoEnlist(a) => EnlistGhost(g, s.pc[a].n, s.kind[s.pc[a].n].cv)
    case NotifyOne(a, k) => if s.cvHead[k].Null? then g else NotifyOneGhost(g, a, k, s.cvHead[k].id)
    case NotifyAll(a, k) => NotifyAllGhost(g, a, k)
    case DoNotify(a) => NotifyGhost(g, a, s.pc[a].cur)
    case Dispatch(a) => Put(g, a, Out).(token := Coro(a))
    case _ => g
  }
}
