/** What every run of the mutex and its condition variables guarantees. */
module MutexTheorems {
  import opened Links
  import opened MutexModel
  import opened MutexGhost
  import opened MutexInvariant
  import opened MutexPlaces
  import opened MutexRefinement
  import FifoLock

  // ---------------------------------------------------------------- one owner

  /** The chain at this position runs resume, register_wait or register_cv for c, which owns the lock meanwhile. */
  predicate Serving(pc: Pc, c: Id) {
    (pc.ResumeNode? || pc.RegisterWait? || pc.Enlist?) && pc.n == c
  }

  /** c owns the lock: in its critical section, about to enter it, in the task queue with it, or being served. */
  ghost predicate Owner(s: State, c: Id)
    requires Sized(s) && c < |s.pc|
  {
    s.holds[c] || s.pc[c].Granted? || s.queued[c] > 0 || exists b | 0 <= b < |s.pc| :: Serving(s.pc[b], c)
  }

  ghost function OwnToken(s: State, g: Ghost, c: Id): (b: Id)
    requires Inv(s, g) && c < |s.pc| && Owner(s, c)
    ensures g.token == Coro(c) || g.token == Handed(c)
            || (b < |s.pc| && g.token == Exec(b) && Serving(s.pc[b], c))
  {
    assert AgentOk(s, g, c) && NodeOk(s, g, c);
    if s.holds[c] || s.pc[c].Granted? || s.queued[c] > 0 then c
    else
      var b :| 0 <= b < |s.pc| && Serving(s.pc[b], c);
      assert AgentOk(s, g, b);
      b
  }

  /** Never two owners, never two unlocking chains, no unlocking chain beside a running owner; free means unowned. */
  lemma MutualExclusion(trace: seq<State>, steps: seq<Step>, i: nat)
    requires Run(trace, steps) && i < |trace|
    ensures var s := trace[i];
      && (forall c, d | 0 <= c < |s.pc| && 0 <= d < |s.pc| && Owner(s, c) && Owner(s, d) :: c == d)
      && (forall a, b | 0 <= a < |s.pc| && 0 <= b < |s.pc| && Owning(s.pc[a]) && Owning(s.pc[b]) :: a == b)
      && (forall a, c | 0 <= a < |s.pc| && 0 <= c < |s.pc| && Owning(s.pc[a]) && Owner(s, c) :: Serving(s.pc[a], c))
      && (s.word == Free <==> forall c | 0 <= c < |s.pc| :: !Owner(s, c) && !Owning(s.pc[c]))
  {
    var s, g := trace[i], GhostAt(trace, steps, i);
    forall c, d | 0 <= c < |s.pc| && 0 <= d < |s.pc| && Owner(s, c) && Owner(s, d) ensures c == d {
      var b, e := OwnToken(s, g, c), OwnToken(s, g, d);
    }
    forall a, b | 0 <= a < |s.pc| && 0 <= b < |s.pc| && Owning(s.pc[a]) && Owning(s.pc[b]) ensures a == b {
      assert AgentOk(s, g, a) && AgentOk(s, g, b);
    }
    forall a, c | 0 <= a < |s.pc| && 0 <= c < |s.pc| && Owning(s.pc[a]) && Owner(s, c) ensures Serving(s.pc[a], c) {
      assert AgentOk(s, g, a);
      var b := OwnToken(s, g, c);
    }
    FreeMeansUnowned(s, g);
  }

  lemma FreeMeansUnowned(s: State, g: Ghost)
    requires Inv(s, g)
    ensures s.word == Free <==> forall c | 0 <= c < |s.pc| :: !Owner(s, c) && !Owning(s.pc[c])
  {
    if s.word == Free {
      forall c | 0 <= c < |s.pc| ensures !Owner(s, c) && !Owning(s.pc[c]) {
        assert AgentOk(s, g, c);
        if Owner(s, c) { var b := OwnToken(s, g, c); }
      }
    } else {
      match g.token
      case Coro(c) => assert AgentOk(s, g, c); assert Owner(s, c);
      case Exec(a) => assert AgentOk(s, g, a); assert Owning(s.pc[a]);
      case Handed(n) => assert NodeOk(s, g, n); assert Owner(s, n);
      case NoOne =>
    }
  }

  // ---------------------------------------------------------------- one place

  /** A coroutine that left for a wait is in exactly one spot; one that runs user code is in none. */
  lemma ExactlyOnePlace(trace: seq<State>, steps: seq<Step>, i: nat, c: Id)
    requires Run(trace, steps) && i < |trace| && c < |trace[i].pc|
    ensures var s := trace[i];
      && (Leaving(s.pc[c]) <==> exists sp :: IsSpot(s, sp) && At(s, sp, c))
      && (forall sp, sq | IsSpot(s, sp) && IsSpot(s, sq) && At(s, sp, c) && At(s, sq, c) :: sp == sq)
      && s.queued[c] <= 1
  {
    var s, g := trace[i], GhostAt(trace, steps, i);
    assert AgentOk(s, g, c) && NodeOk(s, g, c);
    forall sp, sq | IsSpot(s, sp) && IsSpot(s, sq) && At(s, sp, c) && At(s, sq, c) ensures sp == sq {
      OnlySpot(s, g, sp, c);
      OnlySpot(s, g, sq, c);
    }
    if Leaving(s.pc[c]) {
      SpotHolds(s, g, c);
    } else {
      forall sp | IsSpot(s, sp) && At(s, sp, c) ensures false { OnlySpot(s, g, sp, c); }
    }
  }

  /** A handle in a task queue is that of a suspended coroutine, never of one still inside its own await_suspend. */
  lemma QueuedMeansSuspended(trace: seq<State>, steps: seq<Step>, i: nat, c: Id)
    requires Run(trace, steps) && i < |trace| && c < |trace[i].pc| && trace[i].queued[c] > 0
    ensures trace[i].pc[c].Suspended? && trace[i].queued[c] == 1 && Enabled(trace[i], Dispatch(c))
  {
    var g := GhostAt(trace, steps, i);
    assert NodeOk(trace[i], g, c) && AgentOk(trace[i], g, c);
  }

  /** No list ever visits a node twice or fails to end. */
  lemma ListsEnd(trace: seq<State>, steps: seq<Step>, i: nat, sp: Spot) returns (l: seq<Id>)
    requires Run(trace, steps) && i < |trace| && IsSpot(trace[i], sp)
    ensures IsList(trace[i].next, Start(trace[i], sp), l)
    ensures forall p, q | 0 <= p < q < |l| :: l[p] != l[q]
  {
    var s, g := trace[i], GhostAt(trace, steps, i);
    ListsMatch(s, g, sp);
    l := ListOf(s, g, sp);
    NoRepeats(s.next, Start(s, sp), l);
  }

  // ---------------------------------------------------------------- asserts and dereferences

  /** The step a coroutine inside a call takes next. */
  function Pending(s: State, a: Id): Step
    requires a < |s.pc|
  {
    match s.pc[a]
    case LockLoad(_, _) => DoLoad(a)
    case LockTake(_, _) => DoTake(a, false)
    case LockPush(_, _, _) => DoPush(a, false)
    case ResumeNode(_, _) => DoResume(a, true)
    case RegisterWait(_, _) => DoRegisterWait(a)
    case Enlist(_, _) => DoEnlist(a)
    case UnlockTop(_) => DoUnlockTop(a)
    case UnlockFree(_) => DoUnlockFree(a)
    case UnlockGrab(_) => DoUnlockGrab(a)
    case Reverse(_, _, _) => DoReverse(a)
    case HandOver(_, _) => DoHandOver(a)
    case NotifyLoop(_) => DoNotify(a)
    case _ => DoAwaitResume(a)
  }

  /** The three asserts of `unlock` hold whenever they are reached. */
  lemma AssertsHold(trace: seq<State>, steps: seq<Step>, i: nat, a: Id)
    requires Run(trace, steps) && i < |trace| && a < |trace[i].pc|
    ensures var s := trace[i];
      && (s.pc[a].UnlockTop? || s.pc[a].UnlockFree? ==> s.word != Free)
      && (s.pc[a].UnlockGrab? ==> s.word != Free && s.word != Held(Null))
      && (s.pc[a].HandOver? ==> s.pc[a].to != Null)
  {
    var s, g := trace[i], GhostAt(trace, steps, i);
    assert AgentOk(s, g, a);
  }

  /** No call ever dereferences a null pointer: a coroutine inside a call can always take its next step. */
  lemma NeverStuck(trace: seq<State>, steps: seq<Step>, i: nat, a: Id)
    requires Run(trace, steps) && i < |trace| && a < |trace[i].pc|
    requires !trace[i].pc[a].User? && !trace[i].pc[a].Suspended?
    ensures Sized(trace[i]) && Enabled(trace[i], Pending(trace[i], a))
  {
    CanContinue(trace[i], GhostAt(trace, steps, i), a);
  }

  /** User code may lock and try_lock without the lock, unlock and wait with it, and notify either way. */
  lemma UserMayCall(trace: seq<State>, steps: seq<Step>, i: nat, a: Id, k: nat, x: nat, hasPred: bool, pred: bool)
    requires Run(trace, steps) && i < |trace| && a < |trace[i].pc| && trace[i].pc[a].User?
    requires k < |trace[i].cvHead| && x < |trace[i].waits|
    ensures var s := trace[i];
      && (Enabled(s, StartLock(a, x)) <==> !s.holds[a]) && (Enabled(s, TryLock(a)) <==> !s.holds[a])
      && (Enabled(s, StartUnlock(a)) <==> s.holds[a]) && (Enabled(s, StartWait(a, k, hasPred, x, pred)) <==> s.holds[a])
      && Enabled(s, NotifyOne(a, k)) && Enabled(s, NotifyAll(a, k))
  {
    var s, g := trace[i], GhostAt(trace, steps, i);
    assert CvOk(s, g, k);
    if s.cvHead[k].Node? { assert CvSlot(s, g, k, |g.cvTaker[k]|); }
  }

  lemma CanContinue(s: State, g: Ghost, a: Id)
    requires Inv(s, g) && a < |s.pc| && !s.pc[a].User? && !s.pc[a].Suspended?
    ensures Enabled(s, Pending(s, a))
  {
    assert AgentOk(s, g, a) && LoopOk(s, g, a);
    match s.pc[a]
    case Enlist(n, _) =>
      var k := s.kind[n].cv;
      assert CvOk(s, g, k);
      if s.cvTail[k].Node? { assert CvSlot(s, g, k, |g.cvLog[k]| - 1); }
    case Reverse(_, _, _) => assert QueueSlot(s, g, g.mid - 1);
    case HandOver(_, _) => assert QueueSlot(s, g, g.off);
    case NotifyLoop(cur) => if cur.Node? { assert LoopSlot(s, g, a, g.loops[a].lo); }
    case _ =>
  }

  // ---------------------------------------------------------------- first in, first out

  /** The lock has been offered to waiters in the order of their successful CAS, whoever unlocked in between. */
  lemma OffersFollowPushes(trace: seq<State>, steps: seq<Step>, i: nat)
    requires Run(trace, steps) && i < |trace|
    ensures FifoLock.Offered(Ops(trace, steps, i)) <= FifoLock.Enqueued(Ops(trace, steps, i))
  {
    ServedThenWaiting(trace, steps, i);
  }

  /** A newcomer or a try_lock gets the free lock only when every waiter that ever queued has been served. */
  lemma NoBarging(trace: seq<State>, steps: seq<Step>, i: nat)
    requires Run(trace, steps) && i < |steps| && Follows(trace, steps, i) && OpOf(trace[i], steps[i]) == [FifoLock.Take]
    ensures FifoLock.Offered(Ops(trace, steps, i)) == FifoLock.Enqueued(Ops(trace, steps, i))
  {
    ServedThenWaiting(trace, steps, i);
    RunStepRefines(trace, steps, i);
    assert FifoLock.Can(LockAt(trace, steps, i), FifoLock.Take);
  }

  /** Outside a refill, the waiters still to be served are the resume list followed by the reversed stack. */
  lemma TwoListsAreTheQueue(trace: seq<State>, steps: seq<Step>, i: nat) returns (resumes: seq<Id>, stacked: seq<Id>)
    requires Run(trace, steps) && i < |trace|
    requires forall a | 0 <= a < |trace[i].pc| :: !Refilling(trace[i], a)
    ensures IsList(trace[i].next, trace[i].resumeHead, resumes)
    ensures IsList(trace[i].next, Start(trace[i], Stack), Rev(stacked))
    ensures FifoLock.Offered(Ops(trace, steps, i)) + (resumes + stacked) == FifoLock.Enqueued(Ops(trace, steps, i))
  {
    var s, g := trace[i], GhostAt(trace, steps, i);
    ServedThenWaiting(trace, steps, i);
    MutexLists(s, g);
    resumes, stacked := g.log[g.off..g.split], g.log[g.split..];
    assert resumes + stacked == g.log[g.off..];
  }
}
