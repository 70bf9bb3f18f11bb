/**
 The mutex and the condition variable as the objects they are, run by one thread without interference: the lists are
 linked through the awaiter nodes and updated in place, `unlock` reverses the waiter stack in a loop and recurses
 through the virtual `resume`. A predicate is a constant of its wait, since nobody else runs.
 */
module MutexHeap {
  import opened Options

  /** Where a node is linked in, with its position in the history of that list. */
  datatype Place = Nowhere | OnMutex(i: nat) | OnCv(cv: CondVar, i: nat) | OnWalk(i: nat)

  class Awaiter {
    const cv: CondVar?            // null for a plain mutex_awaiter
    const cond: Option<bool>      // the predicate's value, None without a predicate
    var next: Awaiter?            // m_next
    var suspended: bool           // m_suspend_state
    var registered: int           // net register_wait calls on its context
    ghost var place: Place

    constructor (cv: CondVar?, cond: Option<bool>)
      ensures this.cv == cv && this.cond == cond && next == null && !suspended && registered == 0 && place == Nowhere
    {
      this.cv, this.cond, this.next := cv, cond, null;
      this.suspended, this.registered := false, 0;
      this.place := Nowhere;
    }

    /** The cv override of resume would put this node back to sleep. */
    predicate Fails() {
      cv != null && cond == Some(false)
    }
  }

  class CondVar {
    var head: Awaiter?
    var tail: Awaiter?
    ghost var log: seq<Awaiter>   // every node ever enlisted
    ghost var taken: nat          // log[..taken] have left

    constructor ()
      ensures head == null && tail == null && log == [] && taken == 0
    {
      head, tail, log, taken := null, null, [], 0;
    }

    ghost function List(): seq<Awaiter>
      reads this
      requires taken <= |log|
    {
      log[taken..]
    }
  }

  /** Entry i of a log, if lo <= i < hi. */
  ghost function At(log: seq<Awaiter>, i: int, lo: int, hi: int): Awaiter?
    requires 0 <= lo && hi <= |log|
  {
    if lo <= i < hi then log[i] else null
  }

  /** Position of the first waiter that may keep the lock, or the length if none may. */
  function FirstFit(q: seq<Awaiter>): (k: nat)
    ensures k <= |q|
    ensures forall i | 0 <= i < k :: q[i].Fails()
    ensures k < |q| ==> !q[k].Fails()
  {
    if q == [] || !q[0].Fails() then 0 else 1 + FirstFit(q[1..])
  }

  /** Those of q that wait on cv, in order. */
  ghost function For(q: seq<Awaiter>, cv: CondVar): seq<Awaiter> {
    if q == [] then [] else
    var n := q[|q| - 1];
    For(q[..|q| - 1], cv) + if n.cv == cv then [n] else []
  }

  /** What a mutex looks like from outside: who is in line, which register_cv and submit_task calls have been made. */
  datatype View = View(held: bool, line: seq<Awaiter>, moves: seq<Awaiter>, submitted: seq<Awaiter>)

  /**
   What unlocking does to v: the first in line that may keep the lock gets it and is submitted, those before it go
   back, in order, to their condition variables, and the rest stays in line. If nobody may keep the lock, it ends up
   free with nobody in line.
   */
  function Settled(v: View): View {
    var q, k := v.line, FirstFit(v.line);
    if k < |q| then View(true, q[k + 1..], v.moves + q[..k], v.submitted + [q[k]])
    else View(false, [], v.moves + q, v.submitted)
  }

  /** One resume at a time. */
  lemma SettleOne(n: Awaiter, v: View)
    ensures Settled(v.(line := [n] + v.line)) ==
            if n.Fails() then Settled(v.(moves := v.moves + [n])) else View(true, v.line, v.moves, v.submitted + [n])
  {
    var q := v.line;
    var p := [n] + q;
    var k := FirstFit(q);
    assert p[1..] == q;
    if n.Fails() {
      assert p[..k + 1] == [n] + q[..k];
      assert v.moves + [n] + q[..k] == v.moves + p[..k + 1];
      assert k == |q| ==> p[..k + 1] == p && q[..k] == q;
      assert k < |q| ==> p[k + 2..] == q[k + 1..];
    } else {
      assert p[..0] == [];
    }
  }

  /**
   Nobody is lost or overtaken: those put back, then the new owner, then the line are the old line. Exactly cv waiters
   with a false predicate are put back, the new owner is none of them, and the lock ends up free exactly if everybody
   in line is.
   */
  lemma SettledKeepsTheLine(v: View, gone: seq<Awaiter>, won: seq<Awaiter>)
    requires gone == Settled(v).moves[|v.moves|..] && won == Settled(v).submitted[|v.submitted|..]
    ensures gone + won + Settled(v).line == v.line && |won| <= 1
    ensures v.moves <= Settled(v).moves && v.submitted <= Settled(v).submitted
    ensures forall n | n in gone :: n.cv != null && n.cond == Some(false)
    ensures forall n | n in won :: n.cv == null || n.cond != Some(false)
    ensures Settled(v).held <==> |won| == 1
    ensures !Settled(v).held <==> forall n | n in v.line :: n.cv != null && n.cond == Some(false)
  {
    var q, k := v.line, FirstFit(v.line);
    if k < |q| {
      assert gone == q[..k] && won == [q[k]] && q[k] in q;
      assert q[..k] + [q[k]] + q[k + 1..] == q;
    } else {
      assert gone == q && won == [];
    }
  }

  /** wake_up of n: queue on a held mutex, or take a free one and resume. */
  function Woken(v: View, n: Awaiter): View {
    if v.held then v.(line := v.line + [n]) else Settled(v.(line := [n]))
  }

  /** Waking the nodes of list one after the other. */
  function WokenAll(v: View, list: seq<Awaiter>): View {
    if list == [] then v else Woken(WokenAll(v, list[..|list| - 1]), list[|list| - 1])
  }

  lemma WakeOneMore(v: View, list: seq<Awaiter>, i: nat)
    requires i < |list|
    ensures WokenAll(v, list[..i + 1]) == Woken(WokenAll(v, list[..i]), list[i])
  {
    assert list[..i + 1][..i] == list[..i];
  }

  /** The last in line is reached only if nobody before it may keep the lock. */
  lemma {:induction false} FirstFitAppend(q: seq<Awaiter>, n: Awaiter)
    ensures FirstFit(q + [n]) == if FirstFit(q) < |q| || !n.Fails() then FirstFit(q) else |q| + 1
  {
    if q == [] {
      assert (q + [n])[1..] == [];
    } else {
      assert (q + [n])[1..] == q[1..] + [n];
      FirstFitAppend(q[1..], n);
    }
  }

  /** Joining a line and then settling is waking after settling. */
  lemma SettleAppend(v: View, q: seq<Awaiter>, n: Awaiter)
    requires !v.held
    ensures Woken(Settled(v.(line := q)), n) == Settled(v.(line := q + [n]))
  {
    var k, p := FirstFit(q), q + [n];
    FirstFitAppend(q, n);
    if k < |q| {
      assert p[..k] == q[..k] && p[k + 1..] == q[k + 1..] + [n];
    } else {
      SettleLast(v, q, n);
    }
  }

  lemma SettleLast(v: View, q: seq<Awaiter>, n: Awaiter)
    requires FirstFit(q) == |q|
    ensures Settled(View(false, [n], v.moves + q, v.submitted)) == Settled(v.(line := q + [n]))
  {
    var p := q + [n];
    FirstFitAppend(q, n);
    SettleOne(n, View(false, [], v.moves + q, v.submitted));
    assert [n] + [] == [n];
    assert p[..|q|] == q;
    assert p[|q| + 1..] == [];
    SettleNone(View(false, [], v.moves + q + [n], v.submitted));
    if n.Fails() {
      assert v.moves + q + [n] == v.moves + p;
    }
  }

  lemma SettleNone(v: View)
    requires v.line == []
    ensures Settled(v) == v.(held := false)
  {
    assert v.moves + [] == v.moves;
  }

  /**
   Waking a whole list ends as if the list had been in line all along: behind the line of a held mutex, and on a free
   one with the lock handed to the first that may keep it.
   */
  lemma {:induction false} WakingIsQueueing(v: View, list: seq<Awaiter>)
    requires v.held || v.line == []
    ensures WokenAll(v, list) == if v.held then v.(line := v.line + list) else Settled(v.(line := list))
  {
    if list != [] {
      var n := |list| - 1;
      WakingIsQueueing(v, list[..n]);
      assert list[..n] + [list[n]] == list;
      if v.held {
        assert v.line + list[..n] + [list[n]] == v.line + list;
      } else {
        SettleAppend(v, list[..n], list[n]);
      }
    }
  }

  datatype Word = Free | Held(top: Awaiter?)

  class Mutex {
    var word: Word                // m_state
    var resumeHead: Awaiter?      // m_resume_list_head
    var submitted: seq<Awaiter>   // the submit_task calls
    ghost var log: seq<Awaiter>   // every node ever pushed on the stack
    ghost var off: nat            // log[..off] have been resumed
    ghost var split: nat          // log[off..split] are on the resume list, log[split..] on the stack
    ghost var moves: seq<Awaiter> // every register_cv call, on whatever condition variable
    ghost var walk: seq<Awaiter>  // the list a notifier has detached
    ghost var step: nat           // walk[..step] have been woken
    ghost var cvs: set<CondVar>   // the condition variables used with this mutex
    ghost var nodes: set<Awaiter> // the nodes of everybody who may wait

    ghost predicate Slot(i: nat)
      reads this, nodes
      requires off <= split <= |log| && off <= i < |log|
    {
      var n := log[i];
      && n in nodes && n.place == OnMutex(i)
      && (n.cv != null ==> n.cv in cvs && n.suspended)
      && n.next == if i < split then At(log, i + 1, off, split) else At(log, i - 1, split, |log|)
    }

    ghost predicate QueueOk()
      reads this, nodes
    {
      && off <= split <= |log|
      && (forall i | off <= i < |log| :: Slot(i))
      && (word.Held? ==> word.top == At(log, |log| - 1, split, |log|))
      && (word.Free? ==> off == |log|)
    }

    ghost predicate CvSlot(cv: CondVar, i: nat)
      reads this, nodes, cv
      requires i < |cv.log|
    {
      var n := cv.log[i];
      n in nodes && n.place == OnCv(cv, i) && n.cv == cv && n.suspended && n.next == At(cv.log, i + 1, 0, |cv.log|)
    }

    ghost predicate CvOk(cv: CondVar)
      reads this, nodes, cv
    {
      && cv.taken <= |cv.log| && cv.log == For(moves, cv)
      && cv.head == At(cv.log, cv.taken, cv.taken, |cv.log|)
      && cv.tail == At(cv.log, |cv.log| - 1, cv.taken, |cv.log|)
      && forall i | cv.taken <= i < |cv.log| :: CvSlot(cv, i)
    }

    ghost predicate CvsOk()
      reads this, nodes, cvs
    {
      forall cv | cv in cvs :: CvOk(cv)
    }

    ghost predicate WalkSlot(i: nat)
      reads this, nodes
      requires i < |walk|
    {
      var n := walk[i];
      && n in nodes && n.place == OnWalk(i) && n.cv != null && n.cv in cvs && n.suspended
      && n.next == At(walk, i + 1, 0, |walk|)
    }

    ghost predicate WalkOk()
      reads this, nodes
    {
      step <= |walk| && forall i | step <= i < |walk| :: WalkSlot(i)
    }

    /** A cv waiter is counted on its context exactly while it is marked suspended. */
    ghost predicate CountsOk()
      reads this, nodes
    {
      forall n | n in nodes && n.cv != null :: n.registered == if n.suspended then 1 else 0
    }

    /** Everything but the resume list's head pointer. */
    ghost predicate Linked()
      reads this, nodes, cvs
    {
      QueueOk() && CvsOk() && WalkOk() && CountsOk()
    }

    ghost predicate Valid()
      reads this, nodes, cvs
    {
      Linked() && resumeHead == At(log, off, off, split)
    }

    ghost function Queue(): seq<Awaiter>
      reads this
      requires off <= |log|
    {
      log[off..]
    }

    ghost function Look(): View
      reads this
      requires off <= |log|
    {
      View(word.Held?, log[off..], moves, submitted)
    }

    /** n is linked in nowhere and may be queued on the mutex. */
    ghost predicate Loose(n: Awaiter)
      reads this, n
    {
      n in nodes && n.place == Nowhere && (n.cv != null ==> n.cv in cvs && n.suspended)
    }

    constructor (ghost cvs: set<CondVar>, ghost nodes: set<Awaiter>)
      requires forall cv | cv in cvs :: cv.head == null && cv.tail == null && cv.log == [] && cv.taken == 0
      requires forall n | n in nodes :: !n.suspended && n.registered == 0
      ensures Valid() && word == Free && Queue() == [] && this.cvs == cvs && this.nodes == nodes
    {
      word, resumeHead, submitted, log, off, split := Free, null, [], [], 0, 0;
      moves, walk, step := [], [], 0;
      this.cvs, this.nodes := cvs, nodes;
    }

    method TryLock() returns (ok: bool)
      requires Valid()
      modifies this`word
      ensures Valid() && ok == old(word).Free?
      ensures word == if ok then Held(null) else old(word)
    {
      if word == Free {
        word := Held(null);
        CvsKept();
        WalkKept();
        return true;
      }
      return false;
    }

    // ---------------------------------------------------------------- what a change elsewhere leaves alone

    twostate predicate SameNode(n: Awaiter)
      reads n
    {
      n.next == old(n.next) && n.place == old(n.place) && n.suspended == old(n.suspended)
    }

    twostate lemma CvKept(cv: CondVar)
      requires old(CvOk(cv)) && unchanged(cv) && nodes == old(nodes) && For(moves, cv) == For(old(moves), cv)
      requires forall n | n in nodes && old(n.place).OnCv? && old(n.place).cv == cv :: SameNode(n)
      ensures CvOk(cv)
    {
      forall i | cv.taken <= i < |cv.log| ensures CvSlot(cv, i) { assert old(CvSlot(cv, i)); }
    }

    twostate lemma CvsKept()
      requires old(CvsOk()) && cvs == old(cvs) && nodes == old(nodes) && moves == old(moves)
      requires forall cv | cv in cvs :: unchanged(cv)
      requires forall n | n in nodes && old(n.place).OnCv? :: SameNode(n)
      ensures CvsOk()
    {
      forall cv | cv in cvs ensures CvOk(cv) { CvKept(cv); }
    }

    twostate lemma WalkKept()
      requires old(WalkOk()) && cvs == old(cvs) && nodes == old(nodes) && walk == old(walk) && step == old(step)
      requires forall n | n in nodes && old(n.place).OnWalk? :: SameNode(n)
      ensures WalkOk()
    {
      forall i | step <= i < |walk| ensures WalkSlot(i) { assert old(WalkSlot(i)); }
    }

    twostate lemma QueueKept()
      requires old(QueueOk()) && word == old(word) && log == old(log) && off == old(off) && split == old(split)
      requires cvs == old(cvs) && nodes == old(nodes)
      requires forall m | m in nodes && old(m.place).OnMutex? :: SameNode(m)
      ensures QueueOk()
    {
      forall i | off <= i < |log| ensures Slot(i) { assert old(Slot(i)); }
    }

    // ---------------------------------------------------------------- register_lock

    /** n has been put on top of the stack it already points to. */
    twostate lemma PushLinks(n: Awaiter)
      requires old(QueueOk() && word.Held? && Loose(n)) && n.suspended == old(n.suspended)
      requires cvs == old(cvs) && nodes == old(nodes) && off == old(off) && split == old(split)
      requires log == old(log) + [n] && n.place == OnMutex(|old(log)|) && word == Held(n)
      requires n.next == At(old(log), |old(log)| - 1, split, |old(log)|)
      requires forall m | m in nodes && m != n :: SameNode(m)
      ensures QueueOk()
    {
      forall i | off <= i < |log| ensures Slot(i) {
        if i < |old(log)| { assert old(Slot(i)); }
      }
    }

    /**
     register_lock of node n; `failures` weak compare-exchanges fail for no reason before one succeeds. Returns
     whether n was queued.
     */
    method RegisterLock(n: Awaiter, failures: nat) returns (queued: bool)
      requires Valid() && Loose(n)
      modifies this`word, this`log, n`next, n`place
      ensures Valid() && queued == old(word).Held? && word.Held?
      ensures log == old(log) + (if queued then [n] else [])
      ensures n.place == if queued then OnMutex(|old(log)|) else Nowhere
      ensures queued ==> Look() == old(Look().(line := Queue() + [n]))
      ensures !queued ==> Look() == View(true, [], moves, submitted)
    {
      var left := failures;
      while left > 0
        invariant word == old(word) && log == old(log) && n.place == Nowhere
      {
        n.next := if word == Free then null else word.top;
        left := left - 1;
      }
      n.next := if word == Free then null else word.top;
      if word == Free {
        word := Held(null);
        queued := false;
      } else {
        word := Held(n);
        n.place := OnMutex(|log|);
        log := log + [n];
        queued := true;
        PushLinks(n);
      }
      CvsKept();
      WalkKept();
    }

    // ---------------------------------------------------------------- unlock takes the stack and reverses it

    /** Entry i while the stack is being reversed: log[off..mid] not yet, log[mid..] done. */
    ghost predicate Turning(i: nat, mid: nat)
      reads this, nodes
      requires off <= mid <= |log| && off <= i < |log|
    {
      var n := log[i];
      && n in nodes && n.place == OnMutex(i)
      && (n.cv != null ==> n.cv in cvs && n.suspended)
      && n.next == if i < mid then At(log, i - 1, off, mid) else At(log, i + 1, mid, |log|)
    }

    /** The body of the reversal loop: entry mid - 1 moves from the grabbed part to the reversed part. */
    method Turn(awaiter: Awaiter, built: Awaiter?, ghost mid: nat, ghost less: nat) returns (temp: Awaiter?)
      requires less == mid - 1 && off < mid <= |log|
      requires forall i | off <= i < |log| :: Turning(i, mid)
      requires awaiter == log[less] && built == At(log, mid, mid, |log|)
      modifies awaiter`next
      ensures forall i | off <= i < |log| :: Turning(i, less)
      ensures temp == At(log, less - 1, off, less)
    {
      assert Turning(less, mid);
      temp := awaiter.next;
      awaiter.next := built;
      forall i | off <= i < |log| ensures Turning(i, less) { assert old(Turning(i, mid)); }
    }

    /** exchange(locked_no_waiting), then the reversal in place. */
    method TakeStack() returns (toResume: Awaiter)
      requires Linked() && word.Held? && off == split < |log|
      modifies this`word, this`split, nodes`next
      ensures Linked() && word == Held(null) && split == |log|
      ensures toResume == log[off] && Look() == old(Look())
    {
      var awaiter := word.top;
      word := Held(null);
      split := |log|;
      var built: Awaiter? := null;
      ghost var mid := |log|;
      forall i | off <= i < |log| ensures Turning(i, mid) { assert old(Slot(i)); }
      while awaiter != null
        invariant off <= mid <= |log| && built == At(log, mid, mid, |log|) && awaiter == At(log, mid - 1, off, mid)
        invariant forall i | off <= i < |log| :: Turning(i, mid)
        invariant forall n | n in nodes && !n.place.OnMutex? :: SameNode(n)
        invariant forall n | n in nodes :: n.place == old(n.place)
        invariant word == Held(null) && split == |log|
        decreases mid
      {
        assert Turning(mid - 1, mid);
        var temp := Turn(awaiter, built, mid, mid - 1);
        built := awaiter;
        awaiter := temp;
        mid := mid - 1;
      }
      toResume := built;
      forall i | off <= i < |log| ensures Slot(i) { assert Turning(i, mid); }
      CvsKept();
      WalkKept();
    }

    // ---------------------------------------------------------------- register_cv

    /** The critical section of register_cv. */
    method Append(n: Awaiter, cv: CondVar)
      requires CvOk(cv) && Loose(n) && n.cv == cv && n.next == null
      modifies cv`head, cv`tail, cv`log, this`moves, nodes`next, n`place
      ensures CvOk(cv) && moves == old(moves) + [n]
      ensures n.place.OnCv? && forall m | m in nodes && m != n && m != old(cv.tail) :: m.next == old(m.next)
      ensures old(cv.tail) != null ==> old(cv.tail).place.OnCv? && old(cv.tail).place.cv == cv
    {
      ghost var last := |cv.log| - 1;
      if cv.tail != null { assert CvSlot(cv, last); }
      if cv.tail == null {
        cv.head := n;
      } else {
        cv.tail.next := n;
      }
      cv.tail := n;
      n.place := OnCv(cv, |cv.log|);
      cv.log := cv.log + [n];
      moves := moves + [n];
      assert moves[..|moves| - 1] == old(moves);
      forall i | cv.taken <= i < |cv.log| ensures CvSlot(cv, i) {
        if i <= last { assert old(CvSlot(cv, i)); }
      }
    }

    /** register_cv of node n on its condition variable. */
    method Enlist(n: Awaiter, cv: CondVar)
      requires Valid() && Loose(n) && n.cv == cv && cv in cvs
      modifies cv`head, cv`tail, cv`log, this`moves, nodes`next, n`place
      ensures Valid() && moves == old(moves) + [n]
    {
      n.next := null;
      CvsKept();
      Append(n, cv);
      assert moves[..|moves| - 1] == old(moves);
      forall c | c in cvs && c != cv ensures CvOk(c) { CvKept(c); }
      QueueKept();
      WalkKept();
    }

    /** What register_lock and resume of a cv_awaiter share: count the wait once, then enlist. */
    method Sleep(n: Awaiter, cv: CondVar)
      requires Valid() && n in nodes && n.place == Nowhere && n.cv == cv && cv in cvs
      modifies cv`head, cv`tail, cv`log, this`moves, nodes`next, n`place, n`suspended, n`registered
      ensures Valid() && n.suspended && Look() == old(Look().(moves := moves + [n]))
    {
      n.registered := n.registered + if n.suspended then 0 else 1;
      n.suspended := true;
      QueueKept();
      CvsKept();
      WalkKept();
      Enlist(n, cv);
    }

    // ---------------------------------------------------------------- unlock and resume

    /** The compare-exchange from held with no waiters to free, on an empty resume list. */
    method Release() returns (ok: bool)
      requires Valid() && word.Held? && resumeHead == null
      modifies this`word
      ensures ok ==> Valid() && Look() == Settled(old(Look()))
      ensures !ok ==> word == old(word) && off == split < |log|
    {
      ok := word == Held(null);
      if ok { word := Free; }
      CvsKept();
      WalkKept();
    }

    /** Takes the first node off the resume list. */
    method Pop(toResume: Awaiter)
      requires Linked() && word.Held? && off < split && toResume == log[off]
      modifies this`resumeHead, this`off, toResume`place
      ensures Valid() && off == old(off) + 1 && Loose(toResume)
      ensures old(Look()) == Look().(line := [toResume] + Queue())
    {
      assert Slot(off);
      resumeHead := toResume.next;
      off := off + 1;
      toResume.place := Nowhere;
      forall i | off <= i < |log| ensures Slot(i) { assert old(Slot(i)); }
      CvsKept();
      WalkKept();
    }

    /** unlock. The lock is held, as the assertion at its head demands. */
    method Unlock()
      requires Valid() && word.Held?
      modifies this`word, this`resumeHead, this`off, this`split, this`moves, this`submitted
      modifies nodes`next, nodes`place, nodes`suspended, nodes`registered, cvs`head, cvs`tail, cvs`log
      ensures Valid() && Look() == Settled(old(Look()))
      decreases |log| - off, 1
    {
      var toResume := resumeHead;
      if toResume == null {
        var done := Release();
        if done { return; }
        toResume := TakeStack();
      }
      assert Slot(off);
      assert Look() == old(Look());
      Pop(toResume);
      Resume(toResume);
    }

    /** mutex_awaiter::resume: the coroutine goes to its context. */
    method Submit(n: Awaiter)
      requires Valid()
      modifies this`submitted
      ensures Valid() && Look() == old(Look().(submitted := submitted + [n]))
    {
      submitted := submitted + [n];
      QueueKept();
      CvsKept();
      WalkKept();
    }

    /** The virtual resume of node n, which has just been given the lock. */
    method Resume(n: Awaiter)
      requires Valid() && word.Held? && Loose(n)
      modifies this`word, this`resumeHead, this`off, this`split, this`moves, this`submitted
      modifies nodes`next, nodes`place, nodes`suspended, nodes`registered, cvs`head, cvs`tail, cvs`log
      ensures Valid() && Look() == Settled(old(Look().(line := [n] + Queue())))
      decreases |log| - off, 2
    {
      SettleOne(n, Look());
      if n.Fails() {
        Sleep(n, n.cv);
        Unlock();
      } else {
        Submit(n);
      }
    }

    // ---------------------------------------------------------------- waiting and notifying

    /** register_lock of a cv_awaiter, by the owner of the lock; tells whether the coroutine sleeps. */
    method WaitOn(n: Awaiter, cv: CondVar) returns (sleeps: bool)
      requires Valid() && word.Held? && n in nodes && n.place == Nowhere && n.cv == cv && cv in cvs
      modifies this`word, this`resumeHead, this`off, this`split, this`moves, this`submitted
      modifies nodes`next, nodes`place, nodes`suspended, nodes`registered, cvs`head, cvs`tail, cvs`log
      ensures Valid() && sleeps == (n.cond != Some(true))
      ensures Look() == if sleeps then Settled(old(Look().(moves := moves + [n]))) else old(Look())
    {
      if n.cond == Some(true) {
        return false;
      }
      Sleep(n, cv);
      Unlock();
      return true;
    }

    /** wake_up of node n, which has left its condition variable. */
    method WakeUp(n: Awaiter, failures: nat)
      requires Valid() && Loose(n)
      modifies this`word, this`resumeHead, this`off, this`split, this`log, this`moves, this`submitted
      modifies nodes`next, nodes`place, nodes`suspended, nodes`registered, cvs`head, cvs`tail, cvs`log
      ensures Valid() && Look() == Woken(old(Look()), n)
    {
      var queued := RegisterLock(n, failures);
      if !queued {
        assert [n] + Queue() == [n];
        Resume(n);
      }
    }

    /** The critical section of notify_one: unlinks the head of the list. */
    method Unlink(cv: CondVar) returns (cur: Awaiter?)
      requires Valid() && cv in cvs
      modifies cv`head, cv`tail, cv`taken, nodes`place
      ensures Valid() && cur == old(cv.head) && old(cv.taken) <= |cv.log|
      ensures cur == null ==> cv.taken == old(cv.taken) == |cv.log|
      ensures cur != null ==>
                Loose(cur) && old(cv.taken) < |cv.log| && cur == cv.log[old(cv.taken)] && cv.taken == old(cv.taken) + 1
    {
      assert CvOk(cv);
      cur := cv.head;
      if cur != null {
        assert CvSlot(cv, cv.taken);
        cv.head := cur.next;
        if cv.head == null {
          cv.tail := null;
        }
        cv.taken := cv.taken + 1;
        cur.place := Nowhere;
      }
      forall i | cv.taken <= i < |cv.log| ensures CvSlot(cv, i) { assert old(CvSlot(cv, i)); }
      forall c | c in cvs && c != cv ensures CvOk(c) { CvKept(c); }
      QueueKept();
      WalkKept();
    }

    method NotifyOne(cv: CondVar, failures: nat)
      requires Valid() && cv in cvs
      modifies this`word, this`resumeHead, this`off, this`split, this`log, this`moves, this`submitted
      modifies nodes`next, nodes`place, nodes`suspended, nodes`registered, cvs`head, cvs`tail, cvs`log, cv`taken
      ensures Valid() && old(cv.taken <= |cv.log|)
      ensures old(cv.List()) == [] ==> Look() == old(Look()) && cv.taken == old(cv.taken)
      ensures old(cv.List()) != [] ==> Look() == Woken(old(Look()), old(cv.List()[0])) && cv.taken == old(cv.taken) + 1
    {
      var cur := Unlink(cv);
      if cur != null {
        WakeUp(cur, failures);
      }
    }

    /** The critical section of notify_all: the whole list changes hands. */
    method Detach(cv: CondVar) returns (cur: Awaiter?)
      requires Valid() && cv in cvs
      modifies cv`head, cv`tail, cv`taken, nodes`place, this`walk, this`step
      ensures Valid() && cv.taken == |cv.log| && old(cv.taken) <= |cv.log|
      ensures walk == cv.log[old(cv.taken)..] && step == 0 && cur == At(walk, 0, 0, |walk|)
    {
      assert CvOk(cv);
      cur := cv.head;
      cv.head, cv.tail := null, null;
      ghost var was := cv.taken;
      cv.taken := |cv.log|;
      walk, step := cv.log[was..], 0;
      forall n | n in nodes && n.place.OnCv? && n.place.cv == cv && was <= n.place.i < |cv.log| {
        n.place := OnWalk(n.place.i - was);
      }
      forall i | 0 <= i < |walk| ensures WalkSlot(i) { assert old(CvSlot(cv, cv.taken + i)); }
      forall c | c in cvs && c != cv ensures CvOk(c) { CvKept(c); }
      QueueKept();
    }

    /** The walk of notify_all moves past curHead. */
    method Leave(curHead: Awaiter) returns (nxt: Awaiter?)
      requires Valid() && step < |walk| && curHead == walk[step]
      modifies curHead`place, this`step
      ensures Valid() && step == old(step) + 1 && nxt == At(walk, step, 0, |walk|) && Loose(curHead)
      ensures curHead.cv != null
    {
      assert WalkSlot(step);
      nxt := curHead.next;
      step := step + 1;
      curHead.place := Nowhere;
      forall i | step <= i < |walk| ensures WalkSlot(i) { assert old(WalkSlot(i)); }
      QueueKept();
      CvsKept();
    }

    /** One round of the loop in notify_all: the link is read before the node is woken. */
    method WakeNext(curHead: Awaiter, failures: nat) returns (nxt: Awaiter?)
      requires Valid() && step < |walk| && curHead == walk[step] && curHead in nodes
      modifies this`word, this`resumeHead, this`off, this`split, this`log, this`moves, this`submitted, this`step
      modifies nodes`next, nodes`place, nodes`suspended, nodes`registered, cvs`head, cvs`tail, cvs`log
      ensures Valid() && step == old(step) + 1 && nxt == At(walk, step, 0, |walk|)
      ensures Look() == Woken(old(Look()), curHead)
    {
      nxt := Leave(curHead);
      WakeUp(curHead, failures);
    }

    /** The loop of notify_all over the detached list; `failures(i)` compare-exchanges fail for no reason in round i. */
    method WakeList(head: Awaiter?, failures: nat -> nat)
      requires Valid() && step == 0 && head == At(walk, 0, 0, |walk|)
      modifies this`word, this`resumeHead, this`off, this`split, this`log, this`moves, this`submitted, this`step
      modifies nodes`next, nodes`place, nodes`suspended, nodes`registered, cvs`head, cvs`tail, cvs`log
      ensures Valid() && Look() == WokenAll(old(Look()), walk)
    {
      var i, curHead := 0, head;
      while curHead != null
        invariant Valid() && i == step <= |walk| && curHead == At(walk, i, 0, |walk|)
        invariant Look() == WokenAll(old(Look()), walk[..i])
        decreases |walk| - i
      {
        assert WalkSlot(i);
        WakeOneMore(old(Look()), walk, i);
        var nxt := WakeNext(curHead, failures(i));
        i, curHead := i + 1, nxt;
      }
      assert walk[..i] == walk;
    }

    method NotifyAll(cv: CondVar, failures: nat -> nat)
      requires Valid() && cv in cvs
      modifies this`word, this`resumeHead, this`off, this`split, this`log, this`moves, this`submitted
      modifies this`walk, this`step
      modifies nodes`next, nodes`place, nodes`suspended, nodes`registered, cvs`head, cvs`tail, cvs`log, cv`taken
      ensures Valid() && old(cv.taken <= |cv.log|)
      ensures Look() == WokenAll(old(Look()), old(cv.List())) && cv.taken == old(|cv.log|)
    {
      var curHead := Detach(cv);
      WakeList(curHead, failures);
    }
  }
}
