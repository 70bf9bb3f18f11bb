/**
 Where a suspended coroutine's node is, read off the program state alone: every list is the chain of m_next
 pointers from its head. The bookkeeping of MutexGhost is only used to prove it.
 */
module MutexPlaces {
  import opened Links
  import opened MutexModel
  import opened MutexGhost

  ghost predicate LinksUp(next: seq<Ptr>, log: seq<Id>, i: nat, lo: nat, hi: nat)
    requires lo <= i < hi <= |log|
  {
    log[i] < |next| && next[log[i]] == PtrAt(log, i + 1, lo, hi)
  }

  ghost predicate LinksDown(next: seq<Ptr>, log: seq<Id>, i: nat, lo: nat, hi: nat)
    requires lo <= i < hi <= |log|
  {
    log[i] < |next| && next[log[i]] == PtrAt(log, i - 1, lo, hi)
  }

  lemma {:induction false} UpList(next: seq<Ptr>, log: seq<Id>, at: nat, lo: nat, hi: nat)
    requires lo <= at <= hi <= |log|
    requires forall i | lo <= i < hi :: LinksUp(next, log, i, lo, hi)
    ensures IsList(next, PtrAt(log, at, lo, hi), log[at..hi])
    decreases hi - at
  {
    if at < hi {
      assert LinksUp(next, log, at, lo, hi);
      UpList(next, log, at + 1, lo, hi);
      assert log[at..hi][1..] == log[at + 1..hi];
    }
  }

  lemma {:induction false} DownList(next: seq<Ptr>, log: seq<Id>, at: nat, lo: nat, hi: nat)
    requires lo <= at <= hi <= |log|
    requires forall i | lo <= i < hi :: LinksDown(next, log, i, lo, hi)
    ensures IsList(next, PtrAt(log, at - 1, lo, hi), Rev(log[lo..at]))
    decreases at
  {
    if lo < at {
      assert LinksDown(next, log, at - 1, lo, hi);
      DownList(next, log, at - 1, lo, hi);
      RevLast(log[lo..at]);
      assert log[lo..at][..at - lo - 1] == log[lo..at - 1];
      assert Rev(log[lo..at])[1..] == Rev(log[lo..at - 1]);
    }
  }

  datatype Spot =
    | Stack                // on the waiter stack in m_state
    | ResumeList           // on the holder's resume list
    | Grabbed(a: Id)       // in the part of the exchanged stack that a's unlock has not reversed yet
    | Reversed(a: Id)      // in the part it has reversed but not stored back yet
    | CvList(k: nat)
    | NotifyList(a: Id)    // detached by a's notify_all, not woken yet
    | Hand(a: Id)          // a is registering, resuming or enlisting it
    | TaskQueue

  predicate IsSpot(s: State, sp: Spot) {
    match sp
    case Grabbed(a) => a < |s.pc|
    case Reversed(a) => a < |s.pc|
    case CvList(k) => k < |s.cvHead|
    case NotifyList(a) => a < |s.pc|
    case Hand(a) => a < |s.pc|
    case _ => true
  }

  /** The pointer a list spot starts at. */
  function Start(s: State, sp: Spot): Ptr
    requires IsSpot(s, sp)
  {
    match sp
    case Stack => if s.word.Held? then s.word.top else Null
    case ResumeList => s.resumeHead
    case Grabbed(a) => if s.pc[a].Reverse? then s.pc[a].rest else Null
    case Reversed(a) =>
      if s.pc[a].Reverse? then s.pc[a].done
      else if s.pc[a].HandOver? && s.resumeHead.Null? then s.pc[a].to
      else Null
    case CvList(k) => s.cvHead[k]
    case NotifyList(a) => if InLoop(s.pc[a]) then Cursor(s.pc[a]) else Null
    case _ => Null
  }

  ghost predicate At(s: State, sp: Spot, c: Id)
    requires IsSpot(s, sp) && c < |s.queued|
  {
    match sp
    case Hand(a) => Carried(s.pc[a]) == Node(c)
    case TaskQueue => s.queued[c] > 0
    case _ => exists l :: IsList(s.next, Start(s, sp), l) && c in l
  }

  // ---------------------------------------------------------------- the same, from the bookkeeping

  predicate Refilling(s: State, a: Id)
    requires a < |s.pc|
  {
    s.pc[a].Reverse? || (s.pc[a].HandOver? && s.resumeHead.Null?)
  }

  ghost predicate ChainRefills(s: State, g: Ghost) {
    g.token.Exec? && g.token.a < |s.pc| && Refilling(s, g.token.a)
  }

  ghost function ListOf(s: State, g: Ghost, sp: Spot): seq<Id>
    requires Inv(s, g) && IsSpot(s, sp)
  {
    match sp
    case Stack => Rev(g.log[g.split..])
    case ResumeList => if ChainRefills(s, g) then [] else g.log[g.off..g.split]
    case Grabbed(a) => if s.pc[a].Reverse? then Rev(g.log[g.off..g.mid]) else []
    case Reversed(a) => if Refilling(s, a) then g.log[g.mid..g.split] else []
    case CvList(k) => assert CvOk(s, g, k); g.cvLog[k][|g.cvTaker[k]|..]
    case NotifyList(a) =>
      assert LoopOk(s, g, a);
      if InLoop(s.pc[a]) then g.cvLog[g.loops[a].k][g.loops[a].lo..g.loops[a].hi] else []
    case _ => []
  }

  lemma MutexLists(s: State, g: Ghost)
    requires Inv(s, g)
    ensures IsList(s.next, Start(s, Stack), ListOf(s, g, Stack))
    ensures IsList(s.next, Start(s, ResumeList), ListOf(s, g, ResumeList))
  {
    assert g.token.Exec? ==> AgentOk(s, g, g.token.a);
    forall i | g.split <= i < |g.log| ensures LinksDown(s.next, g.log, i, g.split, |g.log|) {
      assert QueueSlot(s, g, i);
    }
    DownList(s.next, g.log, |g.log|, g.split, |g.log|);
    assert g.log[g.split..|g.log|] == g.log[g.split..];
    if !ChainRefills(s, g) {
      forall i | g.off <= i < g.split ensures LinksUp(s.next, g.log, i, g.off, g.split) { assert QueueSlot(s, g, i); }
      UpList(s.next, g.log, g.off, g.off, g.split);
    }
  }

  lemma PrivateLists(s: State, g: Ghost, a: Id)
    requires Inv(s, g) && a < |s.pc|
    ensures IsList(s.next, Start(s, Grabbed(a)), ListOf(s, g, Grabbed(a)))
    ensures IsList(s.next, Start(s, Reversed(a)), ListOf(s, g, Reversed(a)))
  {
    assert AgentOk(s, g, a);
    if Refilling(s, a) {
      forall i | g.mid <= i < g.split ensures LinksUp(s.next, g.log, i, g.mid, g.split) { assert QueueSlot(s, g, i); }
      UpList(s.next, g.log, g.mid, g.mid, g.split);
      forall i | g.off <= i < g.mid ensures LinksDown(s.next, g.log, i, g.off, g.mid) { assert QueueSlot(s, g, i); }
      DownList(s.next, g.log, g.mid, g.off, g.mid);
    }
  }

  lemma CvLists(s: State, g: Ghost, k: nat)
    requires Inv(s, g) && k < |s.cvHead|
    ensures IsList(s.next, Start(s, CvList(k)), ListOf(s, g, CvList(k)))
  {
    assert CvOk(s, g, k);
    var log, lo, hi := g.cvLog[k], |g.cvTaker[k]|, |g.cvLog[k]|;
    forall i | lo <= i < hi ensures LinksUp(s.next, log, i, lo, hi) { assert CvSlot(s, g, k, i); }
    UpList(s.next, log, lo, lo, hi);
    assert log[lo..hi] == log[lo..];
  }

  lemma NotifyLists(s: State, g: Ghost, a: Id)
    requires Inv(s, g) && a < |s.pc|
    ensures IsList(s.next, Start(s, NotifyList(a)), ListOf(s, g, NotifyList(a)))
  {
    assert LoopOk(s, g, a);
    if InLoop(s.pc[a]) {
      var log, lo, hi := g.cvLog[g.loops[a].k], g.loops[a].lo, g.loops[a].hi;
      forall i | lo <= i < hi ensures LinksUp(s.next, log, i, lo, hi) { assert LoopSlot(s, g, a, i); }
      UpList(s.next, log, lo, lo, hi);
    }
  }

  lemma ListsMatch(s: State, g: Ghost, sp: Spot)
    requires Inv(s, g) && IsSpot(s, sp)
    ensures IsList(s.next, Start(s, sp), ListOf(s, g, sp))
  {
    match sp
    case Stack => MutexLists(s, g);
    case ResumeList => MutexLists(s, g);
    case Grabbed(a) => PrivateLists(s, g, a);
    case Reversed(a) => PrivateLists(s, g, a);
    case CvList(k) => CvLists(s, g, k);
    case NotifyList(a) => NotifyLists(s, g, a);
    case _ =>
  }

  /** The spot the bookkeeping assigns to a node that is in use. */
  ghost function SpotOf(s: State, g: Ghost, c: Id): Spot
    requires Inv(s, g) && c < |s.pc|
  {
    assert NodeOk(s, g, c);
    match g.place[c]
    case With(a) => Hand(a)
    case OnMutex(i) =>
      if g.split <= i then Stack
      else if !ChainRefills(s, g) then ResumeList
      else if i < g.mid then Grabbed(g.token.a) else Reversed(g.token.a)
    case OnCv(k, i) => if |g.cvTaker[k]| <= i then CvList(k) else NotifyList(g.cvTaker[k][i])
    case _ => TaskQueue
  }

  lemma SliceAt(l: seq<Id>, lo: nat, hi: nat, c: Id) returns (i: nat)
    requires lo <= hi <= |l| && c in l[lo..hi]
    ensures lo <= i < hi && l[i] == c
  {
    var j :| 0 <= j < |l[lo..hi]| && l[lo..hi][j] == c;
    i := lo + j;
  }

  lemma ListedOnStack(s: State, g: Ghost, sp: Spot, c: Id)
    requires Inv(s, g) && IsSpot(s, sp) && sp.Stack? && c < |s.pc| && c in ListOf(s, g, sp)
    ensures g.place[c] != Out && sp == SpotOf(s, g, c)
  {
    RevIn(g.log[g.split..], c);
    var i := SliceAt(g.log, g.split, |g.log|, c);
    assert QueueSlot(s, g, i);
  }

  lemma ListedToResume(s: State, g: Ghost, sp: Spot, c: Id)
    requires Inv(s, g) && IsSpot(s, sp) && sp.ResumeList? && c < |s.pc| && c in ListOf(s, g, sp)
    ensures g.place[c] != Out && sp == SpotOf(s, g, c)
  {
    var i := SliceAt(g.log, g.off, g.split, c);
    assert QueueSlot(s, g, i);
  }

  lemma ListedGrabbed(s: State, g: Ghost, sp: Spot, c: Id)
    requires Inv(s, g) && IsSpot(s, sp) && sp.Grabbed? && c < |s.pc| && c in ListOf(s, g, sp)
    ensures g.place[c] != Out && sp == SpotOf(s, g, c)
  {
    assert AgentOk(s, g, sp.a);
    RevIn(g.log[g.off..g.mid], c);
    var i := SliceAt(g.log, g.off, g.mid, c);
    assert QueueSlot(s, g, i);
  }

  lemma ListedReversed(s: State, g: Ghost, sp: Spot, c: Id)
    requires Inv(s, g) && IsSpot(s, sp) && sp.Reversed? && c < |s.pc| && c in ListOf(s, g, sp)
    ensures g.place[c] != Out && sp == SpotOf(s, g, c)
  {
    assert AgentOk(s, g, sp.a);
    var i := SliceAt(g.log, g.mid, g.split, c);
    assert QueueSlot(s, g, i);
  }

  lemma ListedOnCv(s: State, g: Ghost, sp: Spot, c: Id)
    requires Inv(s, g) && IsSpot(s, sp) && sp.CvList? && c < |s.pc| && c in ListOf(s, g, sp)
    ensures g.place[c] != Out && sp == SpotOf(s, g, c)
  {
    assert CvOk(s, g, sp.k);
    var i := SliceAt(g.cvLog[sp.k], |g.cvTaker[sp.k]|, |g.cvLog[sp.k]|, c);
    assert CvSlot(s, g, sp.k, i);
  }

  lemma ListedToNotify(s: State, g: Ghost, sp: Spot, c: Id)
    requires Inv(s, g) && IsSpot(s, sp) && sp.NotifyList? && c < |s.pc| && c in ListOf(s, g, sp)
    ensures g.place[c] != Out && sp == SpotOf(s, g, c)
  {
    assert LoopOk(s, g, sp.a);
    var d := g.loops[sp.a];
    var i := SliceAt(g.cvLog[d.k], d.lo, d.hi, c);
    assert LoopSlot(s, g, sp.a, i);
  }

  lemma ListedAtSpot(s: State, g: Ghost, sp: Spot, c: Id)
    requires Inv(s, g) && IsSpot(s, sp) && c < |s.pc| && c in ListOf(s, g, sp)
    ensures g.place[c] != Out && sp == SpotOf(s, g, c)
  {
    match sp
    case Stack => ListedOnStack(s, g, sp, c);
    case ResumeList => ListedToResume(s, g, sp, c);
    case Grabbed(_) => ListedGrabbed(s, g, sp, c);
    case Reversed(_) => ListedReversed(s, g, sp, c);
    case CvList(_) => ListedOnCv(s, g, sp, c);
    case NotifyList(_) => ListedToNotify(s, g, sp, c);
    case _ =>
  }

  lemma OnlySpot(s: State, g: Ghost, sp: Spot, c: Id)
    requires Inv(s, g) && IsSpot(s, sp) && c < |s.pc| && At(s, sp, c)
    ensures g.place[c] != Out && sp == SpotOf(s, g, c)
  {
    match sp
    case Hand(a) => assert AgentOk(s, g, a);
    case TaskQueue => assert NodeOk(s, g, c);
    case _ =>
      var l :| IsList(s.next, Start(s, sp), l) && c in l;
      ListsMatch(s, g, sp);
      ListsAreUnique(s.next, Start(s, sp), l, ListOf(s, g, sp));
      ListedAtSpot(s, g, sp, c);
  }

  lemma SpotHolds(s: State, g: Ghost, c: Id)
    requires Inv(s, g) && c < |s.pc| && g.place[c] != Out
    ensures IsSpot(s, SpotOf(s, g, c)) && At(s, SpotOf(s, g, c), c)
  {
    assert NodeOk(s, g, c);
    match g.place[c]
    case With(a) =>
    case OnMutex(i) => MutexSpot(s, g, c, i);
    case OnCv(k, i) => CvSpot(s, g, c, k, i);
    case Submitted =>
  }

  lemma MutexSpot(s: State, g: Ghost, c: Id, i: nat)
    requires Inv(s, g) && c < |s.pc| && g.place[c] == OnMutex(i)
    ensures IsSpot(s, SpotOf(s, g, c)) && At(s, SpotOf(s, g, c), c)
  {
    assert NodeOk(s, g, c);
    var sp := SpotOf(s, g, c);
    ListsMatch(s, g, sp);
    assert c in ListOf(s, g, sp) by {
      if g.split <= i {
        assert g.log[g.split..][i - g.split] == c;
        RevIn(g.log[g.split..], c);
      } else if !ChainRefills(s, g) {
        assert g.log[g.off..g.split][i - g.off] == c;
      } else if i < g.mid {
        assert g.log[g.off..g.mid][i - g.off] == c;
        RevIn(g.log[g.off..g.mid], c);
      } else {
        assert g.log[g.mid..g.split][i - g.mid] == c;
      }
    }
  }

  lemma CvSpot(s: State, g: Ghost, c: Id, k: nat, i: nat)
    requires Inv(s, g) && c < |s.pc| && g.place[c] == OnCv(k, i)
    ensures IsSpot(s, SpotOf(s, g, c)) && At(s, SpotOf(s, g, c), c)
  {
    assert NodeOk(s, g, c);
    var sp := SpotOf(s, g, c);
    assert CvOk(s, g, k);
    if |g.cvTaker[k]| <= i {
      assert g.cvLog[k][|g.cvTaker[k]|..][i - |g.cvTaker[k]|] == c;
    } else {
      var a := g.cvTaker[k][i];
      assert LoopOk(s, g, a);
      assert g.cvLog[k][g.loops[a].lo..g.loops[a].hi][i - g.loops[a].lo] == c;
    }
    ListsMatch(s, g, sp);
  }
}
