/**
 What a step of coroutine `a` that moves at most node `n` leaves alone. The per-step proofs only have to look at
 `a`, at `n` and at the list they change; everything else follows from the lemmas here.
 */
module MutexFrame {
  import opened Links
  import opened MutexModel
  import opened MutexGhost

  ghost predicate SameAgent(s: State, g: Ghost, t: State, h: Ghost, b: Id)
    requires Shape(s, g) && Shape(t, h) && |t.pc| == |s.pc| && b < |s.pc|
  {
    t.pc[b] == s.pc[b] && t.holds[b] == s.holds[b] && h.loops[b] == g.loops[b]
  }

  ghost predicate SameNode(s: State, g: Ghost, t: State, h: Ghost, m: Id)
    requires Shape(s, g) && Shape(t, h) && |t.pc| == |s.pc| && m < |s.pc|
  {
    && h.place[m] == g.place[m] && t.queued[m] == s.queued[m]
    && t.kind[m] == s.kind[m] && t.suspended[m] == s.suspended[m]
    && (g.place[m].With? ==> t.next[m] == s.next[m])
  }

  predicate Mine(token: Token, a: Id, n: Id) {
    token == NoOne || token == Exec(a) || token == Coro(a) || token == Handed(n)
  }

  /** Step of `a` that changes no other coroutine and no node but `n`. */
  ghost predicate Delta(s: State, g: Ghost, t: State, h: Ghost, a: Id, n: Id) {
    && Shape(s, g) && Shape(t, h) && |t.pc| == |s.pc| && |h.cvLog| == |g.cvLog| && a < |s.pc| && n < |s.pc|
    && (forall b | 0 <= b < |s.pc| && b != a :: SameAgent(s, g, t, h, b))
    && (forall m | 0 <= m < |s.pc| && m != n :: SameNode(s, g, t, h, m))
    && (g.place[n].With? && g.place[n].a != a ==> h.place[n] == g.place[n] && t.next[n] == s.next[n])
    && (t.kind[n] == s.kind[n] || (n == a && g.place[n] == Out))
    && (n != a ==> (g.place[n] == Out <==> h.place[n] == Out))
    && (h.token == g.token || (Mine(g.token, a, n) && Mine(h.token, a, n)))
    && (Carried(t.pc[a]) == Carried(s.pc[a]) || Carried(s.pc[a]) == Null || Carried(s.pc[a]) == Node(n))
  }

  /** Slot (k, i) is in the part of the log coroutine a's notify_all loop still has to wake. */
  predicate InLoopOf(d: Detached, k: nat, i: nat) {
    d.Loop? && d.k == k && d.lo <= i < d.hi
  }

  /** The lists lose no entry but `n`: logs only grow, newly taken slots are n's or go to a's loop. */
  ghost predicate CvLogsMove(g: Ghost, h: Ghost, a: Id, n: Id, k: nat)
    requires k < |g.cvLog| == |h.cvLog| == |g.cvTaker| == |h.cvTaker| && a < |g.loops| == |h.loops|
  {
    && g.cvLog[k] <= h.cvLog[k]
    && g.cvTaker[k] <= h.cvTaker[k]
    && (forall i | 0 <= i < |g.cvLog[k]| && i < |h.cvTaker[k]| ::
          g.cvLog[k][i] == n
          || (i < |g.cvTaker[k]| && (g.cvTaker[k][i] == a && InLoopOf(g.loops[a], k, i) ==> InLoopOf(h.loops[a], k, i)))
          || (i >= |g.cvTaker[k]| && h.cvTaker[k][i] == a && InLoopOf(h.loops[a], k, i)))
  }

  ghost predicate LogMoves(g: Ghost, h: Ghost, n: Id)
    requires g.off <= |g.log| && h.off <= |h.log|
  {
    && g.log <= h.log
    && (h.off == g.off || (h.off == g.off + 1 && g.off < |g.log| && g.log[g.off] == n))
  }

  lemma NodeFrame(s: State, g: Ghost, t: State, h: Ghost, a: Id, n: Id, m: Id)
    requires Delta(s, g, t, h, a, n) && m < |s.pc| && m != n
    requires NodeOk(s, g, m) && AgentOk(s, g, a)
    requires LogMoves(g, h, n)
    requires g.place[m].OnCv? && g.place[m].k < |g.cvLog| ==> CvLogsMove(g, h, a, n, g.place[m].k)
    ensures NodeOk(t, h, m)
  {
    assert SameNode(s, g, t, h, m);
    match g.place[m]
    case Out =>
    case With(b) => if b != a { assert SameAgent(s, g, t, h, b); }
    case OnMutex(i) =>
    case OnCv(k, i) =>
      if i < |h.cvTaker[k]| {
        var b := h.cvTaker[k][i];
        if b != a && b < |s.pc| { assert SameAgent(s, g, t, h, b); }
      }
    case Submitted =>
  }

  lemma AgentFrame(s: State, g: Ghost, t: State, h: Ghost, a: Id, n: Id, b: Id)
    requires Delta(s, g, t, h, a, n) && b < |s.pc| && b != a
    requires AgentOk(s, g, b)
    ensures AgentOk(t, h, b)
  {
    assert SameAgent(s, g, t, h, b);
    if b != n { assert SameNode(s, g, t, h, b); }
    if Carried(s.pc[b]).Node? && Carried(s.pc[b]).id != n { assert SameNode(s, g, t, h, Carried(s.pc[b]).id); }
  }

  lemma CountedFrame(s: State, g: Ghost, t: State, h: Ghost, a: Id, n: Id, m: Id)
    requires Delta(s, g, t, h, a, n) && m < |s.pc| && m != a && m != n
    requires CountedOk(s, g, m)
    ensures CountedOk(t, h, m)
  {
    assert SameAgent(s, g, t, h, m) && SameNode(s, g, t, h, m);
  }

  /** Links and places of the nodes waiting on condition variables stay, except where `a` may touch them. */
  ghost predicate Kept(s: State, g: Ghost, t: State, h: Ghost, m: Id)
    requires Shape(s, g) && Shape(t, h) && |t.pc| == |s.pc| && m < |s.pc|
  {
    t.next[m] == s.next[m] && h.place[m] == g.place[m]
  }

  /** m waits on a condition variable, in the part of its log that notifiers have taken. */
  ghost predicate Taken(g: Ghost, m: Id)
    requires m < |g.place|
  {
    g.place[m].OnCv? && g.place[m].k < |g.cvTaker| && g.place[m].i < |g.cvTaker[g.place[m].k]|
  }

  ghost predicate TakenByOther(g: Ghost, a: Id, m: Id)
    requires m < |g.place| && |g.cvLog| == |g.cvTaker|
  {
    g.place[m].OnCv? && g.place[m].k < |g.cvLog| && g.place[m].i < |g.cvTaker[g.place[m].k]|
    && g.cvTaker[g.place[m].k][g.place[m].i] != a
  }

  lemma LoopFrame(s: State, g: Ghost, t: State, h: Ghost, a: Id, n: Id, b: Id)
    requires Delta(s, g, t, h, a, n) && b < |s.pc| && b != a
    requires LoopOk(s, g, b)
    requires g.loops[b].Loop? && g.loops[b].k < |g.cvLog| ==>
               g.cvLog[g.loops[b].k] <= h.cvLog[g.loops[b].k] && g.cvTaker[g.loops[b].k] <= h.cvTaker[g.loops[b].k]
    requires |h.cvTaker| == |h.cvLog| && (g.loops[b].Loop? && g.loops[b].k < |h.cvLog| ==>
               |h.cvTaker[g.loops[b].k]| <= |h.cvLog[g.loops[b].k]|)
    requires forall m | 0 <= m < |s.pc| && TakenByOther(g, a, m) :: Kept(s, g, t, h, m)
    ensures LoopOk(t, h, b)
  {
    assert SameAgent(s, g, t, h, b);
    if g.loops[b].Loop? {
      var d := g.loops[b];
      forall i | d.lo <= i < d.hi ensures LoopSlot(t, h, b, i) {
        assert LoopSlot(s, g, b, i);
        assert TakenByOther(g, a, g.cvLog[d.k][i]);
      }
    }
  }

  lemma CvFrame(s: State, g: Ghost, t: State, h: Ghost, k: nat)
    requires Shape(s, g) && Shape(t, h) && |t.pc| == |s.pc| && k < |g.cvLog| == |h.cvLog|
    requires CvOk(s, g, k)
    requires h.cvLog[k] == g.cvLog[k] && h.cvTaker[k] == g.cvTaker[k]
    requires t.cvHead[k] == s.cvHead[k] && t.cvTail[k] == s.cvTail[k]
    requires forall m | 0 <= m < |s.pc| && g.place[m].OnCv? && g.place[m].k == k :: Kept(s, g, t, h, m)
    ensures CvOk(t, h, k)
  {
    forall i | |h.cvTaker[k]| <= i < |h.cvLog[k]| ensures CvSlot(t, h, k, i) {
      assert CvSlot(s, g, k, i);
    }
  }

  lemma QueueFrame(s: State, g: Ghost, t: State, h: Ghost)
    requires Shape(s, g) && Shape(t, h) && |t.pc| == |s.pc|
    requires QueueOk(s, g)
    requires h.log == g.log && h.off == g.off && h.mid == g.mid && h.split == g.split
    requires forall m | 0 <= m < |s.pc| && g.place[m].OnMutex? :: Kept(s, g, t, h, m)
    ensures QueueOk(t, h)
  {
    forall i | h.off <= i < |h.log| ensures QueueSlot(t, h, i) {
      assert QueueSlot(s, g, i);
    }
  }

  /** The part of the invariant a step has to re-establish itself. */
  ghost predicate Touched(t: State, h: Ghost, a: Id, n: Id)
    requires Shape(t, h) && a < |t.pc| && n < |t.pc|
  {
    && NodeOk(t, h, n) && AgentOk(t, h, a)
    && CountedOk(t, h, a) && CountedOk(t, h, n)
  }

  /** Everything but the lists after a step of `a` on `n`. */
  ghost predicate Stepped(s: State, g: Ghost, t: State, h: Ghost, a: Id, n: Id) {
    && Delta(s, g, t, h, a, n) && Touched(t, h, a, n) && WordOk(t, h) && HolderOk(t, h)
  }

  predicate SameCursor(p: Pc, q: Pc) {
    (InLoop(p) <==> InLoop(q)) && (InLoop(p) && InLoop(q) ==> Cursor(p) == Cursor(q))
  }

  /** a's own notify_all loop while `a` does something else. */
  lemma LoopSame(s: State, g: Ghost, t: State, h: Ghost, a: Id)
    requires Shape(s, g) && Shape(t, h) && |t.pc| == |s.pc| && |h.cvLog| == |g.cvLog| && a < |s.pc|
    requires LoopOk(s, g, a) && h.loops[a] == g.loops[a] && SameCursor(s.pc[a], t.pc[a])
    requires forall k | 0 <= k < |g.cvLog| ::
               g.cvLog[k] <= h.cvLog[k] && g.cvTaker[k] <= h.cvTaker[k] && |h.cvTaker[k]| <= |h.cvLog[k]|
    requires forall m | 0 <= m < |s.pc| && Taken(g, m) :: Kept(s, g, t, h, m)
    ensures LoopOk(t, h, a)
  {
    var d := g.loops[a];
    if d.Loop? {
      forall i | d.lo <= i < d.hi ensures LoopSlot(t, h, a, i) {
        assert LoopSlot(s, g, a, i) && Taken(g, g.cvLog[d.k][i]);
      }
    }
  }

  /** What the invariant says around coroutine `a` and node `n`. */
  ghost predicate Around(s: State, g: Ghost, a: Id, n: Id) {
    && Shape(s, g) && a < |s.pc| && n < |s.pc|
    && NodeOk(s, g, a) && NodeOk(s, g, n) && AgentOk(s, g, a) && AgentOk(s, g, n)
    && CountedOk(s, g, a) && CountedOk(s, g, n)
    && LoopOk(s, g, a)
    && WordOk(s, g) && HolderOk(s, g)
  }

  lemma LookAround(s: State, g: Ghost, a: Id, n: Id)
    requires Inv(s, g) && a < |s.pc| && n < |s.pc|
    ensures Around(s, g, a, n)
  {
  }

  /** Per-node and per-coroutine parts of the invariant after a step of `a` on `n`. */
  lemma Rest(s: State, g: Ghost, t: State, h: Ghost, a: Id, n: Id)
    requires Inv(s, g) && Delta(s, g, t, h, a, n)
    requires Touched(t, h, a, n) && LoopOk(t, h, a)
    requires LogMoves(g, h, n)
    requires forall k | 0 <= k < |g.cvLog| :: CvLogsMove(g, h, a, n, k) && |h.cvTaker[k]| <= |h.cvLog[k]|
    requires forall m | 0 <= m < |s.pc| && TakenByOther(g, a, m) :: Kept(s, g, t, h, m)
    ensures forall m | 0 <= m < |t.pc| :: NodeOk(t, h, m)
    ensures forall b | 0 <= b < |t.pc| :: AgentOk(t, h, b)
    ensures forall m | 0 <= m < |t.pc| :: CountedOk(t, h, m)
    ensures forall b | 0 <= b < |t.pc| :: LoopOk(t, h, b)
  {
    assert AgentOk(s, g, a);
    forall m | 0 <= m < |t.pc| ensures NodeOk(t, h, m) {
      if m != n { assert NodeOk(s, g, m); NodeFrame(s, g, t, h, a, n, m); }
    }
    forall b | 0 <= b < |t.pc| ensures AgentOk(t, h, b) {
      if b != a { assert AgentOk(s, g, b); AgentFrame(s, g, t, h, a, n, b); }
    }
    forall m | 0 <= m < |t.pc| ensures CountedOk(t, h, m) {
      if m != a && m != n { assert CountedOk(s, g, m); CountedFrame(s, g, t, h, a, n, m); }
    }
    forall b | 0 <= b < |t.pc| ensures LoopOk(t, h, b) {
      if b != a {
        assert LoopOk(s, g, b);
        assert g.loops[b].Loop? && g.loops[b].k < |g.cvLog| ==> CvLogsMove(g, h, a, n, g.loops[b].k);
        LoopFrame(s, g, t, h, a, n, b);
      }
    }
  }

  predicate Listed(p: Place) {
    p.OnMutex? || p.OnCv?
  }

  ghost predicate SameLists(s: State, g: Ghost, t: State, h: Ghost) {
    && h.log == g.log && h.off == g.off && h.mid == g.mid && h.split == g.split
    && h.cvLog == g.cvLog && h.cvTaker == g.cvTaker && h.loops == g.loops
    && t.cvHead == s.cvHead && t.cvTail == s.cvTail
  }

  /** A step that leaves every list alone. */
  lemma Quiet(s: State, g: Ghost, t: State, h: Ghost, a: Id, n: Id)
    requires Inv(s, g) && Stepped(s, g, t, h, a, n) && SameCursor(s.pc[a], t.pc[a])
    requires SameLists(s, g, t, h)
    requires forall m | 0 <= m < |s.pc| && Listed(g.place[m]) :: Kept(s, g, t, h, m)
    ensures Inv(t, h)
  {
    forall k | 0 <= k < |g.cvLog| ensures CvLogsMove(g, h, a, n, k) && |h.cvTaker[k]| <= |h.cvLog[k]| {
      assert CvOk(s, g, k);
    }
    assert LoopOk(s, g, a);
    LoopSame(s, g, t, h, a);
    Rest(s, g, t, h, a, n);
    forall k | 0 <= k < |g.cvLog| ensures CvOk(t, h, k) {
      assert CvOk(s, g, k);
      CvFrame(s, g, t, h, k);
    }
    QueueFrame(s, g, t, h);
  }

  ghost predicate SameCvs(s: State, g: Ghost, t: State, h: Ghost) {
    && h.cvLog == g.cvLog && h.cvTaker == g.cvTaker && h.loops == g.loops
    && t.cvHead == s.cvHead && t.cvTail == s.cvTail
  }

  /** A step on the mutex queue. */
  lemma QueueMove(s: State, g: Ghost, t: State, h: Ghost, a: Id, n: Id)
    requires Inv(s, g) && Stepped(s, g, t, h, a, n) && SameCursor(s.pc[a], t.pc[a])
    requires SameCvs(s, g, t, h) && LogMoves(g, h, n)
    requires forall m | 0 <= m < |s.pc| && g.place[m].OnCv? :: Kept(s, g, t, h, m)
    requires QueueOk(t, h)
    ensures Inv(t, h)
  {
    forall k | 0 <= k < |g.cvLog| ensures CvLogsMove(g, h, a, n, k) && |h.cvTaker[k]| <= |h.cvLog[k]| {
      assert CvOk(s, g, k);
    }
    assert LoopOk(s, g, a);
    LoopSame(s, g, t, h, a);
    Rest(s, g, t, h, a, n);
    forall k | 0 <= k < |g.cvLog| ensures CvOk(t, h, k) {
      assert CvOk(s, g, k);
      CvFrame(s, g, t, h, k);
    }
  }

  ghost predicate SameCv(s: State, g: Ghost, t: State, h: Ghost, j: nat)
    requires Shape(s, g) && Shape(t, h) && |h.cvLog| == |g.cvLog| && j < |g.cvLog|
  {
    h.cvLog[j] == g.cvLog[j] && h.cvTaker[j] == g.cvTaker[j] && t.cvHead[j] == s.cvHead[j] && t.cvTail[j] == s.cvTail[j]
  }

  /** Outside condition variable k a step leaves every list and every waiting node alone. */
  ghost predicate OnlyCv(s: State, g: Ghost, t: State, h: Ghost, a: Id, n: Id, k: nat)
    requires Shape(s, g) && Shape(t, h) && |t.pc| == |s.pc| && |h.cvLog| == |g.cvLog| && a < |s.pc| && k < |g.cvLog|
  {
    && h.log == g.log && h.off == g.off && h.mid == g.mid && h.split == g.split
    && (forall j | 0 <= j < |g.cvLog| && j != k :: SameCv(s, g, t, h, j))
    && CvLogsMove(g, h, a, n, k)
    && (g.loops[a].Loop? && g.loops[a].k != k ==> h.loops[a] == g.loops[a])
    && (forall m | 0 <= m < |s.pc| && g.place[m].OnMutex? :: Kept(s, g, t, h, m))
    && (forall m | 0 <= m < |s.pc| && g.place[m].OnCv? && g.place[m].k != k :: Kept(s, g, t, h, m))
    && (forall m | 0 <= m < |s.pc| && TakenByOther(g, a, m) :: Kept(s, g, t, h, m))
  }

  /** A step on the list of condition variable k. */
  lemma CvMove(s: State, g: Ghost, t: State, h: Ghost, a: Id, n: Id, k: nat)
    requires Inv(s, g) && Stepped(s, g, t, h, a, n) && LoopOk(t, h, a) && k < |g.cvLog|
    requires OnlyCv(s, g, t, h, a, n, k) && CvOk(t, h, k)
    ensures Inv(t, h)
  {
    forall j | 0 <= j < |g.cvLog| ensures CvLogsMove(g, h, a, n, j) && |h.cvTaker[j]| <= |h.cvLog[j]| {
      assert CvOk(s, g, j);
      if j != k { assert SameCv(s, g, t, h, j); }
    }
    Rest(s, g, t, h, a, n);
    forall j | 0 <= j < |g.cvLog| ensures CvOk(t, h, j) {
      assert CvOk(s, g, j);
      if j != k {
        assert SameCv(s, g, t, h, j);
        CvFrame(s, g, t, h, j);
      }
    }
    QueueFrame(s, g, t, h);
  }

  /** a's own loop across a step that only appends to the logs of condition variables. */
  lemma OwnLoop(s: State, g: Ghost, t: State, h: Ghost, a: Id, n: Id, k: nat)
    requires Inv(s, g) && Stepped(s, g, t, h, a, n) && k < |g.cvLog|
    requires h.loops[a] == g.loops[a] && SameCursor(s.pc[a], t.pc[a])
    requires OnlyCv(s, g, t, h, a, n, k) && CvOk(t, h, k)
    requires forall m | 0 <= m < |s.pc| && Taken(g, m) :: Kept(s, g, t, h, m)
    ensures LoopOk(t, h, a)
  {
    assert LoopOk(s, g, a);
    forall j | 0 <= j < |g.cvLog|
      ensures g.cvLog[j] <= h.cvLog[j] && g.cvTaker[j] <= h.cvTaker[j] && |h.cvTaker[j]| <= |h.cvLog[j]|
    {
      assert CvOk(s, g, j);
      if j != k { assert SameCv(s, g, t, h, j); }
    }
    LoopSame(s, g, t, h, a);
  }
}
