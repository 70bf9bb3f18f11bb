/** Calls of lock() and wait(), followed from the step that begins them to the await_resume that ends them. */
module MutexCalls {
  import opened Links
  import opened MutexModel
  import opened MutexGhost
  import opened MutexInvariant
  import opened MutexPlaces
  import opened MutexTheorems
  import opened MutexPredicates
  import opened MutexWaits

  // ---------------------------------------------------------------- a call keeps its terms

  /** c is between the step that began its lock() or wait() and await_resume. */
  predicate Waiting(pc: Pc) {
    Leaving(pc) || pc.Granted?
  }

  lemma BystanderKeepsTerms(s: State, st: Step, c: Id)
    requires Sized(s) && Enabled(s, st) && c < |s.pc| && c != st.a
    requires Sized(Next(s, st)) && |Next(s, st).pc| == |s.pc|
    ensures var t := Next(s, st);
      t.pc[c] == s.pc[c] && t.kind[c] == s.kind[c] && t.ctx[c] == s.ctx[c]
  {
    if CvStep(st) { CvBystander(s, st, c); } else { LockBystander(s, st, c); }
  }

  lemma CvBystander(s: State, st: Step, c: Id)
    requires Sized(s) && Enabled(s, st) && c < |s.pc| && c != st.a && CvStep(st)
    ensures var t := Next(s, st);
      t.pc[c] == s.pc[c] && t.kind[c] == s.kind[c] && t.ctx[c] == s.ctx[c]
  {
  }

  lemma LockBystander(s: State, st: Step, c: Id)
    requires Sized(s) && Enabled(s, st) && c < |s.pc| && c != st.a && !CvStep(st)
    ensures var t := Next(s, st);
      t.pc[c] == s.pc[c] && t.kind[c] == s.kind[c] && t.ctx[c] == s.ctx[c]
  {
  }

  lemma ActorKeepsTerms(s: State, g: Ghost, st: Step)
    requires Shape(s, g) && Enabled(s, st) && AgentOk(s, g, st.a) && Waiting(s.pc[st.a]) && !st.DoAwaitResume?
    requires Sized(Next(s, st)) && |Next(s, st).pc| == |s.pc|
    ensures var t, c := Next(s, st), st.a;
      Waiting(t.pc[c]) && t.kind[c] == s.kind[c] && t.ctx[c] == s.ctx[c]
  {
    if CvStep(st) { CvActor(s, g, st); } else { LockActor(s, g, st); }
  }

  lemma CvActor(s: State, g: Ghost, st: Step)
    requires Shape(s, g) && Enabled(s, st) && AgentOk(s, g, st.a) && Waiting(s.pc[st.a])
    requires CvStep(st) && !st.DoAwaitResume?
    ensures var t, c := Next(s, st), st.a;
      Waiting(t.pc[c]) && t.kind[c] == s.kind[c] && t.ctx[c] == s.ctx[c]
  {
  }

  lemma LockActor(s: State, g: Ghost, st: Step)
    requires Shape(s, g) && Enabled(s, st) && AgentOk(s, g, st.a) && Waiting(s.pc[st.a]) && !CvStep(st)
    ensures var t, c := Next(s, st), st.a;
      Waiting(t.pc[c]) && t.kind[c] == s.kind[c] && t.ctx[c] == s.ctx[c]
  {
  }

  /** State m of the run finds c waiting with this awaiter type and context. */
  ghost predicate HasTerms(trace: seq<State>, m: nat, c: Id, kind: Kind, x: nat) {
    && m < |trace| && Sized(trace[m]) && c < |trace[m].pc|
    && Waiting(trace[m].pc[c]) && trace[m].kind[c] == kind && trace[m].ctx[c] == x
  }

  lemma TermsStay(trace: seq<State>, steps: seq<Step>, m: nat, n: nat, c: Id, kind: Kind, x: nat)
    requires Run(trace, steps) && m < |steps| && n == m + 1 && HasTerms(trace, m, c, kind, x)
    requires steps[m] != DoAwaitResume(c)
    ensures HasTerms(trace, n, c, kind, x)
  {
    assert Follows(trace, steps, m);
    var s, g, st := trace[m], GhostAt(trace, steps, m), steps[m];
    NextIsSized(s, st);
    assert AgentOk(s, g, st.a);
    if st.a == c { ActorKeepsTerms(s, g, st); } else { BystanderKeepsTerms(s, st, c); }
  }

  /** Step b begins a call of c that has not ended before state m. */
  ghost predicate Since(steps: seq<Step>, b: nat, m: nat, c: Id) {
    b < m <= |steps| && forall q | b < q < m :: steps[q] != DoAwaitResume(c)
  }

  lemma TermsLast(trace: seq<State>, steps: seq<Step>, b: nat, m: nat, c: Id, kind: Kind, x: nat)
    requires Run(trace, steps) && Since(steps, b, m, c) && HasTerms(trace, b + 1, c, kind, x)
    ensures HasTerms(trace, m, c, kind, x)
  {
    var p := (q: nat) => HasTerms(trace, q, c, kind, x);
    forall q: nat, r: nat | b + 1 <= q < m && r == q + 1 && p(q) ensures p(r) {
      TermsStay(trace, steps, q, r, c, kind, x);
    }
    Climb(p, b + 1, m);
  }

  /** Until it returns, a wait keeps its condition variable, its predicate and its context. */
  lemma WaitKeepsItsTerms(trace: seq<State>, steps: seq<Step>, b: nat, m: nat, c: Id,
                          k: nat, pred: bool, x: nat, p: bool)
    requires Run(trace, steps) && Since(steps, b, m, c) && steps[b] == StartWait(c, k, pred, x, p)
    ensures HasTerms(trace, m, c, Cv(k, pred), x)
  {
    assert Follows(trace, steps, b);
    TermsLast(trace, steps, b, m, c, Cv(k, pred), x);
  }

  lemma LockKeepsItsTerms(trace: seq<State>, steps: seq<Step>, b: nat, m: nat, c: Id, x: nat)
    requires Run(trace, steps) && Since(steps, b, m, c) && steps[b] == StartLock(c, x)
    ensures HasTerms(trace, m, c, Plain, x)
  {
    assert Follows(trace, steps, b);
    TermsLast(trace, steps, b, m, c, Plain, x);
  }

  /** Meanwhile its node is on no condition variable but its own, and counted on its context wherever it is parked. */
  lemma WaitStaysOnItsList(trace: seq<State>, steps: seq<Step>, b: nat, m: nat, c: Id,
                           k: nat, pred: bool, x: nat, p: bool, sp: Spot)
    requires Run(trace, steps) && Since(steps, b, m, c) && steps[b] == StartWait(c, k, pred, x, p)
    requires Sized(trace[m]) && IsSpot(trace[m], sp) && c < |trace[m].pc| && At(trace[m], sp, c)
    ensures sp.CvList? ==> sp.k == k
    ensures !sp.Hand? ==> c in CountedOn(trace[m], x)
  {
    var s, g := trace[m], GhostAt(trace, steps, m);
    WaitKeepsItsTerms(trace, steps, b, m, c, k, pred, x, p);
    OnlySpot(s, g, sp, c);
    assert NodeOk(s, g, c);
    if !sp.Hand? { ParkedIsCounted(s, g, sp, c); }
  }

  // ---------------------------------------------------------------- what a wait returns on

  /** Step i is the await_resume of the call that step b began. */
  ghost predicate Ends(trace: seq<State>, steps: seq<Step>, b: nat, i: nat, c: Id) {
    Since(steps, b, i, c) && i < |steps| && |trace| == |steps| + 1 && steps[i] == DoAwaitResume(c)
  }

  /**
   cv.wait(mtx, pred): between its begin and its return some step of this call saw the predicate true, it has not been
   evaluated since, the coroutine has owned the lock in every state since, and it returns holding it.
   */
  lemma WaitReturnsOnTrue(trace: seq<State>, steps: seq<Step>, b: nat, i: nat, c: Id, k: nat, x: nat, p: bool)
    returns (j: nat)
    requires Run(trace, steps) && Ends(trace, steps, b, i, c) && steps[b] == StartWait(c, k, true, x, p)
    ensures b <= j < i && SeesTrue(trace, steps, j, c)
    ensures forall m | j < m < i :: Leaves(trace, steps, m, c)
    ensures forall m | j <= m <= i :: OwnedBy(trace, m, c)
    ensures c < |trace[i + 1].holds| && trace[i + 1].holds[c]
  {
    WaitKeepsItsTerms(trace, steps, b, i, c, k, true, x, p);
    j := WaitReturnsHolding(trace, steps, i, c);
    if j < b { NotYetThrough(trace, steps, b, c); }
  }

  /** Who begins a wait has not been let through. */
  lemma NotYetThrough(trace: seq<State>, steps: seq<Step>, b: nat, c: Id)
    requires Run(trace, steps) && b < |steps| && steps[b].StartWait? && steps[b].a == c
    ensures !Through(trace, b, c)
  {
    assert Follows(trace, steps, b);
    if trace[b].queued[c] > 0 { QueuedMeansSuspended(trace, steps, b, c); }
  }

  /** With a true predicate the wait keeps the lock and nothing is enlisted or counted; otherwise it sleeps. */
  lemma WaitDecides(trace: seq<State>, steps: seq<Step>, b: nat, c: Id, k: nat, pred: bool, x: nat, p: bool)
    requires Run(trace, steps) && b < |steps| && steps[b] == StartWait(c, k, pred, x, p)
    ensures c < |trace[b].pc| && Sized(trace[b + 1]) && |trace[b + 1].pc| == |trace[b].pc|
    ensures var s, t := trace[b], trace[b + 1];
      if pred && p
      then t.pc[c] == Granted && Owner(t, c) && !t.suspended[c]
           && t.(pc := s.pc, holds := s.holds, kind := s.kind, ctx := s.ctx, suspended := s.suspended) == s
      else t.pc[c] == RegisterWait(c, ToSuspend)
  {
    assert Follows(trace, steps, b);
    NextIsSized(trace[b], steps[b]);
  }

  /** The virtual resume puts back exactly a wait whose predicate is false; every other node is submitted. */
  lemma ResumeDecides(trace: seq<State>, steps: seq<Step>, i: nat, a: Id, pred: bool)
    requires Run(trace, steps) && i < |steps| && steps[i] == DoResume(a, pred)
    ensures a < |trace[i].pc| && trace[i].pc[a].ResumeNode? && trace[i].pc[a].n < |trace[i].pc|
    ensures Sized(trace[i]) && Sized(trace[i + 1]) && |trace[i + 1].pc| == |trace[i].pc|
    ensures var s, t, n := trace[i], trace[i + 1], trace[i].pc[a].n;
      if s.kind[n].Cv? && s.kind[n].hasPred && !pred
      then t.pc[a] == RegisterWait(n, s.pc[a].after) && t.queued == s.queued
      else t.pc[a] == Return(s.pc[a].after) && s.queued[n] == 0 && t.queued == s.queued[n := 1]
  {
    assert Follows(trace, steps, i);
    NextIsSized(trace[i], steps[i]);
    var s, g := trace[i], GhostAt(trace, steps, i);
    assert AgentOk(s, g, a) && NodeOk(s, g, s.pc[a].n);
  }

  // ---------------------------------------------------------------- a wait sleeps until it is notified

  /** The step calls wake_up on c's node. */
  predicate Wakes(s: State, st: Step, c: Id)
    requires Sized(s) && Enabled(s, st)
  {
    (st.NotifyOne? && s.cvHead[st.k] == Node(c)) || (st.DoNotify? && s.pc[st.a].cur == Node(c))
  }

  ghost predicate Asleep(s: State, g: Ghost, c: Id)
    requires Shape(s, g) && c < |s.pc|
  {
    g.place[c].OnCv? || s.pc[c] == RegisterWait(c, ToSuspend) || s.pc[c] == Enlist(c, ToSuspend)
  }

  /** What the invariant says around the step st and the sleeper c. */
  ghost predicate Beside(s: State, g: Ghost, st: Step, c: Id) {
    && Shape(s, g) && Enabled(s, st) && c < |s.pc|
    && AgentOk(s, g, c) && AgentOk(s, g, st.a) && NodeOk(s, g, st.a) && HolderOk(s, g)
    && (Nested(s.pc[st.a]) && Carried(s.pc[st.a]).Node? ==> Carried(s.pc[st.a]).id < |s.pc|)
    && (g.off < |g.log| ==> QueueSlot(s, g, g.off))
    && Shape(Next(s, st), NextGhost(s, g, st)) && |Next(s, st).pc| == |s.pc|
  }

  lemma SleepsThroughLock(s: State, g: Ghost, st: Step, c: Id)
    requires Beside(s, g, st, c) && LockStep(st) && Asleep(s, g, c)
    ensures Asleep(Next(s, st), NextGhost(s, g, st), c)
  {
  }

  lemma SleepsThroughUnlock(s: State, g: Ghost, st: Step, c: Id)
    requires Beside(s, g, st, c) && UnlockStep(st) && Asleep(s, g, c)
    ensures Asleep(Next(s, st), NextGhost(s, g, st), c)
  {
  }

  lemma SleepsThroughCv(s: State, g: Ghost, st: Step, c: Id)
    requires Beside(s, g, st, c) && !LockStep(st) && !UnlockStep(st) && Asleep(s, g, c) && !Wakes(s, st, c)
    ensures Asleep(Next(s, st), NextGhost(s, g, st), c)
  {
  }

  lemma SleepGoesOn(s: State, g: Ghost, st: Step, c: Id)
    requires Inv(s, g) && Enabled(s, st) && c < |s.pc| && Asleep(s, g, c) && !Wakes(s, st, c)
    ensures Nested(s.pc[st.a]) && Carried(s.pc[st.a]).Node? ==> Carried(s.pc[st.a]).id < |s.pc|
    ensures Shape(Next(s, st), NextGhost(s, g, st)) && |Next(s, st).pc| == |s.pc|
    ensures Asleep(Next(s, st), NextGhost(s, g, st), c)
  {
    StepKeeps(s, g, st);
    NextIsSized(s, st);
    assert AgentOk(s, g, c) && AgentOk(s, g, st.a) && NodeOk(s, g, st.a);
    assert g.off < |g.log| ==> QueueSlot(s, g, g.off);
    if LockStep(st) { SleepsThroughLock(s, g, st, c); }
    else if UnlockStep(st) { SleepsThroughUnlock(s, g, st, c); }
    else { SleepsThroughCv(s, g, st, c); }
  }

  ghost predicate AsleepAt(trace: seq<State>, steps: seq<Step>, m: nat, c: Id)
    requires Run(trace, steps)
  {
    m < |trace| && c < |trace[m].pc| && Asleep(trace[m], GhostAt(trace, steps, m), c)
  }

  ghost predicate WokenAt(trace: seq<State>, steps: seq<Step>, m: nat, c: Id)
    requires Run(trace, steps) && m < |steps|
  {
    assert Follows(trace, steps, m);
    Wakes(trace[m], steps[m], c)
  }

  lemma SleepStays(trace: seq<State>, steps: seq<Step>, m: nat, n: nat, c: Id)
    requires Run(trace, steps) && m < |steps| && n == m + 1
    requires AsleepAt(trace, steps, m, c) && !WokenAt(trace, steps, m, c)
    ensures AsleepAt(trace, steps, n, c)
  {
    assert Follows(trace, steps, m);
    var s, g, st := trace[m], GhostAt(trace, steps, m), steps[m];
    SleepGoesOn(s, g, st, c);
    assert GhostAt(trace, steps, n) == NextGhost(s, g, st);
  }

  /** A wait that slept returns only after some notify_one or notify_all has woken its node. */
  lemma SleepsUntilNotified(trace: seq<State>, steps: seq<Step>, b: nat, i: nat, c: Id,
                            k: nat, pred: bool, x: nat, p: bool)
    returns (m: nat)
    requires Run(trace, steps) && Ends(trace, steps, b, i, c) && steps[b] == StartWait(c, k, pred, x, p) && !(pred && p)
    ensures b < m < i && WokenAt(trace, steps, m, c)
  {
    WaitDecides(trace, steps, b, c, k, pred, x, p);
    if forall q: nat | b < q < i :: !WokenAt(trace, steps, q, c) {
      var asleep := (q: nat) => AsleepAt(trace, steps, q, c);
      forall q: nat, r: nat | b + 1 <= q < i && r == q + 1 && asleep(q) ensures asleep(r) {
        SleepStays(trace, steps, q, r, c);
      }
      Climb(asleep, b + 1, i);
      SleeperDoesNotReturn(trace, steps, i, c);
    }
    m :| b < m < i && WokenAt(trace, steps, m, c);
  }

  lemma SleeperDoesNotReturn(trace: seq<State>, steps: seq<Step>, i: nat, c: Id)
    requires Run(trace, steps) && i < |steps| && AsleepAt(trace, steps, i, c)
    ensures steps[i] != DoAwaitResume(c)
  {
    assert Follows(trace, steps, i);
    assert AgentOk(trace[i], GhostAt(trace, steps, i), c);
  }
}
