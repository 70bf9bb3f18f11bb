/** `cv.wait(mtx, pred)` returns with the lock held ever since its predicate was last seen true. */
module MutexPredicates {
  import opened Links
  import opened MutexModel
  import opened MutexGhost
  import opened MutexInvariant
  import opened MutexTheorems

  /** The step evaluates the predicate of node c. */
  predicate Evaluates(s: State, st: Step, c: Id)
    requires Sized(s) && Enabled(s, st)
  {
    || (st.StartWait? && st.hasPred && st.a == c)
    || (st.DoResume? && s.pc[st.a].n == c && s.kind[c].Cv? && s.kind[c].hasPred)
  }

  /** A predicate is only ever evaluated while its awaiter owns the lock, with nobody else in the critical section. */
  lemma EvaluatedByOwner(trace: seq<State>, steps: seq<Step>, i: nat, c: Id)
    requires Run(trace, steps) && i < |steps| && Follows(trace, steps, i) && c < |trace[i].pc|
    requires Evaluates(trace[i], steps[i], c)
    ensures Owner(trace[i], c)
    ensures forall d | 0 <= d < |trace[i].pc| && Owner(trace[i], d) :: d == c
  {
    var s, st := trace[i], steps[i];
    assert st.DoResume? ==> Serving(s.pc[st.a], c);
    assert Owner(s, c);
    MutualExclusion(trace, steps, i);
    forall d | 0 <= d < |s.pc| && Owner(s, d) ensures d == c {}
  }

  /** c has been let through: about to return from its wait, or in the task queue to do so. */
  predicate LetThrough(s: State, c: Id)
    requires Sized(s) && c < |s.pc|
  {
    (s.pc[c].Granted? || s.queued[c] > 0) && s.kind[c].Cv? && s.kind[c].hasPred
  }

  /** A coroutine is let through only by a true evaluation, and not evaluated again afterwards. */
  lemma LetThroughBefore(s: State, g: Ghost, st: Step, c: Id)
    requires Inv(s, g) && Enabled(s, st) && c < |s.pc|
    requires Sized(Next(s, st)) && |Next(s, st).pc| == |s.pc| && LetThrough(Next(s, st), c)
    ensures if Evaluates(s, st, c) then st.pred else LetThrough(s, c)
  {
    assert AgentOk(s, g, c) && NodeOk(s, g, c) && AgentOk(s, g, st.a);
    LetThroughLocal(s, g, st, c);
  }

  lemma LetThroughLocal(s: State, g: Ghost, st: Step, c: Id)
    requires Shape(s, g) && Enabled(s, st) && c < |s.pc|
    requires AgentOk(s, g, c) && NodeOk(s, g, c) && AgentOk(s, g, st.a)
    requires Sized(Next(s, st)) && |Next(s, st).pc| == |s.pc| && LetThrough(Next(s, st), c)
    ensures if Evaluates(s, st, c) then st.pred else LetThrough(s, c)
  {
    if LockStep(st) { LetThroughLock(s, g, st, c); }
    else if UnlockStep(st) { LetThroughUnlock(s, g, st, c); }
    else { LetThroughCv(s, g, st, c); }
  }

  lemma LetThroughLock(s: State, g: Ghost, st: Step, c: Id)
    requires Shape(s, g) && Enabled(s, st) && LockStep(st) && c < |s.pc|
    requires AgentOk(s, g, c) && NodeOk(s, g, c) && AgentOk(s, g, st.a)
    requires Sized(Next(s, st)) && |Next(s, st).pc| == |s.pc| && LetThrough(Next(s, st), c)
    ensures if Evaluates(s, st, c) then st.pred else LetThrough(s, c)
  {
  }

  lemma LetThroughUnlock(s: State, g: Ghost, st: Step, c: Id)
    requires Shape(s, g) && Enabled(s, st) && UnlockStep(st) && c < |s.pc|
    requires AgentOk(s, g, c) && NodeOk(s, g, c) && AgentOk(s, g, st.a)
    requires Sized(Next(s, st)) && |Next(s, st).pc| == |s.pc| && LetThrough(Next(s, st), c)
    ensures if Evaluates(s, st, c) then st.pred else LetThrough(s, c)
  {
  }

  lemma LetThroughCv(s: State, g: Ghost, st: Step, c: Id)
    requires Shape(s, g) && Enabled(s, st) && !LockStep(st) && !UnlockStep(st) && c < |s.pc|
    requires AgentOk(s, g, c) && NodeOk(s, g, c) && AgentOk(s, g, st.a)
    requires Sized(Next(s, st)) && |Next(s, st).pc| == |s.pc| && LetThrough(Next(s, st), c)
    ensures if Evaluates(s, st, c) then st.pred else LetThrough(s, c)
  {
  }

  /** A state of the run in which c has been let through. */
  ghost predicate Through(trace: seq<State>, m: nat, c: Id)
    requires m < |trace|
  {
    Sized(trace[m]) && c < |trace[m].pc| && LetThrough(trace[m], c)
  }

  /** A step of the run that does not evaluate c's predicate. */
  ghost predicate Leaves(trace: seq<State>, steps: seq<Step>, m: nat, c: Id)
    requires m < |steps| && |trace| == |steps| + 1
  {
    Follows(trace, steps, m) && !Evaluates(trace[m], steps[m], c)
  }

  /** Step j evaluates c's predicate, with result true. */
  ghost predicate SeesTrue(trace: seq<State>, steps: seq<Step>, j: nat, c: Id)
    requires j < |steps| && |trace| == |steps| + 1
  {
    Follows(trace, steps, j) && c < |trace[j].pc| && Evaluates(trace[j], steps[j], c) && steps[j].pred
  }

  lemma ThroughBefore(trace: seq<State>, steps: seq<Step>, i: nat, c: Id)
    requires Run(trace, steps) && i < |steps| && Through(trace, i + 1, c)
    ensures SeesTrue(trace, steps, i, c) || (Leaves(trace, steps, i, c) && Through(trace, i, c))
  {
    assert Follows(trace, steps, i);
    NextIsSized(trace[i], steps[i]);
    LetThroughBefore(trace[i], GhostAt(trace, steps, i), steps[i], c);
  }

  lemma {:induction false} LastEvaluation(trace: seq<State>, steps: seq<Step>, i: nat, c: Id) returns (j: nat)
    requires Run(trace, steps) && i < |trace| && Through(trace, i, c)
    ensures j < i && SeesTrue(trace, steps, j, c)
    ensures forall m | j < m <= i :: Through(trace, m, c)
    ensures forall m | j < m < i :: Leaves(trace, steps, m, c)
  {
    if i == 0 {
      assert false;
    } else {
      ThroughBefore(trace, steps, i - 1, c);
      if SeesTrue(trace, steps, i - 1, c) {
        j := i - 1;
      } else {
        j := LastEvaluation(trace, steps, i - 1, c);
      }
    }
  }

  /**
   When await_resume of a wait with a predicate runs: some earlier step evaluated the predicate to true, it has not
   been evaluated since, the coroutine has owned the lock in every state since, and it returns holding it.
   */
  lemma WaitReturnsHolding(trace: seq<State>, steps: seq<Step>, i: nat, c: Id) returns (j: nat)
    requires Run(trace, steps) && i < |steps| && steps[i] == DoAwaitResume(c) && c < |trace[i].kind|
    requires trace[i].kind[c].Cv? && trace[i].kind[c].hasPred
    ensures j < i && SeesTrue(trace, steps, j, c)
    ensures forall m | j < m <= i :: Through(trace, m, c)
    ensures forall m | j < m < i :: Leaves(trace, steps, m, c)
    ensures forall m | j <= m <= i :: OwnedBy(trace, m, c)
    ensures c < |trace[i + 1].holds| && trace[i + 1].holds[c]
  {
    assert Follows(trace, steps, i);
    j := LastEvaluation(trace, steps, i, c);
    EvaluatedByOwner(trace, steps, j, c);
    forall m | j <= m <= i ensures OwnedBy(trace, m, c) {
      if j < m { assert Through(trace, m, c); }
    }
  }

  /** c owns the lock in state m of the run. */
  ghost predicate OwnedBy(trace: seq<State>, m: nat, c: Id)
    requires m < |trace|
  {
    Sized(trace[m]) && c < |trace[m].pc| && Owner(trace[m], c)
  }
}
