/** The assumption that idle paths keep apart from submits is exactly what the busy marks need. */
module SchedulerExactness {
  import opened SchedulerModel
  import opened SchedulerQuiesce
  import opened SchedulerTheorems
  import opened SchedulerCounterexample

  /** Whoever has work is marked busy. */
  ghost predicate Marked(s: State) {
    Shape(s) && forall j | 0 <= j < |s.flag| && !s.flag[j] :: NoWork(s, j)
  }

  ghost predicate SurvivesOverlap(s: State, i: nat, j: nat)
    requires Shape(s)
  {
    Overlapping(s, i, j) ==> Marked(AfterOverlap(s, i, j))
  }

  lemma RaisingStaysApart(s: State, i: nat)
    requires Shape(s) && Apart(s) && i < |s.flag| && s.op[i].AddToken?
    ensures Shape(Next(s, DoAddToken(i))) && Apart(Next(s, DoAddToken(i)))
  {
    var t := Next(s, DoAddToken(i));
    forall k, j | 0 <= k < |t.flag| && 0 <= j < |t.flag| && t.pc[j].ClearFlag? ensures !InFlight(t.op[k], j) {
      assert !InFlight(s.op[k], j);
    }
  }

  lemma ClearingStaysApart(s: State, j: nat)
    requires Shape(s) && Apart(s) && j < |s.flag| && s.pc[j].ClearFlag?
    ensures Shape(Next(s, DoClearFlag(j))) && Apart(Next(s, DoClearFlag(j)))
  {
  }

  lemma ApartSurvives(s: State, w: Times, i: nat, j: nat)
    requires Quiet(s, w) && Apart(s) && Overlapping(s, i, j)
    ensures Marked(AfterOverlap(s, i, j))
  {
    var x := w;
    if s.op[i].AddToken? {
      StepQuiet(s, w, DoAddToken(i));
      RaisingStaysApart(s, i);
      x := NextTimes(s, w, DoAddToken(i));
    }
    var r := Raised(s, i);
    StepQuiet(r, x, DoClearFlag(j));
    ClearingStaysApart(r, j);
    var t, y := Next(r, DoClearFlag(j)), NextTimes(r, x, DoClearFlag(j));
    StepQuiet(t, y, DoPush(i));
    var u := Next(t, DoPush(i));
    forall k | 0 <= k < |u.flag| && !u.flag[k] ensures NoWork(u, k) { assert BusyOk(u, k); }
  }

  /**
   At the end of a run in which idle paths and submits have kept apart so far, they still do if and only if every
   submit in progress can be carried to its push, across a worker that clears its flag, with the busy marks intact.
   */
  lemma ApartIsExact(trace: seq<State>, steps: seq<Step>)
    requires Run(trace, steps) && forall m | 0 <= m < |steps| :: ApartAt(trace, m)
    ensures Apart(trace[|steps|]) <==> forall i: nat, j: nat :: SurvivesOverlap(trace[|steps|], i, j)
  {
    var s, w := trace[|steps|], TimesAt(trace, steps, |steps|);
    if Apart(s) {
      forall i: nat, j: nat ensures SurvivesOverlap(s, i, j) {
        if Overlapping(s, i, j) { ApartSurvives(s, w, i, j); }
      }
    } else {
      var i, j :| 0 <= i < |s.flag| && 0 <= j < |s.flag| && s.pc[j].ClearFlag? && InFlight(s.op[i], j);
      assert BusyOk(s, i) && IdleOk(s, j);
      assert Overlapping(s, i, j);
      assert Reachable(s);
      OverlapLosesTheMark(s, i, j);
      assert !SurvivesOverlap(s, i, j);
    }
  }
}
