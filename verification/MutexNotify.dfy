/** `notify_all` wakes exactly the waiters it found, each once, in arrival order. */
module MutexNotify {
  import opened Links
  import opened MutexModel
  import opened MutexGhost
  import opened MutexInvariant
  import opened MutexPlaces

  /** Logs only grow; a loop record changes only by its own coroutine's notify_all steps. */
  lemma LoopsKeep(s: State, g: Ghost, st: Step, b: Id, k: nat)
    requires Shape(s, g) && Enabled(s, st) && b < |s.pc| && k < |g.cvLog|
    requires Nested(s.pc[st.a]) && Carried(s.pc[st.a]).Node? ==> Carried(s.pc[st.a]).id < |s.pc|
    requires st.a == b ==> !st.NotifyAll? && !st.DoNotify?
    ensures var h := NextGhost(s, g, st);
      b < |h.loops| && h.loops[b] == g.loops[b] && k < |h.cvLog| && g.cvLog[k] <= h.cvLog[k]
  {
  }

  /** The node woken by step m if that is a turn of a's loop, as a list of at most one. */
  ghost function WokenBy(trace: seq<State>, steps: seq<Step>, a: Id, m: nat): seq<Id>
    requires Run(trace, steps) && m < |steps|
  {
    assert Follows(trace, steps, m);
    if steps[m] == DoNotify(a) && trace[m].pc[a].cur.Node? then [trace[m].pc[a].cur.id] else []
  }

  /** The nodes on which a's loop called wake_up in steps [i, j), in order. */
  ghost function Woken(trace: seq<State>, steps: seq<Step>, a: Id, i: nat, j: nat): seq<Id>
    requires Run(trace, steps) && i <= j <= |steps|
    decreases j
  {
    if i == j then [] else Woken(trace, steps, a, i, j - 1) + WokenBy(trace, steps, a, j - 1)
  }

  /** Step m is the end of a's loop. */
  ghost predicate EndsLoop(trace: seq<State>, steps: seq<Step>, a: Id, m: nat)
    requires Run(trace, steps) && m < |steps|
  {
    assert Follows(trace, steps, m);
    steps[m] == DoNotify(a) && trace[m].pc[a].cur.Null?
  }

  /** Progress of the loop that detached list l: the records agree with what has been woken so far. */
  ghost predicate Progress(s: State, g: Ghost, a: Id, k: nat, l: seq<Id>, woken: seq<Id>) {
    && Shape(s, g) && a < |s.pc| && k < |g.cvLog| && InLoop(s.pc[a])
    && g.loops[a].Loop? && g.loops[a].k == k
    && g.loops[a].start <= g.loops[a].lo <= g.loops[a].hi <= |g.cvLog[k]|
    && g.cvLog[k][g.loops[a].start..g.loops[a].hi] == l
    && woken == l[..g.loops[a].lo - g.loops[a].start]
  }

  lemma SwapStarts(s: State, g: Ghost, a: Id, k: nat) returns (l: seq<Id>)
    requires Inv(s, g) && Enabled(s, NotifyAll(a, k))
    ensures IsList(s.next, s.cvHead[k], l)
    ensures Progress(NotifyAllStep(s, a, k), NotifyAllGhost(g, a, k), a, k, l, [])
  {
    assert CvOk(s, g, k);
    CvLists(s, g, k);
    l := ListOf(s, g, CvList(k));
    StepKeeps(s, g, NotifyAll(a, k));
    var h := NotifyAllGhost(g, a, k);
    assert h.cvLog[k][|g.cvTaker[k]|..|g.cvLog[k]|] == g.cvLog[k][|g.cvTaker[k]|..];
  }

  lemma TurnProgresses(s: State, g: Ghost, a: Id, k: nat, l: seq<Id>, woken: seq<Id>)
    requires Inv(s, g) && Enabled(s, DoNotify(a)) && s.pc[a].cur.Node? && Progress(s, g, a, k, l, woken)
    ensures Progress(NotifyStep(s, a), NotifyGhost(g, a, s.pc[a].cur), a, k, l, woken + [s.pc[a].cur.id])
  {
    assert LoopOk(s, g, a);
    StepKeeps(s, g, DoNotify(a));
    var d := g.loops[a];
    assert l[..d.lo + 1 - d.start] == l[..d.lo - d.start] + [g.cvLog[k][d.lo]];
  }

  lemma OtherStepKeepsProgress(s: State, g: Ghost, st: Step, a: Id, k: nat, l: seq<Id>, woken: seq<Id>)
    requires Inv(s, g) && Enabled(s, st) && Progress(s, g, a, k, l, woken) && st != DoNotify(a)
    requires Nested(s.pc[st.a]) && Carried(s.pc[st.a]).Node? ==> Carried(s.pc[st.a]).id < |s.pc|
    ensures Progress(Next(s, st), NextGhost(s, g, st), a, k, l, woken)
  {
    StepKeeps(s, g, st);
    LoopsKeep(s, g, st, a, k);
    var t, h := Next(s, st), NextGhost(s, g, st);
    assert LoopOk(t, h, a);
    ProgressKept(s, g, t, h, a, k, l, woken);
  }

  lemma ProgressKept(s: State, g: Ghost, t: State, h: Ghost, a: Id, k: nat, l: seq<Id>, woken: seq<Id>)
    requires Progress(s, g, a, k, l, woken) && Shape(t, h) && |t.pc| == |s.pc| && |h.cvLog| == |g.cvLog|
    requires InLoop(t.pc[a]) && h.loops[a] == g.loops[a] && g.cvLog[k] <= h.cvLog[k]
    ensures Progress(t, h, a, k, l, woken)
  {
    var d := g.loops[a];
    assert h.cvLog[k][d.start..d.hi] == g.cvLog[k][d.start..d.hi];
  }

  lemma StepProgresses(trace: seq<State>, steps: seq<Step>, j: nat, a: Id, k: nat, l: seq<Id>, woken: seq<Id>)
    requires Run(trace, steps) && j < |steps| && !EndsLoop(trace, steps, a, j)
    requires Progress(trace[j], GhostAt(trace, steps, j), a, k, l, woken)
    ensures Progress(trace[j + 1], GhostAt(trace, steps, j + 1), a, k, l, woken + WokenBy(trace, steps, a, j))
  {
    assert Follows(trace, steps, j);
    var s, g, st := trace[j], GhostAt(trace, steps, j), steps[j];
    StepKeeps(s, g, st);
    assert GhostAt(trace, steps, j + 1) == NextGhost(s, g, st);
    if st == DoNotify(a) {
      TurnProgresses(s, g, a, k, l, woken);
    } else {
      OtherStepKeepsProgress(s, g, st, a, k, l, woken);
      assert woken + [] == woken;
    }
  }

  lemma SwapAt(trace: seq<State>, steps: seq<Step>, i: nat, a: Id, k: nat) returns (l: seq<Id>)
    requires Run(trace, steps) && i < |steps| && steps[i] == NotifyAll(a, k)
    ensures k < |trace[i].cvHead| && IsList(trace[i].next, trace[i].cvHead[k], l)
    ensures Progress(trace[i + 1], GhostAt(trace, steps, i + 1), a, k, l, [])
  {
    assert Follows(trace, steps, i);
    var g := GhostAt(trace, steps, i);
    StepKeeps(trace[i], g, steps[i]);
    assert GhostAt(trace, steps, i + 1) == NextGhost(trace[i], g, steps[i]);
    l := SwapStarts(trace[i], g, a, k);
  }

  /** The invariant of the loop that began before step i, at state j. */
  ghost predicate WokenSoFar(trace: seq<State>, steps: seq<Step>, i: nat, j: nat, a: Id, k: nat, l: seq<Id>)
    requires Run(trace, steps)
  {
    i <= j <= |steps| && Progress(trace[j], GhostAt(trace, steps, j), a, k, l, Woken(trace, steps, a, i, j))
  }

  lemma OneTurn(trace: seq<State>, steps: seq<Step>, i: nat, j: nat, next: nat, a: Id, k: nat, l: seq<Id>)
    requires Run(trace, steps) && next == j + 1 && j < |steps| && !EndsLoop(trace, steps, a, j)
    requires WokenSoFar(trace, steps, i, j, a, k, l)
    ensures WokenSoFar(trace, steps, i, next, a, k, l)
  {
    StepProgresses(trace, steps, j, a, k, l, Woken(trace, steps, a, i, j));
  }

  lemma LoopProgress(trace: seq<State>, steps: seq<Step>, i: nat, j: nat, a: Id, k: nat, l: seq<Id>)
    requires Run(trace, steps) && i <= j <= |steps|
    requires forall m | i <= m < j :: !EndsLoop(trace, steps, a, m)
    requires WokenSoFar(trace, steps, i, i, a, k, l)
    ensures WokenSoFar(trace, steps, i, j, a, k, l)
  {
    var p := (m: nat) => WokenSoFar(trace, steps, i, m, a, k, l);
    forall m: nat, n: nat | i <= m < j && n == m + 1 && p(m) ensures p(n) { OneTurn(trace, steps, i, m, n, a, k, l); }
    Climb(p, i, j);
  }

  /** When the loop ends, everything on its list has been woken. */
  lemma LoopEnds(trace: seq<State>, steps: seq<Step>, j: nat, a: Id, k: nat, l: seq<Id>, woken: seq<Id>)
    requires Run(trace, steps) && j < |steps| && EndsLoop(trace, steps, a, j)
    requires Progress(trace[j], GhostAt(trace, steps, j), a, k, l, woken)
    ensures woken == l
  {
    assert Follows(trace, steps, j);
    assert LoopOk(trace[j], GhostAt(trace, steps, j), a);
  }

  /**
   From the list swap of a notify_all to the end of its loop, whatever the woken coroutines and everybody else do in
   between, wake_up is called on the waiters of the swapped-out list, in their order, each once, and on nobody else.
   */
  lemma NotifyAllWakesItsList(trace: seq<State>, steps: seq<Step>, i: nat, j: nat, a: Id, k: nat) returns (l: seq<Id>)
    requires Run(trace, steps) && i < j < |steps| && steps[i] == NotifyAll(a, k) && EndsLoop(trace, steps, a, j)
    requires forall m | i < m < j :: !EndsLoop(trace, steps, a, m)
    ensures k < |trace[i].cvHead| && IsList(trace[i].next, trace[i].cvHead[k], l)
    ensures Woken(trace, steps, a, i + 1, j) == l
    ensures forall p, q | 0 <= p < q < |l| :: l[p] != l[q]
  {
    l := SwapAt(trace, steps, i, a, k);
    LoopProgress(trace, steps, i + 1, j, a, k, l);
    LoopEnds(trace, steps, j, a, k, l, Woken(trace, steps, a, i + 1, j));
    NoRepeats(trace[i].next, trace[i].cvHead[k], l);
  }
}
