/** A zero token means a quiescent scheduler, as long as the idle path keeps apart from submits in flight. */
module SchedulerStop {
  import opened Counting
  import opened SchedulerModel
  import opened SchedulerCounts
  import opened SchedulerQuiesce

  ghost function SettledSet(s: State): set<nat>
    requires Shape(s)
  {
    set j | 0 <= j < |s.flag| && Settled(s, j)
  }

  /** The token counts the settled contexts and the subtractions under way. */
  ghost predicate Tallied(s: State)
    requires Shape(s)
  {
    && s.token == |SettledSet(s)| + Count(s.pc, SubsPending())
    && forall i | 0 <= i < |s.flag| :: s.pc[i].SubToken? ==> s.pc[i].cnt <= 1
  }

  lemma SubmitTallies(s: State, w: Times, a: nat, b: nat)
    requires Quiet(s, w) && Enabled(s, Submit(a, b)) && Tallied(s)
    ensures Tallied(SubmitStep(s, a, b))
  {
    var t := SubmitStep(s, a, b);
    forall j | 0 <= j < |s.flag| ensures Settled(t, j) <==> Settled(s, j) {
      assert forall i | 0 <= i < |s.flag| && i != a :: t.op[i] == s.op[i];
      if j == b && !s.flag[b] { assert Flipping(t.op[a], b); }
    }
    assert SettledSet(t) == SettledSet(s);
  }

  lemma AddTallies(s: State, w: Times, i: nat)
    requires Quiet(s, w) && Enabled(s, DoAddToken(i)) && Tallied(s)
    ensures Tallied(AddTokenStep(s, i))
  {
    var t, b := AddTokenStep(s, i), s.op[i].j;
    assert PairOk(s, w, i, i);
    assert PairOk(s, w, i, b);
    forall j | 0 <= j < |s.flag| ensures Settled(t, j) <==> Settled(s, j) || (s.op[i].flipped && j == b) {
      assert forall k | 0 <= k < |s.flag| && k != i :: t.op[k] == s.op[k];
      if s.op[i].flipped && j == b {
        forall k | 0 <= k < |s.flag| ensures !Flipping(t.op[k], b) { assert PairOk(s, w, i, k); }
      }
    }
    if s.op[i].flipped {
      assert Flipping(s.op[i], b);
      assert SettledSet(t) == SettledSet(s) + {b};
    } else {
      assert SettledSet(t) == SettledSet(s);
    }
  }

  lemma ClearTallies(s: State, w: Times, i: nat)
    requires Quiet(s, w) && Apart(s) && Enabled(s, DoClearFlag(i)) && Tallied(s)
    ensures Tallied(Next(s, DoClearFlag(i)))
  {
    var t := Next(s, DoClearFlag(i));
    CountUpdate(s.pc, i, t.pc[i], SubsPending());
    forall k | 0 <= k < |s.flag| ensures !Flipping(s.op[k], i) { assert !InFlight(s.op[k], i); }
    forall j | 0 <= j < |s.flag| ensures Settled(t, j) <==> Settled(s, j) && j != i {}
    assert SettledSet(t) == SettledSet(s) - {i};
  }

  lemma FlipsStay(s: State, st: Step)
    requires Shape(s) && Enabled(s, st) && !st.Submit? && !st.DoAddToken?
    ensures forall j :: Flipping(Next(s, st).op[st.i], j) <==> Flipping(s.op[st.i], j)
  {
  }

  lemma StepTallies(s: State, w: Times, st: Step)
    requires Quiet(s, w) && Apart(s) && Enabled(s, st) && Tallied(s) && Accounted(s)
    ensures Shape(Next(s, st)) && Tallied(Next(s, st))
  {
    NextHasShape(s, st);
    if st.Submit? { SubmitTallies(s, w, st.i, st.j); }
    else if st.DoAddToken? { AddTallies(s, w, st.i); }
    else if st.DoClearFlag? { ClearTallies(s, w, st.i); }
    else {
      OtherTallies(s, st);
    }
  }

  lemma OtherTallies(s: State, st: Step)
    requires Shape(s) && Enabled(s, st) && Tallied(s) && Accounted(s)
    requires !st.Submit? && !st.DoAddToken? && !st.DoClearFlag?
    ensures Shape(Next(s, st)) && Tallied(Next(s, st))
  {
    var t := Next(s, st);
    OneWorker(s, st);
    FlipsStay(s, st);
    CountUpdate(s.pc, st.i, t.pc[st.i], SubsPending());
    if st.DoSubToken? { TokenMoves(s, st); } else { TokenStays(s, st); }
    forall j | 0 <= j < |s.flag| ensures Settled(t, j) <==> Settled(s, j) {
      forall i | 0 <= i < |s.flag| ensures Flipping(t.op[i], j) <==> Flipping(s.op[i], j) {
        if i != st.i { assert t.op[i] == s.op[i]; }
      }
    }
    assert SettledSet(t) == SettledSet(s);
  }

  /** Pending flips form chains ordered by time: with nothing settled, an oldest one cannot exist. */
  lemma {:induction false} NobodyFlips(s: State, w: Times, i: nat)
    requires Quiet(s, w) && SettledSet(s) == {} && i < |s.flag| && s.op[i].AddToken? && s.op[i].flipped
    ensures false
    decreases w.flip[i]
  {
    assert BusyOk(s, i);
    assert s.flag[i];
    assert i !in SettledSet(s);
    var k :| 0 <= k < |s.flag| && Flipping(s.op[k], i);
    assert PairOk(s, w, i, k);
    NobodyFlips(s, w, k);
  }

  /** Token zero: every flag is clear and no subtraction is under way. */
  lemma ZeroMeansIdle(s: State, w: Times)
    requires Quiet(s, w) && Tallied(s) && s.token == 0
    ensures forall j | 0 <= j < |s.flag| :: !s.flag[j]
    ensures Count(s.pc, SubsPending()) == 0
  {
    forall j | 0 <= j < |s.flag| ensures !s.flag[j] {
      if s.flag[j] {
        assert j !in SettledSet(s);
        var k :| 0 <= k < |s.flag| && Flipping(s.op[k], j);
        NobodyFlips(s, w, k);
      }
    }
  }
}
