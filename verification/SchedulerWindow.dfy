/** How many task units can gather in an eventfd between two reads of its worker. */
module SchedulerWindow {
  import opened Counting
  import opened SchedulerModel
  import opened SchedulerCounts

  /** Per context: submitters between push and wake at the last read, and tasks popped since. */
  datatype Window = Window(late: seq<nat>, popped: seq<nat>)

  ghost function InitWindow(s: State): Window {
    Window(seq(|s.flag|, _ => 0), seq(|s.flag|, _ => 0))
  }

  ghost function NextWindow(s: State, w: Window, st: Step): Window
    requires Shape(s) && Enabled(s, st) && |w.late| == |w.popped| == |s.flag|
  {
    if st.DoRead? then w.(late := w.late[st.i := Count(s.op, WakingUp(st.i))], popped := w.popped[st.i := 0])
    else if st.DoLoop? && s.pc[st.i].rem > 0 then w.(popped := w.popped[st.i := w.popped[st.i] + 1])
    else w
  }

  ghost predicate WindowOk(s: State, w: Window, j: nat)
    requires Shape(s) && |w.late| == |w.popped| == |s.flag| && j < |s.flag|
  {
    && s.task[j] + Count(s.op, WakingUp(j)) <= w.late[j] + Queue(s, j) + w.popped[j]
    && w.late[j] <= |s.flag|
    && (!s.stopReq[j] ==> w.popped[j] + Remaining(s.pc[j]) <= CAP)
    && (!s.stopReq[j] && !AfterSnapshot(s.pc[j]) ==> w.popped[j] == 0)
  }

  lemma StepWindow(s: State, w: Window, st: Step, j: nat)
    requires Shape(s) && Enabled(s, st) && |w.late| == |w.popped| == |s.flag| && j < |s.flag|
    requires WindowOk(s, w, j) && WakeOk(s, j) && StopOk(s, j)
    ensures var t, x := Next(s, st), NextWindow(s, w, st);
      Shape(t) && |x.late| == |x.popped| == |t.flag| == |s.flag| && WindowOk(t, x, j)
  {
    OneWorker(s, st);
    CountUpdate(s.op, st.i, Next(s, st).op[st.i], WakingUp(j));
    CountAtMost(s.op, WakingUp(j));
    if OwnLoop(st) { WindowInLoop(s, w, st, j); } else { WindowElsewhere(s, w, st, j); }
  }

  lemma WindowInLoop(s: State, w: Window, st: Step, j: nat)
    requires Shape(s) && Enabled(s, st) && |w.late| == |w.popped| == |s.flag| && j < |s.flag| && OwnLoop(st)
    requires WindowOk(s, w, j) && WakeOk(s, j) && StopOk(s, j)
    requires Shape(Next(s, st)) && |Next(s, st).flag| == |s.flag|
    requires Count(s.op, WakingUp(j)) <= |s.op|
    requires Count(Next(s, st).op, WakingUp(j)) == Count(s.op, WakingUp(j))
    ensures WindowOk(Next(s, st), NextWindow(s, w, st), j)
  {
    if st.i == j { WindowInOwnLoop(s, w, st, j); } else { WindowInOtherLoop(s, w, st, j); }
  }

  lemma WindowInOwnLoop(s: State, w: Window, st: Step, j: nat)
    requires Shape(s) && Enabled(s, st) && |w.late| == |w.popped| == |s.flag| && j < |s.flag|
    requires OwnLoop(st) && st.i == j
    requires WindowOk(s, w, j) && WakeOk(s, j) && StopOk(s, j)
    requires Shape(Next(s, st)) && |Next(s, st).flag| == |s.flag|
    requires Count(s.op, WakingUp(j)) <= |s.op|
    requires Count(Next(s, st).op, WakingUp(j)) == Count(s.op, WakingUp(j))
    ensures WindowOk(Next(s, st), NextWindow(s, w, st), j)
  {
    if Processing(st) { WindowInWork(s, w, st, j); } else { WindowInRest(s, w, st, j); }
  }

  lemma WindowInWork(s: State, w: Window, st: Step, j: nat)
    requires Shape(s) && Enabled(s, st) && |w.late| == |w.popped| == |s.flag| && j < |s.flag|
    requires Processing(st) && st.i == j
    requires WindowOk(s, w, j) && WakeOk(s, j) && StopOk(s, j)
    requires Shape(Next(s, st)) && |Next(s, st).flag| == |s.flag|
    requires Count(s.op, WakingUp(j)) <= |s.op|
    requires Count(Next(s, st).op, WakingUp(j)) == Count(s.op, WakingUp(j))
    ensures WindowOk(Next(s, st), NextWindow(s, w, st), j)
  {
  }

  lemma WindowInRest(s: State, w: Window, st: Step, j: nat)
    requires Shape(s) && Enabled(s, st) && |w.late| == |w.popped| == |s.flag| && j < |s.flag|
    requires OwnLoop(st) && !Processing(st) && st.i == j
    requires WindowOk(s, w, j) && WakeOk(s, j) && StopOk(s, j)
    requires Shape(Next(s, st)) && |Next(s, st).flag| == |s.flag|
    requires Count(s.op, WakingUp(j)) <= |s.op|
    requires Count(Next(s, st).op, WakingUp(j)) == Count(s.op, WakingUp(j))
    ensures WindowOk(Next(s, st), NextWindow(s, w, st), j)
  {
  }

  lemma WindowInOtherLoop(s: State, w: Window, st: Step, j: nat)
    requires Shape(s) && Enabled(s, st) && |w.late| == |w.popped| == |s.flag| && j < |s.flag| && OwnLoop(st)
    requires st.i != j
    requires WindowOk(s, w, j) && WakeOk(s, j) && StopOk(s, j)
    requires Shape(Next(s, st)) && |Next(s, st).flag| == |s.flag|
    requires Count(s.op, WakingUp(j)) <= |s.op|
    requires Count(Next(s, st).op, WakingUp(j)) == Count(s.op, WakingUp(j))
    ensures WindowOk(Next(s, st), NextWindow(s, w, st), j)
  {
  }

  lemma WindowElsewhere(s: State, w: Window, st: Step, j: nat)
    requires Shape(s) && Enabled(s, st) && |w.late| == |w.popped| == |s.flag| && j < |s.flag| && !OwnLoop(st)
    requires WindowOk(s, w, j)
    requires Shape(Next(s, st)) && |Next(s, st).flag| == |s.flag|
    requires Count(Next(s, st).op, WakingUp(j)) + (if s.op[st.i] == WakeTask(j) then 1 else 0)
          == Count(s.op, WakingUp(j)) + (if Next(s, st).op[st.i] == WakeTask(j) then 1 else 0)
    ensures WindowOk(Next(s, st), NextWindow(s, w, st), j)
  {
  }
}
