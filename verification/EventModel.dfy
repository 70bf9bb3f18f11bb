/**
 Coroutines waiting on one `event`, setters and latch count-downs, one atomic access per step.

 A coroutine's awaiter node lives in its frame and is named by the coroutine. `event<T>::set` stores a value and then
 publishes; a `latch` is the same event published by the count-down that finds at most one left.
 */
module EventModel {
  import opened Links
  import opened Options
  import opened LatchCount

  /** `m_state`: the event's own address when set, otherwise the top of the waiter stack. */
  datatype Word = Unset(top: Ptr) | Set

  datatype Pc =
    | User
    | Ready                          // await_ready: registered, about to load m_state
    | PushLoad                       // register_awaiters: about to load m_state
    | PushCas(seen: Ptr)             // about to CAS itself on top of `seen`
    | Suspended
    | Granted                        // about to run await_resume
    | Publish                        // set_state: about to exchange
    | Walk(cur: Ptr)                 // resume_all_awaiters: about to test and read cur->m_next
    | Submit(n: Id, rest: Ptr)       // about to submit n's handle

  datatype State = State(
    word: Word,
    value: Option<int>,  // the container of event<T>
    count: int,          // the latch's m_count
    waits: seq<int>,     // m_num_wait_task of every context
    pc: seq<Pc>,         // per coroutine from here on
    ctx: seq<nat>,
    next: seq<Ptr>,
    queued: seq<nat>)

  datatype Step =
    | StartWait(a: Id, x: nat)
    | DoReady(a: Id)
    | DoLoad(a: Id)
    | DoCas(a: Id, spurious: bool)
    | StartSet(a: Id, v: int)
    | CountDown(a: Id)
    | DoPublish(a: Id)
    | DoWalk(a: Id)
    | DoSubmit(a: Id)
    | Dispatch(a: Id)
    | DoAwaitResume(a: Id)

  predicate Sized(s: State) {
    && |s.pc| == |s.ctx| == |s.next| == |s.queued|
    && forall a | 0 <= a < |s.ctx| :: s.ctx[a] < |s.waits|
  }

  /** An event built set or unset, or a latch built with `count` (set when that is zero); nobody waits yet. */
  predicate Init(s: State) {
    && Sized(s)
    && (s.word == Set || s.word == Unset(Null)) && s.value == None
    && (forall x | 0 <= x < |s.waits| :: s.waits[x] == 0)
    && (forall a | 0 <= a < |s.pc| :: s.pc[a] == User && s.queued[a] == 0)
  }

  predicate Enabled(s: State, st: Step)
    requires Sized(s)
  {
    && st.a < |s.pc|
    && match st
       case StartWait(a, x) => s.pc[a].User? && x < |s.waits|
       case DoReady(a) => s.pc[a].Ready?
       case DoLoad(a) => s.pc[a].PushLoad?
       case DoCas(a, _) => s.pc[a].PushCas?
       case StartSet(a, _) => s.pc[a].User?
       case CountDown(a) => s.pc[a].User?
       case DoPublish(a) => s.pc[a].Publish?
       case DoWalk(a) => s.pc[a].Walk? && (s.pc[a].cur.Node? ==> s.pc[a].cur.id < |s.pc|)
       case DoSubmit(a) => s.pc[a].Submit? && s.pc[a].n < |s.pc|
       case Dispatch(a) => s.pc[a].Suspended? && s.queued[a] > 0
       case DoAwaitResume(a) => s.pc[a].Granted?
  }

  function Goto(s: State, a: Id, pc: Pc): State
    requires a < |s.pc|
  {
    s.(pc := s.pc[a := pc])
  }

  function LoadStep(s: State, a: Id): State
    requires Sized(s) && a < |s.pc|
  {
    match s.word
    case Set => Goto(s.(next := s.next[a := Null]), a, Granted)
    case Unset(top) => Goto(s.(next := s.next[a := top]), a, PushCas(top))
  }

  /** compare_exchange_weak: fails on a changed word, and may fail for no reason. */
  function CasStep(s: State, a: Id, spurious: bool): State
    requires Sized(s) && a < |s.pc| && s.pc[a].PushCas?
  {
    if s.word == Unset(s.pc[a].seen) && !spurious
    then Goto(s.(word := Unset(Node(a))), a, Suspended)
    else Goto(s, a, PushLoad)
  }

  function PublishStep(s: State, a: Id): State
    requires Sized(s) && a < |s.pc|
  {
    match s.word
    case Set => Goto(s, a, User)
    case Unset(top) => Goto(s.(word := Set), a, Walk(top))
  }

  function WalkStep(s: State, a: Id): State
    requires Sized(s) && Enabled(s, DoWalk(a))
  {
    match s.pc[a].cur
    case Null => Goto(s, a, User)
    case Node(n) => Goto(s, a, Submit(n, s.next[n]))
  }

  function Next(s: State, st: Step): State
    requires Sized(s) && Enabled(s, st)
  {
    match st
    case StartWait(a, x) => Goto(s.(waits := s.waits[x := s.waits[x] + 1], ctx := s.ctx[a := x]), a, Ready)
    case DoReady(a) => Goto(s, a, if s.word.Set? then Granted else PushLoad)
    case DoLoad(a) => LoadStep(s, a)
    case DoCas(a, spurious) => CasStep(s, a, spurious)
    case StartSet(a, v) => Goto(s.(value := Some(v)), a, Publish)
    case CountDown(a) => Goto(s.(count := Wrap(s.count - 1)), a, if s.count <= 1 then Publish else User)
    case DoPublish(a) => PublishStep(s, a)
    case DoWalk(a) => WalkStep(s, a)
    case DoSubmit(a) =>
      var Submit(n, rest) := s.pc[a];
      Goto(s.(queued := s.queued[n := s.queued[n] + 1]), a, Walk(rest))
    case Dispatch(a) => Goto(s.(queued := s.queued[a := s.queued[a] - 1]), a, Granted)
    case DoAwaitResume(a) => Goto(s.(waits := s.waits[s.ctx[a] := s.waits[s.ctx[a]] - 1]), a, User)
  }

  lemma NextIsSized(s: State, st: Step)
    requires Sized(s) && Enabled(s, st)
    ensures Sized(Next(s, st)) && |Next(s, st).pc| == |s.pc| && |Next(s, st).waits| == |s.waits|
  {
  }

  ghost predicate Follows(trace: seq<State>, steps: seq<Step>, i: nat)
    requires i < |steps| && |trace| == |steps| + 1
  {
    Sized(trace[i]) && Enabled(trace[i], steps[i]) && trace[i + 1] == Next(trace[i], steps[i])
  }

  ghost predicate Run(trace: seq<State>, steps: seq<Step>) {
    && |trace| == |steps| + 1
    && (forall i | 0 <= i < |trace| :: Sized(trace[i]))
    && Init(trace[0])
    && (forall i | 0 <= i < |steps| :: Follows(trace, steps, i))
  }
}
