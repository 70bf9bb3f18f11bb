/**
 The event and the latch as the objects they are, one call at a time: the waiter stack is linked through the awaiter
 nodes, and a setter walks it while the nodes it has submitted may already be gone.
 */
module EventHeap {
  import opened Links
  import opened Options
  import opened LatchCount

  class Awaiter {
    var next: Awaiter?                // m_next
    var registered: int               // net register_wait calls on its context
    ghost var place: Option<nat>      // its position in the order of registration

    constructor ()
      ensures next == null && registered == 0 && place == None
    {
      next, registered, place := null, 0, None;
    }
  }

  /** Unset with the waiter stack, or set (the sentinel `this` of the source). */
  datatype Word = Unset(top: Awaiter?) | Set

  ghost function At(log: seq<Awaiter>, i: int): Awaiter?
    requires i < |log|
  {
    if 0 <= i then log[i] else null
  }

  /** What an event looks like from outside: who waits, oldest first, and the submit_task calls so far. */
  datatype View = View(isSet: bool, value: Option<int>, waiting: seq<Awaiter>, submitted: seq<Awaiter>)

  /** The first set submits everybody, newest first; later sets change nothing. */
  ghost function AfterSet(v: View): View {
    if v.isSet then v else v.(isSet := true, waiting := [], submitted := v.submitted + Rev(v.waiting))
  }

  class Event {
    var word: Word                    // m_state
    var value: Option<int>            // the container of event<T>
    var submitted: seq<Awaiter>       // the submit_task calls
    ghost var log: seq<Awaiter>       // the nodes registered and not yet handed out, oldest first
    ghost var nodes: set<Awaiter>     // the nodes of everybody who may wait

    ghost predicate Slot(i: nat)
      reads this, nodes
      requires i < |log|
    {
      log[i] in nodes && log[i].place == Some(i) && log[i].next == At(log, i - 1)
    }

    ghost predicate Valid()
      reads this, nodes
    {
      && (forall i | 0 <= i < |log| :: Slot(i))
      && (word.Unset? ==> word.top == At(log, |log| - 1))
      && (word.Set? ==> log == [])
    }

    ghost function Look(): View
      reads this
    {
      View(word.Set?, value, log, submitted)
    }

    constructor (initial: bool, ghost nodes: set<Awaiter>)
      ensures Valid() && Look() == View(initial, None, [], []) && this.nodes == nodes
    {
      word := if initial then Set else Unset(null);
      value, submitted, log, this.nodes := None, [], [], nodes;
    }

    method IsSet() returns (answer: bool)
      ensures answer == Look().isSet
    {
      return word == Set;
    }

    /** await_ready: counts the waiter, then looks. */
    method AwaitReady(n: Awaiter) returns (ready: bool)
      modifies n`registered
      ensures n.registered == old(n.registered) + 1 && ready == Look().isSet
    {
      n.registered := n.registered + 1;
      ready := IsSet();
    }

    /** register_awaiters; `failures` weak compare-exchanges fail for no reason before one succeeds. */
    method RegisterAwaiters(n: Awaiter, failures: nat) returns (suspended: bool)
      requires Valid() && n in nodes && n.place == None
      modifies this`word, this`log, n`next, n`place
      ensures Valid() && suspended == !old(Look()).isSet
      ensures Look() == if suspended then old(Look().(waiting := log + [n])) else old(Look())
    {
      var left := failures;
      while true
        invariant word == old(word) && log == old(log) && n.place == None
        decreases left
      {
        if word == Set {
          n.next := null;
          return false;
        }
        n.next := word.top;
        if left == 0 {
          word := Unset(n);
          n.place := Some(|log|);
          log := log + [n];
          forall i | 0 <= i < |log| ensures Slot(i) {
            if i < |old(log)| { assert old(Slot(i)); }
          }
          return true;
        }
        left := left - 1;
      }
    }

    /** submit_task: from here on the coroutine may run and its node hold anything. */
    method Submit(n: Awaiter, junk: Awaiter?)
      requires n in nodes && log != [] && n == log[|log| - 1]
      requires forall i | 0 <= i < |log| :: Slot(i)
      modifies this`submitted, this`log, n`next, n`place
      ensures submitted == old(submitted) + [n] && log == old(log)[..|old(log)| - 1] && n.next == junk
      ensures n.place == None
      ensures forall i | 0 <= i < |log| :: Slot(i)
    {
      submitted := submitted + [n];
      n.next := junk;
      n.place := None;
      log := log[..|log| - 1];
      forall i | 0 <= i < |log| ensures Slot(i) { assert old(Slot(i)); assert old(Slot(|log| - 1)); }
    }

    /** resume_all_awaiters. After the i-th submit, the link of the submitted node is overwritten with junk(i). */
    method ResumeAll(head: Awaiter?, junk: nat -> Awaiter?)
      requires word.Set? && head == At(log, |log| - 1) && forall i | 0 <= i < |log| :: Slot(i)
      modifies this`submitted, this`log, nodes`next, nodes`place
      ensures Valid() && log == [] && submitted == old(submitted + Rev(log))
    {
      var i, waiter := 0, head;
      while waiter != null
        invariant waiter == At(log, |log| - 1) && forall i | 0 <= i < |log| :: Slot(i)
        invariant |log| <= |old(log)| && submitted + Rev(log) == old(submitted + Rev(log))
        decreases |log|
      {
        assert Slot(|log| - 1);
        RevLast(log);
        var next := waiter.next;
        Submit(waiter, junk(i));
        i, waiter := i + 1, next;
      }
      assert submitted + [] == submitted;
    }

    /** set_state. */
    method SetState(junk: nat -> Awaiter?)
      requires Valid()
      modifies this`word, this`submitted, this`log, nodes`next, nodes`place
      ensures Valid() && Look() == AfterSet(old(Look()))
    {
      var flag := word;
      word := Set;
      forall i | 0 <= i < |log| ensures Slot(i) { assert old(Slot(i)); }
      if flag != Set {
        ResumeAll(flag.top, junk);
      }
    }

    /** event<T>::set: the value first. */
    method SetValue(v: int, junk: nat -> Awaiter?)
      requires Valid()
      modifies this`value, this`word, this`submitted, this`log, nodes`next, nodes`place
      ensures Valid() && Look() == AfterSet(old(Look()).(value := Some(v)))
    {
      value := Some(v);
      forall i | 0 <= i < |log| ensures Slot(i) { assert old(Slot(i)); }
      SetState(junk);
    }
  }

  /** Everybody waiting is submitted once by the first set, and nobody by a second. */
  lemma SetTwice(v: View, n: Awaiter)
    ensures AfterSet(AfterSet(v)) == AfterSet(v) && AfterSet(v).isSet
    ensures !v.isSet ==> multiset(AfterSet(v).submitted) == multiset(v.submitted) + multiset(v.waiting)
  {
    RevIsPermutation(v.waiting);
  }

  lemma {:induction false} RevIsPermutation<T>(l: seq<T>)
    ensures multiset(Rev(l)) == multiset(l)
  {
    if l != [] {
      RevIsPermutation(l[1..]);
      assert l == [l[0]] + l[1..];
    }
  }

  // ------------------------------------------------------------------ latch

  class Latch {
    var count: int
    const ev: Event
    ghost const built: nat            // the constructor's argument
    ghost var downs: nat              // the count_down calls so far

    ghost predicate Valid()
      reads this, ev, ev.nodes
    {
      ev.Valid() && count == Wrap(built - downs) && ev.Look().isSet == Released(built, downs)
    }

    /** From an unsigned count: below 2^63 it is kept as it is, otherwise it turns negative. */
    constructor (n: nat, ghost nodes: set<Awaiter>)
      requires n < RANGE
      ensures Valid() && fresh(ev) && ev.nodes == nodes && built == n && downs == 0
      ensures ev.Look() == View(n == 0, None, [], [])
    {
      count := Wrap(n);
      ev := new Event(n <= 0, nodes);
      built, downs := n, 0;
    }

    /** Nobody else sets the event, which is private. */
    method CountDown(junk: nat -> Awaiter?)
      requires Valid()
      modifies this`count, this`downs, ev`word, ev`submitted, ev`log, ev.nodes`next, ev.nodes`place
      ensures Valid() && downs == old(downs) + 1
      ensures ev.Look() == if Released(built, downs) then AfterSet(old(ev.Look())) else old(ev.Look())
    {
      var was := count;
      WrapOnce(built - downs);
      count := Wrap(count - 1);
      downs := downs + 1;
      if was <= 1 {
        ev.SetState(junk);
      }
    }
  }
}
