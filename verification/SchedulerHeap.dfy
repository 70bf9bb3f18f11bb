/**
 Engine, context and scheduler as the objects they are, one call at a time. What a task does when it is resumed is a
 parameter: the handles it submits to its own context, the IO it prepares and how it moves the wait count. The task
 queue hands out its handles in any order.
 */
module SchedulerHeap {
  import Dispatcher
  import EventFd
  import opened Counting

  type Handle = nat

  /** Everything a resumed task does to its own context. */
  datatype Effect = Effect(spawned: seq<Handle>, waits: int, io: seq<Handle>)

  class Engine {
    var queue: multiset<Handle>       // m_task_queue
    var fd: nat                       // the eventfd
    var numIoWaitSubmit: nat          // m_num_io_wait_submit
    var numIoRunning: nat             // m_num_io_running
    var prepared: seq<Handle>         // io_uring: entries filled in, each with the coroutine to resume
    var kernel: seq<Handle>           // submitted
    var cqes: seq<Handle>             // completed
    ghost var tasks: nat              // task_flag writes since the last read of the eventfd
    ghost var ones: nat               // units of 1 since then

    constructor ()
      ensures Valid() && Idle() && fd == 0
    {
      queue, fd, numIoWaitSubmit, numIoRunning := multiset{}, 0, 0, 0;
      prepared, kernel, cqes, tasks, ones := [], [], [], 0, 0;
    }

    /** The counters are exact, and every completion not yet seen has its write in the eventfd. */
    ghost predicate Valid()
      reads this
    {
      && numIoWaitSubmit == |prepared| && numIoRunning == |kernel| + |cqes|
      && fd == EventFd.Value(tasks, ones) && |cqes| <= ones
    }

    /** No task, no IO in any stage. */
    ghost predicate Idle()
      reads this
    {
      queue == multiset{} && prepared == [] && kernel == [] && cqes == []
    }

    method Ready() returns (ready: bool)
      ensures ready == (queue != multiset{})
    {
      ready := |queue| != 0;
    }

    method EmptyIo() returns (empty: bool)
      requires Valid()
      ensures empty == (prepared == [] && kernel == [] && cqes == [])
    {
      empty := numIoWaitSubmit == 0 && numIoRunning == 0;
    }

    method WakeUp(val: nat)
      requires Valid() && (val == 1 || val == EventFd.TASK_FLAG)
      modifies this`fd, this`tasks, this`ones
      ensures Valid() && fd == old(fd) + val && if val == 1 then ones == old(ones) + 1 else tasks == old(tasks) + 1
    {
      fd := fd + val;
      if val == 1 { ones := ones + 1; } else { tasks := tasks + 1; }
    }

    method SubmitTask(handle: Handle)
      requires Valid()
      modifies this`queue, this`fd, this`tasks, this`ones
      ensures Valid() && queue == old(queue) + multiset{handle} && tasks == old(tasks) + 1
      ensures fd == old(fd) + EventFd.TASK_FLAG
    {
      queue := queue + multiset{handle};
      WakeUp(EventFd.TASK_FLAG);
    }

    method Schedule() returns (coro: Handle)
      requires Valid() && queue != multiset{}
      modifies this`queue
      ensures Valid() && coro in old(queue) && queue == old(queue) - multiset{coro}
    {
      coro :| coro in queue;
      queue := queue - multiset{coro};
    }

    method AddIoSubmit(handle: Handle)
      requires Valid()
      modifies this`numIoWaitSubmit, this`prepared
      ensures Valid() && prepared == old(prepared) + [handle]
    {
      prepared := prepared + [handle];
      numIoWaitSubmit := numIoWaitSubmit + 1;
    }

    /** What a task that submits several handles does to its own engine. */
    method SubmitAll(handles: seq<Handle>)
      requires Valid()
      modifies this`queue, this`fd, this`tasks, this`ones
      ensures Valid() && queue == old(queue) + multiset(handles) && tasks == old(tasks) + |handles|
    {
      var i := 0;
      while i < |handles|
        invariant Valid() && i <= |handles| && queue == old(queue) + multiset(handles[..i]) && tasks == old(tasks) + i
      {
        TakeOneMore(handles, i);
        SubmitTask(handles[i]);
        i := i + 1;
      }
      assert handles[..i] == handles;
    }

    /** What a task that prepares several IO requests does. */
    method AddAll(handles: seq<Handle>)
      requires Valid()
      modifies this`numIoWaitSubmit, this`prepared
      ensures Valid() && prepared == old(prepared) + handles
    {
      var i := 0;
      while i < |handles|
        invariant Valid() && i <= |handles| && prepared == old(prepared) + handles[..i]
      {
        AddIoSubmit(handles[i]);
        i := i + 1;
      }
      assert handles[..i] == handles;
    }

    method DoIoSubmit()
      requires Valid()
      modifies this`numIoWaitSubmit, this`numIoRunning, this`prepared, this`kernel
      ensures Valid() && prepared == [] && kernel == old(kernel) + old(prepared)
    {
      if numIoWaitSubmit > 0 {
        kernel, prepared := kernel + prepared, [];
        numIoRunning := numIoRunning + numIoWaitSubmit;
        numIoWaitSubmit := 0;
      } else {
        assert old(kernel) + [] == kernel;
      }
    }

    /** The kernel completes entry i and writes the eventfd. */
    method Complete(i: nat)
      requires Valid() && i < |kernel|
      modifies this`kernel, this`cqes, this`fd, this`ones
      ensures Valid() && cqes == old(cqes) + [old(kernel)[i]] && kernel == old(kernel)[..i] + old(kernel)[i + 1..]
      ensures ones == old(ones) + 1
    {
      cqes, kernel := cqes + [kernel[i]], kernel[..i] + kernel[i + 1..];
      fd, ones := fd + 1, ones + 1;
    }

    /** peek_batch_cqe: at most `limit` completions. */
    function Peek(limit: nat): (num: nat)
      reads this
      ensures num <= |cqes| && (limit >= |cqes| ==> num == |cqes|)
    {
      if limit < |cqes| then limit else |cqes|
    }

    /**
     poll_submit, once the eventfd is not zero. Prepared IO goes to the kernel, every completion's coroutine goes to the
     queue and none is left behind, unless the units of 1 written since the last read have carried out of their field to
     leave zero behind.
     */
    method PollSubmit()
      requires Valid() && fd > 0
      modifies this
      ensures prepared == [] && kernel == old(kernel) + old(prepared)
      ensures old(ones) % EventFd.CQE_LIMIT != 0 || old(cqes) == [] ==>
                Valid() && cqes == [] && queue == old(queue) + multiset(old(cqes)) && ones == 0 && tasks == |old(cqes)|
      ensures old(ones) % EventFd.CQE_LIMIT == 0 ==> cqes == old(cqes) && queue == old(queue)
    {
      DoIoSubmit();
      var cnt := fd;
      EventFd.CqeField(tasks, ones);
      fd, tasks, ones := 0, 0, 0;
      if !EventFd.WakeByCqe(cnt) {
        return;
      }
      var num := Peek(numIoRunning);
      var i := 0;
      while i < num
        invariant i <= num && num == |cqes| && cqes == old(cqes)
        invariant prepared == [] && kernel == old(kernel) + old(prepared) && numIoWaitSubmit == 0
        invariant numIoRunning == |kernel| + |cqes| && fd == EventFd.Value(tasks, ones) && ones == 0 && tasks == i
        invariant queue == old(queue) + multiset(cqes[..i])
      {
        queue := queue + multiset{cqes[i]};
        fd, tasks := fd + EventFd.TASK_FLAG, tasks + 1;
        TakeOneMore(cqes, i);
        i := i + 1;
      }
      assert cqes[..num] == cqes;
      cqes := cqes[num..];
      numIoRunning := numIoRunning - num;
    }
  }

  /** What a run of tasks has spawned. */
  ghost function Spawned(ran: seq<Handle>, effect: Handle -> Effect): multiset<Handle> {
    if ran == [] then multiset{}
    else Spawned(ran[..|ran| - 1], effect) + multiset(effect(ran[|ran| - 1]).spawned)
  }

  ghost function Waited(ran: seq<Handle>, effect: Handle -> Effect): int {
    if ran == [] then 0 else Waited(ran[..|ran| - 1], effect) + effect(ran[|ran| - 1]).waits
  }

  ghost function Prepared(ran: seq<Handle>, effect: Handle -> Effect): seq<Handle> {
    if ran == [] then [] else Prepared(ran[..|ran| - 1], effect) + effect(ran[|ran| - 1]).io
  }

  lemma OneMore(ran: seq<Handle>, coro: Handle, effect: Handle -> Effect, base: seq<Handle>)
    ensures Spawned(ran + [coro], effect) == Spawned(ran, effect) + multiset(effect(coro).spawned)
    ensures Waited(ran + [coro], effect) == Waited(ran, effect) + effect(coro).waits
    ensures base + Prepared(ran + [coro], effect) == base + Prepared(ran, effect) + effect(coro).io
  {
    assert (ran + [coro])[..|ran|] == ran;
  }

  /** One task moves from the queue to those that have run, and its spawn joins the queue. */
  lemma Conserved(q: multiset<Handle>, ran: seq<Handle>, coro: Handle, spawn: multiset<Handle>)
    requires coro in q
    ensures q - multiset{coro} + spawn + multiset(ran + [coro]) == q + multiset(ran) + spawn
  {
    assert multiset(ran + [coro]) == multiset(ran) + multiset{coro};
  }

  lemma TakeOneMore(s: seq<Handle>, i: nat)
    requires i < |s|
    ensures multiset(s[..i + 1]) == multiset(s[..i]) + multiset{s[i]}
  {
    assert s[..i + 1] == s[..i] + [s[i]];
  }

  datatype Verdict = Again | Exit | Poll(idle: bool)

  class Context {
    const engine: Engine
    var numWaitTask: int
    var stopRequested: bool

    constructor ()
      ensures fresh(engine) && engine.Valid() && Idle() && !stopRequested && engine.fd == 0
    {
      numWaitTask, stopRequested := 0, false;
      engine := new Engine();
    }

    ghost predicate Idle()
      reads this, engine
    {
      engine.Idle() && numWaitTask == 0
    }

    method RegisterWait(cnt: int)
      modifies this`numWaitTask
      ensures numWaitTask == old(numWaitTask) + cnt
    {
      numWaitTask := numWaitTask + cnt;
    }

    method NotifyStop()
      requires engine.Valid()
      modifies this`stopRequested, engine`fd, engine`tasks, engine`ones
      ensures stopRequested && engine.Valid() && engine.fd == old(engine.fd) + 1 && engine.ones == old(engine.ones) + 1
    {
      stopRequested := true;
      engine.WakeUp(1);
    }

    method EmptyWaitWork() returns (empty: bool)
      requires engine.Valid()
      ensures empty == (numWaitTask == 0 && engine.prepared == [] && engine.kernel == [] && engine.cqes == [])
    {
      empty := engine.EmptyIo();
      empty := numWaitTask == 0 && empty;
    }

    /** exec_one_task: takes a handle and resumes it. */
    method ExecOneTask(effect: Handle -> Effect) returns (coro: Handle)
      requires engine.Valid() && engine.queue != multiset{}
      modifies this`numWaitTask, engine
      ensures engine.Valid() && coro in old(engine.queue)
      ensures engine.queue == old(engine.queue) - multiset{coro} + multiset(effect(coro).spawned)
      ensures numWaitTask == old(numWaitTask) + effect(coro).waits
      ensures engine.prepared == old(engine.prepared) + effect(coro).io
      ensures engine.kernel == old(engine.kernel) && engine.cqes == old(engine.cqes)
    {
      coro := engine.Schedule();
      RegisterWait(effect(coro).waits);
      engine.SubmitAll(effect(coro).spawned);
      engine.AddAll(effect(coro).io);
    }

    /**
     process_work runs as many tasks as are queued at its start, in whatever order they come, and loses none: what was
     queued and what was spawned is what has run and what is queued. It never pops an empty queue.
     */
    method ProcessWork(effect: Handle -> Effect) returns (ghost ran: seq<Handle>, num: nat)
      requires engine.Valid()
      modifies this`numWaitTask, engine
      ensures engine.Valid() && num == |old(engine.queue)| == |ran|
      ensures engine.queue + multiset(ran) == old(engine.queue) + Spawned(ran, effect)
      ensures numWaitTask == old(numWaitTask) + Waited(ran, effect)
      ensures engine.prepared == old(engine.prepared) + Prepared(ran, effect)
      ensures engine.kernel == old(engine.kernel) && engine.cqes == old(engine.cqes)
    {
      num := |engine.queue|;
      ran := [];
      var i := 0;
      while i < num
        invariant i <= num && engine.Valid() && |ran| == i
        invariant engine.queue + multiset(ran) == old(engine.queue) + Spawned(ran, effect)
        invariant numWaitTask == old(numWaitTask) + Waited(ran, effect)
        invariant engine.prepared == old(engine.prepared) + Prepared(ran, effect)
        invariant engine.kernel == old(engine.kernel) && engine.cqes == old(engine.cqes)
      {
        assert |engine.queue + multiset(ran)| == |engine.queue| + i;
        ghost var q := engine.queue;
        var coro := ExecOneTask(effect);
        Conserved(q, ran, coro, multiset(effect(coro).spawned));
        OneMore(ran, coro, effect, old(engine.prepared));
        ran := ran + [coro];
        i := i + 1;
      }
    }

    /** The tasks of `ran`, as many as were queued, have run, with all their effects and no other. */
    twostate predicate HasRun(ran: seq<Handle>, effect: Handle -> Effect)
      reads this, engine
    {
      && |ran| == |old(engine.queue)|
      && engine.queue + multiset(ran) == old(engine.queue) + Spawned(ran, effect)
      && numWaitTask == old(numWaitTask) + Waited(ran, effect)
      && engine.prepared == old(engine.prepared) + Prepared(ran, effect)
      && engine.kernel == old(engine.kernel) && engine.cqes == old(engine.cqes)
    }

    /** Queue, waits and IO are what they were. */
    twostate predicate KeepsWork()
      reads this, engine
    {
      && engine.queue == old(engine.queue) && numWaitTask == old(numWaitTask) && engine.prepared == old(engine.prepared)
      && engine.kernel == old(engine.kernel) && engine.cqes == old(engine.cqes)
    }

    /** The part of one round of run that comes before poll_work: the queued tasks run, then the tests. */
    method Round(effect: Handle -> Effect) returns (verdict: Verdict, ghost ran: seq<Handle>)
      requires engine.Valid()
      modifies this`numWaitTask, engine
      ensures engine.Valid() && HasRun(ran, effect)
      ensures verdict.Exit? <==> stopRequested && Idle()
      ensures verdict.Again? <==> (stopRequested && !Idle() && numWaitTask == 0 &&
                                   engine.prepared == [] && engine.kernel == [] && engine.cqes == [])
      ensures verdict == Poll(true) <==> !stopRequested && Idle()
      ensures old(Idle()) ==> Idle()
      ensures (forall h :: effect(h) == Effect([], 0, [])) ==> engine.queue == multiset{}
    {
      var num;
      ran, num := ProcessWork(effect);
      var empty := EmptyWaitWork();
      var ready := engine.Ready();
      if forall h :: effect(h) == Effect([], 0, []) {
        NothingSpawned(ran, effect);
        AllGone(engine.queue, ran, old(engine.queue));
      }
      if stopRequested && empty {
        verdict := if ready then Again else Exit;
      } else {
        verdict := Poll(!stopRequested && empty && !ready);
      }
    }
  }

  lemma {:induction false} NothingSpawned(ran: seq<Handle>, effect: Handle -> Effect)
    requires forall h :: effect(h) == Effect([], 0, [])
    ensures Spawned(ran, effect) == multiset{} && Waited(ran, effect) == 0 && Prepared(ran, effect) == []
  {
    if ran != [] { NothingSpawned(ran[..|ran| - 1], effect); }
  }

  lemma AllGone(left: multiset<Handle>, ran: seq<Handle>, was: multiset<Handle>)
    requires left + multiset(ran) == was && |ran| == |was|
    ensures left == multiset{}
  {
    assert |left + multiset(ran)| == |left| + |ran|;
  }

  ghost function Busy(): int -> bool {
    (flag: int) => flag == 1
  }

  /** A context as its constructor leaves it. */
  ghost predicate Fresh(c: Context)
    reads c, c.engine
  {
    c.engine.Valid() && c.Idle() && !c.stopRequested && c.engine.fd == 0
  }

  class Scheduler {
    const ctxs: seq<Context>
    var stopToken: int
    var stopFlag: seq<int>            // m_ctx_stop_flag
    const dispatcher: Dispatcher.RoundRobin

    ghost predicate Distinct()
      reads this
    {
      forall i, j | 0 <= i < j < |ctxs| :: ctxs[i] != ctxs[j] && ctxs[i].engine != ctxs[j].engine
    }

    ghost predicate ContextOk(j: nat)
      reads this, ctxs, set c | c in ctxs :: c.engine
      requires j < |ctxs| == |stopFlag|
    {
      && ctxs[j].engine.Valid()
      && (stopFlag[j] == 0 || stopFlag[j] == 1)
      && (stopFlag[j] == 0 ==> ctxs[j].Idle())
    }

    /** The token is the number of busy flags, and a context whose flag is down is idle. */
    ghost predicate Valid()
      reads this, dispatcher, ctxs, set c | c in ctxs :: c.engine
    {
      && |ctxs| == |stopFlag| > 0 && Distinct()
      && dispatcher.Valid() && dispatcher.n == |ctxs|
      && stopToken == Count(stopFlag, Busy())
      && forall j | 0 <= j < |ctxs| :: ContextOk(j)
    }

    ghost predicate AllIdle()
      reads this, ctxs, set c | c in ctxs :: c.engine
    {
      forall j | 0 <= j < |ctxs| :: ctxs[j].Idle()
    }

    /** init_impl: every context is marked busy until its first idle round. */
    constructor (cnt: nat)
      requires cnt > 0
      ensures Valid() && |ctxs| == cnt && stopToken == cnt && dispatcher.cur == 0 && AllIdle()
      ensures forall j | 0 <= j < cnt :: stopFlag[j] == 1 && !ctxs[j].stopRequested && ctxs[j].engine.fd == 0
    {
      var made: seq<Context> := [];
      while |made| < cnt
        invariant |made| <= cnt
        invariant forall i, j | 0 <= i < j < |made| :: made[i] != made[j] && made[i].engine != made[j].engine
        invariant forall j | 0 <= j < |made| :: Fresh(made[j])
        invariant forall j | 0 <= j < |made| :: fresh(made[j]) && fresh(made[j].engine)
        decreases cnt - |made|
      {
        var c := new Context();
        made := made + [c];
      }
      ctxs := made;
      dispatcher := new Dispatcher.RoundRobin(cnt);
      stopToken, stopFlag := cnt, seq(cnt, _ => 1);
      new;
      CountAtMost(stopFlag, Busy());
      forall j | 0 <= j < |ctxs| ensures ContextOk(j) && ctxs[j].Idle() { assert Fresh(ctxs[j]); }
    }

    /** submit_task_impl. The token is not zero, as the assertion at its head demands. */
    method SubmitTask(handle: Handle) returns (id: nat)
      requires Valid() && stopToken != 0
      modifies this`stopToken, this`stopFlag, dispatcher`cur, set c | c in ctxs :: c.engine
      ensures Valid() && id < |ctxs| && id == Dispatcher.Pick(old(dispatcher.cur), |ctxs|)
      ensures dispatcher.cur == Dispatcher.After(old(dispatcher.cur), 1)
      ensures stopFlag == old(stopFlag)[id := 1]
      ensures ctxs[id].engine.queue == old(ctxs[id].engine.queue) + multiset{handle}
      ensures ctxs[id].engine.tasks == old(ctxs[id].engine.tasks) + 1
      ensures forall j | 0 <= j < |ctxs| && j != id :: unchanged(ctxs[j].engine)
    {
      id := dispatcher.Dispatch();
      assert old(ContextOk(id));
      var was := stopFlag[id];
      CountUpdate(stopFlag, id, 1, Busy());
      stopFlag := stopFlag[id := 1];
      stopToken := stopToken + (1 - was);
      ctxs[id].engine.SubmitTask(handle);
      forall j | 0 <= j < |ctxs| ensures ContextOk(j) {
        assert old(ContextOk(j));
        if j != id { assert ctxs[j].engine != ctxs[id].engine; }
      }
    }

    /**
     The stop callback of context i, called by run when context i is idle. It broadcasts stop exactly if no flag is
     left up, and then every context is idle, has its stop requested and its eventfd written.
     */
    method StopCallback(i: nat)
      requires Valid() && i < |ctxs| && ctxs[i].Idle()
      modifies this`stopToken, this`stopFlag
      modifies ctxs`stopRequested, (set c | c in ctxs :: c.engine)`fd, (set c | c in ctxs :: c.engine)`tasks,
               (set c | c in ctxs :: c.engine)`ones
      ensures Valid() && stopFlag == old(stopFlag)[i := 0]
      ensures forall j | 0 <= j < |ctxs| :: ctxs[j].Idle() <==> old(ctxs[j].Idle())
      ensures stopToken == 0 <==> forall j | 0 <= j < |ctxs| :: stopFlag[j] == 0
      ensures stopToken == 0 ==> AllIdle()
      ensures stopToken == 0 ==>
                forall j | 0 <= j < |ctxs| ::
                  ctxs[j].stopRequested && ctxs[j].engine.ones == old(ctxs[j].engine.ones) + 1
      ensures stopToken != 0 ==> forall j | 0 <= j < |ctxs| :: unchanged(ctxs[j]) && unchanged(ctxs[j].engine)
    {
      var cnt := stopFlag[i];
      assert ContextOk(i);
      CountUpdate(stopFlag, i, 0, Busy());
      stopFlag := stopFlag[i := 0];
      var before := stopToken;
      stopToken := stopToken - cnt;
      forall j | 0 <= j < |ctxs| ensures ContextOk(j) { assert old(ContextOk(j)); }
      CountPositive(stopFlag, Busy());
      NoFlagUp();
      if before == cnt {
        Stop();
      }
    }

    lemma NoFlagUp()
      requires Valid()
      ensures stopToken == 0 <==> forall j | 0 <= j < |ctxs| :: stopFlag[j] == 0
      ensures stopToken == 0 ==> AllIdle()
    {
      CountPositive(stopFlag, Busy());
      if stopToken == 0 {
        forall j | 0 <= j < |ctxs| ensures stopFlag[j] == 0 && ctxs[j].Idle() {
          assert ContextOk(j);
          assert !Busy()(stopFlag[j]);
        }
      } else {
        var j :| 0 <= j < |stopFlag| && Busy()(stopFlag[j]);
      }
    }

    /** notify_stop of context i, with everybody else left alone. */
    method Ask(i: nat, c: Context)
      requires Valid() && i < |ctxs| && c == ctxs[i]
      modifies c`stopRequested, c.engine`fd, c.engine`tasks, c.engine`ones
      ensures Valid() && c.stopRequested && c.engine.ones == old(c.engine.ones) + 1
      ensures forall j | 0 <= j < |ctxs| && j != i :: unchanged(ctxs[j]) && unchanged(ctxs[j].engine)
    {
      assert ContextOk(i);
      c.NotifyStop();
      forall j | 0 <= j < |ctxs| ensures ContextOk(j) { assert old(ContextOk(j)); }
    }

    /** stop_impl. */
    method Stop()
      requires Valid()
      modifies ctxs`stopRequested, (set c | c in ctxs :: c.engine)`fd, (set c | c in ctxs :: c.engine)`tasks,
               (set c | c in ctxs :: c.engine)`ones
      ensures Valid()
      ensures forall j | 0 <= j < |ctxs| :: ctxs[j].Idle() <==> old(ctxs[j].Idle())
      ensures forall j | 0 <= j < |ctxs| :: ctxs[j].stopRequested && ctxs[j].engine.ones == old(ctxs[j].engine.ones) + 1
    {
      var i := 0;
      while i < |ctxs|
        invariant i <= |ctxs| && Valid()
        invariant forall j | 0 <= j < i :: ctxs[j].stopRequested && ctxs[j].engine.ones == old(ctxs[j].engine.ones) + 1
        invariant forall j | i <= j < |ctxs| :: unchanged(ctxs[j]) && unchanged(ctxs[j].engine)
      {
        Ask(i, ctxs[i]);
        i := i + 1;
      }
    }

    /** One round of worker i: run its tasks, and if it then finds itself idle, call the stop callback. */
    method Work(i: nat, effect: Handle -> Effect) returns (verdict: Verdict, ghost ran: seq<Handle>)
      requires Valid() && i < |ctxs|
      modifies this`stopToken, this`stopFlag, ctxs, set c | c in ctxs :: c.engine
      ensures Valid() && ctxs[i].HasRun(ran, effect)
      ensures forall j | 0 <= j < |ctxs| && j != i :: ctxs[j].KeepsWork()
      ensures verdict.Exit? <==> old(ctxs[i].stopRequested) && ctxs[i].Idle()
      ensures verdict == Poll(true) <==> !old(ctxs[i].stopRequested) && ctxs[i].Idle()
      ensures stopFlag == if verdict == Poll(true) then old(stopFlag)[i := 0] else old(stopFlag)
      ensures forall j | 0 <= j < |ctxs| ::
                ctxs[j].stopRequested <==> old(ctxs[j].stopRequested) || (verdict == Poll(true) && stopToken == 0)
      ensures verdict == Poll(true) && stopToken == 0 ==> AllIdle()
    {
      assert ContextOk(i);
      verdict, ran := ctxs[i].Round(effect);
      forall j | 0 <= j < |ctxs| ensures ContextOk(j) { assert old(ContextOk(j)); }
      if verdict == Poll(true) {
        StopCallback(i);
      }
    }
  }
}
