// The scheduler as the source runs it, for Scheduler(1, true): no pool, the caller's thread works the queue off inside
// stop(). Proved to terminate and to produce exactly the round robin schedule.
module OneThread {
  import opened Options
  import opened FiberStates
  import opened RoundRobin

  type FiberId = nat

  // The part of a Fiber object the scheduler works with. m_func and the saved context together are what is left of the
  // task: its whole program while the fiber is INIT, the rest of it while it is suspended.
  datatype Fiber = Fiber(state: FState, func: Option<Task>)

  type Heap = map<FiberId, Fiber>

  // FiberAndThread
  datatype Entry = Entry(fiber: Option<FiberId>, func: Option<Task>, thread: int)

  const NOTHING := Entry(None, None, -1)

  predicate Runnable(f: Fiber) {
    (f.state == INIT || Yielded(f.state)) && f.func.Some?
  }

  // The tasks an entry, a queue still carries; a finished fiber carries none.
  function EntryTasks(e: Entry, h: Heap): seq<Task> {
    if e.fiber.Some? then
      if e.fiber.value in h && !Finished(h[e.fiber.value].state) && h[e.fiber.value].func.Some? then
        [h[e.fiber.value].func.value]
      else
        []
    else if e.func.Some? then
      [e.func.value]
    else
      []
  }

  function Tasks(q: seq<Entry>, h: Heap): seq<Task> {
    if q == [] then [] else EntryTasks(q[0], h) + Tasks(q[1..], h)
  }

  predicate Queued(q: seq<Entry>, f: FiberId) {
    exists i :: 0 <= i < |q| && q[i].fiber == Some(f)
  }

  ghost predicate Distinct(q: seq<Entry>) {
    forall i, j :: 0 <= i < j < |q| && q[i].fiber.Some? ==> q[i].fiber != q[j].fiber
  }

  // Every thread named in the program, or in what it spawns, is -1 or root.
  predicate PinsOk(p: Prog, root: int)
    decreases p
  {
    SpawnPinsOk(p.spawns, root) && (p.Yield? ==> PinsOk(p.rest, root))
  }

  predicate SpawnPinsOk(sp: seq<Spawn>, root: int)
    decreases sp
  {
    sp == [] || (OneSpawnPinsOk(sp[0], root) && SpawnPinsOk(sp[1..], root))
  }

  predicate OneSpawnPinsOk(s: Spawn, root: int)
    decreases s
  {
    (s.thread == -1 || s.thread == root) && PinsOk(s.prog, root)
  }

  predicate EntryOk(e: Entry, h: Heap, root: int) {
    && e.fiber.Some? != e.func.Some?
    && (e.fiber.Some? ==> e.fiber.value in h && (Runnable(h[e.fiber.value]) || Finished(h[e.fiber.value].state)))
    && (e.thread == -1 || e.thread == root)
    && forall t :: t in EntryTasks(e, h) ==> PinsOk(t.body, root)
  }

  lemma {:induction false} TasksAppend(q: seq<Entry>, e: Entry, h: Heap)
    ensures Tasks(q + [e], h) == Tasks(q, h) + EntryTasks(e, h)
  {
    if q == [] {
      assert [] + [e] == [e] && [e][1..] == [];
    } else {
      assert (q + [e])[1..] == q[1..] + [e];
      TasksAppend(q[1..], e, h);
    }
  }

  // A change of fibers that are not queued changes no task.
  lemma {:induction false} TasksKept(q: seq<Entry>, h: Heap, h': Heap)
    requires forall i :: 0 <= i < |q| && q[i].fiber.Some? ==>
      q[i].fiber.value in h && q[i].fiber.value in h' && h[q[i].fiber.value] == h'[q[i].fiber.value]
    ensures Tasks(q, h') == Tasks(q, h)
  {
    if q != [] {
      TasksKept(q[1..], h, h');
    }
  }

  lemma {:induction false} AllSpawnPinsOk(sp: seq<Spawn>, root: int)
    requires SpawnPinsOk(sp, root)
    ensures forall i :: 0 <= i < |sp| ==> OneSpawnPinsOk(sp[i], root)
  {
    if sp != [] {
      AllSpawnPinsOk(sp[1..], root);
    }
  }

  lemma SpawnedSnoc(spawns: seq<Spawn>, i: nat)
    requires i < |spawns|
    ensures Spawned(spawns[..i + 1]) == Spawned(spawns[..i]) + [Task(spawns[i].tag, spawns[i].prog)]
  {
  }

  class Scheduler {
    const rootThread: int
    var heap: Heap              // the Fiber objects
    var nextId: FiberId
    var fibers: seq<Entry>      // m_fibers
    var active: int             // m_activeThreadCount
    var idling: int             // m_idleThreadCount
    var stopping: bool          // m_stopping
    var autoStop: bool          // m_autoStop
    var root: FState            // state of m_rootFiber
    var trace: seq<Event>       // one event for each turn a task has had

    ghost predicate Valid()
      reads this
    {
      && Distinct(fibers)
      && (forall i :: 0 <= i < |fibers| ==> EntryOk(fibers[i], heap, rootThread))
      && (forall f :: f in heap ==> f < nextId)
    }

    constructor (thread: int)
      requires thread != -1
      ensures Valid() && rootThread == thread && fibers == [] && active == 0 && idling == 0
      ensures stopping && !autoStop && root == INIT && trace == []
    {
      rootThread := thread;
      heap, nextId := map[], 0;
      fibers, active, idling, stopping, autoStop, root, trace := [], 0, 0, true, false, INIT, [];
    }

    // There is no pool to create; start() only clears the flag.
    method Start()
      modifies this`stopping
      ensures !stopping
    {
      stopping := false;
    }

    // schedule(): a null fiber or callable is not queued. The result says whether tickle() is due.
    method Schedule(e: Entry) returns (needTickle: bool)
      modifies this`fibers
      ensures needTickle == (old(fibers) == [])
      ensures fibers == if e.fiber.Some? || e.func.Some? then old(fibers) + [e] else old(fibers)
    {
      needTickle := fibers == [];
      if e.fiber.Some? || e.func.Some? {
        fibers := fibers + [e];
      }
    }

    // The batch form: all fibers that are not null, unpinned, in order.
    method ScheduleAll(batch: seq<Option<FiberId>>) returns (needTickle: bool)
      modifies this`fibers
      ensures needTickle == (old(fibers) == [] && batch != [])
      ensures fibers == old(fibers) + Unpinned(batch)
    {
      needTickle := false;
      var i := 0;
      while i < |batch|
        invariant 0 <= i <= |batch|
        invariant fibers == old(fibers) + Unpinned(batch[..i])
        invariant needTickle == (old(fibers) == [] && i > 0)
      {
        hide Unpinned;
        var first := Schedule(Entry(batch[i], None, -1));
        UnpinnedSnoc(batch, i);
        needTickle := first || needTickle;
        i := i + 1;
      }
      assert batch[..i] == batch;
    }

    // new Fiber(f)
    method NewFiber(f: Option<Task>) returns (id: FiberId)
      requires forall g :: g in heap ==> g < nextId
      modifies this`heap, this`nextId
      ensures id !in old(heap) && heap == old(heap)[id := Fiber(INIT, f)]
      ensures forall g :: g in heap ==> g < nextId
    {
      id := nextId;
      nextId := nextId + 1;
      heap := heap[id := Fiber(INIT, f)];
    }

    // Fiber::reset
    method Reset(id: FiberId, f: Option<Task>)
      requires id in heap && Disposable(heap[id].state)
      modifies this`heap
      ensures heap == old(heap)[id := Fiber(INIT, f)]
    {
      heap := heap[id := Fiber(INIT, f)];
    }

    // stopping()
    predicate IsStopping()
      reads this
    {
      autoStop && stopping && fibers == [] && active == 0
    }

    predicate Elsewhere(e: Entry) {
      e.thread != -1 && e.thread != rootThread
    }

    // The locked part of the loop: find the first entry this thread may take, erase it, count it as active.
    method Scan() returns (ft: Entry, tickleMe: bool, isActive: bool, ghost k: nat)
      modifies this`fibers, this`active
      ensures k <= |old(fibers)|
      ensures forall i :: 0 <= i < k ==> Skipped(old(fibers)[i], heap, rootThread)
      ensures isActive == (k < |old(fibers)|)
      ensures isActive ==> !Skipped(ft, heap, rootThread) && ft == old(fibers)[k]
      ensures isActive ==> fibers == old(fibers)[..k] + old(fibers)[k + 1..] && active == old(active) + 1
      ensures !isActive ==> ft == NOTHING && fibers == old(fibers) && active == old(active)
      ensures tickleMe == ((exists i :: 0 <= i < k && Elsewhere(old(fibers)[i])) || k + 1 < |old(fibers)|)
    {
      ft, tickleMe, isActive := NOTHING, false, false;
      var it := 0;
      while it < |fibers|
        invariant 0 <= it <= |fibers| && fibers == old(fibers) && active == old(active)
        invariant ft == NOTHING && !isActive
        invariant forall i :: 0 <= i < it ==> Skipped(fibers[i], heap, rootThread)
        invariant tickleMe == exists i :: 0 <= i < it && Elsewhere(fibers[i])
      {
        if Elsewhere(fibers[it]) {
          it := it + 1;
          tickleMe := true;
          continue;
        }
        if Executing(fibers[it], heap) {
          it := it + 1;
          continue;
        }
        ft := fibers[it];
        fibers := fibers[..it] + fibers[it + 1..];
        active := active + 1;
        isActive := true;
        break;
      }
      k := it;
      tickleMe := tickleMe || it != |fibers|;
    }

    // schedule() of something the queue does not hold yet.
    method Enqueue(e: Entry)
      requires Valid() && EntryOk(e, heap, rootThread) && (e.fiber.Some? ==> !Queued(fibers, e.fiber.value))
      modifies this`fibers
      ensures Valid() && fibers == old(fibers) + [e]
      ensures Tasks(fibers, heap) == old(Tasks(fibers, heap)) + EntryTasks(e, heap)
    {
      TasksAppend(fibers, e, heap);
      var _ := Schedule(e);
    }

    // A running task calls schedule() with a new fiber or a callable.
    method SubmitSpawn(s: Spawn)
      requires Valid() && OneSpawnPinsOk(s, rootThread)
      modifies this`fibers, this`heap, this`nextId
      ensures Valid()
      ensures Extends(old(fibers), old(heap), fibers, heap)
      ensures Tasks(fibers, heap) == old(Tasks(fibers, heap)) + [Task(s.tag, s.prog)]
    {
      var t := Task(s.tag, s.prog);
      if s.asFiber {
        var id := NewFiber(Some(t));
        TasksKept(fibers, old(heap), heap);
        Enqueue(Entry(Some(id), None, s.thread));
      } else {
        Enqueue(Entry(None, Some(t), s.thread));
      }
    }
  
    // What a task submits during one turn, in program order.
    method SubmitAll(spawns: seq<Spawn>, ghost caller: FiberId)
      requires Valid() && SpawnPinsOk(spawns, rootThread) && caller in heap && !Queued(fibers, caller)
      modifies this`fibers, this`heap, this`nextId
      ensures Valid() && !Queued(fibers, caller) && old(fibers) <= fibers
      ensures forall g :: g in old(heap) ==> g in heap && heap[g] == old(heap[g])
      ensures forall i :: |old(fibers)| <= i < |fibers| && fibers[i].fiber.Some? ==> fibers[i].fiber.value !in old(heap)
      ensures Tasks(fibers, heap) == old(Tasks(fibers, heap)) + Spawned(spawns)
    {
      AllSpawnPinsOk(spawns, rootThread);
      hide PinsOk;
      hide Tasks;
      hide EntryTasks;
      hide EntryOk;
      var i := 0;
      while i < |spawns|
        invariant 0 <= i <= |spawns|
        invariant Valid() && Extends(old(fibers), old(heap), fibers, heap)
        invariant Tasks(fibers, heap) == old(Tasks(fibers, heap)) + Spawned(spawns[..i])
      {
        hide Extends;
        hide Distinct;
        ghost var q, h := fibers, heap;
        SubmitSpawn(spawns[i]);
        ExtendsOn(old(fibers), old(heap), q, h, fibers, heap);
        SpawnedSnoc(spawns, i);
        i := i + 1;
      }
      assert spawns[..i] == spawns;
    }

    // swapIn: the task has one turn, in which it submits what it spawns, and switches out again.
    method SwapIn(f: FiberId)
      requires Valid() && f in heap && Runnable(heap[f]) && !Queued(fibers, f)
      requires PinsOk(heap[f].func.value.body, rootThread)
      modifies this`fibers, this`heap, this`nextId, this`trace
      ensures Valid() && !Queued(fibers, f) && f in heap && old(fibers) <= fibers
      ensures forall g :: g in old(heap) && g != f ==> g in heap && heap[g] == old(heap[g])
      ensures forall i :: |old(fibers)| <= i < |fibers| && fibers[i].fiber.Some? ==> fibers[i].fiber.value !in old(heap)
      ensures Tasks(fibers, heap) == old(Tasks(fibers, heap)) + Spawned(old(heap[f].func.value.body.spawns))
      ensures trace == old(trace) + [Turn(old(heap[f].func.value))]
      ensures heap[f] == SwitchedOut(old(heap[f].func.value))
      ensures heap[f].state == Outcome(old(heap[f].func.value.body))
      ensures Bound(heap[f], EndsThrowing(old(heap[f].func.value.body)))
    {
      hide Tasks;
      var t := heap[f].func.value;
      heap := heap[f := Fiber(EXEC, Some(t))];
      TasksKept(fibers, old(heap), heap);
      SubmitAll(t.body.spawns, f);
      ghost var h := heap;
      match t.body {
        case Yield(_, hold, rest) =>
          heap := heap[f := Fiber(if hold then HOLD else READY, Some(Task(t.tag, rest)))];
        case Done(_, throws) =>
          heap := heap[f := if throws then Fiber(EXCEPT, Some(t)) else Fiber(TERM, None)];
      }
      TasksKept(fibers, h, heap);
      trace := trace + [Turn(t)];
    }

    // The branch of run() for a fiber: one turn, then back to the end of the queue unless it has finished.
    method RunFiber(f: FiberId)
      requires Valid() && f in heap && Runnable(heap[f]) && !Queued(fibers, f)
      requires PinsOk(heap[f].func.value.body, rootThread)
      modifies this`fibers, this`heap, this`nextId, this`trace, this`active
      ensures Valid() && active == old(active) - 1 && old(fibers) <= fibers
      ensures forall g :: g in old(heap) && g != f ==> g in heap && heap[g] == old(heap[g])
      ensures f in heap && (Queued(fibers, f) || Finished(heap[f].state))
      ensures Bound(heap[f], EndsThrowing(old(heap[f].func.value.body)))
      ensures old(heap[f].func.value.body.Yield?) ==>
        fibers != [] && fibers[|fibers| - 1] == Entry(Some(f), None, -1)
      ensures Tasks(fibers, heap) == Later(old(Tasks(fibers, heap)), old(heap[f].func.value))
      ensures trace == old(trace) + [Turn(old(heap[f].func.value))]
    {
      hide PinsOk;
      hide Tasks;
      hide SwitchedOut;
      ghost var t := heap[f].func.value;
      SwapIn(f);
      active := active - 1;
      SwitchedOutOk(t, f, heap, rootThread);
      Park(f);
      if Yielded(heap[f].state) {
        Enqueue(Entry(Some(f), None, -1));
        assert fibers[|fibers| - 1].fiber == Some(f);
      } else {
        assert Rest(t) == [];
      }
    }

    // The last branch after a switch: a fiber that is neither to be queued again nor finished is put on HOLD. A task
    // that leaves by yielding, returning or throwing never gets there.
    method Park(f: FiberId)
      requires f in heap
      modifies this`heap
      ensures heap == old(heap)[f := Parked(old(heap)[f])]
      ensures heap[f].state != EXEC
      ensures old(heap)[f].state != EXEC && old(heap)[f].state != INIT ==> heap == old(heap)
    {
      if !Yielded(heap[f].state) && !Finished(heap[f].state) {
        heap := heap[f := heap[f].(state := HOLD)];
      }
    }

    // func_fiber is reset for the callable, or created for it.
    method Adopt(t: Task, spare: Option<FiberId>) returns (f: FiberId)
      requires Valid() && SpareOk(spare)
      modifies this`heap, this`nextId
      ensures Valid() && heap == old(heap)[f := Fiber(INIT, Some(t))] && !Queued(fibers, f)
      ensures if spare.Some? then f == spare.value else f !in old(heap)
      ensures Tasks(fibers, heap) == old(Tasks(fibers, heap))
    {
      if spare.Some? {
        f := spare.value;
        Reset(f, Some(t));
      } else {
        f := NewFiber(Some(t));
      }
      TasksKept(fibers, old(heap), heap);
    }

    // The branch of run() for a callable, which func_fiber executes; `next` is func_fiber for the next callable.
    method RunFunc(t: Task, spare: Option<FiberId>) returns (next: Option<FiberId>)
      requires Valid() && PinsOk(t.body, rootThread) && SpareOk(spare)
      modifies this`fibers, this`heap, this`nextId, this`trace, this`active
      ensures Valid() && active == old(active) - 1 && old(fibers) <= fibers && SpareOk(next)
      ensures next.Some? ==> next == spare || next.value !in old(heap)
      ensures t.body.Done? ==> next.Some? && (spare.Some? ==> next == spare)
      ensures t.body.Yield? ==> next == None && fibers != [] && RequeuedAs(fibers[|fibers| - 1], spare)
      ensures forall g :: g in old(heap) ==> g in heap && (spare == Some(g) || heap[g] == old(heap[g]))
      ensures Tasks(fibers, heap) == Later(old(Tasks(fibers, heap)), t)
      ensures trace == old(trace) + [Turn(t)]
    {
      hide PinsOk;
      hide Tasks;
      hide SwitchedOut;
      var f := Adopt(t, spare);
      SwapIn(f);
      active := active - 1;
      next := Settle(f, t);
    }

    // What run() does with func_fiber after its turn: queue it, or reset it for the next callable.
    method Settle(f: FiberId, ghost t: Task) returns (next: Option<FiberId>)
      requires Valid() && f in heap && !Queued(fibers, f)
      requires heap[f] == SwitchedOut(t) && PinsOk(t.body, rootThread)
      modifies this`fibers, this`heap
      ensures Valid() && old(fibers) <= fibers && SpareOk(next) && next == (if t.body.Done? then Some(f) else None)
      ensures t.body.Yield? ==> fibers == old(fibers) + [Entry(Some(f), None, -1)]
      ensures forall g :: g in old(heap) ==> g in heap && (g == f || heap[g] == old(heap[g]))
      ensures Tasks(fibers, heap) == old(Tasks(fibers, heap)) + Rest(t)
    {
      SwitchedOutOk(t, f, heap, rootThread);
      Park(f);
      next := None;
      if Yielded(heap[f].state) {
        Enqueue(Entry(Some(f), None, -1));
      } else if Finished(heap[f].state) {
        Reset(f, None);
        TasksKept(fibers, old(heap), heap);
        next := Some(f);
      }
    }

    // One round of idle().
    method IdleTurn() returns (idle: FState)
      ensures idle == if autoStop && stopping && fibers == [] && active == 0 then TERM else HOLD
    {
      idle := if IsStopping() then TERM else HOLD;
    }

    // In a valid queue every entry may be taken here, so the scan takes the first.
    method Pop() returns (ft: Entry, isActive: bool)
      requires Valid()
      modifies this`fibers, this`active
      ensures Valid() && isActive == (old(fibers) != [])
      ensures !isActive ==> ft == NOTHING && fibers == [] && active == old(active)
      ensures isActive ==> fibers == old(fibers)[1..] && active == old(active) + 1
      ensures isActive ==> ft == old(fibers)[0] && EntryOk(ft, heap, rootThread)
      ensures isActive ==> old(Tasks(fibers, heap)) == EntryTasks(ft, heap) + Tasks(fibers, heap)
      ensures isActive ==> forall f: FiberId :: Queued(old(fibers), f) ==> ft.fiber == Some(f) || Queued(fibers, f)
      ensures isActive && ft.fiber.Some? ==> !Queued(fibers, ft.fiber.value)
    {
      ghost var q := fibers;
      var entry, tickleMe, found, k := Scan();
      ft, isActive := entry, found;
      if q != [] {
        NeverSkipped(q[0], heap, rootThread);
        FirstTaken(q, rootThread, heap);
        forall f: FiberId | Queued(q, f) ensures q[0].fiber == Some(f) || Queued(q[1..], f) {
          StillQueued(q, f);
        }
      }
    }

    // What one round of the loop does before it turns to the idle fiber: take an entry, if any, and deal with it.
    method TakeOne(spare: Option<FiberId>) returns (next: Option<FiberId>, took: bool)
      requires Valid() && SpareOk(spare) && active == 0
      modifies this`fibers, this`heap, this`nextId, this`trace, this`active
      ensures Valid() && SpareOk(next) && active == 0 && took == (old(fibers) != [])
      ensures !took ==> fibers == old(fibers) && heap == old(heap) && trace == old(trace)
      ensures next.Some? ==> next == spare || next.value !in old(heap)
      ensures forall f :: f in old(heap) ==>
        f in heap && (spare == Some(f) || Queued(old(fibers), f) || heap[f] == old(heap[f]))
      ensures forall f: FiberId :: Queued(old(fibers), f) ==>
        f in heap && (Queued(fibers, f) || spare == Some(f) || Finished(heap[f].state))
      ensures forall f: FiberId, throws: bool ::
        Queued(old(fibers), f) && spare != Some(f) && old(Bound(heap[f], throws)) ==>
        f in heap && Bound(heap[f], throws)
      ensures forall f :: f in old(heap) && old(Finished(heap[f].state)) ==> f in heap && heap[f] == old(heap[f])
      ensures took ==>
        (Tasks(fibers, heap) == old(Tasks(fibers, heap)) && |fibers| < |old(fibers)| && trace == old(trace))
        || OneTurn(old(Tasks(fibers, heap)), old(trace), Tasks(fibers, heap), trace)
    {
      hide Rotate;
      hide Later;
      hide PinsOk;
      hide Tasks;
      var ft;
      ft, took := Pop();
      next := spare;
      ghost var waiting := Tasks(fibers, heap);
      if ft.fiber.Some? && !Finished(heap[ft.fiber.value].state) {
        LaterRotates(waiting, heap[ft.fiber.value].func.value);
        RunFiber(ft.fiber.value);
      } else if ft.func.Some? {
        LaterRotates(waiting, ft.func.value);
        next := RunFunc(ft.func.value, spare);
      } else if took {
        active := active - 1;
        assert EntryTasks(ft, heap) == [] && [] + waiting == waiting;
      }
    }

    // One switch into the idle fiber and back.
    method IdleRound() returns (idle: FState)
      requires Valid()
      modifies this`idling
      ensures idling == old(idling)
      ensures idle == if autoStop && stopping && fibers == [] && active == 0 then TERM else HOLD
    {
      idling := idling + 1;
      idle := IdleTurn();
      idling := idling - 1;
      if !Finished(idle) {
        idle := HOLD;
      }
    }

    // run(), on the caller's thread, once stop() has set its flags. It ends with an empty queue and both counters at
    // zero, every queued fiber has finished, and the turns taken are exactly those of the round robin machine.
    method Run()
      requires Valid() && autoStop && stopping && active == 0 && idling == 0
      modifies this`fibers, this`heap, this`nextId, this`trace, this`active, this`idling
      ensures Valid() && fibers == [] && active == 0 && idling == 0
      ensures trace == old(trace) + Trace(old(Tasks(fibers, heap)))
      ensures forall f: FiberId :: Queued(old(fibers), f) ==> f in heap && Finished(heap[f].state)
      ensures forall f: FiberId, throws: bool :: Queued(old(fibers), f) && old(Bound(heap[f], throws)) ==>
        f in heap && Bound(heap[f], throws)
      ensures forall f :: f in old(heap) && old(Finished(heap[f].state)) ==> f in heap && heap[f] == old(heap[f])
    {
      hide Tasks;
      hide Trace;
      hide AllTurns;
      var idle := INIT;
      var funcFiber: Option<FiberId> := None;
      while true
        invariant Valid() && active == 0 && idling == 0 && SpareOk(funcFiber)
        invariant idle == INIT || idle == HOLD || idle == TERM
        invariant idle == TERM ==> fibers == []
        invariant forall f: FiberId :: Queued(old(fibers), f) ==>
          funcFiber != Some(f) && f in heap && (Queued(fibers, f) || Finished(heap[f].state))
        invariant forall f: FiberId, throws: bool :: Queued(old(fibers), f) && old(Bound(heap[f], throws)) ==>
          f in heap && Bound(heap[f], throws)
        invariant forall f :: f in old(heap) && old(Finished(heap[f].state)) ==>
          funcFiber != Some(f) && f in heap && heap[f] == old(heap[f])
        invariant trace + Trace(Tasks(fibers, heap)) == old(trace) + Trace(old(Tasks(fibers, heap)))
        decreases AllTurns(Tasks(fibers, heap)), |fibers|, if idle == TERM then 0 else 1
      {
        ghost var waiting, events := Tasks(fibers, heap), trace;
        var next, took := TakeOne(funcFiber);
        funcFiber := next;
        if OneTurn(waiting, events, Tasks(fibers, heap), trace) {
          OneTurnTraced(waiting, events, Tasks(fibers, heap), trace);
        }
        if !took {
          if idle == TERM {
            NothingLeft(heap);
            break;
          }
          idle := IdleRound();
        }
      }
    }

    // stop(), for a scheduler that has not been stopped before. It returns, and then nothing is left: every fiber that
    // was queued has finished, every queued task and everything it spawned has had all its turns, in round robin order.
    method Stop()
      requires Valid() && root == INIT && active == 0 && idling == 0
      modifies this
      ensures Valid() && fibers == [] && active == 0 && idling == 0 && stopping && autoStop
      ensures trace == old(trace) + Trace(old(Tasks(fibers, heap)))
      ensures forall f: FiberId :: Queued(old(fibers), f) ==> f in heap && Finished(heap[f].state)
      ensures forall f: FiberId :: Queued(old(fibers), f) && old(Runnable(heap[f])) ==>
        && (heap[f].state == EXCEPT <==> EndsThrowing(old(heap[f].func.value.body)))
        && (heap[f].state == EXCEPT || heap[f] == Fiber(TERM, None))
      ensures forall f: FiberId :: Queued(old(fibers), f) && old(Finished(heap[f].state)) ==> heap[f] == old(heap[f])
      ensures root == if old(fibers) == [] then INIT else TERM
    {
      autoStop := true;
      if root == TERM || root == INIT {
        stopping := true;
        if IsStopping() {
          return;
        }
      }
      stopping := true;
      if !IsStopping() {
        root := EXEC;
        assert forall f: FiberId :: Queued(fibers, f) && Runnable(heap[f]) ==>
          Bound(heap[f], EndsThrowing(heap[f].func.value.body));
        Run();
        root := TERM;
      }
    }

    // func_fiber at the loop head.
    predicate SpareOk(spare: Option<FiberId>)
      reads this
    {
      spare.Some? ==> spare.value in heap && heap[spare.value] == Fiber(INIT, None) && !Queued(fibers, spare.value)
    }
  }

  predicate Executing(e: Entry, h: Heap) {
    e.fiber.Some? && e.fiber.value in h && h[e.fiber.value].state == EXEC
  }

  // What the scan passes over.
  predicate Skipped(e: Entry, h: Heap, root: int) {
    (e.thread != -1 && e.thread != root) || Executing(e, h)
  }

  // No entry of a valid queue is skipped by the scan.
  lemma NeverSkipped(e: Entry, h: Heap, root: int)
    requires EntryOk(e, h, root)
    ensures !Skipped(e, h, root)
  {
  }

  // What remains of a valid queue without its first entry is valid.
  lemma FirstTaken(q: seq<Entry>, root: int, h: Heap)
    requires q != [] && Distinct(q) && forall i :: 0 <= i < |q| ==> EntryOk(q[i], h, root)
    ensures Distinct(q[1..])
    ensures forall i :: 0 <= i < |q[1..]| ==> EntryOk(q[1..][i], h, root)
    ensures q[0].fiber.Some? ==> !Queued(q[1..], q[0].fiber.value)
    ensures Tasks(q, h) == EntryTasks(q[0], h) + Tasks(q[1..], h)
  {
  }

  lemma StillQueued(q: seq<Entry>, f: FiberId)
    requires q != [] && Queued(q, f)
    ensures q[0].fiber == Some(f) || Queued(q[1..], f)
  {
    var i :| 0 <= i < |q| && q[i].fiber == Some(f);
    assert i > 0 ==> q[1..][i - 1] == q[i];
  }

  // Entries have come behind the queue, all fibers among them new; the fibers there were are as before.
  ghost predicate Extends(q: seq<Entry>, h: Heap, q': seq<Entry>, h': Heap) {
    && q <= q' && (forall g :: g in h ==> g in h' && h'[g] == h[g])
    && forall i :: |q| <= i < |q'| && q'[i].fiber.Some? ==> q'[i].fiber.value !in h
  }

  lemma ExtendsOn(q: seq<Entry>, h: Heap, q': seq<Entry>, h': Heap, q'': seq<Entry>, h'': Heap)
    requires Extends(q, h, q', h') && Extends(q', h', q'', h'')
    ensures Extends(q, h, q'', h'')
  {
  }

  // The first task has had a turn.
  ghost predicate OneTurn(q: seq<Task>, trace: seq<Event>, q': seq<Task>, trace': seq<Event>) {
    q != [] && q' == Rotate(q) && trace' == trace + [Turn(q[0])]
  }

  lemma OneTurnTraced(q: seq<Task>, trace: seq<Event>, q': seq<Task>, trace': seq<Event>)
    requires OneTurn(q, trace, q', trace')
    ensures trace' + Trace(q') == trace + Trace(q) && AllTurns(q') < AllTurns(q)
  {
    assert Trace(q) == [Turn(q[0])] + Trace(q');
    Regrouped(trace, Turn(q[0]), Trace(q'));
  }

  lemma NothingLeft(h: Heap)
    ensures Trace(Tasks([], h)) == []
  {
  }

  lemma Regrouped(a: seq<Event>, e: Event, b: seq<Event>)
    ensures a + [e] + b == a + ([e] + b)
  {
  }

  // A fiber that has switched out carries the rest of its task.
  lemma SwitchedOutOk(t: Task, f: FiberId, h: Heap, root: int)
    requires f in h && h[f] == SwitchedOut(t) && PinsOk(t.body, root)
    ensures Finished(h[f].state) || EntryOk(Entry(Some(f), None, -1), h, root)
    ensures EntryTasks(Entry(Some(f), None, -1), h) == Rest(t)
    ensures if Finished(h[f].state) then Rest(t) == [] else Yielded(h[f].state)
  {
  }

  function Parked(fiber: Fiber): Fiber {
    if Yielded(fiber.state) || Finished(fiber.state) then fiber else fiber.(state := HOLD)
  }

  // A fiber after a turn of task t.
  function SwitchedOut(t: Task): Fiber {
    match t.body
    case Yield(_, hold, rest) => Fiber(if hold then HOLD else READY, Some(Task(t.tag, rest)))
    case Done(_, throws) => if throws then Fiber(EXCEPT, Some(t)) else Fiber(TERM, None)
  }

  // The fiber has ended, or will end, as a task that throws at its end or does not.
  predicate Bound(fiber: Fiber, throws: bool) {
    if Finished(fiber.state) then
      fiber.state == (if throws then EXCEPT else TERM) && fiber.func.Some? == throws
    else
      fiber.func.Some? && EndsThrowing(fiber.func.value.body) == throws
  }

  // The tasks queued behind `waiting` when t has had its turn.
  function Later(waiting: seq<Task>, t: Task): seq<Task> {
    waiting + Spawned(t.body.spawns) + Rest(t)
  }

  lemma LaterRotates(waiting: seq<Task>, t: Task)
    ensures Later(waiting, t) == Rotate([t] + waiting)
  {
    assert ([t] + waiting)[1..] == waiting;
  }

  // The fiber of a callable that yielded has been queued for any thread; it was func_fiber if there was one.
  predicate RequeuedAs(e: Entry, spare: Option<FiberId>) {
    e.fiber.Some? && e.func.None? && e.thread == -1 && (spare.Some? ==> e.fiber == spare)
  }

  function Unpinned(batch: seq<Option<FiberId>>): seq<Entry> {
    if batch == [] then
      []
    else
      Unpinned(batch[..|batch| - 1]) +
      if batch[|batch| - 1].None? then [] else [Entry(batch[|batch| - 1], None, -1)]
  }

  lemma UnpinnedSnoc(batch: seq<Option<FiberId>>, i: nat)
    requires i < |batch|
    ensures Unpinned(batch[..i + 1]) ==
            Unpinned(batch[..i]) + if batch[i].None? then [] else [Entry(batch[i], None, -1)]
  {
    assert batch[..i + 1][..i] == batch[..i];
  }

  // A batch is queued fiber by fiber, in order, null pointers left out, for any thread.
  lemma {:induction false} BatchInOrder(a: seq<Option<FiberId>>, b: seq<Option<FiberId>>, f: FiberId)
    ensures Unpinned(a + b) == Unpinned(a) + Unpinned(b)
    ensures Unpinned([None]) == [] && Unpinned([Some(f)]) == [Entry(Some(f), None, -1)]
  {
    if b == [] {
      assert a + b == a;
    } else {
      assert (a + b)[..|a + b| - 1] == a + b[..|b| - 1];
      BatchInOrder(a, b[..|b| - 1], f);
    }
    var none: seq<Option<FiberId>>, one := [None], [Some(f)];
    assert none[..0] == [] && one[..0] == [];
    assert Unpinned(none[..0]) == [] && Unpinned(one[..0]) == [];
  }
}
