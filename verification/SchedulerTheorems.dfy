// What the invariant says about every reachable state, in the scheduler's own terms.
module SchedulerTheorems {
  import opened Options
  import opened FiberStates
  import opened SchedulerModel
  import opened SchedulerInvariant
  import opened SchedulerPreservation

  // Worker w is executing the task of fiber f.
  predicate Executes(s: State, w: nat, f: FiberId) {
    w < |s.workers| && s.workers[w].pc.On? && s.workers[w].pc.phase == Running && s.workers[w].pc.f == f
  }

  // Worker w deals with f between taking it and handing it back.
  predicate InHand(s: State, w: nat, f: FiberId) {
    w < |s.workers| && HandRefs(s.workers[w], f) > 0
  }

  predicate InQueue(s: State, k: nat, f: FiberId) {
    k < |s.g.queue| && s.g.queue[k].fiber == Some(f)
  }

  lemma {:induction false} TwiceInQueue(q: seq<Entry>, i: nat, k: nat, f: FiberId)
    requires i < k < |q| && q[i].fiber == q[k].fiber == Some(f)
    ensures Refs(q, f) >= 2
  {
    if k < |q| - 1 {
      TwiceInQueue(q[..|q| - 1], i, k, f);
    } else {
      RefsOfMember(q[..k], i, f);
    }
  }

  // Single ownership. A fiber is queued at most once, in the hands of at most one worker, never both, and the
  // fiber a worker executes is EXEC, in that worker's hands only, and neither queued nor executed elsewhere.
  lemma SingleOwner(s: State, f: FiberId)
    requires Reachable(s)
    ensures forall i, k :: InQueue(s, i, f) && InQueue(s, k, f) ==> i == k
    ensures forall v, w :: InHand(s, v, f) && InHand(s, w, f) ==> v == w
    ensures forall k, w :: !(InQueue(s, k, f) && InHand(s, w, f))
    ensures forall w :: Executes(s, w, f) ==> InHand(s, w, f) && f in s.g.heap && s.g.heap[f].state == EXEC
    ensures forall v, w :: Executes(s, v, f) && Executes(s, w, f) ==> v == w
  {
    ReachableGood(s);
    assert Owners(s, f) <= 1;
    forall i, k | InQueue(s, i, f) && InQueue(s, k, f) ensures i == k {
      if i < k {
        TwiceInQueue(s.g.queue, i, k, f);
      } else if k < i {
        TwiceInQueue(s.g.queue, k, i, f);
      }
    }
    forall v, w | InHand(s, v, f) && InHand(s, w, f) ensures v == w {
      if v < w {
        AtLeastTwoHands(s.workers, v, w, f);
      } else if w < v {
        AtLeastTwoHands(s.workers, w, v, f);
      }
    }
    forall k, w | InQueue(s, k, f) && InHand(s, w, f) ensures false {
      RefsOfMember(s.g.queue, k, f);
      AtLeastHand(s.workers, w, f);
    }
    forall w: nat | Executes(s, w, f) ensures InHand(s, w, f) && f in s.g.heap && s.g.heap[f].state == EXEC {
      assert WorkerOk(s.workers[w], s.g.heap);
    }
  }

  // The scan's test for EXEC never fires: a queued fiber is suspended, not begun, or finished.
  lemma QueuedNeverExec(s: State, k: nat, f: FiberId)
    requires Reachable(s) && InQueue(s, k, f)
    ensures f in s.g.heap && s.g.heap[f].state != EXEC
  {
    ReachableGood(s);
    assert s.g.queue[k] in s.g.queue;
  }

  // The assertions in Fiber::reset hold at both of its call sites, a fiber is switched into only from INIT, READY or
  // HOLD and with a callable to run, and a fiber that has switched out is never parked: it is requeued or finished.
  lemma LoopAssertions(s: State, w: nat)
    requires Reachable(s) && w < |s.workers|
    ensures var me := s.workers[w]; var h := s.g.heap;
      && (me.pc.Popped? ==> me.pc.ft.fiber.Some? || me.pc.ft.func.Some?)
      && (me.pc.Popped? && me.funcFiber.Some? ==> me.funcFiber.value in h && h[me.funcFiber.value].state == INIT)
      && (me.pc == Head && me.funcFiber.Some? ==>
           me.funcFiber.value in h && h[me.funcFiber.value] == FiberObject(INIT, None)
           && InHand(s, w, me.funcFiber.value))
      && (me.pc.On? ==> me.pc.f in h)
      && (me.pc.On? && me.pc.phase == Entering ==>
           h[me.pc.f].func.Some? && h[me.pc.f].state in {INIT, READY, HOLD})
      && (me.pc.On? && me.pc.phase == Counted ==> h[me.pc.f].state in {READY, HOLD, TERM, EXCEPT})
      && (me.pc == Exited ==> me.idle == TERM)
  {
    ReachableGood(s);
    assert WorkerOk(s.workers[w], s.g.heap);
    assert s.workers[w].pc == Head && s.workers[w].funcFiber.Some? ==>
        HandRefs(s.workers[w], s.workers[w].funcFiber.value) > 0;
  }

  // When the scheduler drops its last reference to a fiber, ~Fiber's assertion on the state holds.
  lemma ReleasedFibersDisposable(s: State, f: FiberId)
    requires Reachable(s) && f in s.g.heap
    requires forall k :: !InQueue(s, k, f)
    requires forall w :: !InHand(s, w, f)
    ensures s.g.heap[f].state in {INIT, TERM, EXCEPT}
  {
    ReachableGood(s);
    if Refs(s.g.queue, f) > 0 {
      var k := MemberOfRefs(s.g.queue, f);
      assert InQueue(s, k, f);
    }
    if AllHandRefs(s.workers, f) > 0 {
      var w := HolderOf(s.workers, f);
      assert InHand(s, w, f);
    }
  }

  lemma {:induction false} CountsBounded(ws: seq<Worker>)
    ensures BusyCount(ws) + IdleCount(ws) <= |ws|
    ensures (forall i :: 0 <= i < |ws| ==> ws[i].pc == Exited) ==> BusyCount(ws) == IdleCount(ws) == 0
  {
    if ws != [] {
      CountsBounded(ws[..|ws| - 1]);
    }
  }

  lemma {:induction false} CountsPositive(ws: seq<Worker>, i: nat)
    requires i < |ws|
    ensures BusyCount(ws) >= Busy(ws[i]) && IdleCount(ws) >= Idling(ws[i])
  {
    if i < |ws| - 1 {
      CountsPositive(ws[..|ws| - 1], i);
    }
  }

  // m_activeThreadCount is the number of workers between a pop and their decrement, m_idleThreadCount the number inside
  // the idle switch; together they never exceed the number of threads, neither is ever decremented at zero, and both
  // are zero once all workers have left `run`.
  lemma CountersExact(s: State)
    requires Reachable(s)
    ensures s.g.active == BusyCount(s.workers) && s.g.idling == IdleCount(s.workers)
    ensures 0 <= s.g.active && 0 <= s.g.idling && s.g.active + s.g.idling <= |s.workers|
    ensures forall w, a :: Step(s, Does(w, a)).Some? ==>
      0 <= Step(s, Does(w, a)).value.g.active && 0 <= Step(s, Does(w, a)).value.g.idling
    ensures (forall i :: 0 <= i < |s.workers| ==> s.workers[i].pc == Exited) ==> s.g.active == s.g.idling == 0
  {
    ReachableGood(s);
    CountsBounded(s.workers);
    forall w, a | Step(s, Does(w, a)).Some?
      ensures 0 <= Step(s, Does(w, a)).value.g.active && 0 <= Step(s, Does(w, a)).value.g.idling
    {
      DoesKeeps(s, w, a);
    }
  }

  // Conservation: every accepted submission is in exactly one of the queue, the workers' hands and the finished ones.
  // Each callable has been started at most once, and it has been started exactly when it is no longer waiting to begin.
  lemma ExactlyOnce(s: State, j: JobId)
    requires Reachable(s)
    ensures s.g.accepted[j] == Pending(s, false, j) + s.g.finished[j] <= 1
    ensures s.g.starts[j] == s.g.accepted[j] - Pending(s, true, j) <= 1
    ensures s.g.finished[j] <= s.g.starts[j]
  {
    ReachableGood(s);
    assert Pending(s, false, j) + s.g.finished[j] == s.g.accepted[j] <= 1;
    UnstartedArePending(s, j);
  }

  lemma {:induction false} UnstartedWork(q: seq<Entry>, h: Heap, j: JobId)
    ensures Work(q, h, true, j) <= Work(q, h, false, j)
  {
    if q != [] {
      UnstartedWork(q[..|q| - 1], h, j);
    }
  }

  lemma {:induction false} UnstartedHands(ws: seq<Worker>, h: Heap, j: JobId)
    ensures AllHandWork(ws, h, true, j) <= AllHandWork(ws, h, false, j)
  {
    if ws != [] {
      UnstartedHands(ws[..|ws| - 1], h, j);
    }
  }

  lemma UnstartedArePending(s: State, j: JobId)
    ensures Pending(s, true, j) <= Pending(s, false, j)
  {
    UnstartedWork(s.g.queue, s.g.heap, j);
    UnstartedHands(s.workers, s.g.heap, j);
  }

  // -------------------------------------------------------------------------------------------
  // What the steps on the queue do to it.

  predicate Mine(e: Entry, w: nat) {
    e.thread == -1 || e.thread == w
  }

  predicate FirstMine(q: seq<Entry>, w: nat, k: nat) {
    k < |q| && Mine(q[k], w) && forall i :: 0 <= i < k ==> !Mine(q[i], w)
  }

  lemma ScanStops(q: seq<Entry>, h: Heap, w: nat)
    requires forall i :: 0 <= i < |q| ==> (Takeable(q[i], h, w) <==> Mine(q[i], w))
    ensures (forall e :: e in q ==> !Mine(e, w)) ==> FirstTakeable(q, h, w) == |q|
    ensures forall k: nat :: FirstMine(q, w, k) ==> FirstTakeable(q, h, w) == k
  {
    hide FirstTakeable;
    hide Takeable;
    hide Mine;
    assert FirstTakeable(q, h, w) < |q| ==> q[FirstTakeable(q, h, w)] in q;
  }

  // The scan takes the first entry that is unpinned or pinned to its thread; all others stay. If there is none it takes
  // nothing.
  lemma ScanTakesFirst(s: State, w: nat, t: State)
    requires Reachable(s) && w < |s.workers| && Step(s, Does(w, Scan)) == Some(t)
    ensures (forall e :: e in s.g.queue ==> !Mine(e, w)) ==> t.workers[w].pc == NoEntry && t.g == s.g
    ensures forall k: nat :: FirstMine(s.g.queue, w, k) ==>
      && t.workers[w].pc == Popped(s.g.queue[k]) && t.g.queue == s.g.queue[..k] + s.g.queue[k + 1..]
      && t.g.active == s.g.active + 1
  {
    var q, h := s.g.queue, s.g.heap;
    forall i: nat | i < |q| ensures Takeable(q[i], h, w) <==> Mine(q[i], w) {
      if q[i].fiber.Some? {
        QueuedNeverExec(s, i, q[i].fiber.value);
      }
    }
    ScanStops(q, h, w);
    ScanMoves(s, w, t);
    hide *;
  }

  lemma ScanMoves(s: State, w: nat, t: State)
    requires w < |s.workers| && Step(s, Does(w, Scan)) == Some(t)
    ensures var q := s.g.queue; var k := FirstTakeable(q, s.g.heap, w);
      if k == |q| then
        t.workers[w].pc == NoEntry && t.g == s.g
      else
        && t.workers[w].pc == Popped(q[k]) && t.g.queue == q[..k] + q[k + 1..]
        && t.g.active == s.g.active + 1
  {
    hide FirstTakeable;
    hide Takeable;
    hide Live;
  }

  // schedule() puts the fiber or the callable at the end of the queue, with the thread it was given.
  lemma SubmissionQueued(s: State, l: Label, item: Item, thread: int, t: State)
    requires l == Outside(item, thread) || (l.Does? && l.a == Submit(item, thread))
    requires Step(s, l) == Some(t)
    ensures |t.g.queue| == |s.g.queue| + 1 && t.g.queue[..|s.g.queue|] == s.g.queue
    ensures var e := t.g.queue[|s.g.queue|];
      && e.thread == thread && e.func == (if item.Callable? then Some(item.j) else None)
      && e.fiber == (if item.Callable? then None else Some(item.f))
      && (item.NewFiber? ==> item.f in t.g.heap && t.g.heap[item.f] == FiberObject(INIT, Some(item.j)))
      && (item.DeadFiber? ==> item.f in t.g.heap && t.g.heap[item.f].state == if item.threw then EXCEPT else TERM)
    ensures t.g.accepted == s.g.accepted + if item.DeadFiber? then multiset{} else multiset{item.j}
  {
    hide Live;
  }

  // A fiber that has switched out READY or HOLD goes to the end of the queue, for any thread; one that has ended does
  // not.
  lemma RequeuedLast(s: State, w: nat, t: State)
    requires Reachable(s) && w < |s.workers| && s.workers[w].pc.On?
    requires Step(s, Does(w, Decide)) == Some(t) || Step(s, Does(w, Push)) == Some(t)
    ensures var f := s.workers[w].pc.f;
      && f in s.g.heap
      && (s.workers[w].pc.phase == Counted ==>
           && t.g.queue == s.g.queue
           && (t.workers[w].pc.On? <==> s.g.heap[f].state == READY || s.g.heap[f].state == HOLD))
      && (s.workers[w].pc.phase == Requeuing ==> t.g.queue == s.g.queue + [Entry(Some(f), None, -1)])
  {
    ReachableGood(s);
    assert WorkerOk(s.workers[w], s.g.heap);
  }

  // func_fiber executes the callables: it is made for the first one, reset for a later one, kept when its task has
  // ended, emptied, and given up when it has been queued again.
  lemma FuncFiberReused(s: State, w: nat, a: Action, t: State)
    requires Reachable(s) && w < |s.workers| && Step(s, Does(w, a)) == Some(t)
    ensures var me, you := s.workers[w], t.workers[w];
      && (me.pc.Popped? && me.pc.ft.func.Some? ==>
           && you.funcFiber.Some? && you.pc == On(Entering, FuncSlot, you.funcFiber.value)
           && (if me.funcFiber.Some? then you.funcFiber == me.funcFiber else you.funcFiber.value !in s.g.heap)
           && t.g.heap == s.g.heap[you.funcFiber.value := FiberObject(INIT, me.pc.ft.func)])
      && (a == Decide && me.pc.slot == FuncSlot && s.g.heap[me.pc.f].state in {TERM, EXCEPT} ==>
           you.funcFiber == Some(me.pc.f) && t.g.heap == s.g.heap[me.pc.f := FiberObject(INIT, None)])
      && (a == Clear ==> you.funcFiber == if me.pc.slot == FuncSlot then None else me.funcFiber)
      && (a == Break ==> you.funcFiber == None)
  {
    ReachableGood(s);
    assert WorkerOk(s.workers[w], s.g.heap);
    assert Act(s.workers[w], w, s.g, a) == Moved(t.workers[w], t.g);
    hide Step;
    hide WorkersOk;
    hide OwnersOk;
    if s.workers[w].pc.Popped? {
      CallableDispatched(s.workers[w], w, s.g, a, t.workers[w], t.g);
    } else {
      FuncFiberKept(s.workers[w], w, s.g, a, t.workers[w], t.g);
    }
  }

  lemma CallableDispatched(me: Worker, w: nat, g: Shared, a: Action, me': Worker, g': Shared)
    requires WorkerOk(me, g.heap) && me.pc.Popped? && Act(me, w, g, a) == Moved(me', g')
    ensures a.Dispatch?
    ensures me.pc.ft.func.Some? ==>
      && me'.funcFiber.Some? && me'.pc == On(Entering, FuncSlot, me'.funcFiber.value)
      && (if me.funcFiber.Some? then me'.funcFiber == me.funcFiber else me'.funcFiber.value !in g.heap)
      && g'.heap == g.heap[me'.funcFiber.value := FiberObject(INIT, me.pc.ft.func)]
  {
  }

  lemma FuncFiberKept(me: Worker, w: nat, g: Shared, a: Action, me': Worker, g': Shared)
    requires WorkerOk(me, g.heap) && !me.pc.Popped? && Act(me, w, g, a) == Moved(me', g')
    ensures a == Decide && me.pc.slot == FuncSlot && g.heap[me.pc.f].state in {TERM, EXCEPT} ==>
      me'.funcFiber == Some(me.pc.f) && g'.heap == g.heap[me.pc.f := FiberObject(INIT, None)]
    ensures a == Clear ==> me'.funcFiber == if me.pc.slot == FuncSlot then None else me.funcFiber
    ensures a == Break ==> me'.funcFiber == None
  {
  }
}
