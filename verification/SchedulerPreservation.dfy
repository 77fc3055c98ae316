// Every step of every thread keeps the invariant; hence it holds in every reachable state.
module SchedulerPreservation {
  import opened Options
  import opened FiberStates
  import opened SchedulerModel
  import opened SchedulerInvariant

  // What the queue and one worker together own and carry.
  function MineRefs(me: Worker, g: Shared, f: FiberId): nat {
    Refs(g.queue, f) + HandRefs(me, f)
  }

  function MineWork(me: Worker, g: Shared, u: bool, j: JobId): nat {
    Work(g.queue, g.heap, u, j) + HandWork(me, g.heap, u, j)
  }

  // A step from (me, g) to (me', g') changes only fibers that me owns or that are new, and keeps me consistent.
  ghost predicate LocalChange(me: Worker, g: Shared, me': Worker, g': Shared) {
    && g'.stopping == g.stopping && g'.autoStop == g.autoStop
    && (me.pc == Dormant ==> me' == me)
    && (forall f :: f in g.heap ==> f in g'.heap && (g'.heap[f] == g.heap[f] || HandRefs(me, f) > 0))
    && (forall e :: e in g'.queue ==> e in g.queue || EntryOk(e, g'.heap))
    && WorkerOk(me', g'.heap)
  }

  // Nothing gains a second owner, and what is dropped may be destroyed.
  ghost predicate LocalOwners(me: Worker, g: Shared, me': Worker, g': Shared) {
    && (forall f :: MineRefs(me', g', f) <= MineRefs(me, g, f) || (f !in g.heap && MineRefs(me', g', f) <= 1))
    && (forall f :: f in g'.heap && MineRefs(me', g', f) == 0 && (f !in g.heap || MineRefs(me, g, f) > 0) ==>
         Disposable(g'.heap[f].state))
  }

  // No submission is lost or duplicated, and the counters move with the program point.
  ghost predicate LocalBalance(me: Worker, g: Shared, me': Worker, g': Shared) {
    && (forall j :: MineWork(me', g', false, j) + g'.finished[j] + g.accepted[j] ==
                    MineWork(me, g, false, j) + g.finished[j] + g'.accepted[j])
    && (forall j :: MineWork(me', g', true, j) + g'.starts[j] + g.accepted[j] ==
                    MineWork(me, g, true, j) + g.starts[j] + g'.accepted[j])
    && (forall j :: g'.accepted[j] <= 1)
    && g'.active - g.active == Busy(me') - Busy(me)
    && g'.idling - g.idling == Idling(me') - Idling(me)
  }

  ghost predicate Local(me: Worker, g: Shared, me': Worker, g': Shared) {
    LocalChange(me, g, me', g') && LocalOwners(me, g, me', g') && LocalBalance(me, g, me', g')
  }

  // Only a scan takes anything out of the queue; every other action leaves it or appends to it.
  lemma ActPushesOnly(me: Worker, w: nat, g: Shared, a: Action)
    requires Act(me, w, g, a).Moved?
    requires !(a == Scan && me.pc == Head && FirstTakeable(g.queue, g.heap, w) < |g.queue|)
    ensures g.queue <= Act(me, w, g, a).g.queue
  {
  }

  // -------------------------------------------------------------------------------------------
  // From one worker to all of them.

  lemma HandInHeap(w: Worker, h: Heap, f: FiberId)
    requires WorkerOk(w, h) && HandRefs(w, f) > 0
    ensures f in h
  {
  }

  lemma OwnedInHeap(s: State, f: FiberId)
    requires EntriesOk(s.g) && WorkersOk(s) && Owners(s, f) > 0
    ensures f in s.g.heap
  {
    if Refs(s.g.queue, f) > 0 {
      var k := MemberOfRefs(s.g.queue, f);
      assert s.g.queue[k] in s.g.queue;
    } else {
      var i := HolderOf(s.workers, f);
      HandInHeap(s.workers[i], s.g.heap, f);
    }
  }

  // A worker's consistency and work depend on the heap only through the fibers it owns.
  lemma WorkerOkAgrees(w: Worker, h: Heap, h': Heap)
    requires WorkerOk(w, h)
    requires forall f :: f in h ==> f in h'
    requires forall f :: HandRefs(w, f) > 0 ==> f in h && h[f] == h'[f]
    ensures WorkerOk(w, h')
    ensures forall u, j :: HandWork(w, h', u, j) == HandWork(w, h, u, j)
  {
    if Spare(w).fiber.Some? {
      assert HandRefs(w, Spare(w).fiber.value) > 0;
    }
    if Taken(w).fiber.Some? {
      assert HandRefs(w, Taken(w).fiber.value) > 0;
    }
  }

  // The fibers that another worker or the queue owns are not touched.
  lemma Untouched(s: State, w: nat, me': Worker, g': Shared, f: FiberId)
    requires Good(s) && w < |s.workers| && LocalChange(s.workers[w], s.g, me', g')
    requires Refs(s.g.queue, f) > 0 || exists i :: 0 <= i < |s.workers| && i != w && HandRefs(s.workers[i], f) > 0
    ensures f in s.g.heap && f in g'.heap && g'.heap[f] == s.g.heap[f]
  {
    assert Owners(s, f) <= 1;
    AtLeastHand(s.workers, w, f);
    if Refs(s.g.queue, f) == 0 {
      var i :| 0 <= i < |s.workers| && i != w && HandRefs(s.workers[i], f) > 0;
      if i < w {
        AtLeastTwoHands(s.workers, i, w, f);
      } else {
        AtLeastTwoHands(s.workers, w, i, f);
      }
    }
    OwnedInHeap(s, f);
  }

  lemma OtherWorkerOk(s: State, w: nat, me': Worker, g': Shared, i: nat)
    requires Good(s) && w < |s.workers| && LocalChange(s.workers[w], s.g, me', g')
    requires i < |s.workers| && i != w
    ensures WorkerOk(s.workers[i], g'.heap)
    ensures forall u, j :: HandWork(s.workers[i], g'.heap, u, j) == HandWork(s.workers[i], s.g.heap, u, j)
  {
    forall f | HandRefs(s.workers[i], f) > 0 ensures f in s.g.heap && s.g.heap[f] == g'.heap[f] {
      Untouched(s, w, me', g', f);
    }
    WorkerOkAgrees(s.workers[i], s.g.heap, g'.heap);
  }

  lemma QueuedEntryOk(s: State, w: nat, me': Worker, g': Shared, e: Entry)
    requires Good(s) && w < |s.workers| && LocalChange(s.workers[w], s.g, me', g') && e in s.g.queue
    ensures EntryOk(e, g'.heap)
  {
    var m :| 0 <= m < |s.g.queue| && s.g.queue[m] == e;
    if e.fiber.Some? {
      RefsOfMember(s.g.queue, m, e.fiber.value);
      Untouched(s, w, me', g', e.fiber.value);
    }
  }

  lemma OthersOk(s: State, t: State, w: nat, me': Worker)
    requires Good(s) && w < |s.workers| && LocalChange(s.workers[w], s.g, me', t.g) && t.workers == s.workers[w := me']
    ensures EntriesOk(t.g) && WorkersOk(t)
  {
    forall i | 0 <= i < |t.workers| ensures WorkerOk(t.workers[i], t.g.heap) {
      if i != w {
        OtherWorkerOk(s, w, me', t.g, i);
      }
    }
    forall e | e in t.g.queue ensures EntryOk(e, t.g.heap) {
      if e in s.g.queue {
        QueuedEntryOk(s, w, me', t.g, e);
      }
    }
  }

  lemma OwnersKept(s: State, t: State, w: nat, me': Worker)
    requires Good(s) && w < |s.workers| && t.workers == s.workers[w := me']
    requires LocalChange(s.workers[w], s.g, me', t.g) && LocalOwners(s.workers[w], s.g, me', t.g)
    ensures OwnersOk(t)
  {
    var me := s.workers[w];
    forall f
      ensures Owners(t, f) <= 1
      ensures f in t.g.heap && Owners(t, f) == 0 ==> Disposable(t.g.heap[f].state)
    {
      RefsUpdate(s.workers, w, me', f);
      assert Owners(t, f) + MineRefs(me, s.g, f) == Owners(s, f) + MineRefs(me', t.g, f);
      assert Owners(s, f) <= 1;
      AtLeastHand(s.workers, w, f);
      AtLeastHand(t.workers, w, f);
      if f !in s.g.heap && Owners(s, f) > 0 {
        OwnedInHeap(s, f);
      }
    }
  }

  lemma BalanceKept(s: State, t: State, w: nat, me': Worker)
    requires Good(s) && w < |s.workers| && t.workers == s.workers[w := me']
    requires LocalChange(s.workers[w], s.g, me', t.g) && LocalBalance(s.workers[w], s.g, me', t.g)
    ensures CountersOk(t) && Conserved(t)
  {
    hide AllHandWork;
    hide Work;
    hide OwnersOk;
    hide SleepersOk;
    hide HandWork;
    hide LocalChange;
    var me := s.workers[w];
    CountsUpdate(s.workers, w, me');
    forall i | 0 <= i < |s.workers| && i != w
      ensures forall u, j :: HandWork(s.workers[i], t.g.heap, u, j) == HandWork(s.workers[i], s.g.heap, u, j)
    {
      OtherWorkerOk(s, w, me', t.g, i);
    }
    forall j
      ensures Pending(t, false, j) + t.g.finished[j] == t.g.accepted[j] <= 1
      ensures Pending(t, true, j) + t.g.starts[j] == t.g.accepted[j]
    {
      assert Pending(s, false, j) + s.g.finished[j] == s.g.accepted[j];
      assert Pending(s, true, j) + s.g.starts[j] == s.g.accepted[j];
      WorkUpdate(s.workers, w, me', s.g.heap, t.g.heap, false, j);
      WorkUpdate(s.workers, w, me', s.g.heap, t.g.heap, true, j);
      assert MineWork(me', t.g, false, j) + t.g.finished[j] + s.g.accepted[j] ==
             MineWork(me, s.g, false, j) + s.g.finished[j] + t.g.accepted[j];
      assert MineWork(me', t.g, true, j) + t.g.starts[j] + s.g.accepted[j] ==
             MineWork(me, s.g, true, j) + s.g.starts[j] + t.g.accepted[j];
    }
  }

  lemma LocalStep(s: State, t: State, w: nat, me': Worker)
    requires Good(s) && w < |s.workers| && Local(s.workers[w], s.g, me', t.g)
    requires t == s.(g := t.g, workers := s.workers[w := me'], late := t.late,
      stray := t.stray, doomed := t.doomed)
    ensures Good(t)
  {
    OthersOk(s, t, w, me');
    OwnersKept(s, t, w, me');
    BalanceKept(s, t, w, me');
    SleepersKept(s, t, w, me');
  }

  // -------------------------------------------------------------------------------------------
  // Most actions leave every owner and every submission where it was, as far as the worker and the queue are concerned.

  ghost predicate SameRefs(me: Worker, g: Shared, me': Worker, g': Shared) {
    forall f :: MineRefs(me', g', f) == MineRefs(me, g, f)
  }

  ghost predicate SameWork(me: Worker, g: Shared, me': Worker, g': Shared) {
    forall u, j :: MineWork(me', g', u, j) == MineWork(me, g, u, j)
  }

  ghost predicate SameHistory(me: Worker, g: Shared, me': Worker, g': Shared) {
    && g'.finished == g.finished && g'.starts == g.starts && g'.accepted == g.accepted
    && g'.active - g.active == Busy(me') - Busy(me)
    && g'.idling - g.idling == Idling(me') - Idling(me)
  }

  ghost predicate Distinct(g: Shared) {
    forall j :: g.accepted[j] <= 1
  }

  lemma OwnersUnmoved(me: Worker, g: Shared, me': Worker, g': Shared)
    requires SameRefs(me, g, me', g') && forall f :: f in g'.heap ==> f in g.heap
    ensures LocalOwners(me, g, me', g')
  {
  }

  // The reference to d is dropped.
  lemma OwnersDropped(me: Worker, g: Shared, me': Worker, g': Shared, d: FiberId)
    requires forall f :: MineRefs(me', g', f) == if f == d then 0 else MineRefs(me, g, f)
    requires forall f :: f in g'.heap ==> f in g.heap
    requires d in g'.heap && Disposable(g'.heap[d].state)
    ensures LocalOwners(me, g, me', g')
  {
  }

  // n is a new fiber.
  lemma OwnersAdded(me: Worker, g: Shared, me': Worker, g': Shared, n: FiberId)
    requires n !in g.heap
    requires forall f :: MineRefs(me', g', f) == if f == n then 1 else MineRefs(me, g, f)
    requires forall f :: f in g'.heap ==> f in g.heap || f == n
    ensures LocalOwners(me, g, me', g')
  {
  }

  lemma WorkUnmoved(me: Worker, g: Shared, me': Worker, g': Shared)
    requires SameWork(me, g, me', g') && SameHistory(me, g, me', g') && Distinct(g)
    ensures LocalBalance(me, g, me', g')
  {
  }

  lemma SameHand(me: Worker, g: Shared, me': Worker, g': Shared)
    requires g'.heap == g.heap && g'.queue == g.queue && Spare(me') == Spare(me) && Taken(me') == Taken(me)
    ensures SameRefs(me, g, me', g') && SameWork(me, g, me', g') && LocalOwners(me, g, me', g')
  {
    assert SameRefs(me, g, me', g');
    OwnersUnmoved(me, g, me', g');
  }

  // A change of a fiber the queue does not own leaves the queue's work as it was.
  lemma QueueWorkKept(g: Shared, f: FiberId, fb: FiberObject)
    requires Refs(g.queue, f) == 0
    ensures forall u, j :: Work(g.queue, g.heap[f := fb], u, j) == Work(g.queue, g.heap, u, j)
  {
    forall u, j ensures Work(g.queue, g.heap[f := fb], u, j) == Work(g.queue, g.heap, u, j) {
      WorkAgrees(g.queue, g.heap, g.heap[f := fb], u, j);
    }
  }

  // -------------------------------------------------------------------------------------------
  // Actions that rewrite the fiber the worker deals with.

  // me deals with f and is its only owner.
  ghost predicate Handles(me: Worker, g: Shared, f: FiberId) {
    && WorkerOk(me, g.heap) && me.pc.On? && me.pc.f == f && me.pc.phase != Releasing
    && Refs(g.queue, f) == 0 && HandRefs(me, f) == 1
  }

  lemma RewriteWork(me: Worker, g: Shared, me': Worker, g': Shared, f: FiberId, fb: FiberObject, u: bool, j: JobId)
    requires Handles(me, g, f) && g'.queue == g.queue && g'.heap == g.heap[f := fb]
    requires Spare(me') == Spare(me) && Taken(me') == Taken(me)
    ensures MineWork(me', g', u, j) + FiberWork(g.heap[f], u, j) == MineWork(me, g, u, j) + FiberWork(fb, u, j)
  {
    QueueWorkKept(g, f, fb);
  }

  lemma RewriteOwners(me: Worker, g: Shared, me': Worker, g': Shared, f: FiberId)
    requires f in g.heap && f in g'.heap && g'.queue == g.queue && g'.heap == g.heap[f := g'.heap[f]]
    requires Spare(me') == Spare(me) && Taken(me') == Taken(me)
    ensures LocalOwners(me, g, me', g')
  {
    assert SameRefs(me, g, me', g');
    OwnersUnmoved(me, g, me', g');
  }

  lemma Rewrite(me: Worker, g: Shared, me': Worker, g': Shared, f: FiberId, fb: FiberObject)
    requires Handles(me, g, f) && g'.queue == g.queue && g'.heap == g.heap[f := fb]
    requires Spare(me') == Spare(me) && Taken(me') == Taken(me)
    requires LocalChange(me, g, me', g') && g'.accepted == g.accepted && Distinct(g)
    requires g'.active - g.active == Busy(me') - Busy(me) && g'.idling - g.idling == Idling(me') - Idling(me)
    requires forall j :: FiberWork(fb, false, j) + g'.finished[j] == FiberWork(g.heap[f], false, j) + g.finished[j]
    requires forall j :: FiberWork(fb, true, j) + g'.starts[j] == FiberWork(g.heap[f], true, j) + g.starts[j]
    ensures Local(me, g, me', g')
  {
    RewriteOwners(me, g, me', g', f);
    forall u, j
      ensures MineWork(me', g', u, j) + FiberWork(g.heap[f], u, j) == MineWork(me, g, u, j) + FiberWork(fb, u, j)
    {
      RewriteWork(me, g, me', g', f, fb, u, j);
    }
  }

  lemma SwapInLocal(me: Worker, g: Shared, f: FiberId, me': Worker, g': Shared)
    requires Handles(me, g, f) && Distinct(g) && me.pc.phase == Entering
    requires DoSwapIn(me, g, me.pc.slot, f) == Moved(me', g')
    ensures Local(me, g, me', g')
  {
    Rewrite(me, g, me', g', f, FiberObject(EXEC, g.heap[f].func));
  }

  lemma YieldLocal(me: Worker, g: Shared, f: FiberId, hold: bool, me': Worker, g': Shared)
    requires Handles(me, g, f) && Distinct(g) && me.pc.phase == Running
    requires DoYield(me, g, me.pc.slot, f, hold) == Moved(me', g')
    ensures Local(me, g, me', g')
  {
    Rewrite(me, g, me', g', f, FiberObject(if hold then HOLD else READY, g.heap[f].func));
  }

  lemma FinishLocal(me: Worker, g: Shared, f: FiberId, throws: bool, me': Worker, g': Shared)
    requires Handles(me, g, f) && Distinct(g) && me.pc.phase == Running
    requires DoFinish(me, g, me.pc.slot, f, throws) == Moved(me', g')
    ensures Local(me, g, me', g')
  {
    Rewrite(me, g, me', g', f, if throws then FiberObject(EXCEPT, g.heap[f].func) else FiberObject(TERM, None));
  }

  // -------------------------------------------------------------------------------------------
  // Actions that only move the program point.

  lemma DecrementLocal(me: Worker, g: Shared, me': Worker, g': Shared)
    requires WorkerOk(me, g.heap) && Distinct(g) && me.pc.On? && me.pc.phase == Backed
    requires me' == me.(pc := On(Counted, me.pc.slot, me.pc.f)) && g' == g.(active := g.active - 1)
    ensures Local(me, g, me', g')
  {
    SameHand(me, g, me', g');
    WorkUnmoved(me, g, me', g');
  }

  lemma ClearLocal(me: Worker, w: nat, g: Shared, me': Worker, g': Shared)
    requires WorkerOk(me, g.heap) && Distinct(g) && me.pc.On? && me.pc.phase == Releasing
    requires Act(me, w, g, Clear) == Moved(me', g')
    ensures Local(me, g, me', g')
  {
    SameHand(me, g, me', g');
    WorkUnmoved(me, g, me', g');
  }

  lemma IdleLocal(me: Worker, w: nat, g: Shared, a: Action, me': Worker, g': Shared)
    requires WorkerOk(me, g.heap) && Distinct(g) && (a == IdleEnter || a == IdleCheck || a == IdleLeave)
    requires Act(me, w, g, a) == Moved(me', g')
    ensures Local(me, g, me', g')
  {
    IdleChange(me, w, g, a, me', g');
    SameHand(me, g, me', g');
    WorkUnmoved(me, g, me', g');
  }

  lemma IdleChange(me: Worker, w: nat, g: Shared, a: Action, me': Worker, g': Shared)
    requires WorkerOk(me, g.heap) && (a == IdleEnter || a == IdleCheck || a == IdleLeave)
    requires Act(me, w, g, a) == Moved(me', g')
    ensures LocalChange(me, g, me', g') && SameHistory(me, g, me', g')
    ensures g'.heap == g.heap && g'.queue == g.queue && Spare(me') == Spare(me) && Taken(me') == Taken(me)
  {
  }

  // -------------------------------------------------------------------------------------------
  // Actions that move an entry between the queue and the worker, or drop a fiber.

  lemma ScanLocal(me: Worker, w: nat, g: Shared, me': Worker, g': Shared)
    requires WorkerOk(me, g.heap) && EntriesOk(g) && Distinct(g) && me.pc == Head
    requires DoScan(me, w, g) == Moved(me', g')
    ensures Local(me, g, me', g')
  {
    ScanChange(me, w, g, me', g');
    ScanMine(me, w, g, me', g');
    ScanHistory(me, w, g, me', g');
    OwnersUnmoved(me, g, me', g');
    WorkUnmoved(me, g, me', g');
  }

  lemma ScanChange(me: Worker, w: nat, g: Shared, me': Worker, g': Shared)
    requires WorkerOk(me, g.heap) && EntriesOk(g) && me.pc == Head && DoScan(me, w, g) == Moved(me', g')
    ensures LocalChange(me, g, me', g')
  {
    var k := FirstTakeable(g.queue, g.heap, w);
    if k < |g.queue| {
      assert g.queue[k] in g.queue;
    }
  }

  lemma ScanMine(me: Worker, w: nat, g: Shared, me': Worker, g': Shared)
    requires me.pc == Head && DoScan(me, w, g) == Moved(me', g')
    ensures SameRefs(me, g, me', g') && SameWork(me, g, me', g')
  {
    var k := FirstTakeable(g.queue, g.heap, w);
    if k < |g.queue| {
      Removed(g.queue, k);
    }
  }

  lemma ScanHistory(me: Worker, w: nat, g: Shared, me': Worker, g': Shared)
    requires me.pc == Head && DoScan(me, w, g) == Moved(me', g')
    ensures SameHistory(me, g, me', g') && g'.heap == g.heap
  {
  }

  // The callable moves from the taken entry into func_fiber, which is reset or allocated for it.
  lemma DispatchFunc(me: Worker, g: Shared, newId: FiberId, me': Worker, g': Shared)
    requires WorkerOk(me, g.heap) && Distinct(g) && me.pc.Popped? && me.pc.ft.func.Some?
    requires DoDispatch(me, g, me.pc.ft, newId) == Moved(me', g')
    requires forall f :: MineRefs(me, g, f) <= 1 && (f !in g.heap ==> MineRefs(me, g, f) == 0)
    ensures Local(me, g, me', g')
  {
    var f := me'.pc.f;
    assert MineRefs(me, g, f) <= 1;
    DispatchFuncChange(me, g, newId, me', g');
    DispatchFuncMine(me, g, newId, me', g');
    if f in g.heap {
      OwnersUnmoved(me, g, me', g');
    } else {
      OwnersAdded(me, g, me', g', f);
    }
    WorkUnmoved(me, g, me', g');
  }

  lemma DispatchFuncChange(me: Worker, g: Shared, newId: FiberId, me': Worker, g': Shared)
    requires WorkerOk(me, g.heap) && me.pc.Popped? && me.pc.ft.func.Some?
    requires DoDispatch(me, g, me.pc.ft, newId) == Moved(me', g')
    ensures LocalChange(me, g, me', g') && SameHistory(me, g, me', g')
    ensures me'.pc.On? && g'.heap == g.heap[me'.pc.f := FiberObject(INIT, me.pc.ft.func)]
  {
  }

  lemma DispatchFuncMine(me: Worker, g: Shared, newId: FiberId, me': Worker, g': Shared)
    requires WorkerOk(me, g.heap) && me.pc.Popped? && me.pc.ft.func.Some?
    requires DoDispatch(me, g, me.pc.ft, newId) == Moved(me', g')
    requires MineRefs(me, g, me'.pc.f) <= if me'.pc.f in g.heap then 1 else 0
    ensures SameWork(me, g, me', g')
    ensures me'.pc.f in g.heap ==> SameRefs(me, g, me', g')
    ensures me'.pc.f !in g.heap ==> forall f :: MineRefs(me', g', f) == if f == me'.pc.f then 1 else MineRefs(me, g, f)
  {
    QueueWorkKept(g, me'.pc.f, FiberObject(INIT, me.pc.ft.func));
  }

  lemma DispatchFiber(me: Worker, g: Shared, newId: FiberId, me': Worker, g': Shared)
    requires WorkerOk(me, g.heap) && Distinct(g) && me.pc.Popped? && me.pc.ft.fiber.Some?
    requires DoDispatch(me, g, me.pc.ft, newId) == Moved(me', g')
    requires MineRefs(me, g, me.pc.ft.fiber.value) <= 1
    ensures Local(me, g, me', g')
  {
    var f := me.pc.ft.fiber.value;
    DispatchFiberChange(me, g, newId, me', g');
    DispatchFiberMine(me, g, newId, me', g');
    if Finished(g.heap[f].state) {
      OwnersDropped(me, g, me', g', f);
    } else {
      OwnersUnmoved(me, g, me', g');
    }
    WorkUnmoved(me, g, me', g');
  }

  lemma DispatchFiberChange(me: Worker, g: Shared, newId: FiberId, me': Worker, g': Shared)
    requires WorkerOk(me, g.heap) && me.pc.Popped? && me.pc.ft.fiber.Some?
    requires DoDispatch(me, g, me.pc.ft, newId) == Moved(me', g')
    ensures LocalChange(me, g, me', g') && SameHistory(me, g, me', g') && g'.heap == g.heap
  {
  }

  lemma DispatchFiberMine(me: Worker, g: Shared, newId: FiberId, me': Worker, g': Shared)
    requires WorkerOk(me, g.heap) && me.pc.Popped? && me.pc.ft.fiber.Some?
    requires DoDispatch(me, g, me.pc.ft, newId) == Moved(me', g')
    requires MineRefs(me, g, me.pc.ft.fiber.value) <= 1
    ensures SameWork(me, g, me', g')
    ensures var d := me.pc.ft.fiber.value;
      if Finished(g.heap[d].state) then
        forall f :: MineRefs(me', g', f) == if f == d then 0 else MineRefs(me, g, f)
      else
        SameRefs(me, g, me', g')
  {
  }

  lemma DecideLocal(me: Worker, g: Shared, f: FiberId, me': Worker, g': Shared)
    requires Handles(me, g, f) && Distinct(g) && me.pc.phase == Counted
    requires DoDecide(me, g, me.pc.slot, f) == Moved(me', g')
    ensures Local(me, g, me', g')
  {
    DecideChange(me, g, f, me', g');
    if Yielded(g.heap[f].state) {
      SameHand(me, g, me', g');
      WorkUnmoved(me, g, me', g');
    } else if me.pc.slot == FuncSlot {
      Rewrite(me, g, me', g', f, FiberObject(INIT, None));
    } else {
      DecideDrops(me, g, f, me', g');
    }
  }

  lemma DecideChange(me: Worker, g: Shared, f: FiberId, me': Worker, g': Shared)
    requires Handles(me, g, f) && me.pc.phase == Counted && DoDecide(me, g, me.pc.slot, f) == Moved(me', g')
    ensures LocalChange(me, g, me', g') && SameHistory(me, g, me', g')
    ensures Spare(me') == Spare(me)
  {
  }

  lemma DecideDrops(me: Worker, g: Shared, f: FiberId, me': Worker, g': Shared)
    requires Handles(me, g, f) && Distinct(g) && me.pc.phase == Counted
    requires me.pc.slot == FtSlot && Finished(g.heap[f].state)
    requires me' == me.(pc := Head) && g' == g
    ensures LocalOwners(me, g, me', g') && LocalBalance(me, g, me', g')
  {
    OwnersDropped(me, g, me', g', f);
    WorkUnmoved(me, g, me', g');
  }

  lemma PushLocal(me: Worker, g: Shared, f: FiberId, me': Worker, g': Shared)
    requires Handles(me, g, f) && Distinct(g) && me.pc.phase == Requeuing
    requires me' == me.(pc := On(Releasing, me.pc.slot, f)) && g' == g.(queue := g.queue + [Requeued(f)])
    ensures Local(me, g, me', g')
  {
    PushChange(me, g, f, me', g');
    PushMine(me, g, f, me', g');
    OwnersUnmoved(me, g, me', g');
    WorkUnmoved(me, g, me', g');
  }

  lemma PushChange(me: Worker, g: Shared, f: FiberId, me': Worker, g': Shared)
    requires Handles(me, g, f) && me.pc.phase == Requeuing
    requires me' == me.(pc := On(Releasing, me.pc.slot, f)) && g' == g.(queue := g.queue + [Requeued(f)])
    ensures LocalChange(me, g, me', g') && SameHistory(me, g, me', g')
  {
  }

  lemma PushMine(me: Worker, g: Shared, f: FiberId, me': Worker, g': Shared)
    requires Handles(me, g, f) && me.pc.phase == Requeuing
    requires me' == me.(pc := On(Releasing, me.pc.slot, f)) && g' == g.(queue := g.queue + [Requeued(f)])
    ensures SameRefs(me, g, me', g') && SameWork(me, g, me', g')
  {
    Appended(g.queue, Requeued(f));
  }

  lemma BreakLocal(me: Worker, w: nat, g: Shared, me': Worker, g': Shared)
    requires WorkerOk(me, g.heap) && Distinct(g) && Act(me, w, g, Break) == Moved(me', g')
    requires me.funcFiber.Some? ==> MineRefs(me, g, me.funcFiber.value) <= 1
    ensures Local(me, g, me', g')
  {
    if me.funcFiber.Some? {
      OwnersDropped(me, g, me', g', me.funcFiber.value);
    } else {
      SameHand(me, g, me', g');
    }
    WorkUnmoved(me, g, me', g');
  }

  // A submission may come from anywhere; me is any worker.
  lemma SubmitLocal(me: Worker, g: Shared, item: Item, thread: int)
    requires WorkerOk(me, g.heap) && Distinct(g) && Fresh(g, item)
    requires !item.Callable? ==> MineRefs(me, g, item.f) == 0
    ensures Local(me, g, me, Submitted(g, item, thread))
  {
    var g' := Submitted(g, item, thread);
    SubmitChange(me, g, item, thread);
    SubmitMine(me, g, item, thread);
    SubmitBalance(me, g, item, thread);
    if item.Callable? {
      OwnersUnmoved(me, g, me, g');
    } else {
      OwnersAdded(me, g, me, g', item.f);
    }
  }

  lemma SubmitChange(me: Worker, g: Shared, item: Item, thread: int)
    requires WorkerOk(me, g.heap) && Fresh(g, item)
    ensures LocalChange(me, g, me, Submitted(g, item, thread))
    ensures forall u, j :: HandWork(me, Submitted(g, item, thread).heap, u, j) == HandWork(me, g.heap, u, j)
  {
    var g' := Submitted(g, item, thread);
    forall f | HandRefs(me, f) > 0 ensures f in g.heap && g.heap[f] == g'.heap[f] {
      HandInHeap(me, g.heap, f);
    }
    WorkerOkAgrees(me, g.heap, g'.heap);
  }

  lemma SubmitMine(me: Worker, g: Shared, item: Item, thread: int)
    requires WorkerOk(me, g.heap) && Fresh(g, item) && (!item.Callable? ==> MineRefs(me, g, item.f) == 0)
    ensures var g' := Submitted(g, item, thread);
      && (forall f :: MineRefs(me, g', f) == if !item.Callable? && f == item.f then 1 else MineRefs(me, g, f))
      && (item.Callable? ==> SameRefs(me, g, me, g'))
      && (forall u, j :: MineWork(me, g', u, j) ==
                         MineWork(me, g, u, j) + if !item.DeadFiber? && j == item.j then 1 else 0)
  {
    var g' := Submitted(g, item, thread);
    Appended(g.queue, g'.queue[|g.queue|]);
    SubmitChange(me, g, item, thread);
    if !item.Callable? {
      QueueWorkKept(g, item.f, g'.heap[item.f]);
    }
  }

  lemma SubmitBalance(me: Worker, g: Shared, item: Item, thread: int)
    requires Distinct(g) && Fresh(g, item)
    requires forall u, j :: MineWork(me, Submitted(g, item, thread), u, j) ==
                            MineWork(me, g, u, j) + if !item.DeadFiber? && j == item.j then 1 else 0
    ensures LocalBalance(me, g, me, Submitted(g, item, thread))
  {
  }

  // -------------------------------------------------------------------------------------------
  // Every action of a worker.

  lemma GoodDistinct(s: State)
    requires Good(s)
    ensures Distinct(s.g)
  {
    forall j ensures s.g.accepted[j] <= 1 {
      assert Pending(s, false, j) + s.g.finished[j] == s.g.accepted[j] <= 1;
    }
  }

  // Worker w and the queue together own a fiber at most once.
  lemma OneOwner(s: State, w: nat, f: FiberId)
    requires Good(s) && w < |s.workers|
    ensures MineRefs(s.workers[w], s.g, f) <= 1
    ensures f !in s.g.heap ==> MineRefs(s.workers[w], s.g, f) == 0
  {
    AtLeastHand(s.workers, w, f);
    assert Owners(s, f) <= 1;
    if f !in s.g.heap && Owners(s, f) > 0 {
      OwnedInHeap(s, f);
    }
  }

  lemma OnLocal(me: Worker, w: nat, g: Shared, a: Action, me': Worker, g': Shared)
    requires WorkerOk(me, g.heap) && Distinct(g) && me.pc.On? && Act(me, w, g, a) == Moved(me', g')
    requires forall f :: MineRefs(me, g, f) <= 1 && (f !in g.heap ==> MineRefs(me, g, f) == 0)
    ensures Local(me, g, me', g')
  {
    var f := me.pc.f;
    assert MineRefs(me, g, f) <= 1;
    assert me.pc.phase != Releasing ==> Handles(me, g, f);
    match me.pc.phase
    case Entering => SwapInLocal(me, g, f, me', g');
    case Running =>
      if a.Yield? {
        YieldLocal(me, g, f, a.hold, me', g');
      } else if a.Finish? {
        FinishLocal(me, g, f, a.throws, me', g');
      } else {
        SubmitLocal(me, g, a.item, a.thread);
      }
    case Backed => DecrementLocal(me, g, me', g');
    case Counted => DecideLocal(me, g, f, me', g');
    case Requeuing => PushLocal(me, g, f, me', g');
    case Releasing => ClearLocal(me, w, g, me', g');
  }

  lemma ActLocal(me: Worker, w: nat, g: Shared, a: Action, me': Worker, g': Shared)
    requires WorkerOk(me, g.heap) && EntriesOk(g) && Distinct(g) && Act(me, w, g, a) == Moved(me', g')
    requires forall f :: MineRefs(me, g, f) <= 1 && (f !in g.heap ==> MineRefs(me, g, f) == 0)
    ensures Local(me, g, me', g')
  {
    match me.pc
    case Head => ScanLocal(me, w, g, me', g');
    case Popped(ft) =>
      if ft.func.Some? {
        DispatchFunc(me, g, a.newId, me', g');
      } else {
        DispatchFiber(me, g, a.newId, me', g');
      }
    case On(_, _, _) => OnLocal(me, w, g, a, me', g');
    case _ =>
      if a == Break {
        BreakLocal(me, w, g, me', g');
      } else {
        IdleLocal(me, w, g, a, me', g');
      }
  }

  lemma SleepersKept(s: State, t: State, w: nat, me': Worker)
    requires SleepersOk(s) && w < |s.workers| && LocalChange(s.workers[w], s.g, me', t.g)
    requires t == s.(g := t.g, workers := s.workers[w := me'], late := t.late,
      stray := t.stray, doomed := t.doomed)
    ensures SleepersOk(t)
  {
  }

  lemma DoesKeeps(s: State, w: nat, a: Action)
    requires Good(s) && Step(s, Does(w, a)).Some?
    ensures Good(Step(s, Does(w, a)).value)
  {
    hide Live;
    hide LocalOwners;
    hide LocalBalance;
    var t := Step(s, Does(w, a)).value;
    var me' := Act(s.workers[w], w, s.g, a).me;
    GoodDistinct(s);
    forall f
      ensures MineRefs(s.workers[w], s.g, f) <= 1
      ensures f !in s.g.heap ==> MineRefs(s.workers[w], s.g, f) == 0
    {
      OneOwner(s, w, f);
    }
    ActLocal(s.workers[w], w, s.g, a, me', t.g);
    LocalStep(s, t, w, me');
  }

  lemma OutsideKeeps(s: State, item: Item, thread: int)
    requires Good(s) && Step(s, Outside(item, thread)).Some?
    ensures Good(Step(s, Outside(item, thread)).value)
  {
    hide LocalOwners;
    hide LocalBalance;
    hide LocalChange;
    hide WorkerOk;
    var t := Step(s, Outside(item, thread)).value;
    GoodDistinct(s);
    if !item.Callable? {
      OneOwner(s, 0, item.f);
    }
    SubmitLocal(s.workers[0], s.g, item, thread);
    assert s.workers == s.workers[0 := s.workers[0]];
    LocalStep(s, t, 0, s.workers[0]);
  }

  // -------------------------------------------------------------------------------------------
  // start() and stop() wake sleeping workers; nothing that is owned or counted changes.

  lemma {:induction false} SameSums(ws: seq<Worker>, vs: seq<Worker>)
    requires |ws| == |vs|
    requires forall i :: 0 <= i < |ws| ==> ws[i] == vs[i] || (ws[i].pc == Dormant && vs[i] == Woken(ws[i]))
    ensures forall f :: AllHandRefs(vs, f) == AllHandRefs(ws, f)
    ensures forall h, u, j :: AllHandWork(vs, h, u, j) == AllHandWork(ws, h, u, j)
    ensures BusyCount(vs) == BusyCount(ws) && IdleCount(vs) == IdleCount(ws)
  {
    if ws != [] {
      SameSums(ws[..|ws| - 1], vs[..|vs| - 1]);
    }
  }

  lemma WakeKeeps(s: State, t: State)
    requires Good(s) && |t.workers| == |s.workers|
    requires t.g == s.g.(stopping := t.g.stopping, autoStop := t.g.autoStop)
    requires forall i :: 0 <= i < |s.workers| ==>
      t.workers[i] == s.workers[i] || (s.workers[i].pc == Dormant && t.workers[i] == Woken(s.workers[i]))
    ensures EntriesOk(t.g) && WorkersOk(t) && OwnersOk(t) && CountersOk(t) && Conserved(t)
  {
    SameSums(s.workers, t.workers);
    forall i | 0 <= i < |t.workers| ensures WorkerOk(t.workers[i], t.g.heap) {
      assert WorkerOk(s.workers[i], s.g.heap);
    }
    forall f ensures Owners(t, f) == Owners(s, f) {
    }
    forall u, j ensures Pending(t, u, j) == Pending(s, u, j) {
    }
  }

  lemma StartKeeps(s: State)
    requires Good(s) && s.stop == NotCalled
    ensures Good(DoStart(s))
  {
    if s.g.stopping {
      WakeKeeps(s, DoStart(s));
    }
  }

  predicate RootUncalled(stop: StopPc) {
    stop == NotCalled || RootUndecided(stop)
  }

  predicate WakesRoot(s: State) {
    s.stop == RootCheck && s.root && !Stopping(s.g) && s.pool < |s.workers|
  }

  lemma StopFlags(s: State)
    requires DoStop(s).Some?
    ensures var g := DoStop(s).value.g;
      g == s.g || g == s.g.(stopping := true) || g == s.g.(autoStop := true)
  {
    hide Stopping;
    hide Joinable;
  }

  lemma StopHistory(s: State)
    requires DoStop(s).Some?
    ensures var t := DoStop(s).value;
      && t.pool == s.pool && t.root == s.root && t.started == s.started
      && t.late == s.late && t.stray == s.stray && t.doomed == s.doomed
  {
    hide Stopping;
    hide Joinable;
  }

  lemma StopWorkers(s: State)
    requires DoStop(s).Some?
    ensures DoStop(s).value.workers == if WakesRoot(s) then s.workers[s.pool := Woken(s.workers[s.pool])] else s.workers
  {
    hide Stopping;
    hide Joinable;
  }

  lemma StopProgress(s: State)
    requires DoStop(s).Some?
    ensures DoStop(s).value.stop != NotCalled && (RootUncalled(DoStop(s).value.stop) ==> RootUncalled(s.stop))
  {
    hide Stopping;
    hide Joinable;
  }

  lemma StopWaits(s: State)
    requires DoStop(s).Some? && WakesRoot(s)
    ensures DoStop(s).value.stop == WaitRoot
  {
  }

  // All that a step of stop() can change: its own program point, the two flags, and the root fiber, which it may wake.
  lemma StopShape(s: State)
    requires DoStop(s).Some?
    ensures var t := DoStop(s).value;
      && t == s.(g := s.g.(stopping := t.g.stopping, autoStop := t.g.autoStop), stop := t.stop, workers := t.workers)
      && t.stop != NotCalled && (RootUncalled(t.stop) ==> RootUncalled(s.stop))
      && (WakesRoot(s) ==> t.stop == WaitRoot && t.workers == s.workers[s.pool := Woken(s.workers[s.pool])])
      && (!WakesRoot(s) ==> t.workers == s.workers)
  {
    hide DoStop;
    StopFlags(s);
    StopHistory(s);
    StopWorkers(s);
    StopProgress(s);
    if WakesRoot(s) {
      StopWaits(s);
    }
  }

  lemma StopSleepers(s: State)
    requires SleepersOk(s) && DoStop(s).Some?
    ensures SleepersOk(DoStop(s).value)
  {
    hide DoStop;
    StopShape(s);
  }

  lemma StopWakes(s: State)
    requires SleepersOk(s) && DoStop(s).Some?
    ensures var t := DoStop(s).value;
      && |t.workers| == |s.workers|
      && t.g == s.g.(stopping := t.g.stopping, autoStop := t.g.autoStop)
      && forall i :: 0 <= i < |s.workers| ==>
           t.workers[i] == s.workers[i] || (s.workers[i].pc == Dormant && t.workers[i] == Woken(s.workers[i]))
  {
    hide DoStop;
    StopShape(s);
  }

  lemma StopKeeps(s: State)
    requires Good(s) && DoStop(s).Some?
    ensures Good(DoStop(s).value)
  {
    hide DoStop;
    hide SleepersOk;
    hide WorkersOk;
    hide OwnersOk;
    hide Conserved;
    StopSleepers(s);
    StopWakes(s);
    WakeKeeps(s, DoStop(s).value);
  }

  // -------------------------------------------------------------------------------------------

  // The invariant is kept by every step, whoever takes it.
  lemma StepKeeps(s: State, l: Label)
    requires Good(s) && Step(s, l).Some?
    ensures Good(Step(s, l).value)
  {
    match l
    case Does(w, a) => DoesKeeps(s, w, a);
    case Outside(item, thread) => OutsideKeeps(s, item, thread);
    case Start => StartKeeps(s);
    case Stop => StopKeeps(s);
  }

  lemma {:induction false} FreshSums(ws: seq<Worker>)
    requires forall i :: 0 <= i < |ws| ==> ws[i] == Worker(Dormant, None, INIT)
    ensures forall f :: AllHandRefs(ws, f) == 0
    ensures forall h, u, j :: AllHandWork(ws, h, u, j) == 0
    ensures BusyCount(ws) == 0 && IdleCount(ws) == 0
  {
    if ws != [] {
      FreshSums(ws[..|ws| - 1]);
    }
  }

  lemma InitGood(threads: nat, useCaller: bool)
    requires threads > 0
    ensures Good(Init(threads, useCaller))
  {
    FreshSums(Init(threads, useCaller).workers);
  }

  lemma {:induction false} ExecuteKeeps(s: State, run: seq<Label>)
    requires Good(s) && Execute(s, run).Some?
    ensures Good(Execute(s, run).value)
    decreases run
  {
    if run != [] {
      StepKeeps(s, run[0]);
      ExecuteKeeps(Step(s, run[0]).value, run[1..]);
    }
  }

  lemma ReachableGood(s: State)
    requires Reachable(s)
    ensures Good(s)
  {
    var threads: nat, useCaller: bool, run: seq<Label> :|
      threads > 0 && Execute(Init(threads, useCaller), run) == Some(s);
    InitGood(threads, useCaller);
    ExecuteKeeps(Init(threads, useCaller), run);
  }
}
