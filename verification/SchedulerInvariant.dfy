// The inductive invariant of the scheduler: who owns which fiber, which submission is where,
// and what the two counters count.
module SchedulerInvariant {
  import opened Options
  import opened FiberStates
  import opened SchedulerModel

  // -------------------------------------------------------------------------------------------
  // How often a fiber is referred to, and how often a submission is still carried.

  function Refers(e: Entry, f: FiberId): nat {
    if e.fiber == Some(f) then 1 else 0
  }

  function Refs(q: seq<Entry>, f: FiberId): nat {
    if q == [] then 0 else Refs(q[..|q| - 1], f) + Refers(q[|q| - 1], f)
  }

  // 1 if the fiber still has to complete submission j; with `unstarted`, only if it has not begun it.
  function FiberWork(fb: FiberObject, unstarted: bool, j: JobId): nat {
    if fb.func == Some(j) && !Finished(fb.state) && (unstarted ==> fb.state == INIT) then 1 else 0
  }

  function EntryWork(e: Entry, h: Heap, unstarted: bool, j: JobId): nat {
    if e.fiber.Some? then
      if e.fiber.value in h then FiberWork(h[e.fiber.value], unstarted, j) else 0
    else if e.func == Some(j) then
      1
    else
      0
  }

  function Work(q: seq<Entry>, h: Heap, unstarted: bool, j: JobId): nat {
    if q == [] then 0 else Work(q[..|q| - 1], h, unstarted, j) + EntryWork(q[|q| - 1], h, unstarted, j)
  }

  const NOTHING := Entry(None, None, -1)

  // What a worker owns: its func_fiber, unless it is only kept until Clear, and what it took from the queue.
  function Spare(w: Worker): Entry {
    if w.funcFiber.Some? && !(w.pc.On? && w.pc.phase == Releasing && w.pc.slot == FuncSlot) then
      Requeued(w.funcFiber.value)
    else
      NOTHING
  }

  function Taken(w: Worker): Entry {
    if w.pc.Popped? then
      w.pc.ft
    else if w.pc.On? && w.pc.slot == FtSlot && w.pc.phase != Releasing then
      Requeued(w.pc.f)
    else
      NOTHING
  }

  function HandRefs(w: Worker, f: FiberId): nat {
    Refers(Spare(w), f) + Refers(Taken(w), f)
  }

  function HandWork(w: Worker, h: Heap, unstarted: bool, j: JobId): nat {
    EntryWork(Spare(w), h, unstarted, j) + EntryWork(Taken(w), h, unstarted, j)
  }

  // 1 between the pop and the decrement.
  function Busy(w: Worker): nat {
    if w.pc.Popped? || (w.pc.On? && (w.pc.phase == Entering || w.pc.phase == Running || w.pc.phase == Backed)) then
      1
    else
      0
  }

  // 1 inside the idle switch.
  function Idling(w: Worker): nat {
    if w.pc == IdleRun || w.pc == IdleBack then 1 else 0
  }

  function AllHandRefs(ws: seq<Worker>, f: FiberId): nat {
    if ws == [] then 0 else AllHandRefs(ws[..|ws| - 1], f) + HandRefs(ws[|ws| - 1], f)
  }

  function AllHandWork(ws: seq<Worker>, h: Heap, unstarted: bool, j: JobId): nat {
    if ws == [] then
      0
    else
      AllHandWork(ws[..|ws| - 1], h, unstarted, j) + HandWork(ws[|ws| - 1], h, unstarted, j)
  }

  function BusyCount(ws: seq<Worker>): nat {
    if ws == [] then 0 else BusyCount(ws[..|ws| - 1]) + Busy(ws[|ws| - 1])
  }

  function IdleCount(ws: seq<Worker>): nat {
    if ws == [] then 0 else IdleCount(ws[..|ws| - 1]) + Idling(ws[|ws| - 1])
  }

  // Number of owners of f.
  function Owners(s: State, f: FiberId): nat {
    Refs(s.g.queue, f) + AllHandRefs(s.workers, f)
  }

  // Number of places in which submission j waits or executes.
  function Pending(s: State, unstarted: bool, j: JobId): nat {
    Work(s.g.queue, s.g.heap, unstarted, j) + AllHandWork(s.workers, s.g.heap, unstarted, j)
  }

  // -------------------------------------------------------------------------------------------
  // The invariant.

  // A fiber that may be switched into: suspended in its task, or not begun but with a callable.
  predicate Runnable(fb: FiberObject) {
    (fb.state == INIT || Yielded(fb.state)) && fb.func.Some?
  }

  // A fiber whose task has just switched out.
  predicate SwitchedOut(fb: FiberObject) {
    Finished(fb.state) || (Yielded(fb.state) && fb.func.Some?)
  }

  predicate EntryOk(e: Entry, h: Heap) {
    && e.fiber.Some? != e.func.Some?
    && (e.fiber.Some? ==> e.fiber.value in h && (Runnable(h[e.fiber.value]) || Finished(h[e.fiber.value].state)))
  }

  // func_fiber at a loop head: none, or reset and empty.
  predicate SpareOk(w: Worker, h: Heap) {
    w.funcFiber.Some? ==> w.funcFiber.value in h && h[w.funcFiber.value] == FiberObject(INIT, None)
  }

  // What is known of the fiber a worker deals with, phase by phase.
  predicate PhaseOk(phase: Phase, slot: Slot, fb: FiberObject) {
    match phase
    case Entering => Runnable(fb) && (slot == FuncSlot ==> fb.state == INIT)
    case Running => fb.state == EXEC && fb.func.Some?
    case Backed => SwitchedOut(fb)
    case Counted => SwitchedOut(fb)
    case Requeuing => Yielded(fb.state) && fb.func.Some?
    case Releasing => true
  }

  predicate WorkerOk(w: Worker, h: Heap) {
    && (w.pc == IdleRun <==> w.idle == EXEC)
    && (w.idle == INIT || w.idle == HOLD || w.idle == EXEC || w.idle == TERM)
    && (w.pc == IdleBack ==> w.idle == HOLD || w.idle == TERM)
    && (w.pc == Dormant ==> w.funcFiber == None && w.idle == INIT)
    && (w.pc == Exited ==> w.funcFiber == None && w.idle == TERM)
    && (w.pc.Popped? ==> EntryOk(w.pc.ft, h))
    && (w.pc.On? ==> w.pc.f in h && PhaseOk(w.pc.phase, w.pc.slot, h[w.pc.f]))
    && (if w.pc.On? && w.pc.slot == FuncSlot then w.funcFiber == Some(w.pc.f) else SpareOk(w, h))
  }

  ghost predicate EntriesOk(g: Shared) {
    forall e :: e in g.queue ==> EntryOk(e, g.heap)
  }

  ghost predicate WorkersOk(s: State) {
    forall i :: 0 <= i < |s.workers| ==> WorkerOk(s.workers[i], s.g.heap)
  }

  // Every fiber has at most one owner, and one that has none satisfies what ~Fiber asserts.
  ghost predicate OwnersOk(s: State) {
    && (forall f :: Owners(s, f) <= 1)
    && (forall f :: f in s.g.heap && Owners(s, f) == 0 ==> Disposable(s.g.heap[f].state))
  }

  ghost predicate CountersOk(s: State) {
    s.g.active == BusyCount(s.workers) && s.g.idling == IdleCount(s.workers)
  }

  // Nothing is lost and nothing is duplicated: every accepted submission is pending or finished,
  // and it is not begun or has been started once.
  ghost predicate Conserved(s: State) {
    forall j ::
      && Pending(s, false, j) + s.g.finished[j] == s.g.accepted[j] <= 1
      && Pending(s, true, j) + s.g.starts[j] == s.g.accepted[j]
  }

  // Before start() the pool sleeps, and until stop() calls it so does the root fiber.
  ghost predicate SleepersOk(s: State) {
    && |s.workers| == s.pool + (if s.root then 1 else 0) > 0
    && (!s.started ==> forall i :: 0 <= i < s.pool ==> s.workers[i].pc == Dormant)
    && (s.started && s.stop == NotCalled ==> !s.g.stopping)
    && (s.root && (s.stop.NotCalled? || s.stop.AutoSet? || s.stop.EarlyCheck? || s.stop.Flagging? || s.stop.RootCheck?)
        ==> s.workers[s.pool].pc == Dormant)
  }

  ghost predicate Good(s: State) {
    SleepersOk(s) && EntriesOk(s.g) && WorkersOk(s) && OwnersOk(s) && CountersOk(s) && Conserved(s)
  }

  // -------------------------------------------------------------------------------------------
  // Facts about the sums.

  lemma {:induction false} RefsConcat(a: seq<Entry>, b: seq<Entry>, f: FiberId)
    ensures Refs(a + b, f) == Refs(a, f) + Refs(b, f)
  {
    if b == [] {
      assert a + b == a;
    } else {
      assert (a + b)[..|a + b| - 1] == a + b[..|b| - 1];
      RefsConcat(a, b[..|b| - 1], f);
    }
  }

  lemma {:induction false} WorkConcat(a: seq<Entry>, b: seq<Entry>, h: Heap, u: bool, j: JobId)
    ensures Work(a + b, h, u, j) == Work(a, h, u, j) + Work(b, h, u, j)
  {
    if b == [] {
      assert a + b == a;
    } else {
      assert (a + b)[..|a + b| - 1] == a + b[..|b| - 1];
      WorkConcat(a, b[..|b| - 1], h, u, j);
    }
  }

  lemma Appended(q: seq<Entry>, e: Entry)
    ensures forall f :: Refs(q + [e], f) == Refs(q, f) + Refers(e, f)
    ensures forall h, u, j :: Work(q + [e], h, u, j) == Work(q, h, u, j) + EntryWork(e, h, u, j)
  {
    assert (q + [e])[..|q|] == q;
  }

  lemma Removed(q: seq<Entry>, k: nat)
    requires k < |q|
    ensures forall f :: Refs(q, f) == Refs(Without(q, k), f) + Refers(q[k], f)
    ensures forall h, u, j :: Work(q, h, u, j) == Work(Without(q, k), h, u, j) + EntryWork(q[k], h, u, j)
  {
    assert q == (q[..k] + [q[k]]) + q[k + 1..];
    Appended(q[..k], q[k]);
    forall f ensures Refs(q, f) == Refs(Without(q, k), f) + Refers(q[k], f) {
      RefsConcat(q[..k] + [q[k]], q[k + 1..], f);
      RefsConcat(q[..k], q[k + 1..], f);
    }
    forall h, u, j ensures Work(q, h, u, j) == Work(Without(q, k), h, u, j) + EntryWork(q[k], h, u, j) {
      WorkConcat(q[..k] + [q[k]], q[k + 1..], h, u, j);
      WorkConcat(q[..k], q[k + 1..], h, u, j);
    }
  }

  lemma {:induction false} RefsOfMember(q: seq<Entry>, k: nat, f: FiberId)
    requires k < |q| && q[k].fiber == Some(f)
    ensures Refs(q, f) > 0
  {
    if k < |q| - 1 {
      RefsOfMember(q[..|q| - 1], k, f);
    }
  }

  lemma {:induction false} MemberOfRefs(q: seq<Entry>, f: FiberId) returns (k: nat)
    requires Refs(q, f) > 0
    ensures k < |q| && q[k].fiber == Some(f)
  {
    if q[|q| - 1].fiber == Some(f) {
      k := |q| - 1;
    } else {
      k := MemberOfRefs(q[..|q| - 1], f);
    }
  }

  lemma {:induction false} HolderOf(ws: seq<Worker>, f: FiberId) returns (i: nat)
    requires AllHandRefs(ws, f) > 0
    ensures i < |ws| && HandRefs(ws[i], f) > 0
  {
    if HandRefs(ws[|ws| - 1], f) > 0 {
      i := |ws| - 1;
    } else {
      i := HolderOf(ws[..|ws| - 1], f);
    }
  }

  // Changing the fibers nobody here refers to changes no work.
  lemma {:induction false} WorkAgrees(q: seq<Entry>, h: Heap, g: Heap, u: bool, j: JobId)
    requires forall f :: Refs(q, f) > 0 ==> (f in h <==> f in g) && (f in h ==> h[f] == g[f])
    ensures Work(q, h, u, j) == Work(q, g, u, j)
  {
    if q != [] {
      WorkAgrees(q[..|q| - 1], h, g, u, j);
      if q[|q| - 1].fiber.Some? {
        RefsOfMember(q, |q| - 1, q[|q| - 1].fiber.value);
      }
    }
  }

  // All sums over the workers, after worker w has changed.
  lemma {:induction false} RefsUpdate(ws: seq<Worker>, w: nat, v: Worker, f: FiberId)
    requires w < |ws|
    ensures AllHandRefs(ws[w := v], f) + HandRefs(ws[w], f) == AllHandRefs(ws, f) + HandRefs(v, f)
  {
    var n := |ws| - 1;
    if w < n {
      RefsUpdate(ws[..n], w, v, f);
      assert ws[w := v][..n] == ws[..n][w := v];
    } else {
      assert ws[w := v][..n] == ws[..n];
    }
  }

  lemma {:induction false} CountsUpdate(ws: seq<Worker>, w: nat, v: Worker)
    requires w < |ws|
    ensures BusyCount(ws[w := v]) + Busy(ws[w]) == BusyCount(ws) + Busy(v)
    ensures IdleCount(ws[w := v]) + Idling(ws[w]) == IdleCount(ws) + Idling(v)
  {
    var n := |ws| - 1;
    if w < n {
      CountsUpdate(ws[..n], w, v);
      assert ws[w := v][..n] == ws[..n][w := v];
    } else {
      assert ws[w := v][..n] == ws[..n];
    }
  }

  // The same for the work, when the heap has changed as well but not in what the others carry.
  lemma {:induction false} WorkUpdate(ws: seq<Worker>, w: nat, v: Worker, h: Heap, g: Heap, u: bool, j: JobId)
    requires w < |ws|
    requires forall i :: 0 <= i < |ws| && i != w ==> HandWork(ws[i], g, u, j) == HandWork(ws[i], h, u, j)
    ensures AllHandWork(ws[w := v], g, u, j) + HandWork(ws[w], h, u, j) ==
            AllHandWork(ws, h, u, j) + HandWork(v, g, u, j)
  {
    var n := |ws| - 1;
    if w < n {
      WorkUpdate(ws[..n], w, v, h, g, u, j);
      assert ws[w := v][..n] == ws[..n][w := v];
    } else {
      assert ws[w := v][..n] == ws[..n];
      SameWork(ws[..n], h, g, u, j);
    }
  }

  lemma {:induction false} SameWork(ws: seq<Worker>, h: Heap, g: Heap, u: bool, j: JobId)
    requires forall i :: 0 <= i < |ws| ==> HandWork(ws[i], g, u, j) == HandWork(ws[i], h, u, j)
    ensures AllHandWork(ws, g, u, j) == AllHandWork(ws, h, u, j)
  {
    if ws != [] {
      SameWork(ws[..|ws| - 1], h, g, u, j);
    }
  }

  lemma {:induction false} AtLeastHand(ws: seq<Worker>, i: nat, f: FiberId)
    requires i < |ws|
    ensures HandRefs(ws[i], f) <= AllHandRefs(ws, f)
  {
    if i < |ws| - 1 {
      AtLeastHand(ws[..|ws| - 1], i, f);
    }
  }

  lemma {:induction false} AtLeastTwoHands(ws: seq<Worker>, i: nat, k: nat, f: FiberId)
    requires i < k < |ws|
    ensures HandRefs(ws[i], f) + HandRefs(ws[k], f) <= AllHandRefs(ws, f)
  {
    if k < |ws| - 1 {
      AtLeastTwoHands(ws[..|ws| - 1], i, k, f);
    } else {
      AtLeastHand(ws[..k], i, f);
    }
  }
}
