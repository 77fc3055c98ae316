// What stopping() says about the work that is left.
module SchedulerStopping {
  import opened Options
  import opened FiberStates
  import opened SchedulerModel
  import opened SchedulerInvariant
  import opened SchedulerPreservation
  import opened SchedulerDrain

  // The worker has counted down for a fiber that yielded and has not queued it again yet.
  predicate BetweenCountAndPush(w: Worker, h: Heap) {
    && w.pc.On? && (w.pc.phase == Counted || w.pc.phase == Requeuing)
    && w.pc.f in h && Yielded(h[w.pc.f].state)
  }

  // A worker that is not counted as active carries work only there.
  lemma UncountedCarries(w: Worker, h: Heap, j: JobId)
    requires WorkerOk(w, h) && Busy(w) == 0 && !BetweenCountAndPush(w, h)
    ensures HandWork(w, h, false, j) == 0
  {
  }

  lemma {:induction false} UncountedCarry(ws: seq<Worker>, h: Heap, j: JobId)
    requires BusyCount(ws) == 0
    requires forall i :: 0 <= i < |ws| ==> WorkerOk(ws[i], h) && !BetweenCountAndPush(ws[i], h)
    ensures AllHandWork(ws, h, false, j) == 0
  {
    if ws != [] {
      UncountedCarry(ws[..|ws| - 1], h, j);
      UncountedCarries(ws[|ws| - 1], h, j);
    }
  }

  lemma {:induction false} AtLeastWork(ws: seq<Worker>, i: nat, h: Heap, j: JobId)
    requires i < |ws|
    ensures HandWork(ws[i], h, false, j) <= AllHandWork(ws, h, false, j)
  {
    if i < |ws| - 1 {
      AtLeastWork(ws[..|ws| - 1], i, h, j);
    }
  }

  lemma BetweenCarries(w: Worker, h: Heap)
    requires WorkerOk(w, h) && BetweenCountAndPush(w, h)
    ensures h[w.pc.f].func.Some? && HandWork(w, h, false, h[w.pc.f].func.value) > 0
  {
  }

  // When stopping() holds, all accepted work has finished exactly if no worker is between the decrement of the active
  // count and the push of a fiber that yielded.
  lemma StoppingExact(s: State)
    requires Reachable(s) && Stopping(s.g)
    ensures s.g.autoStop && s.g.stopping && s.g.queue == [] && s.g.active == 0
    ensures (forall j :: s.g.finished[j] == s.g.accepted[j]) <==>
            (forall i :: 0 <= i < |s.workers| ==> !BetweenCountAndPush(s.workers[i], s.g.heap))
  {
    ReachableGood(s);
    if forall i :: 0 <= i < |s.workers| ==> !BetweenCountAndPush(s.workers[i], s.g.heap) {
      forall j ensures s.g.finished[j] == s.g.accepted[j] {
        assert Pending(s, false, j) + s.g.finished[j] == s.g.accepted[j];
        UncountedCarry(s.workers, s.g.heap, j);
      }
    } else {
      var i: nat :| i < |s.workers| && BetweenCountAndPush(s.workers[i], s.g.heap);
      assert WorkerOk(s.workers[i], s.g.heap);
      BetweenCarries(s.workers[i], s.g.heap);
      var j := s.g.heap[s.workers[i].pc.f].func.value;
      AtLeastWork(s.workers, i, s.g.heap, j);
      assert Pending(s, false, j) + s.g.finished[j] == s.g.accepted[j];
    }
  }

  // -------------------------------------------------------------------------------------------
  // Tasks that never yield.

  predicate NeverYields(run: seq<Label>) {
    forall k :: 0 <= k < |run| ==> !(run[k].Does? && run[k].a.Yield?)
  }

  ghost predicate NoneYielded(h: Heap) {
    forall f :: f in h ==> !Yielded(h[f].state)
  }

  lemma DecideYieldsNone(me: Worker, g: Shared, slot: Slot, f: FiberId, x: FiberId)
    requires f in g.heap && SwitchedOut(g.heap[f]) && DoDecide(me, g, slot, f).Moved?
    requires x in DoDecide(me, g, slot, f).g.heap && Yielded(DoDecide(me, g, slot, f).g.heap[x].state)
    ensures x in g.heap && Yielded(g.heap[x].state)
  {
  }

  // Only the action of that name makes a fiber READY or HOLD.
  lemma ActYieldsNone(me: Worker, w: nat, g: Shared, a: Action, f: FiberId)
    requires WorkerOk(me, g.heap) && Act(me, w, g, a).Moved? && !a.Yield?
    requires f in Act(me, w, g, a).g.heap && Yielded(Act(me, w, g, a).g.heap[f].state)
    ensures f in g.heap && Yielded(g.heap[f].state)
  {
    hide FirstTakeable;
    hide Without;
    if me.pc.On? && me.pc.phase == Counted {
      DecideYieldsNone(me, g, me.pc.slot, me.pc.f, f);
    } else {
      hide WorkerOk;
      hide DoDecide;
    }
  }

  lemma SubmittedNoneYielded(g: Shared, item: Item, thread: int)
    requires NoneYielded(g.heap) && Fresh(g, item)
    ensures NoneYielded(Submitted(g, item, thread).heap)
  {
  }

  lemma StepNoneYielded(s: State, l: Label)
    requires WorkersOk(s) && NoneYielded(s.g.heap) && Step(s, l).Some? && !(l.Does? && l.a.Yield?)
    ensures NoneYielded(Step(s, l).value.g.heap)
  {
    hide Act;
    hide WorkersOk;
    match l
    case Does(w, a) =>
      DoesNoneYielded(s, w, a, Step(s, l).value);
    case Stop =>
      StopShape(s);
    case Start =>
    case Outside(item, thread) =>
      hide NoneYielded;
      SubmittedNoneYielded(s.g, item, thread);
  }

  lemma DoesNoneYielded(s: State, w: nat, a: Action, t: State)
    requires WorkersOk(s) && NoneYielded(s.g.heap) && Step(s, Does(w, a)) == Some(t) && !a.Yield?
    ensures NoneYielded(t.g.heap)
  {
    DoesTook(s, w, a);
    hide Act;
    hide Step;
    assert WorkerOk(s.workers[w], s.g.heap);
    forall f | f in t.g.heap ensures !Yielded(t.g.heap[f].state) {
      if Yielded(t.g.heap[f].state) {
        ActYieldsNone(s.workers[w], w, s.g, a, f);
      }
    }
  }

  lemma {:induction false} ExecuteNoneYielded(s: State, run: seq<Label>)
    requires Good(s) && NoneYielded(s.g.heap) && Execute(s, run).Some? && NeverYields(run)
    ensures NoneYielded(Execute(s, run).value.g.heap)
    decreases run
  {
    if run != [] {
      StepKeeps(s, run[0]);
      StepNoneYielded(s, run[0]);
      hide Step;
      forall k | 0 <= k < |run[1..]| ensures !(run[1..][k].Does? && run[1..][k].a.Yield?) {
        assert run[1..][k] == run[k + 1];
      }
      ExecuteNoneYielded(Step(s, run[0]).value, run[1..]);
    }
  }

  // So for tasks that never yield stopping() does mean that no work is left.
  lemma StoppingWithoutYields(threads: nat, useCaller: bool, run: seq<Label>, s: State)
    requires threads > 0 && Execute(Init(threads, useCaller), run) == Some(s) && NeverYields(run) && Stopping(s.g)
    ensures forall j :: s.g.finished[j] == s.g.accepted[j]
  {
    InitGood(threads, useCaller);
    ExecuteNoneYielded(Init(threads, useCaller), run);
    assert Reachable(s);
    StoppingExact(s);
  }
}
