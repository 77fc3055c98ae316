// Runs that show why the drain theorem needs its conditions. stopping() may hold while a worker has unfinished work in
// its hands; work pinned to a thread that has left is lost, whatever the number of threads; and so is work submitted
// from outside while stop() waits.
module SchedulerLostWork {
  import opened Options
  import opened FiberStates
  import opened SchedulerModel
  import opened SchedulerInvariant
  import opened SchedulerPreservation
  import opened SchedulerDrain

  lemma {:induction false} ExecuteAppend(s: State, run: seq<Label>, l: Label)
    requires Execute(s, run).Some?
    ensures Execute(s, run + [l]) == Step(Execute(s, run).value, l)
    decreases run
  {
    if run == [] {
      assert ([] + [l])[1..] == [];
      if Step(s, l).Some? {
        assert Execute(Step(s, l).value, []) == Step(s, l);
      }
    } else {
      assert (run + [l])[1..] == run[1..] + [l];
      ExecuteAppend(Step(s, run[0]).value, run[1..], l);
    }
  }

  lemma Next(s: State, l: Label) returns (t: State)
    requires Reachable(s) && Step(s, l).Some?
    ensures Reachable(t) && Step(s, l) == Some(t)
  {
    t := Step(s, l).value;
    var threads: nat, useCaller: bool, run: seq<Label> :|
      threads > 0 && Execute(Init(threads, useCaller), run) == Some(s);
    ExecuteAppend(Init(threads, useCaller), run, l);
    assert Execute(Init(threads, useCaller), run + [l]) == Some(t);
  }

  // A step of worker w.
  lemma NextDoes(s: State, w: nat, a: Action) returns (t: State)
    requires Reachable(s) && w < |s.workers| && Act(s.workers[w], w, s.g, a).Moved?
    ensures Reachable(t) && Took(s, w, a, t)
  {
    hide Act;
    t := Next(s, Does(w, a));
    DoesTook(s, w, a);
  }

  lemma NextStop(s: State) returns (t: State)
    requires Reachable(s) && DoStop(s).Some?
    ensures Reachable(t) && DoStop(s) == Some(t)
  {
    hide DoStop;
    t := Next(s, Stop);
  }

  const REQUEUED := Requeued(0)

  function Holding(phase: Phase, idle: FState): Worker {
    Worker(On(phase, FtSlot, 0), None, idle)
  }

  function Free(pc: Pc, idle: FState): Worker {
    Worker(pc, None, idle)
  }

  // n threads, at least two, with or without the caller's; all have been woken, and stop() waits for them.
  ghost predicate Waiting(s: State, n: nat, useCaller: bool) {
    && 2 <= n == |s.workers| && s.root == useCaller && s.pool == (if useCaller then n - 1 else n)
    && s.stop == (if useCaller then WaitRoot else Joining)
    && s.started && !s.late && s.g.stopping && s.g.autoStop
  }

  // The threads from number 2 on: those before `gone` have left, the others are at their loop heads.
  ghost predicate Others(s: State, gone: nat) {
    forall i :: 2 <= i < |s.workers| ==>
      s.workers[i] == if i < gone then Free(Exited, TERM) else Free(Head, INIT)
  }

  // One fiber, in state st, carries submission 0.
  ghost predicate OneFiber(s: State, q: seq<Entry>, st: FState, active: int) {
    && s.g.queue == q && s.g.heap.Keys == {0} && s.g.heap[0] == FiberObject(st, Some(0)) && s.g.active == active
    && s.g.accepted == multiset{0} && s.g.finished == multiset{} && !s.doomed
  }

  // Thread w, 0 or 1, is `me`, the other one of the two is `you`.
  ghost predicate Snapshot(s: State, w: nat, me: Worker, you: Worker, q: seq<Entry>, st: FState, active: int) {
    && w < 2 <= |s.workers| && s.workers[w] == me && s.workers[1 - w] == you && OneFiber(s, q, st, active)
  }

  // Only worker w has changed besides the shared state.
  ghost predicate Moved1(s: State, w: nat, t: State) {
    w < |s.workers| && w < |t.workers| && t == s.(g := t.g, workers := s.workers[w := t.workers[w]])
    && t.g.stopping == s.g.stopping && t.g.autoStop == s.g.autoStop
  }

  lemma SameOthers(s: State, w: nat, t: State, n: nat, useCaller: bool, gone: nat)
    requires Moved1(s, w, t) && w < 2 && Waiting(s, n, useCaller) && Others(s, gone)
    ensures Waiting(t, n, useCaller) && Others(t, gone)
  {
  }

  // start(), one fiber submitted from outside, then stop() up to the point where it waits for the threads.
  lemma Begin(n: nat, useCaller: bool) returns (s: State)
    requires n >= 2
    ensures Reachable(s) && Waiting(s, n, useCaller) && Others(s, 2)
    ensures Snapshot(s, 1, Free(Head, INIT), Free(Head, INIT), [REQUEUED], INIT, 0)
  {
    s := Init(n, useCaller);
    assert Execute(s, []) == Some(s);
    s := Next(s, Start);
    s := Next(s, Outside(NewFiber(0, 0), -1));
    s := StopWaitsFor(s);
  }

  // stop(), up to where it waits; the root fiber is called if there is something to do.
  lemma StopWaitsFor(s: State) returns (t: State)
    requires Reachable(s) && s.stop == NotCalled && s.pool > 0 && (s.root ==> s.g.queue != [])
    requires |s.workers| == s.pool + if s.root then 1 else 0
    ensures Reachable(t)
    ensures t == s.(g := s.g.(autoStop := true, stopping := true), stop := if s.root then WaitRoot else Joining,
                    workers := if s.root then s.workers[s.pool := Woken(s.workers[s.pool])] else s.workers)
  {
    t := NextStop(s);
    t := NextStop(t);
    t := NextStop(t);
    t := NextStop(t);
  }

  // Thread w takes the fiber and runs it.
  lemma Takes(s: State, w: nat, idle: FState, you: Worker, st: FState) returns (t: State)
    requires Reachable(s) && Snapshot(s, w, Free(Head, idle), you, [REQUEUED], st, 0) && (st == INIT || st == HOLD)
    ensures Reachable(t) && Snapshot(t, w, Holding(Running, idle), you, [], EXEC, 1) && Moved1(s, w, t)
  {
    t := NextDoes(s, w, Scan);
    t := NextDoes(t, w, Dispatch(0));
    t := NextDoes(t, w, SwapIn);
  }

  // The fiber yields, and thread w counts down before it queues the fiber again.
  lemma CountsDown(s: State, w: nat, idle: FState, you: Worker) returns (t: State)
    requires Reachable(s) && Snapshot(s, w, Holding(Running, idle), you, [], EXEC, 1)
    ensures Reachable(t) && Snapshot(t, w, Holding(Counted, idle), you, [], HOLD, 0) && Moved1(s, w, t)
  {
    t := NextDoes(s, w, Yield(true));
    t := NextDoes(t, w, Decrement);
  }

  lemma QueuesAgain(s: State, w: nat, idle: FState, you: Worker) returns (t: State)
    requires Reachable(s) && Snapshot(s, w, Holding(Counted, idle), you, [], HOLD, 0)
    ensures Reachable(t) && Snapshot(t, w, Free(Head, idle), you, [REQUEUED], HOLD, 0) && Moved1(s, w, t)
  {
    t := NextDoes(s, w, Decide);
    t := NextDoes(t, w, Push);
    t := NextDoes(t, w, Clear);
  }

  // With the queue empty and the active count at zero, a thread at its loop head ends its idle fiber ...
  lemma EntersIdle(s: State, w: nat, you: Worker, st: FState, active: int) returns (t: State)
    requires Reachable(s) && Snapshot(s, w, Free(Head, INIT), you, [], st, active)
    ensures Reachable(t) && Snapshot(t, w, Free(IdleRun, EXEC), you, [], st, active) && Moved1(s, w, t)
  {
    t := NextDoes(s, w, Scan);
    t := NextDoes(t, w, IdleEnter);
  }

  lemma EndsIdle(s: State, w: nat, you: Worker, st: FState) returns (t: State)
    requires Reachable(s) && Snapshot(s, w, Free(IdleRun, EXEC), you, [], st, 0) && s.g.stopping && s.g.autoStop
    ensures Reachable(t) && Snapshot(t, w, Free(Head, TERM), you, [], st, 0) && Moved1(s, w, t)
  {
    t := NextDoes(s, w, IdleCheck);
    t := NextDoes(t, w, IdleLeave);
  }

  // ... and leaves.
  lemma Leaves(s: State, w: nat, you: Worker, st: FState) returns (t: State)
    requires Reachable(s) && Snapshot(s, w, Free(Head, TERM), you, [], st, 0)
    ensures Reachable(t) && Snapshot(t, w, Free(Exited, TERM), you, [], st, 0) && Moved1(s, w, t)
  {
    t := NextDoes(s, w, Scan);
    t := NextDoes(t, w, Break);
  }

  // Thread 1 runs the fiber and counts down while thread 0 is in its idle fiber.
  lemma CountedEarly(n: nat, useCaller: bool) returns (s: State)
    requires n >= 2
    ensures Reachable(s) && Waiting(s, n, useCaller) && Others(s, 2)
    ensures Snapshot(s, 0, Free(IdleRun, EXEC), Holding(Counted, INIT), [], HOLD, 0)
  {
    var r := Begin(n, useCaller);
    s := Takes(r, 1, INIT, Free(Head, INIT), INIT);
    SameOthers(r, 1, s, n, useCaller, 2);
    r := s;
    s := EntersIdle(r, 0, Holding(Running, INIT), EXEC, 1);
    SameOthers(r, 0, s, n, useCaller, 2);
    r := s;
    s := CountsDown(r, 1, INIT, Free(IdleRun, EXEC));
    SameOthers(r, 1, s, n, useCaller, 2);
  }

  // A thread from number 2 on finds nothing to do and leaves.
  lemma OneLeaves(s: State, i: nat) returns (t: State)
    requires Reachable(s) && i < |s.workers| && s.workers[i] == Free(Head, INIT) && Stopping(s.g)
    ensures Reachable(t) && t == s.(workers := s.workers[i := Free(Exited, TERM)])
  {
    t := OneEnds(s, i);
    var r := t;
    t := NextDoes(t, i, Scan);
    t := NextDoes(t, i, Break);
    assert t.workers == s.workers[i := Free(Exited, TERM)];
  }

  lemma OneEnds(s: State, i: nat) returns (t: State)
    requires Reachable(s) && i < |s.workers| && s.workers[i] == Free(Head, INIT) && Stopping(s.g)
    ensures Reachable(t) && t == s.(workers := s.workers[i := Free(Head, TERM)])
  {
    var r := OneEnters(s, i);
    t := NextDoes(r, i, IdleCheck);
    t := NextDoes(t, i, IdleLeave);
    assert t.workers == s.workers[i := Free(Head, TERM)];
  }

  lemma OneEnters(s: State, i: nat) returns (t: State)
    requires Reachable(s) && i < |s.workers| && s.workers[i] == Free(Head, INIT) && s.g.queue == []
    ensures Reachable(t)
    ensures t == s.(g := s.g.(idling := s.g.idling + 1), workers := s.workers[i := Free(IdleRun, EXEC)])
  {
    t := NextDoes(s, i, Scan);
    t := NextDoes(t, i, IdleEnter);
    assert t.workers == s.workers[i := Free(IdleRun, EXEC)];
  }

  lemma {:induction false} OthersLeave(s: State, n: nat, useCaller: bool, gone: nat) returns (t: State)
    requires Reachable(s) && Waiting(s, n, useCaller) && 2 <= gone <= n && Others(s, gone) && Stopping(s.g)
    ensures Reachable(t) && Waiting(t, n, useCaller) && Others(t, n) && t.g == s.g
    ensures t.workers[0] == s.workers[0] && t.workers[1] == s.workers[1] && t.doomed == s.doomed
    decreases n - gone
  {
    if gone == n {
      t := s;
    } else {
      t := OneLeaves(s, gone);
      t := OthersLeave(t, n, useCaller, gone + 1);
    }
  }

  // stopping() does not mean that no work is left: it may hold while submission 0 waits in a worker's hands.
  lemma StoppingIsNotDrained() returns (s: State)
    ensures Reachable(s) && Stopping(s.g) && Manned(s) && !s.late && !s.doomed
    ensures s.g.finished[0] == 0 < s.g.accepted[0] && Pending(s, false, 0) == 1
  {
    s := CountedEarly(2, false);
    ReachableGood(s);
    assert Pending(s, false, 0) + s.g.finished[0] == s.g.accepted[0];
  }

  // The threads from number 2 on leave, thread 0's idle fiber ends, and thread 1 queues the fiber again.
  lemma LeftToTwo(n: nat, useCaller: bool) returns (s: State)
    requires n >= 2
    ensures Reachable(s) && Waiting(s, n, useCaller) && Others(s, n)
    ensures Snapshot(s, 1, Free(Head, INIT), Free(Head, TERM), [REQUEUED], HOLD, 0)
  {
    var r := CountedEarly(n, useCaller);
    s := OthersLeave(r, n, useCaller, 2);
    r := s;
    s := EndsIdle(r, 0, Holding(Counted, INIT), HOLD);
    SameOthers(r, 0, s, n, useCaller, n);
    r := s;
    s := QueuesAgain(r, 1, INIT, Free(Head, TERM));
    SameOthers(r, 1, s, n, useCaller, n);
  }

  // Thread 0 takes the fiber, thread 1 enters its idle fiber, and thread 0 counts down.
  lemma CountedAgain(n: nat, useCaller: bool) returns (s: State)
    requires n >= 2
    ensures Reachable(s) && Waiting(s, n, useCaller) && Others(s, n)
    ensures Snapshot(s, 0, Holding(Counted, TERM), Free(IdleRun, EXEC), [], HOLD, 0)
  {
    var r := LeftToTwo(n, useCaller);
    s := Takes(r, 0, TERM, Free(Head, INIT), HOLD);
    SameOthers(r, 0, s, n, useCaller, n);
    r := s;
    s := EntersIdle(r, 1, Holding(Running, TERM), EXEC, 1);
    SameOthers(r, 1, s, n, useCaller, n);
    r := s;
    s := CountsDown(r, 0, TERM, Free(IdleRun, EXEC));
    SameOthers(r, 0, s, n, useCaller, n);
  }

  // Thread 1's idle fiber ends the same way, and it leaves while thread 0 still has the fiber.
  lemma LeftAlone(n: nat, useCaller: bool) returns (s: State)
    requires n >= 2
    ensures Reachable(s) && Waiting(s, n, useCaller) && Others(s, n)
    ensures Snapshot(s, 0, Holding(Running, TERM), Free(Exited, TERM), [], EXEC, 1)
  {
    var r := CountedAgain(n, useCaller);
    s := EndsIdle(r, 1, Holding(Counted, TERM), HOLD);
    SameOthers(r, 1, s, n, useCaller, n);
    r := s;
    s := Leaves(r, 1, Holding(Counted, TERM), HOLD);
    SameOthers(r, 1, s, n, useCaller, n);
    r := s;
    s := QueuesAgain(r, 0, TERM, Free(Exited, TERM));
    SameOthers(r, 0, s, n, useCaller, n);
    r := s;
    s := Takes(r, 0, TERM, Free(Exited, TERM), HOLD);
    SameOthers(r, 0, s, n, useCaller, n);
  }

  // All threads but thread 0 have left, and callable 1 is queued for one of them.
  ghost predicate Lost(s: State, n: nat, useCaller: bool, me: Worker, active: int) {
    && 2 <= n == |s.workers| && s.root == useCaller && s.pool == (if useCaller then n - 1 else n)
    && s.started && !s.late && s.doomed && s.workers[0] == me
    && (forall i :: 1 <= i < n ==> s.workers[i] == Free(Exited, TERM))
    && s.g.queue == [Entry(None, Some(1), 1)] && s.g.accepted[1] == 1 && s.g.active == active
  }

  predicate Ended(s: State) {
    0 in s.g.heap && s.g.heap[0].state == TERM
  }

  // The task submits a callable for thread 1 and returns.
  lemma SubmitsForTheGone(s: State, n: nat, useCaller: bool) returns (t: State)
    requires Reachable(s) && Waiting(s, n, useCaller) && Others(s, n)
    requires Snapshot(s, 0, Holding(Running, TERM), Free(Exited, TERM), [], EXEC, 1)
    ensures Reachable(t) && Lost(t, n, useCaller, Holding(Backed, TERM), 1) && Ended(t) && t.stop == s.stop
  {
    t := NextDoes(s, 0, Submit(Callable(1), 1));
    assert t.doomed && t.workers == s.workers;
    t := NextDoes(t, 0, Finish(false));
  }

  // Thread 0 counts down and sees that the fiber has finished.
  lemma LetsGo(s: State, n: nat, useCaller: bool) returns (t: State)
    requires Reachable(s) && Lost(s, n, useCaller, Holding(Backed, TERM), 1) && Ended(s)
    ensures Reachable(t) && Lost(t, n, useCaller, Free(Head, TERM), 0) && t.stop == s.stop
  {
    t := NextDoes(s, 0, Decrement);
    t := NextDoes(t, 0, Decide);
  }

  // Thread 0 finds nothing it may take and leaves as well.
  lemma LastLeaves(s: State, n: nat, useCaller: bool) returns (t: State)
    requires Reachable(s) && Lost(s, n, useCaller, Free(Head, TERM), 0)
    ensures Reachable(t) && Lost(t, n, useCaller, Free(Exited, TERM), 0) && t.stop == s.stop
  {
    t := NextDoes(s, 0, Scan);
    t := NextDoes(t, 0, Break);
  }

  lemma StopEnds(s: State, n: nat, useCaller: bool) returns (t: State)
    requires Reachable(s) && Lost(s, n, useCaller, Free(Exited, TERM), 0)
    requires s.stop == if useCaller then WaitRoot else Joining
    ensures Reachable(t) && t == s.(stop := Returned)
  {
    t := s;
    if useCaller {
      t := NextStop(t);
    }
    t := NextStop(t);
  }

  // With any number of threads from two on, the caller's among them or not, work that a task pins to a thread that has
  // left is lost: stop() has returned, the pool was started and nothing came late, but callable 1, accepted for thread
  // 1, is still queued and has never been started.
  lemma PinnedWorkIsLost(n: nat, useCaller: bool) returns (s: State)
    requires n >= 2
    ensures Reachable(s) && |s.workers| == n && s.root == useCaller
    ensures s.stop == Returned && Manned(s) && !s.late && s.doomed && s.g.queue != []
    ensures s.g.accepted[1] == 1 && s.g.starts[1] == 0
  {
    s := LeftAlone(n, useCaller);
    s := SubmitsForTheGone(s, n, useCaller);
    s := LetsGo(s, n, useCaller);
    s := LastLeaves(s, n, useCaller);
    s := StopEnds(s, n, useCaller);
    ReachableGood(s);
    assert s.g.queue[..0] == [];
    assert Work(s.g.queue, s.g.heap, true, 1) == 1;
    assert Pending(s, true, 1) + s.g.starts[1] == s.g.accepted[1];
  }

  // stop() has returned, there was a thread to run, and nothing came from outside after stop() began.
  predicate Settled(s: State) {
    s.stop == Returned && Manned(s) && !s.late
  }

  // So whatever the tasks pin, a scheduler is drained whenever stop() has returned, exactly if it has one thread.
  lemma AlwaysDrainedOnlyAlone(n: nat, useCaller: bool)
    requires n > 0
    ensures (forall s :: Reachable(s) && |s.workers| == n && s.root == useCaller && Settled(s) ==> s.g.queue == [])
            <==> n == 1
  {
    if n == 1 {
      forall s | Reachable(s) && |s.workers| == n && s.root == useCaller && Settled(s)
        ensures s.g.queue == []
      {
        Drained(s);
      }
    } else {
      var s := PinnedWorkIsLost(n, useCaller);
    }
  }

  // The only thread, with its idle fiber ended, and nothing started so far.
  ghost predicate LastOne(s: State, pc: Pc, stop: StopPc, q: seq<Entry>) {
    && s.workers == [Free(pc, TERM)] && s.pool == 1 && !s.root && s.started && !s.stray && s.stop == stop
    && s.g.queue == q && s.g.heap == map[] && s.g.starts == multiset{}
  }

  lemma IdleAlone() returns (s: State)
    ensures Reachable(s) && LastOne(s, Head, Joining, []) && s.g.accepted == multiset{}
  {
    s := Init(1, false);
    assert Execute(s, []) == Some(s);
    s := Next(s, Start);
    s := StopWaitsFor(s);
    s := OneEnds(s, 0);
  }

  // Work submitted from outside after stop() began may be lost: here a callable arrives while stop() waits for the only
  // thread, which has just found nothing to do.
  lemma LateWorkIsLost() returns (s: State)
    ensures Reachable(s) && s.stop == Returned && s.started && s.late && s.doomed && !s.stray
    ensures s.g.queue != [] && s.g.accepted[0] == 1 && s.g.starts[0] == 0
  {
    s := IdleAlone();
    s := NextDoes(s, 0, Scan);
    assert LastOne(s, NoEntry, Joining, []);
    s := Next(s, Outside(Callable(0), -1));
    assert s.doomed;
    s := NextDoes(s, 0, Break);
    s := NextStop(s);
  }
}
