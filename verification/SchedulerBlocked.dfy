// Entries that no thread will take, and why stop() does not return while one of them is queued.
module SchedulerBlocked {
  import opened Options
  import opened FiberStates
  import opened SchedulerModel
  import opened SchedulerInvariant
  import opened SchedulerPreservation
  import opened SchedulerDrain

  lemma LiveBeforeStop(s: State)
    requires Good(s) && StopOk(s) && s.stop == NotCalled
    ensures forall i: int :: 0 <= i < |s.workers| ==> Live(s, i)
  {
    forall i: int | 0 <= i < |s.workers| ensures Live(s, i) {
      assert WorkerOk(s.workers[i], s.g.heap);
    }
  }

  // Before stop() begins, only a thread that does not exist cannot take an entry.
  lemma StartUntakeable(s: State, e: Entry)
    requires Good(s) && StopOk(s) && s.stop == NotCalled && e in s.g.queue && Untakeable(s, e)
    ensures e in DoStart(s).g.queue && Untakeable(DoStart(s), e)
  {
    LiveBeforeStop(s);
    hide Good;
    hide Live;
    assert |DoStart(s).workers| == |s.workers| > 0;
    NotLiveOutside(DoStart(s), e.thread);
    assert Live(s, 0);
  }

  lemma NotLiveOutside(s: State, i: int)
    ensures Live(s, i) ==> 0 <= i < |s.workers|
  {
  }

  lemma DoesUntakeable(s: State, w: nat, a: Action, e: Entry)
    requires Step(s, Does(w, a)).Some? && e in s.g.queue && Untakeable(s, e)
    ensures e in Step(s, Does(w, a)).value.g.queue && Untakeable(Step(s, Does(w, a)).value, e)
  {
    DoesTook(s, w, a);
    hide Act;
    hide Step;
    TookUntakeable(s, w, a, Step(s, Does(w, a)).value, e);
  }

  lemma StopUntakeable(s: State, e: Entry)
    requires Good(s) && DoStop(s).Some? && e in s.g.queue && Untakeable(s, e)
    ensures e in DoStop(s).value.g.queue && Untakeable(DoStop(s).value, e)
  {
    StopShape(s);
    hide DoStop;
    StopWatches(s, e.thread);
  }

  lemma OutsideUntakeable(s: State, item: Item, thread: int, e: Entry)
    requires Step(s, Outside(item, thread)).Some? && e in s.g.queue && Untakeable(s, e)
    ensures var t := Step(s, Outside(item, thread)).value; e in t.g.queue && Untakeable(t, e)
  {
    OutsideCame(s, item, thread);
    hide Step;
    hide Watched;
    CameQueued(s, item, thread, Step(s, Outside(item, thread)).value);
  }

  lemma StepUntakeable(s: State, l: Label, e: Entry)
    requires Good(s) && StopOk(s) && Step(s, l).Some? && e in s.g.queue && Untakeable(s, e)
    ensures e in Step(s, l).value.g.queue && Untakeable(Step(s, l).value, e)
  {
    hide Act;
    hide DoStop;
    hide Watched;
    match l
    case Does(w, a) => DoesUntakeable(s, w, a, e);
    case Stop => StopUntakeable(s, e);
    case Start => StartUntakeable(s, e);
    case Outside(item, thread) => OutsideUntakeable(s, item, thread, e);
  }

  // As long as something is queued, no idle fiber ends.
  lemma StepIdle(s: State, l: Label, i: nat)
    requires s.g.queue != [] && Step(s, l).Some? && i < |s.workers|
    ensures |Step(s, l).value.workers| == |s.workers|
    ensures s.workers[i].idle != TERM ==> Step(s, l).value.workers[i].idle != TERM
    ensures s.workers[i].pc != Dormant ==> Step(s, l).value.workers[i].pc != Dormant
  {
    match l
    case Does(w, a) =>
      DoesTook(s, w, a);
      var t := Step(s, l).value;
      ActAwake(s.workers[w], w, s.g, a, t.workers[w], t.g);
      if t.workers[w].idle == TERM && s.workers[w].idle != TERM {
        ActEnds(s.workers[w], w, s.g, a, t.workers[w], t.g);
      }
    case Stop => StopShape(s);
    case Start =>
    case Outside(item, thread) =>
  }

  // Worker i has been woken and its idle fiber has not ended.
  predicate Stays(s: State, i: nat) {
    i < |s.workers| && s.workers[i].pc != Dormant && s.workers[i].idle != TERM
  }

  lemma {:induction false} ExecuteStays(s: State, run: seq<Label>, e: Entry, i: nat)
    requires Good(s) && DrainOk(s) && Execute(s, run).Some? && e in s.g.queue && Untakeable(s, e) && Stays(s, i)
    ensures Stays(Execute(s, run).value, i)
    decreases run
  {
    if run != [] {
      StepKeeps(s, run[0]);
      StepDrain(s, run[0]);
      StepUntakeable(s, run[0], e);
      StepIdle(s, run[0], i);
      hide Step;
      ExecuteStays(Step(s, run[0]).value, run[1..], e, i);
    }
  }

  // An entry pinned to a thread that does not exist, has left or will not be woken blocks stop() for good, as soon as
  // some other thread has been woken whose idle fiber has not ended: whatever happens, stop() does not return.
  lemma UntakeableBlocksStop(s: State, e: Entry, i: nat, run: seq<Label>, t: State)
    requires Reachable(s) && e in s.g.queue && Untakeable(s, e) && Stays(s, i) && Execute(s, run) == Some(t)
    ensures t.stop != Returned
  {
    ReachableDrain(s);
    ExecuteKeeps(s, run);
    ExecuteDrain(s, run);
    ExecuteStays(s, run, e, i);
    StaysNotReturned(t, i);
  }

  lemma StaysNotReturned(s: State, i: nat)
    requires Good(s) && StopOk(s) && Stays(s, i)
    ensures s.stop != Returned
  {
    assert WorkerOk(s.workers[i], s.g.heap);
  }

  ghost predicate Blocked(s: State) {
    !SomeEnded(s) && exists e :: e in s.g.queue && Untakeable(s, e)
  }

  lemma StepBlocked(s: State, l: Label)
    requires Good(s) && StopOk(s) && Step(s, l).Some? && Blocked(s)
    ensures Blocked(Step(s, l).value)
  {
    var e :| e in s.g.queue && Untakeable(s, e);
    StepUntakeable(s, l, e);
    var t := Step(s, l).value;
    WorkersStay(s, l);
    forall i | 0 <= i < |t.workers| ensures t.workers[i].idle != TERM {
      StepIdle(s, l, i);
    }
  }

  lemma WorkersStay(s: State, l: Label)
    requires Step(s, l).Some?
    ensures |Step(s, l).value.workers| == |s.workers|
  {
    match l
    case Does(w, a) => DoesTook(s, w, a);
    case Stop => StopShape(s);
    case Start =>
    case Outside(_, _) =>
  }

  lemma {:induction false} ExecuteBlocked(s: State, run: seq<Label>)
    requires Good(s) && DrainOk(s) && Execute(s, run).Some? && Blocked(s)
    ensures Blocked(Execute(s, run).value)
    decreases run
  {
    if run != [] {
      StepKeeps(s, run[0]);
      StepDrain(s, run[0]);
      StepBlocked(s, run[0]);
      hide Step;
      ExecuteBlocked(Step(s, run[0]).value, run[1..]);
    }
  }

  // The same for any number of threads, woken yet or not, as long as none of their idle fibers has ended, provided
  // there is a thread to run anything and nothing comes from outside after stop() began. With one thread its idle fiber
  // cannot have ended while something is queued.
  lemma ForeignPinBlocksStop(s: State, e: Entry, run: seq<Label>, t: State)
    requires Reachable(s) && e in s.g.queue && Untakeable(s, e) && (|s.workers| == 1 || !SomeEnded(s))
    requires Execute(s, run) == Some(t) && Manned(t) && !t.late
    ensures t.stop != Returned
  {
    hide WorkerOk;
    hide Untakeable;
    ReachableDrain(s);
    StaysEarly(s, run);
    if |s.workers| == 1 {
      LoneIdle(s);
    }
    assert Blocked(s);
    ExecuteKeeps(s, run);
    ExecuteDrain(s, run);
    ExecuteBlocked(s, run);
    if t.stop == Returned {
      ReturnedUnblocked(t);
    }
  }

  lemma LoneIdle(s: State)
    requires LoneOk(s) && |s.workers| == 1 && !s.late && s.g.queue != []
    ensures !SomeEnded(s)
  {
  }

  // An outside submission after stop() began is remembered.
  lemma {:induction false} StaysEarly(s: State, run: seq<Label>)
    requires Execute(s, run).Some?
    ensures s.late ==> Execute(s, run).value.late
    decreases run
  {
    if run != [] {
      StepLate(s, run[0]);
      hide Step;
      StaysEarly(Step(s, run[0]).value, run[1..]);
    }
  }

  lemma StepLate(s: State, l: Label)
    requires Step(s, l).Some?
    ensures s.late ==> Step(s, l).value.late
  {
    match l
    case Does(w, a) => DoesTook(s, w, a);
    case Stop => StopShape(s);
    case Start =>
    case Outside(_, _) =>
  }

  lemma NobodyWoken(s: State)
    requires WorkersOk(s) && StopOk(s) && s.stop == Returned && !SomeEnded(s)
    ensures forall i :: 0 <= i < |s.workers| ==> s.workers[i].pc == Dormant
  {
    forall i | 0 <= i < |s.workers| ensures s.workers[i].pc == Dormant {
      assert WorkerOk(s.workers[i], s.g.heap) && Asleep(s.workers[i]);
    }
  }

  lemma ReturnedUnblocked(s: State)
    requires Good(s) && DrainOk(s) && s.stop == Returned && Manned(s) && !s.late
    ensures !Blocked(s)
  {
    ReturnedNotLive(s);
    if !SomeEnded(s) {
      NobodyWoken(s);
    }
  }
}
