// The drain theorem: when stop() returns, nothing is left to do, unless work has come that no thread would look at.
module SchedulerDrain {
  import opened Options
  import opened FiberStates
  import opened SchedulerModel
  import opened SchedulerInvariant
  import opened SchedulerPreservation

  // Outside of `run`.
  predicate Asleep(w: Worker) {
    w.pc == Dormant || w.pc == Exited
  }

  // How far stop() has come, and what that says about the workers.
  ghost predicate StopOk(s: State) {
    && s.g.autoStop == (s.stop != NotCalled)
    && (!s.g.autoStop ==> forall i :: 0 <= i < |s.workers| ==> s.workers[i].idle != TERM)
    && (s.started ==> forall i :: 0 <= i < s.pool && i < |s.workers| ==> s.workers[i].pc != Dormant)
    && (s.stop == EarlyCheck ==> s.root && s.pool == 0)
    && FlagSet(s)
    && (s.stop == WaitRoot ==> s.root && s.pool < |s.workers| && s.workers[s.pool].pc != Dormant)
    && (s.stop == Joining && s.root && s.pool < |s.workers| ==> Asleep(s.workers[s.pool]))
    && (s.stop == Returned ==> forall i :: 0 <= i < |s.workers| ==> Asleep(s.workers[i]))
  }

  // Some idle fiber has ended, so its worker leaves as soon as it finds nothing to take.
  ghost predicate SomeEnded(s: State) {
    exists i :: 0 <= i < |s.workers| && s.workers[i].idle == TERM
  }

  // No worker will ever take the entry.
  predicate Untakeable(s: State, e: Entry) {
    !Watched(s, e.thread)
  }

  // An idle fiber ends only on an empty queue, and every entry queued since then was watched when it came.
  ghost predicate PinsOk(s: State) {
    SomeEnded(s) && !s.doomed ==> forall e :: e in s.g.queue ==> !Untakeable(s, e)
  }

  ghost predicate DoomedOk(s: State) {
    s.doomed ==>
      && s.stop != NotCalled && (exists e :: e in s.g.queue && Untakeable(s, e))
      && (s.late || (s.stray && exists i :: 0 <= i < |s.workers| && s.workers[i].pc != Dormant))
  }

  // A scheduler with one worker: its idle fiber ends only when there is nothing left.
  ghost predicate LoneOk(s: State) {
    |s.workers| == 1 && !s.late && s.workers[0].idle == TERM ==>
      s.g.queue == [] && (s.workers[0].pc == IdleBack || s.workers[0].pc == Head || Gone(s.workers[0]))
  }

  // There is a thread to run what comes before stop().
  predicate Manned(s: State) {
    s.started || s.root
  }

  ghost predicate QueueWatched(s: State) {
    s.stop != NotCalled && Manned(s) && !s.doomed && s.g.queue != [] ==> exists i: nat :: Live(s, i)
  }

  ghost predicate DrainOk(s: State) {
    StopOk(s) && PinsOk(s) && DoomedOk(s) && LoneOk(s) && QueueWatched(s)
  }

  // -------------------------------------------------------------------------------------------
  // One action of one worker.

  lemma ActBecomesGone(me: Worker, w: nat, g: Shared, a: Action, me': Worker, g': Shared)
    requires Act(me, w, g, a) == Moved(me', g') && Gone(me')
    ensures g' == g
    ensures !Gone(me) ==>
      me.pc == Head && a == Scan && me.idle == TERM && FirstTakeable(g.queue, g.heap, w) == |g.queue|
  {
  }

  lemma ActStaysGone(me: Worker, w: nat, g: Shared, a: Action, me': Worker, g': Shared)
    requires Act(me, w, g, a) == Moved(me', g') && Gone(me)
    ensures Gone(me') && g' == g
  {
  }

  lemma ActFlags(me: Worker, w: nat, g: Shared, a: Action, me': Worker, g': Shared)
    requires Act(me, w, g, a) == Moved(me', g')
    ensures g'.autoStop == g.autoStop && g'.stopping == g.stopping
  {
  }

  lemma ActAwake(me: Worker, w: nat, g: Shared, a: Action, me': Worker, g': Shared)
    requires Act(me, w, g, a) == Moved(me', g')
    ensures !Asleep(me) && me'.pc != Dormant
  {
  }

  // An idle fiber ends only when stopping() holds.
  lemma ActEnds(me: Worker, w: nat, g: Shared, a: Action, me': Worker, g': Shared)
    requires Act(me, w, g, a) == Moved(me', g') && me'.idle == TERM && me.idle != TERM
    ensures g' == g && Stopping(g)
  {
  }

  // What a worker adds to the queue is unpinned or a submission, and the worker is not gone then.
  lemma ActAdds(me: Worker, w: nat, g: Shared, a: Action, me': Worker, g': Shared, e: Entry)
    requires Act(me, w, g, a) == Moved(me', g') && e in g'.queue && e !in g.queue
    ensures !Gone(me') && (e.thread == -1 || (a.Submit? && e.thread == a.thread))
  {
  }

  lemma ActSubmits(me: Worker, w: nat, g: Shared, a: Action, me': Worker, g': Shared)
    requires Act(me, w, g, a) == Moved(me', g') && a.Submit?
    ensures me' == me && !Gone(me) && exists e :: e in g'.queue && e.thread == a.thread
  {
    assert g'.queue[|g.queue|].thread == a.thread;
  }

  lemma ActLone(me: Worker, w: nat, g: Shared, a: Action, me': Worker, g': Shared)
    requires Act(me, w, g, a) == Moved(me', g') && me'.idle == TERM && (me.pc == IdleRun <==> me.idle == EXEC)
    requires me.idle == TERM ==> g.queue == [] && (me.pc == IdleBack || me.pc == Head || Gone(me))
    ensures g'.queue == [] && (me'.pc == IdleBack || me'.pc == Head || Gone(me'))
  {
  }

  // An entry that worker w may not take stays in the queue.
  lemma ScanLeaves(me: Worker, w: nat, g: Shared, e: Entry)
    requires e in g.queue && e.thread != -1 && e.thread != w && DoScan(me, w, g).Moved?
    ensures e in DoScan(me, w, g).g.queue
  {
    var i :| 0 <= i < |g.queue| && g.queue[i] == e;
    var k := FirstTakeable(g.queue, g.heap, w);
    if k < |g.queue| {
      assert Without(g.queue, k)[if i < k then i else i - 1] == g.queue[i];
    }
  }

  lemma ActLeaves(me: Worker, w: nat, g: Shared, a: Action, e: Entry)
    requires Act(me, w, g, a).Moved? && e in g.queue && (me.pc == Head ==> e.thread != -1 && e.thread != w)
    ensures e in Act(me, w, g, a).g.queue
  {
    if me.pc == Head {
      ScanLeaves(me, w, g, e);
    } else {
      ActPushesOnly(me, w, g, a);
    }
  }

  // A worker that finds nothing to take sees no entry that may run on it.
  lemma NothingForMe(s: State, w: nat, e: Entry)
    requires EntriesOk(s.g) && e in s.g.queue && FirstTakeable(s.g.queue, s.g.heap, w) == |s.g.queue|
    ensures e.thread != -1 && e.thread != w
  {
    var i :| 0 <= i < |s.g.queue| && s.g.queue[i] == e;
    assert !Takeable(s.g.queue[i], s.g.heap, w);
    assert EntryOk(e, s.g.heap);
  }

  // -------------------------------------------------------------------------------------------
  // Steps of the workers.

  // t is s after worker w has taken action a.
  ghost predicate Took(s: State, w: nat, a: Action, t: State) {
    && w < |s.workers| && w < |t.workers| && Act(s.workers[w], w, s.g, a) == Moved(t.workers[w], t.g)
    && t == s.(g := t.g, workers := s.workers[w := t.workers[w]], stray := t.stray, doomed := t.doomed)
    && t.stray == (s.stray || (PinsLate(s, a) && a.thread != w))
    && t.doomed == (s.doomed || (PinsLate(s, a) && !Live(s, a.thread)))
  }

  lemma DoesTook(s: State, w: nat, a: Action)
    requires Step(s, Does(w, a)).Some?
    ensures Took(s, w, a, Step(s, Does(w, a)).value)
  {
  }

  lemma TookLive(s: State, w: nat, a: Action, t: State, i: int)
    requires Took(s, w, a, t)
    ensures i != w ==> Live(t, i) == Live(s, i)
    ensures Live(t, w) == !Gone(t.workers[w]) && (Live(t, w) ==> Live(s, w))
  {
    ActAwake(s.workers[w], w, s.g, a, t.workers[w], t.g);
    if Gone(s.workers[w]) {
      ActStaysGone(s.workers[w], w, s.g, a, t.workers[w], t.g);
    }
  }

  // What nobody watches is not watched later.
  lemma TookUnwatched(s: State, w: nat, a: Action, t: State, thread: int)
    requires Took(s, w, a, t) && !Watched(s, thread)
    ensures !Watched(t, thread)
  {
    hide Took;
    forall i: int ensures Live(t, i) ==> Live(s, i) {
      TookLive(s, w, a, t, i);
      TookLive(s, w, a, t, w);
    }
  }

  lemma TookUntakeable(s: State, w: nat, a: Action, t: State, e: Entry)
    requires Took(s, w, a, t) && e in s.g.queue && Untakeable(s, e)
    ensures e in t.g.queue && Untakeable(t, e)
  {
    TookUnwatched(s, w, a, t, e.thread);
    ActAwake(s.workers[w], w, s.g, a, t.workers[w], t.g);
    assert s.workers[w].pc == Head ==> Live(s, w);
    ActLeaves(s.workers[w], w, s.g, a, e);
  }

  lemma TookStopOk(s: State, w: nat, a: Action, t: State)
    requires StopOk(s) && Took(s, w, a, t)
    ensures StopOk(t)
  {
    var me := s.workers[w];
    ActFlags(me, w, s.g, a, t.workers[w], t.g);
    ActAwake(me, w, s.g, a, t.workers[w], t.g);
    if t.workers[w].idle == TERM && me.idle != TERM {
      ActEnds(me, w, s.g, a, t.workers[w], t.g);
    }
    hide Act;
  }

  lemma TookPins(s: State, w: nat, a: Action, t: State)
    requires Good(s) && StopOk(s) && PinsOk(s) && Took(s, w, a, t)
    ensures PinsOk(t)
  {
    var me, me' := s.workers[w], t.workers[w];
    if SomeEnded(t) && !t.doomed {
      if me'.idle == TERM && me.idle != TERM {
        ActEnds(me, w, s.g, a, me', t.g);
      } else {
        assert SomeEnded(s);
        hide Act;
        forall e | e in t.g.queue ensures !Untakeable(t, e) {
          TookReserved(s, w, a, t, e);
        }
      }
    }
  }

  // An entry that was watched, or that comes now and is not doomed, is watched.
  lemma TookReserved(s: State, w: nat, a: Action, t: State, e: Entry)
    requires EntriesOk(s.g) && Took(s, w, a, t) && e in t.g.queue && s.stop != NotCalled
    requires if e in s.g.queue then !Untakeable(s, e) else !t.doomed
    ensures !Untakeable(t, e)
  {
    if e in s.g.queue {
      TookWatches(s, w, a, t, e);
    } else {
      ActAdds(s.workers[w], w, s.g, a, t.workers[w], t.g, e);
      TookLive(s, w, a, t, w);
      TookLive(s, w, a, t, e.thread);
      hide Act;
    }
  }

  lemma TookWatches(s: State, w: nat, a: Action, t: State, e: Entry)
    requires EntriesOk(s.g) && Took(s, w, a, t) && e in s.g.queue && e in t.g.queue && Watched(s, e.thread)
    ensures Watched(t, e.thread)
  {
    var i :| 0 <= i < |s.workers| && Live(s, i) && (e.thread == -1 || e.thread == i);
    TookLive(s, w, a, t, i);
    TookLive(s, w, a, t, w);
    if i == w && Gone(t.workers[w]) {
      ActBecomesGone(s.workers[w], w, s.g, a, t.workers[w], t.g);
      hide Act;
      NothingForMe(s, w, e);
    }
  }

  lemma TookDoomed(s: State, w: nat, a: Action, t: State)
    requires DoomedOk(s) && Took(s, w, a, t)
    ensures DoomedOk(t)
  {
    var me, me' := s.workers[w], t.workers[w];
    ActAwake(me, w, s.g, a, me', t.g);
    if s.doomed {
      var e :| e in s.g.queue && Untakeable(s, e);
      TookUntakeable(s, w, a, t, e);
      hide Act;
    } else if t.doomed {
      ActSubmits(me, w, s.g, a, me', t.g);
      hide Act;
      var e :| e in t.g.queue && e.thread == a.thread;
      TookUnwatched(s, w, a, t, e.thread);
      TookLive(s, w, a, t, w);
      assert e in t.g.queue && Untakeable(t, e);
    }
  }

  lemma TookLone(s: State, w: nat, a: Action, t: State)
    requires WorkersOk(s) && LoneOk(s) && Took(s, w, a, t)
    ensures LoneOk(t)
  {
    if t.workers[w].idle == TERM && |s.workers| == 1 && !s.late {
      assert WorkerOk(s.workers[w], s.g.heap);
      ActLone(s.workers[w], w, s.g, a, t.workers[w], t.g);
    }
  }

  lemma TookWatched(s: State, w: nat, a: Action, t: State)
    requires Good(s) && StopOk(s) && PinsOk(s) && QueueWatched(s) && Took(s, w, a, t)
    ensures QueueWatched(t)
  {
    var me, me' := s.workers[w], t.workers[w];
    TookLive(s, w, a, t, w);
    if s.stop != NotCalled && Manned(t) && !t.doomed && t.g.queue != [] && Gone(me') {
      ActBecomesGone(me, w, s.g, a, me', t.g);
      hide Act;
      if Gone(me) {
        var i: nat :| Live(s, i);
        TookLive(s, w, a, t, i);
      } else {
        assert SomeEnded(s) && s.g.queue[0] in s.g.queue;
        TookWatches(s, w, a, t, s.g.queue[0]);
        WatchedLive(t, s.g.queue[0].thread);
      }
    }
  }

  lemma WatchedLive(s: State, thread: int)
    requires Watched(s, thread)
    ensures exists i: nat :: Live(s, i)
  {
    var i :| 0 <= i < |s.workers| && Live(s, i);
  }

  lemma DoesDrain(s: State, w: nat, a: Action)
    requires Good(s) && DrainOk(s) && Step(s, Does(w, a)).Some?
    ensures DrainOk(Step(s, Does(w, a)).value)
  {
    var t := Step(s, Does(w, a)).value;
    DoesTook(s, w, a);
    hide Took;
    hide Step;
    TookStopOk(s, w, a, t);
    TookPins(s, w, a, t);
    TookDoomed(s, w, a, t);
    TookLone(s, w, a, t);
    TookWatched(s, w, a, t);
  }

  // -------------------------------------------------------------------------------------------
  // Steps of start(), of stop() and of outside callers.

  lemma StopAutoStop(s: State)
    requires DoStop(s).Some?
    ensures DoStop(s).value.g.autoStop == (s.stop == NotCalled || s.g.autoStop)
    ensures DoStop(s).value.stop == EarlyCheck ==> s.root && s.pool == 0
  {
    hide Stopping;
    hide Joinable;
  }

  predicate FlagSet(s: State) {
    s.stop == RootCheck || s.stop == WaitRoot || s.stop == Joining ==> s.g.stopping
  }

  // Once it checks the root fiber, stop() has set its flag, and it waits for the root fiber only if it woke it.
  lemma StopSets(s: State)
    requires FlagSet(s) && DoStop(s).Some?
    ensures FlagSet(DoStop(s).value)
  {
    hide Stopping;
    hide Joinable;
  }

  lemma StopWaitsForRoot(s: State)
    requires DoStop(s).Some?
    ensures DoStop(s).value.stop == WaitRoot ==> WakesRoot(s)
  {
    hide Stopping;
    hide Joinable;
  }

  // How stop() gets to where it waits for the pool, and to its end.
  lemma StopArrives(s: State)
    requires SleepersOk(s) && StopOk(s) && DoStop(s).Some?
    ensures DoStop(s).value.stop == Joining && s.root ==> Asleep(s.workers[s.pool]) && !WakesRoot(s)
    ensures DoStop(s).value.stop == Returned ==>
      !WakesRoot(s) && forall i :: 0 <= i < |s.workers| ==> Asleep(s.workers[i])
  {
    match s.stop
    case EarlyCheck => assert |s.workers| == 1 && s.workers[0].pc == Dormant;
    case Joining =>
    case RootCheck =>
    case WaitRoot =>
    case _ =>
  }

  lemma StopKeepsStopOk(s: State)
    requires SleepersOk(s) && StopOk(s) && DoStop(s).Some?
    ensures StopOk(DoStop(s).value)
  {
    StopShape(s);
    StopAutoStop(s);
    StopArrives(s);
    StopSets(s);
    StopWaitsForRoot(s);
    hide DoStop;
    hide Stopping;
  }

  // While it has not decided about the root fiber, stop() passes it by only if stopping() holds.
  lemma StopDecides(s: State)
    requires SleepersOk(s) && DoStop(s).Some? && s.root && RootUndecided(s.stop)
    ensures RootUndecided(DoStop(s).value.stop) || Stopping(s.g) || WakesRoot(s)
  {
    hide Joinable;
  }

  // stop() never lets a live thread go while there is something to take, and never brings back one that is gone.
  lemma StopLive(s: State, i: int)
    requires Good(s) && DoStop(s).Some?
    ensures s.stop != NotCalled && Live(s, i) ==> Live(DoStop(s).value, i) || Stopping(s.g)
    ensures Live(DoStop(s).value, i) ==> Live(s, i)
  {
    StopShape(s);
    if s.root && RootUndecided(s.stop) {
      StopDecides(s);
    }
    hide DoStop;
    hide Stopping;
    if 0 <= i < |s.workers| {
      assert WorkerOk(s.workers[i], s.g.heap);
    }
  }

  lemma StopBegins(s: State)
    requires Good(s) && StopOk(s) && s.stop == NotCalled && (s.started || s.root)
    ensures Live(DoStop(s).value, if s.root then s.pool else 0)
  {
    assert WorkerOk(s.workers[0], s.g.heap);
  }

  lemma StopWatched(s: State)
    requires Good(s) && StopOk(s) && QueueWatched(s) && DoStop(s).Some?
    ensures QueueWatched(DoStop(s).value)
  {
    var t := DoStop(s).value;
    StopShape(s);
    if Manned(s) && !s.doomed && s.g.queue != [] {
      if s.stop == NotCalled {
        StopBegins(s);
        var i: nat := if s.root then s.pool else 0;
        assert Live(t, i);
      } else {
        var i: nat :| Live(s, i);
        StopLive(s, i);
      }
    }
  }

  // The same, for whole pins.
  lemma StopWatches(s: State, thread: int)
    requires Good(s) && DoStop(s).Some?
    ensures s.stop != NotCalled && Watched(s, thread) ==> Watched(DoStop(s).value, thread) || Stopping(s.g)
    ensures Watched(DoStop(s).value, thread) ==> Watched(s, thread)
  {
    StopShape(s);
    hide DoStop;
    hide Stopping;
    forall i: int
      ensures s.stop != NotCalled && Live(s, i) ==> Live(DoStop(s).value, i) || Stopping(s.g)
      ensures Live(DoStop(s).value, i) ==> Live(s, i)
    {
      StopLive(s, i);
    }
    hide Live;
  }

  lemma StopPins(s: State)
    requires Good(s) && StopOk(s) && PinsOk(s) && DoStop(s).Some?
    ensures PinsOk(DoStop(s).value)
  {
    var t := DoStop(s).value;
    StopShape(s);
    hide DoStop;
    if SomeEnded(t) && !t.doomed {
      assert SomeEnded(s);
      forall e | e in t.g.queue ensures !Untakeable(t, e) {
        assert !Untakeable(s, e);
        StopWatches(s, e.thread);
      }
    }
  }

  lemma StopDoomed(s: State)
    requires Good(s) && DoomedOk(s) && DoStop(s).Some?
    ensures DoomedOk(DoStop(s).value)
  {
    var t := DoStop(s).value;
    StopShape(s);
    hide DoStop;
    if s.doomed {
      var e :| e in s.g.queue && Untakeable(s, e);
      StopWatches(s, e.thread);
      hide Watched;
      if !s.late {
        var i :| 0 <= i < |s.workers| && s.workers[i].pc != Dormant;
        assert t.workers[i].pc != Dormant;
      }
      assert e in t.g.queue && Untakeable(t, e);
    }
  }

  lemma StopLone(s: State)
    requires SleepersOk(s) && WorkersOk(s) && LoneOk(s) && DoStop(s).Some?
    ensures LoneOk(DoStop(s).value)
  {
    StopShape(s);
    hide DoStop;
    assert s.root ==> WorkerOk(s.workers[s.pool], s.g.heap);
  }

  lemma StopDrain(s: State)
    requires Good(s) && DrainOk(s) && DoStop(s).Some?
    ensures DrainOk(DoStop(s).value)
  {
    hide DoStop;
    StopKeepsStopOk(s);
    StopPins(s);
    StopDoomed(s);
    StopLone(s);
    StopWatched(s);
  }

  lemma StartDrain(s: State)
    requires Good(s) && DrainOk(s) && s.stop == NotCalled
    ensures DrainOk(DoStart(s))
  {
  }

  // t is s after an outside submission.
  ghost predicate Came(s: State, item: Item, thread: int, t: State) {
    && Fresh(s.g, item) && t.g == Submitted(s.g, item, thread)
    && t == s.(g := t.g, late := t.late, doomed := t.doomed) && t.late == (s.late || s.stop != NotCalled)
    && t.doomed == (s.doomed || (s.stop != NotCalled && !Watched(s, thread)))
  }

  lemma OutsideCame(s: State, item: Item, thread: int)
    requires Step(s, Outside(item, thread)).Some?
    ensures Came(s, item, thread, Step(s, Outside(item, thread)).value)
  {
    hide Watched;
  }

  lemma CameQueued(s: State, item: Item, thread: int, t: State)
    requires Came(s, item, thread, t)
    ensures |t.g.queue| == |s.g.queue| + 1 && s.g.queue <= t.g.queue && t.g.queue[|s.g.queue|].thread == thread
    ensures forall x :: Watched(t, x) == Watched(s, x)
    ensures t.g.autoStop == s.g.autoStop && t.g.stopping == s.g.stopping
  {
    assert forall i: int :: Live(t, i) == Live(s, i);
  }

  lemma CameDrain(s: State, item: Item, thread: int, t: State)
    requires DrainOk(s) && Came(s, item, thread, t)
    ensures DrainOk(t)
  {
    CameQueued(s, item, thread, t);
    var e := t.g.queue[|s.g.queue|];
    assert t.g.queue == s.g.queue + [e];
    hide Submitted;
    hide Watched;
    if s.doomed {
      var d :| d in s.g.queue && Untakeable(s, d);
      assert d in t.g.queue && Untakeable(t, d);
    } else if t.doomed {
      assert e in t.g.queue && Untakeable(t, e);
    } else if s.stop != NotCalled {
      WatchedLive(t, thread);
    }
  }

  lemma OutsideDrain(s: State, item: Item, thread: int)
    requires DrainOk(s) && Step(s, Outside(item, thread)).Some?
    ensures DrainOk(Step(s, Outside(item, thread)).value)
  {
    OutsideCame(s, item, thread);
    hide Step;
    CameDrain(s, item, thread, Step(s, Outside(item, thread)).value);
  }

  lemma StepDrain(s: State, l: Label)
    requires Good(s) && DrainOk(s) && Step(s, l).Some?
    ensures DrainOk(Step(s, l).value)
  {
    match l
    case Does(w, a) => DoesDrain(s, w, a);
    case Outside(item, thread) => OutsideDrain(s, item, thread);
    case Start => StartDrain(s);
    case Stop => StopDrain(s);
  }

  lemma {:induction false} ExecuteDrain(s: State, run: seq<Label>)
    requires Good(s) && DrainOk(s) && Execute(s, run).Some?
    ensures DrainOk(Execute(s, run).value)
    decreases run
  {
    if run != [] {
      StepKeeps(s, run[0]);
      StepDrain(s, run[0]);
      ExecuteDrain(Step(s, run[0]).value, run[1..]);
    }
  }

  lemma ReachableDrain(s: State)
    requires Reachable(s)
    ensures Good(s) && DrainOk(s)
  {
    var threads: nat, useCaller: bool, run: seq<Label> :|
      threads > 0 && Execute(Init(threads, useCaller), run) == Some(s);
    InitGood(threads, useCaller);
    ExecuteKeeps(Init(threads, useCaller), run);
    ExecuteDrain(Init(threads, useCaller), run);
  }

  lemma {:induction false} AsleepCarryNothing(ws: seq<Worker>, h: Heap, u: bool, j: JobId)
    requires forall i :: 0 <= i < |ws| ==>
      WorkerOk(ws[i], h) && Asleep(ws[i])
    ensures AllHandWork(ws, h, u, j) == 0
  {
    if ws != [] {
      AsleepCarryNothing(ws[..|ws| - 1], h, u, j);
    }
  }

  lemma ReturnedNotLive(s: State)
    requires StopOk(s) && s.stop == Returned
    ensures forall i: nat :: !Live(s, i)
  {
    forall i: nat ensures !Live(s, i) {
      assert i < |s.workers| ==> Asleep(s.workers[i]);
    }
  }

  // A lone worker that has pinned work to another thread keeps its idle fiber, so it has not left.
  lemma LoneNeverDoomed(s: State)
    requires Good(s) && DrainOk(s) && s.stop == Returned && !s.late && |s.workers| == 1
    ensures !s.doomed
  {
    assert WorkerOk(s.workers[0], s.g.heap) && Asleep(s.workers[0]);
  }

  // The drain theorem, for any number of workers, every interleaving and everything that is submitted, by whom and
  // whenever. When stop() has returned, the queue is empty exactly if no work had come after stop() began that no
  // thread would look at any more. Then every submission that was ever accepted has been started exactly once and has
  // finished. This is so in particular if nothing came from outside after stop() began and no task pinned work to a
  // thread other than its own since then, or there is only one thread.
  lemma Drained(s: State)
    requires Reachable(s) && s.stop == Returned && Manned(s)
    ensures s.g.queue == [] <==> !s.doomed
    ensures !s.late && (!s.stray || |s.workers| == 1) ==> !s.doomed
    ensures !s.doomed ==> forall j :: s.g.finished[j] == s.g.starts[j] == s.g.accepted[j]
    ensures s.g.active == 0 && s.g.idling == 0
  {
    ReachableDrain(s);
    ReturnedNotLive(s);
    if |s.workers| == 1 && !s.late {
      LoneNeverDoomed(s);
    }
    if !s.doomed {
      AllDone(s);
    }
    AsleepUncounted(s.workers);
  }

  lemma AllDone(s: State)
    requires Good(s) && s.g.queue == [] && forall i :: 0 <= i < |s.workers| ==> Asleep(s.workers[i])
    ensures forall j :: s.g.finished[j] == s.g.starts[j] == s.g.accepted[j]
  {
    forall j ensures s.g.finished[j] == s.g.starts[j] == s.g.accepted[j] {
      assert Pending(s, false, j) + s.g.finished[j] == s.g.accepted[j];
      assert Pending(s, true, j) + s.g.starts[j] == s.g.accepted[j];
      AsleepCarryNothing(s.workers, s.g.heap, false, j);
      AsleepCarryNothing(s.workers, s.g.heap, true, j);
    }
  }

  lemma {:induction false} AsleepUncounted(ws: seq<Worker>)
    requires forall i :: 0 <= i < |ws| ==> Asleep(ws[i])
    ensures BusyCount(ws) == IdleCount(ws) == 0
  {
    if ws != [] {
      AsleepUncounted(ws[..|ws| - 1]);
    }
  }

  // Without a started pool and without the caller's thread, nothing ever runs: stop() returns with everything still
  // queued. So such a scheduler is drained if and only if nothing was submitted.
  lemma NeverStartedKeepsAll(s: State)
    requires Reachable(s) && !s.started && !s.root
    ensures forall j :: s.g.starts[j] == s.g.finished[j] == 0
    ensures forall j :: Work(s.g.queue, s.g.heap, false, j) == s.g.accepted[j]
    ensures (forall j :: s.g.finished[j] == s.g.accepted[j]) <==> s.g.accepted == multiset{}
  {
    ReachableDrain(s);
    forall j
      ensures s.g.starts[j] == s.g.finished[j] == 0
      ensures Work(s.g.queue, s.g.heap, false, j) == s.g.accepted[j]
    {
      NothingRan(s, j);
    }
  }

  ghost predicate Untouched(s: State) {
    s.g.starts == multiset{} && s.g.finished == multiset{} && !s.root && !s.started
  }

  lemma StepUntouched(s: State, l: Label)
    requires Good(s) && Untouched(s) && Step(s, l).Some? && !Step(s, l).value.started
    ensures Untouched(Step(s, l).value)
  {
    assert forall i :: 0 <= i < |s.workers| ==> s.workers[i].pc == Dormant;
    StepStarted(s, l);
    match l
    case Does(w, a) =>
    case Stop => StopShape(s);
    case Start =>
    case Outside(_, _) =>
  }

  lemma {:induction false} StaysUntouched(s: State, run: seq<Label>)
    requires Good(s) && Execute(s, run).Some? && !Execute(s, run).value.started && Untouched(s)
    ensures Untouched(Execute(s, run).value)
    decreases run
  {
    if run != [] {
      var t := Step(s, run[0]).value;
      StepKeeps(s, run[0]);
      StartedStays(t, run[1..]);
      StepUntouched(s, run[0]);
      StaysUntouched(t, run[1..]);
    }
  }

  lemma StepStarted(s: State, l: Label)
    requires Step(s, l).Some?
    ensures (s.started ==> Step(s, l).value.started) && Step(s, l).value.root == s.root
  {
    match l
    case Does(w, a) => DoesTook(s, w, a);
    case Stop => StopShape(s);
    case Start =>
    case Outside(_, _) =>
  }

  lemma {:induction false} StartedStays(s: State, run: seq<Label>)
    requires Execute(s, run).Some?
    ensures s.started ==> Execute(s, run).value.started
    ensures Execute(s, run).value.root == s.root
    decreases run
  {
    if run != [] {
      StepStarted(s, run[0]);
      hide Step;
      StartedStays(Step(s, run[0]).value, run[1..]);
    }
  }

  lemma NothingRan(s: State, j: JobId)
    requires Reachable(s) && !s.started && !s.root && Good(s)
    ensures s.g.starts[j] == s.g.finished[j] == 0
    ensures Work(s.g.queue, s.g.heap, false, j) == s.g.accepted[j]
  {
    var threads: nat, useCaller: bool, run: seq<Label> :|
      threads > 0 && Execute(Init(threads, useCaller), run) == Some(s);
    InitGood(threads, useCaller);
    StartedStays(Init(threads, useCaller), run);
    StaysUntouched(Init(threads, useCaller), run);
    AsleepCarryNothing(s.workers, s.g.heap, false, j);
    assert Pending(s, false, j) + s.g.finished[j] == s.g.accepted[j];
  }
}
