// When an idle fiber ends, and what stop() tests, with the four conditions spelled out.
module SchedulerIdle {
  import opened Options
  import opened FiberStates
  import opened SchedulerModel
  import opened SchedulerInvariant
  import opened SchedulerPreservation
  import opened SchedulerDrain

  lemma ActIdle(me: Worker, w: nat, g: Shared, a: Action, me': Worker, g': Shared)
    requires Act(me, w, g, a) == Moved(me', g') && WorkerOk(me, g.heap) && me.idle != TERM
    ensures me'.idle == TERM <==> a == IdleCheck && g.autoStop && g.stopping && g.queue == [] && g.active == 0
    ensures a == IdleCheck ==> me.pc == IdleRun && (me'.idle == TERM || me'.idle == HOLD)
  {
  }

  lemma OthersIdle(s: State, l: Label, i: nat)
    requires Good(s) && Step(s, l).Some? && i < |s.workers| && (l.Does? ==> l.w != i)
    ensures |Step(s, l).value.workers| == |s.workers| && Step(s, l).value.workers[i].idle == s.workers[i].idle
  {
    match l
    case Does(w, a) =>
      DoesTook(s, w, a);
      hide Act;
    case Stop =>
      StopShape(s);
      hide DoStop;
    case Start =>
    case Outside(item, thread) =>
      hide Live;
  }

  // An idle fiber ends exactly when it looks after stop() has set both its flags, on an empty queue with no worker
  // active. In any other case it is put on HOLD, and no other step of any thread ends it.
  lemma IdleEndsExactly(s: State, l: Label, t: State, i: nat)
    requires Reachable(s) && Step(s, l) == Some(t) && i < |s.workers| && s.workers[i].idle != TERM
    ensures |t.workers| == |s.workers|
    ensures t.workers[i].idle == TERM <==>
      l == Does(i, IdleCheck) && s.g.autoStop && s.g.stopping && s.g.queue == [] && s.g.active == 0
    ensures l == Does(i, IdleCheck) && t.workers[i].idle != TERM ==> t.workers[i].idle == HOLD
  {
    ReachableGood(s);
    if l.Does? && l.w == i {
      DoesTook(s, i, l.a);
      assert WorkerOk(s.workers[i], s.g.heap);
      ActIdle(s.workers[i], i, s.g, l.a, t.workers[i], t.g);
    } else {
      OthersIdle(s, l, i);
    }
  }

  // stop() makes the same test: before anything else for a scheduler of the caller's thread alone, and before it calls
  // the root fiber.
  lemma StopTests(s: State)
    requires Reachable(s) && DoStop(s).Some?
    ensures var t := DoStop(s).value;
      var idle := s.g.autoStop && s.g.stopping && s.g.queue == [] && s.g.active == 0;
      && (s.stop == EarlyCheck ==> (t.stop == Returned <==> idle))
      && (s.stop == RootCheck ==> (t.stop == WaitRoot <==> s.root && !idle))
  {
    if s.stop == RootCheck {
      ReachableGood(s);
    }
    hide Joinable;
  }

  // Both tests come with m_stopping set, the early one only if the caller's thread is the only one.
  lemma StopSequence(s: State)
    requires DoStop(s).Some?
    ensures var t := DoStop(s).value;
      && (s.stop == NotCalled ==> t.g.autoStop)
      && (s.stop == AutoSet ==> (t.stop == EarlyCheck <==> s.root && s.pool == 0))
      && (t.stop == EarlyCheck || t.stop == RootCheck ==> t.g.stopping)
  {
    hide Stopping;
    hide Joinable;
  }

  // stop() has set m_stopping: at once if the caller's thread is the only one, otherwise behind that test.
  predicate StopFlagged(s: State) {
    match s.stop
    case NotCalled => false
    case AutoSet => false
    case Flagging => s.root && s.pool == 0
    case _ => true
  }

  ghost predicate EndedOk(s: State) {
    && (s.g.stopping ==> !s.started || StopFlagged(s))
    && (SomeEnded(s) ==> s.g.stopping && s.g.autoStop)
  }

  lemma StopProgresses(s: State)
    requires DoStop(s).Some? && StopFlagged(s) && (s.stop == EarlyCheck ==> s.root && s.pool == 0)
    ensures StopFlagged(DoStop(s).value)
  {
    hide Joinable;
    hide Stopping;
  }

  lemma StopSetsFlag(s: State)
    requires DoStop(s).Some? && !StopFlagged(s) && !s.g.stopping
    ensures DoStop(s).value.g.stopping ==> StopFlagged(DoStop(s).value)
  {
    hide Joinable;
    hide Stopping;
  }

  lemma StopEnded(s: State)
    requires EndedOk(s) && DoStop(s).Some? && (s.stop == EarlyCheck ==> s.root && s.pool == 0)
    ensures var t := DoStop(s).value;
      && t.started == s.started && (t.g.stopping ==> !s.started || StopFlagged(t))
      && (s.g.stopping && s.g.autoStop ==> t.g.stopping && t.g.autoStop)
  {
    StopFlags(s);
    StopHistory(s);
    if StopFlagged(s) {
      StopProgresses(s);
    } else if !s.g.stopping {
      StopSetsFlag(s);
    }
    hide DoStop;
    hide StopFlagged;
    hide SomeEnded;
  }

  lemma StepEnded(s: State, l: Label)
    requires Reachable(s) && Step(s, l).Some? && EndedOk(s)
    ensures EndedOk(Step(s, l).value)
  {
    ReachableGood(s);
    ReachableDrain(s);
    var t := Step(s, l).value;
    forall i | 0 <= i < |t.workers| && t.workers[i].idle == TERM
      ensures SomeEnded(s) || (s.g.autoStop && s.g.stopping && l.Does?)
    {
      WorkersStay(s, l);
      if s.workers[i].idle != TERM {
        IdleEndsExactly(s, l, t, i);
      }
    }
    match l
    case Does(w, a) =>
      DoesTook(s, w, a);
      ActFlags(s.workers[w], w, s.g, a, t.workers[w], t.g);
      hide Act;
    case Stop =>
      StopEnded(s);
      hide DoStop;
    case Start =>
    case Outside(item, thread) =>
      hide Live;
  }

  lemma WorkersStay(s: State, l: Label)
    requires Good(s) && Step(s, l).Some?
    ensures |Step(s, l).value.workers| == |s.workers|
  {
    hide Act;
    hide Live;
    match l
    case Stop => StopShape(s);
    case _ =>
  }

  lemma {:induction false} ExecuteEnded(threads: nat, useCaller: bool, run: seq<Label>, s: State)
    requires threads > 0 && Execute(Init(threads, useCaller), run) == Some(s)
    ensures EndedOk(s)
    decreases |run|
  {
    if run != [] {
      var front, last := run[..|run| - 1], run[|run| - 1];
      assert run == front + [last];
      ExecuteSnoc(Init(threads, useCaller), front, last);
      var r := Execute(Init(threads, useCaller), front).value;
      ExecuteEnded(threads, useCaller, front, r);
      assert Reachable(r);
      StepEnded(r, last);
    }
  }

  lemma {:induction false} ExecuteSnoc(s: State, run: seq<Label>, l: Label)
    requires Execute(s, run + [l]).Some?
    ensures Execute(s, run).Some? && Execute(s, run + [l]) == Step(Execute(s, run).value, l)
    decreases run
  {
    hide Step;
    if run == [] {
      assert run + [l] == [l] && [l][1..] == [];
    } else {
      assert (run + [l])[1..] == run[1..] + [l];
      ExecuteSnoc(Step(s, run[0]).value, run[1..], l);
    }
  }

  // Once the pool has been started, no idle fiber has ended before stop() has set m_stopping.
  lemma IdleEndedAfterStop(s: State, i: nat)
    requires Reachable(s) && i < |s.workers| && s.workers[i].idle == TERM
    ensures s.g.autoStop && s.g.stopping && (s.started ==> StopFlagged(s))
  {
    var threads: nat, useCaller, run :| threads > 0 && Execute(Init(threads, useCaller), run) == Some(s);
    ExecuteEnded(threads, useCaller, run, s);
  }
}
