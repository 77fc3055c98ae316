// stop() can return whenever no entry is queued that nobody will take.
module SchedulerCompletion {
  import opened Options
  import opened FiberStates
  import opened SchedulerModel
  import opened SchedulerInvariant
  import opened SchedulerPreservation
  import opened SchedulerDrain
  import opened SchedulerBlocked

  ghost predicate AllTakeable(s: State) {
    forall e :: e in s.g.queue ==> !Untakeable(s, e)
  }

  predicate Submits(l: Label) {
    l.Outside? || (l.Does? && l.a.Submit?)
  }

  predicate NoSubmissions(run: seq<Label>) {
    forall k :: 0 <= k < |run| ==> !Submits(run[k])
  }

  // Some run without further submissions leads to a state in which stop() has returned.
  ghost predicate CanReturn(s: State) {
    exists run, t :: Gets(s, run, t) && t.stop == Returned
  }

  // What holds of the states on the way there.
  ghost predicate OnTheWay(s: State) {
    Good(s) && DrainOk(s) && s.stop != NotCalled && AllTakeable(s)
  }

  // A run without submissions from s to t.
  ghost predicate Gets(s: State, path: seq<Label>, t: State) {
    NoSubmissions(path) && Execute(s, path) == Some(t)
  }

  lemma GetsOne(s: State, l: Label, t: State)
    requires Step(s, l) == Some(t) && !Submits(l)
    ensures Gets(s, [l], t)
  {
    hide Step;
    assert [l][1..] == [];
    assert Execute(t, []) == Some(t);
  }

  lemma {:induction false} GetsOn(s: State, a: seq<Label>, r: State, b: seq<Label>, t: State)
    requires Gets(s, a, r) && Gets(r, b, t)
    ensures Gets(s, a + b, t)
    decreases |a|
  {
    hide Step;
    if a == [] {
      assert a + b == b;
    } else {
      assert (a + b)[1..] == a[1..] + b;
      GetsOn(Step(s, a[0]).value, a[1..], r, b, t);
    }
  }

  // -------------------------------------------------------------------------------------------
  // Every step without a submission stays on the way.

  lemma TookAllTakeable(s: State, w: nat, a: Action, t: State)
    requires EntriesOk(s.g) && AllTakeable(s) && Took(s, w, a, t) && !a.Submit?
    ensures AllTakeable(t)
  {
    forall e | e in t.g.queue ensures !Untakeable(t, e) {
      if e in s.g.queue {
        TookWatches(s, w, a, t, e);
      } else {
        ActAdds(s.workers[w], w, s.g, a, t.workers[w], t.g, e);
        TookLive(s, w, a, t, w);
        hide Act;
      }
    }
  }

  lemma DoesOn(s: State, w: nat, a: Action) returns (t: State)
    requires OnTheWay(s) && w < |s.workers| && Act(s.workers[w], w, s.g, a).Moved? && !a.Submit?
    ensures Step(s, Does(w, a)) == Some(t) && Took(s, w, a, t) && OnTheWay(t)
  {
    hide Act;
    t := Step(s, Does(w, a)).value;
    DoesTook(s, w, a);
    hide Took;
    StepKeeps(s, Does(w, a));
    StepDrain(s, Does(w, a));
    hide Step;
    TookAllTakeable(s, w, a, t);
    TookStop(s, w, a, t);
  }

  lemma TookStop(s: State, w: nat, a: Action, t: State)
    requires Took(s, w, a, t)
    ensures t.stop == s.stop
  {
  }

  lemma StopOn(s: State) returns (t: State)
    requires OnTheWay(s) && DoStop(s).Some?
    ensures DoStop(s) == Some(t) && OnTheWay(t)
  {
    t := DoStop(s).value;
    StepKeeps(s, Stop);
    StepDrain(s, Stop);
    StopShape(s);
    hide DoStop;
    hide Good;
    hide DrainOk;
    forall e | e in t.g.queue ensures !Untakeable(t, e) {
      StopTakeable(s, e);
    }
  }

  lemma StopTakeable(s: State, e: Entry)
    requires OnTheWay(s) && DoStop(s).Some? && e in s.g.queue
    ensures !Untakeable(DoStop(s).value, e)
  {
    assert !Untakeable(s, e);
    StopWatches(s, e.thread);
  }

  // -------------------------------------------------------------------------------------------
  // How far it still is.

  function Sum(ws: seq<Worker>, f: Worker -> nat): nat {
    if ws == [] then 0 else Sum(ws[..|ws| - 1], f) + f(ws[|ws| - 1])
  }

  lemma {:induction false} SumUpdate(ws: seq<Worker>, w: nat, v: Worker, f: Worker -> nat)
    requires w < |ws|
    ensures Sum(ws[w := v], f) + f(ws[w]) == Sum(ws, f) + f(v)
  {
    var n := |ws| - 1;
    if w < n {
      SumUpdate(ws[..n], w, v, f);
      assert ws[w := v][..n] == ws[..n][w := v];
    } else {
      assert ws[w := v][..n] == ws[..n];
    }
  }

  lemma {:induction false} SumPositive(ws: seq<Worker>, f: Worker -> nat) returns (w: nat)
    requires Sum(ws, f) > 0
    ensures w < |ws| && f(ws[w]) > 0
  {
    if f(ws[|ws| - 1]) > 0 {
      w := |ws| - 1;
    } else {
      w := SumPositive(ws[..|ws| - 1], f);
    }
  }

  lemma {:induction false} SumAtLeast(ws: seq<Worker>, w: nat, f: Worker -> nat)
    requires w < |ws|
    ensures f(ws[w]) <= Sum(ws, f)
  {
    if w < |ws| - 1 {
      SumAtLeast(ws[..|ws| - 1], w, f);
    }
  }

  // The work in a worker's hands, if its task ends in its next turn. A fiber that is queued again counts as an entry.
  function Weight(w: Worker): nat {
    match w.pc
    case Popped(_) => 9
    case On(phase, _, _) =>
      (match phase
       case Entering => 8
       case Running => 7
       case Backed => 16
       case Counted => 15
       case Requeuing => 14
       case Releasing => 3)
    case _ => 0
  }

  // Steps to the loop head.
  function ToHead(w: Worker): nat {
    match w.pc
    case NoEntry => 3
    case IdleRun => 2
    case IdleBack => 1
    case _ => 0
  }

  // Steps to the end of `run`, if there is nothing to take and stopping() holds.
  function ToExit(w: Worker): nat {
    match w.pc
    case Head => if w.idle == TERM then 3 else 7
    case NoEntry => if w.idle == TERM then 2 else 6
    case IdleRun => 5
    case IdleBack => if w.idle == TERM then 4 else 8
    case _ => 0
  }

  function Left(s: State): nat {
    10 * |s.g.queue| + Sum(s.workers, Weight)
  }

  function Detour(s: State): nat {
    if Left(s) > 0 then Sum(s.workers, ToHead) else Sum(s.workers, ToExit)
  }

  function StopsLeft(stop: StopPc): nat {
    match stop
    case NotCalled => 7
    case AutoSet => 6
    case EarlyCheck => 5
    case Flagging => 4
    case RootCheck => 3
    case WaitRoot => 2
    case Joining => 1
    case Returned => 0
  }

  // t is nearer to the end than s.
  predicate Nearer(s: State, t: State) {
    StopsLeft(t.stop) < StopsLeft(s.stop) ||
    (t.stop == s.stop && (Left(t) < Left(s) || (Left(t) == Left(s) && Detour(t) < Detour(s))))
  }

  // After an action of worker w.
  lemma TookNearer(s: State, w: nat, a: Action, t: State)
    requires Took(s, w, a, t)
    requires var me, me' := s.workers[w], t.workers[w];
      || 10 * |t.g.queue| + Weight(me') < 10 * |s.g.queue| + Weight(me)
      || (|t.g.queue| == |s.g.queue| && Weight(me') == Weight(me)
          && if Left(s) > 0 then ToHead(me') < ToHead(me) else ToExit(me') < ToExit(me))
    ensures Nearer(s, t)
  {
    assert t.workers == s.workers[w := t.workers[w]] && t.stop == s.stop;
    hide Took;
    SumUpdate(s.workers, w, t.workers[w], Weight);
    SumUpdate(s.workers, w, t.workers[w], ToHead);
    SumUpdate(s.workers, w, t.workers[w], ToExit);
  }

  // -------------------------------------------------------------------------------------------
  // What to do next.

  lemma DoesGets(s: State, w: nat, a: Action) returns (path: seq<Label>, t: State)
    requires OnTheWay(s) && w < |s.workers| && Act(s.workers[w], w, s.g, a).Moved? && !a.Submit?
    ensures Gets(s, path, t) && Took(s, w, a, t) && OnTheWay(t)
  {
    hide Act;
    t := DoesOn(s, w, a);
    path := [Does(w, a)];
    hide Took;
    hide OnTheWay;
    GetsOne(s, Does(w, a), t);
  }

  lemma {:induction false} UnusedId(h: Heap) returns (f: FiberId)
    ensures f !in h
    decreases |h|
  {
    if h == map[] {
      f := 0;
    } else {
      f := AboveAll(h.Keys);
    }
  }

  lemma {:induction false} AboveAll(ids: set<FiberId>) returns (f: FiberId)
    ensures forall g :: g in ids ==> g < f
    decreases |ids|
  {
    if ids == {} {
      f := 0;
    } else {
      var g :| g in ids;
      var above := AboveAll(ids - {g});
      f := if above > g then above else g + 1;
      assert ids == ids - {g} + {g};
    }
  }

  // The worker has reached this phase with a fiber that has finished.
  predicate Ending(me: Worker, g: Shared, phase: Phase) {
    me.pc.On? && me.pc.phase == phase && me.pc.f in g.heap && Finished(g.heap[me.pc.f].state)
  }

  lemma FinishMoves(me: Worker, w: nat, g: Shared)
    requires me.pc.On? && me.pc.phase == Running && me.pc.f in g.heap
    ensures var r := Act(me, w, g, Finish(false));
      r.Moved? && r.g.queue == g.queue && Ending(r.me, r.g, Backed)
  {
  }

  lemma DecrementMoves(me: Worker, w: nat, g: Shared)
    requires Ending(me, g, Backed)
    ensures var r := Act(me, w, g, Decrement);
      r.Moved? && r.g.queue == g.queue && Ending(r.me, r.g, Counted)
  {
  }

  lemma DecideMoves(me: Worker, w: nat, g: Shared)
    requires Ending(me, g, Counted)
    ensures var r := Act(me, w, g, Decide);
      r.Moved? && r.g.queue == g.queue && Weight(r.me) == 0
  {
  }

  // Of the state only worker w and the shared part have changed, and the queue has kept its length.
  predicate Alone(s: State, w: nat, t: State) {
    && w < |s.workers| == |t.workers| && t.workers == s.workers[w := t.workers[w]]
    && t.stop == s.stop && |t.g.queue| == |s.g.queue|
  }

  lemma DoesAlone(s: State, w: nat, a: Action) returns (path: seq<Label>, t: State)
    requires OnTheWay(s) && w < |s.workers| && !a.Submit?
    requires var r := Act(s.workers[w], w, s.g, a); r.Moved? && r.g.queue == s.g.queue
    ensures Gets(s, path, t) && OnTheWay(t) && Alone(s, w, t)
    ensures Act(s.workers[w], w, s.g, a) == Moved(t.workers[w], t.g)
  {
    path, t := DoesGets(s, w, a);
    hide Act;
    hide OnTheWay;
    hide Gets;
  }

  lemma AloneAgain(s: State, w: nat, r: State, t: State)
    requires Alone(s, w, r) && Alone(r, w, t)
    ensures Alone(s, w, t)
  {
  }

  // A task ends in its turn, and its worker lets go of it.
  lemma EndTurn(s: State, w: nat) returns (path: seq<Label>, t: State)
    requires OnTheWay(s) && w < |s.workers| && s.workers[w].pc.On? && s.workers[w].pc.phase == Running
    ensures Gets(s, path, t) && OnTheWay(t) && Alone(s, w, t) && Weight(t.workers[w]) == 0
  {
    assert WorkerOk(s.workers[w], s.g.heap);
    hide Act;
    hide OnTheWay;
    hide Gets;
    hide Ending;
    hide Weight;
    FinishMoves(s.workers[w], w, s.g);
    var first, r := DoesAlone(s, w, Finish(false));
    DecrementMoves(r.workers[w], w, r.g);
    var second, q := DoesAlone(r, w, Decrement);
    DecideMoves(q.workers[w], w, q.g);
    var third;
    third, t := DoesAlone(q, w, Decide);
    AloneAgain(s, w, r, q);
    AloneAgain(s, w, q, t);
    GetsOn(s, first, r, second, q);
    GetsOn(s, first + second, q, third, t);
    path := first + second + third;
  }

  lemma EndTurnNearer(s: State, w: nat, t: State)
    requires Alone(s, w, t) && Weight(t.workers[w]) < Weight(s.workers[w])
    ensures Nearer(s, t)
  {
    SumUpdate(s.workers, w, t.workers[w], Weight);
  }

  function NextOf(me: Worker, newId: FiberId): Action {
    match me.pc
    case Popped(_) => Dispatch(newId)
    case On(Entering, _, _) => SwapIn
    case On(Backed, _, _) => Decrement
    case On(Counted, _, _) => Decide
    case On(Requeuing, _, _) => Push
    case On(Releasing, _, _) => Clear
    case Head => Scan
    case NoEntry => if me.idle == TERM then Break else IdleEnter
    case IdleRun => IdleCheck
    case IdleBack => IdleLeave
    case _ => Scan
  }

  // A worker with something in its hands gets on with it.
  lemma Handle(s: State, w: nat) returns (path: seq<Label>, t: State)
    requires OnTheWay(s) && w < |s.workers| && Weight(s.workers[w]) > 0
    ensures Gets(s, path, t) && OnTheWay(t) && Nearer(s, t)
  {
    assert WorkerOk(s.workers[w], s.g.heap);
    if s.workers[w].pc.On? && s.workers[w].pc.phase == Running {
      path, t := EndTurn(s, w);
      EndTurnNearer(s, w, t);
    } else {
      var f := UnusedId(s.g.heap);
      HandleMoves(s.workers[w], w, s.g, f);
      path, t := DoesGets(s, w, NextOf(s.workers[w], f));
      hide Act;
      TookNearer(s, w, NextOf(s.workers[w], f), t);
    }
  }

  lemma HandleMoves(me: Worker, w: nat, g: Shared, f: FiberId)
    requires WorkerOk(me, g.heap) && f !in g.heap && Weight(me) > 0 && !(me.pc.On? && me.pc.phase == Running)
    ensures var a := NextOf(me, f);
      && !a.Submit? && Act(me, w, g, a).Moved?
      && 10 * |Act(me, w, g, a).g.queue| + Weight(Act(me, w, g, a).me) < 10 * |g.queue| + Weight(me)
  {
  }

  // A worker that may take the first entry goes to its loop head and takes one.
  lemma Fetch(s: State, w: nat) returns (path: seq<Label>, t: State)
    requires OnTheWay(s) && w < |s.workers| && s.g.queue != [] && Weight(s.workers[w]) == 0
    requires Live(s, w) && s.workers[w].pc != Dormant
    requires s.g.queue[0].thread == -1 || s.g.queue[0].thread == w
    ensures Gets(s, path, t) && OnTheWay(t) && Nearer(s, t)
  {
    assert WorkerOk(s.workers[w], s.g.heap) && EntryOk(s.g.queue[0], s.g.heap);
    FetchMoves(s.workers[w], w, s.g);
    path, t := DoesGets(s, w, NextOf(s.workers[w], 0));
    hide Act;
    TookNearer(s, w, NextOf(s.workers[w], 0), t);
  }

  lemma FetchMoves(me: Worker, w: nat, g: Shared)
    requires WorkerOk(me, g.heap) && Weight(me) == 0 && me.pc != Dormant && !Gone(me)
    requires g.queue != [] && Takeable(g.queue[0], g.heap, w)
    ensures var a := NextOf(me, 0);
      && !a.Submit? && Act(me, w, g, a).Moved?
      && var g', me' := Act(me, w, g, a).g, Act(me, w, g, a).me;
      || 10 * |g'.queue| + Weight(me') < 10 * |g.queue| + Weight(me)
      || (|g'.queue| == |g.queue| && Weight(me') == Weight(me) && ToHead(me') < ToHead(me))
  {
  }

  // When there is nothing left to take, a worker goes towards its exit.
  lemma GoHome(s: State, w: nat) returns (path: seq<Label>, t: State)
    requires OnTheWay(s) && w < |s.workers| && Left(s) == 0 && !Asleep(s.workers[w]) && Stopping(s.g)
    ensures Gets(s, path, t) && OnTheWay(t) && Nearer(s, t)
  {
    assert WorkerOk(s.workers[w], s.g.heap);
    SumAtLeast(s.workers, w, Weight);
    GoHomeMoves(s.workers[w], w, s.g);
    path, t := DoesGets(s, w, NextOf(s.workers[w], 0));
    hide Act;
    TookNearer(s, w, NextOf(s.workers[w], 0), t);
  }

  lemma GoHomeMoves(me: Worker, w: nat, g: Shared)
    requires WorkerOk(me, g.heap) && Weight(me) == 0 && !Asleep(me) && Stopping(g)
    ensures var a := NextOf(me, 0);
      && !a.Submit? && Act(me, w, g, a).Moved?
      && var g', me' := Act(me, w, g, a).g, Act(me, w, g, a).me;
      |g'.queue| == |g.queue| && Weight(me') == Weight(me) && ToExit(me') < ToExit(me)
  {
  }

  // stop() itself goes on: before it has decided about the root fiber, and once all threads it waits for have left.
  lemma StopGoes(s: State) returns (path: seq<Label>, t: State)
    requires OnTheWay(s) && s.stop != Returned
    requires RootUndecided(s.stop) || forall i :: 0 <= i < |s.workers| ==> Asleep(s.workers[i])
    ensures Gets(s, path, t) && OnTheWay(t) && Nearer(s, t)
  {
    StopPossible(s);
    StopNearer(s);
    hide DoStop;
    t := StopOn(s);
    path := [Stop];
    hide OnTheWay;
    GetsOne(s, Stop, t);
  }

  lemma StopPossible(s: State)
    requires Good(s) && StopOk(s) && s.stop != NotCalled && s.stop != Returned
    requires RootUndecided(s.stop) || forall i :: 0 <= i < |s.workers| ==> Asleep(s.workers[i])
    ensures DoStop(s).Some?
  {
  }

  lemma StopNearer(s: State)
    requires DoStop(s).Some?
    ensures StopsLeft(DoStop(s).value.stop) < StopsLeft(s.stop)
  {
    hide Stopping;
    hide Joinable;
  }

  // A state that is on the way and not at the end has a next one that is nearer.
  lemma Advance(s: State) returns (path: seq<Label>, t: State)
    requires OnTheWay(s) && s.stop != Returned
    ensures Gets(s, path, t) && OnTheWay(t) && Nearer(s, t)
  {
    hide Gets;
    hide Nearer;
    if RootUndecided(s.stop) {
      path, t := StopGoes(s);
    } else if Sum(s.workers, Weight) > 0 {
      var w := SumPositive(s.workers, Weight);
      path, t := Handle(s, w);
    } else if s.g.queue != [] {
      var w := Taker(s);
      path, t := Fetch(s, w);
    } else if w: nat :| w < |s.workers| && !Asleep(s.workers[w]) {
      NothingHeld(s);
      path, t := GoHome(s, w);
    } else {
      path, t := StopGoes(s);
    }
  }

  // Somebody may take the first entry, and is awake.
  lemma Taker(s: State) returns (w: nat)
    requires OnTheWay(s) && s.g.queue != [] && !RootUndecided(s.stop) && Sum(s.workers, Weight) == 0
    ensures w < |s.workers| && Live(s, w) && s.workers[w].pc != Dormant && Weight(s.workers[w]) == 0
    ensures s.g.queue[0].thread == -1 || s.g.queue[0].thread == w
  {
    assert !Untakeable(s, s.g.queue[0]);
    var i :| 0 <= i < |s.workers| && Live(s, i) && (s.g.queue[0].thread == -1 || s.g.queue[0].thread == i);
    w := i;
    SumAtLeast(s.workers, w, Weight);
  }

  lemma {:induction false} NobodyBusy(ws: seq<Worker>)
    requires Sum(ws, Weight) == 0
    ensures BusyCount(ws) == 0
  {
    if ws != [] {
      NobodyBusy(ws[..|ws| - 1]);
    }
  }

  lemma NothingHeld(s: State)
    requires OnTheWay(s) && s.g.queue == [] && Sum(s.workers, Weight) == 0
    requires !RootUndecided(s.stop) && s.stop != Returned
    ensures Stopping(s.g) && Left(s) == 0
  {
    NobodyBusy(s.workers);
  }

  lemma {:induction false} Returns(s: State)
    requires OnTheWay(s)
    ensures CanReturn(s)
    decreases StopsLeft(s.stop), Left(s), Detour(s)
  {
    hide OnTheWay;
    if s.stop == Returned {
      assert Gets(s, [], s);
    } else {
      var path, t := Advance(s);
      Returns(t);
      var rest, end :| Gets(t, rest, end) && end.stop == Returned;
      GetsOn(s, path, t, rest, end);
      assert Gets(s, path + rest, end);
    }
  }

  // Once stop() has begun it can return, without any further submission, if nothing is queued that nobody will take.
  lemma StopCanReturn(s: State)
    requires Reachable(s) && s.stop != NotCalled && AllTakeable(s)
    ensures CanReturn(s)
  {
    ReachableDrain(s);
    Returns(s);
  }

  // As long as some thread has been woken and its idle fiber has not ended, the condition is exact.
  lemma CanReturnExactly(s: State, i: nat)
    requires Reachable(s) && s.stop != NotCalled && Stays(s, i)
    ensures CanReturn(s) <==> AllTakeable(s)
  {
    if AllTakeable(s) {
      StopCanReturn(s);
    } else {
      var e :| e in s.g.queue && Untakeable(s, e);
      forall run, t | Gets(s, run, t) ensures t.stop != Returned {
        UntakeableBlocksStop(s, e, i, run, t);
      }
    }
  }
}
