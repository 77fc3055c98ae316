// The drain theorem in terms of the run itself: what was submitted when, and which threads were there to see it.
module SchedulerHistory {
  import opened Options
  import opened SchedulerModel
  import opened SchedulerInvariant
  import opened SchedulerPreservation
  import opened SchedulerDrain
  import opened SchedulerIdle

  // The state after the first k steps of a run that can be executed.
  function Before(s: State, run: seq<Label>, k: nat): Option<State>
    requires k <= |run|
  {
    Execute(s, run[..k])
  }

  // The step submits something for this thread.
  predicate SubmitsFor(l: Label, thread: int) {
    match l
    case Outside(_, p) => p == thread
    case Does(_, a) => a.Submit? && a.thread == thread
    case _ => false
  }

  // The k-th step submits something after stop() has begun, for a thread (-1: for any) and when no thread that may take
  // it will look at the queue again.
  ghost predicate Unseen(s: State, run: seq<Label>, k: nat, thread: int) {
    && k < |run| && SubmitsFor(run[k], thread) && Stop in run[..k]
    && Before(s, run, k).Some? && !Watched(Before(s, run, k).value, thread)
  }

  // A task submits something for another thread after stop() has begun.
  predicate Strays(run: seq<Label>, k: nat) {
    k < |run| && Stop in run[..k] && run[k].Does? && run[k].a.Submit? && run[k].a.thread != -1
    && run[k].a.thread != run[k].w
  }

  predicate ComesLate(run: seq<Label>, k: nat) {
    k < |run| && Stop in run[..k] && run[k].Outside?
  }

  ghost predicate FlagsTell(s0: State, run: seq<Label>, s: State) {
    && s.root == s0.root && |s.workers| == |s0.workers|
    && (s.stop != NotCalled <==> Stop in run)
    && (s.started <==> Start in run)
    && (!s.started ==> s.g.stopping)
    && (s.doomed <==> exists k, thread :: Unseen(s0, run, k, thread))
    && (s.late <==> exists k :: ComesLate(run, k))
    && (s.stray <==> exists k :: Strays(run, k))
  }

  // A worker that executes a task is there to look at the queue.
  lemma SubmitterWatches(s: State, w: nat, a: Action)
    requires Good(s) && Step(s, Does(w, a)).Some? && a.Submit?
    ensures Watched(s, -1)
  {
    assert Live(s, w);
  }

  ghost predicate FlagsStep(s: State, l: Label, t: State) {
    && t.root == s.root && (t.stop != NotCalled <==> s.stop != NotCalled || l == Stop)
    && (t.started <==> s.started || l == Start)
    && (!t.started ==> t.g.stopping)
    && (t.doomed <==> s.doomed || (s.stop != NotCalled && exists p :: SubmitsFor(l, p) && !Watched(s, p)))
    && (t.late <==> s.late || (s.stop != NotCalled && l.Outside?))
    && (t.stray <==>
         s.stray || (s.stop != NotCalled && l.Does? && l.a.Submit? && l.a.thread != -1 && l.a.thread != l.w))
  }

  lemma DoesFlags(s: State, w: nat, a: Action, t: State)
    requires Good(s) && Step(s, Does(w, a)) == Some(t) && (!s.started ==> s.g.stopping)
    ensures FlagsStep(s, Does(w, a), t)
  {
    DoesTook(s, w, a);
    ActFlags(s.workers[w], w, s.g, a, t.workers[w], t.g);
    if a.Submit? {
      SubmitterWatches(s, w, a);
      assert SubmitsFor(Does(w, a), a.thread);
    }
    hide Act;
    hide Step;
    hide Live;
  }

  lemma OutsideFlags(s: State, item: Item, thread: int, t: State)
    requires Step(s, Outside(item, thread)) == Some(t) && (!s.started ==> s.g.stopping)
    ensures FlagsStep(s, Outside(item, thread), t)
  {
    assert SubmitsFor(Outside(item, thread), thread);
    hide Watched;
  }

  lemma StopFlagsStep(s: State, t: State)
    requires DoStop(s) == Some(t) && (!s.started ==> s.g.stopping)
    ensures FlagsStep(s, Stop, t)
  {
    StopHistory(s);
    StopProgress(s);
    StopFlags(s);
    hide DoStop;
    hide Watched;
  }

  lemma StepFlags(s: State, l: Label, t: State)
    requires Good(s) && Step(s, l) == Some(t) && (!s.started ==> s.g.stopping)
    ensures FlagsStep(s, l, t)
  {
    match l
    case Does(w, a) => DoesFlags(s, w, a, t);
    case Outside(item, thread) => OutsideFlags(s, item, thread, t);
    case Stop => StopFlagsStep(s, t);
    case Start => hide Watched;
  }

  lemma UnseenSnoc(s0: State, front: seq<Label>, l: Label, k: nat, thread: int)
    requires Execute(s0, front).Some?
    ensures Unseen(s0, front + [l], k, thread) <==>
      || Unseen(s0, front, k, thread)
      || (k == |front| && SubmitsFor(l, thread) && Stop in front && !Watched(Execute(s0, front).value, thread))
  {
    hide Watched;
    hide Execute;
    hide SubmitsFor;
    var run := front + [l];
    if k < |front| {
      assert run[..k] == front[..k] && run[k] == front[k];
    } else if k == |front| {
      assert run[..k] == front && run[k] == l;
    }
  }

  lemma LateSnoc(front: seq<Label>, l: Label, k: nat)
    ensures ComesLate(front + [l], k) <==> ComesLate(front, k) || (k == |front| && Stop in front && l.Outside?)
    ensures Strays(front + [l], k) <==>
      || Strays(front, k)
      || (k == |front| && Stop in front && l.Does? && l.a.Submit? && l.a.thread != -1 && l.a.thread != l.w)
  {
    var run := front + [l];
    if k < |front| {
      assert run[..k] == front[..k] && run[k] == front[k];
    } else if k == |front| {
      assert run[..k] == front && run[k] == l;
    }
  }

  lemma SnocTells(s0: State, front: seq<Label>, l: Label, s: State, t: State)
    requires Execute(s0, front) == Some(s) && FlagsTell(s0, front, s) && FlagsStep(s, l, t)
    requires |t.workers| == |s.workers|
    ensures FlagsTell(s0, front + [l], t)
  {
    hide Execute;
    hide Watched;
    var run, n := front + [l], |front|;
    forall k: nat, thread
      ensures Unseen(s0, run, k, thread) <==>
        || Unseen(s0, front, k, thread)
        || (k == n && SubmitsFor(l, thread) && Stop in front && !Watched(s, thread))
    {
      UnseenSnoc(s0, front, l, k, thread);
    }
    forall k: nat
      ensures ComesLate(run, k) <==> ComesLate(front, k) || (k == n && Stop in front && l.Outside?)
      ensures Strays(run, k) <==>
        || Strays(front, k)
        || (k == n && Stop in front && l.Does? && l.a.Submit? && l.a.thread != -1 && l.a.thread != l.w)
    {
      LateSnoc(front, l, k);
    }
    hide Unseen;
    hide ComesLate;
    hide Strays;
    hide SubmitsFor;
    if thread :| SubmitsFor(l, thread) && Stop in front && !Watched(s, thread) {
      assert Unseen(s0, run, n, thread);
    }
    if Stop in front && l.Outside? {
      assert ComesLate(run, n);
    }
    if Stop in front && l.Does? && l.a.Submit? && l.a.thread != -1 && l.a.thread != l.w {
      assert Strays(run, n);
    }
  }

  lemma {:induction false} RunTells(threads: nat, useCaller: bool, run: seq<Label>, s: State)
    requires threads > 0 && Execute(Init(threads, useCaller), run) == Some(s)
    ensures FlagsTell(Init(threads, useCaller), run, s)
    decreases |run|
  {
    if run != [] {
      var front, last := run[..|run| - 1], run[|run| - 1];
      assert run == front + [last];
      ExecuteSnoc(Init(threads, useCaller), front, last);
      var r := Execute(Init(threads, useCaller), front).value;
      RunTells(threads, useCaller, front, r);
      assert Reachable(r);
      ReachableGood(r);
      hide *;
      StepFlags(r, last, s);
      WorkersStay(r, last);
      SnocTells(Init(threads, useCaller), front, last, r, s);
    }
  }

  // When stop() has returned, nothing is left exactly if every submission made after stop() began, by whomever, came
  // when some thread that may run it was still going to look at the queue; and then all that was accepted has been
  // started once and has finished. So it is if nothing is submitted from outside after stop() began and, for more than
  // one thread, no task submits work for another thread then.
  lemma DrainedExactly(threads: nat, useCaller: bool, run: seq<Label>, s: State)
    requires threads > 0 && Execute(Init(threads, useCaller), run) == Some(s) && s.stop == Returned
    requires useCaller || Start in run
    ensures s.g.queue == [] <==> forall k, thread :: !Unseen(Init(threads, useCaller), run, k, thread)
    ensures s.g.queue == [] ==> forall j :: s.g.finished[j] == s.g.starts[j] == s.g.accepted[j]
    ensures (forall k :: !ComesLate(run, k)) && (threads == 1 || forall k :: !Strays(run, k)) ==> s.g.queue == []
  {
    RunTells(threads, useCaller, run, s);
    assert Reachable(s);
    hide Unseen;
    hide ComesLate;
    hide Strays;
    hide Execute;
    Drained(s);
  }
}
