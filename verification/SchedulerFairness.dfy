// Bounded waiting: an entry is never overtaken by entries that any worker may pop in its place.
module SchedulerFairness {
  import opened Options
  import opened SchedulerModel
  import opened SchedulerInvariant
  import opened SchedulerPreservation

  // The index this step takes from the queue, if it takes one.
  function PopIndex(s: State, l: Label): Option<nat> {
    if l.Does? && l.a == Scan && l.w < |s.workers| && s.workers[l.w].pc == Head
       && FirstTakeable(s.g.queue, s.g.heap, l.w) < |s.g.queue| then
      Some(FirstTakeable(s.g.queue, s.g.heap, l.w))
    else
      None
  }

  // A successful pop by a thread the entry may run on.
  predicate PopFor(s: State, l: Label, thread: int) {
    PopIndex(s, l).Some? && (thread == -1 || thread == l.w)
  }

  // Where the entry at index k is after the step; None if the step took it.
  function Follow(s: State, l: Label, k: nat): Option<nat> {
    match PopIndex(s, l)
    case None => Some(k)
    case Some(i) => if i == k then None else if i < k then Some(k - 1) else Some(k)
  }

  function FollowRun(s: State, run: seq<Label>, k: nat): Option<nat>
    decreases run
  {
    if run == [] || Step(s, run[0]).None? then
      Some(k)
    else
      match Follow(s, run[0], k)
      case None => None
      case Some(i) => FollowRun(Step(s, run[0]).value, run[1..], i)
  }

  // How many successful pops of the run were by a thread the entry may run on.
  function PopsFor(s: State, run: seq<Label>, thread: int): nat
    decreases run
  {
    if run == [] || Step(s, run[0]).None? then
      0
    else
      (if PopFor(s, run[0], thread) then 1 else 0) + PopsFor(Step(s, run[0]).value, run[1..], thread)
  }

  lemma FollowPop(s: State, l: Label, k: nat)
    requires EntriesOk(s.g) && Step(s, l).Some? && k < |s.g.queue| && PopIndex(s, l).Some?
    ensures var t := Step(s, l).value; var j := PopIndex(s, l).value;
      && t.g.queue == Without(s.g.queue, j) && t.workers[l.w].pc == Popped(s.g.queue[j])
      && (s.g.queue[j].thread == -1 || s.g.queue[j].thread == l.w)
      && (s.g.queue[k].thread == -1 || s.g.queue[k].thread == l.w ==> j <= k)
  {
    assert s.g.queue[k] in s.g.queue;
  }

  lemma FollowPush(s: State, l: Label)
    requires Step(s, l).Some? && PopIndex(s, l).None?
    ensures s.g.queue <= Step(s, l).value.g.queue
  {
    hide Act;
    hide Live;
    hide FirstTakeable;
    match l
    case Does(w, a) => ActPushesOnly(s.workers[w], w, s.g, a);
    case Stop => StopShape(s);
    case Start =>
    case Outside(_, _) =>
  }

  lemma FollowStep(s: State, l: Label, k: nat)
    requires EntriesOk(s.g) && Step(s, l).Some? && k < |s.g.queue|
    ensures var t := Step(s, l).value; var e := s.g.queue[k];
      match Follow(s, l, k)
      case None => PopFor(s, l, e.thread) && t.workers[l.w].pc == Popped(e)
      case Some(i) =>
        i <= k && i < |t.g.queue| && t.g.queue[i] == e && (PopFor(s, l, e.thread) ==> i == k - 1)
  {
    if PopIndex(s, l).Some? {
      FollowPop(s, l, k);
    } else {
      FollowPush(s, l);
    }
  }

  // While the entry at index k waits it only moves towards the front, and by one with each pop that could have taken
  // it. So it is taken no later than by the (k+1)-st successful pop of a thread it may run on, whatever is submitted
  // or queued again meanwhile; and it is such a thread that takes it.
  lemma {:induction false} BoundedWaiting(s: State, run: seq<Label>, k: nat)
    requires Good(s) && k < |s.g.queue| && Execute(s, run).Some?
    ensures var t := Execute(s, run).value; var e := s.g.queue[k];
      FollowRun(s, run, k).Some? ==>
        var i := FollowRun(s, run, k).value;
        i + PopsFor(s, run, e.thread) <= k && i < |t.g.queue| && t.g.queue[i] == e
    ensures PopsFor(s, run, s.g.queue[k].thread) > k ==> FollowRun(s, run, k).None?
    decreases run
  {
    if run != [] {
      var t := Step(s, run[0]).value;
      FollowStep(s, run[0], k);
      StepKeeps(s, run[0]);
      match Follow(s, run[0], k) {
        case None =>
        case Some(i) => BoundedWaiting(t, run[1..], i);
      }
    }
  }

  // The m-th step of the run is the scan of a worker that e may run on, and it takes e.
  ghost predicate TakenAt(s: State, run: seq<Label>, e: Entry, m: nat) {
    && m < |run| && run[m].Does? && (e.thread == -1 || e.thread == run[m].w)
    && Execute(s, run[..m + 1]).Some?
    && var t := Execute(s, run[..m + 1]).value;
    && run[m].w < |t.workers| && t.workers[run[m].w].pc == Popped(e)
  }

  lemma TakenFirst(s: State, run: seq<Label>, k: nat)
    requires EntriesOk(s.g) && k < |s.g.queue| && run != [] && Step(s, run[0]).Some? && Follow(s, run[0], k).None?
    ensures TakenAt(s, run, s.g.queue[k], 0)
  {
    FollowStep(s, run[0], k);
    assert run[..1][0] == run[0] && run[..1][1..] == [];
    assert Execute(Step(s, run[0]).value, []) == Step(s, run[0]);
  }

  lemma TakenLater(s: State, run: seq<Label>, e: Entry, m: nat)
    requires run != [] && Step(s, run[0]).Some? && TakenAt(Step(s, run[0]).value, run[1..], e, m)
    ensures TakenAt(s, run, e, m + 1)
  {
    assert run[..m + 2][0] == run[0] && run[..m + 2][1..] == run[1..][..m + 1];
  }

  lemma {:induction false} TakenByItsThread(s: State, run: seq<Label>, k: nat)
    requires Good(s) && k < |s.g.queue| && Execute(s, run).Some? && FollowRun(s, run, k).None?
    ensures exists m :: TakenAt(s, run, s.g.queue[k], m)
    decreases run
  {
    if Follow(s, run[0], k).None? {
      TakenFirst(s, run, k);
    } else {
      FollowStep(s, run[0], k);
      StepKeeps(s, run[0]);
      TakenByItsThread(Step(s, run[0]).value, run[1..], Follow(s, run[0], k).value);
      var m :| TakenAt(Step(s, run[0]).value, run[1..], s.g.queue[k], m);
      TakenLater(s, run, s.g.queue[k], m);
    }
  }
}
