// The scheduler on top of the fiber contexts: every run of the scheduler is carried out by allowed operations on
// fibers, so the context discipline holds for the scheduler without further assumptions.
module SchedulerContexts {
  import opened Options
  import opened FiberStates
  import opened SchedulerModel
  import opened SchedulerInvariant
  import opened SchedulerPreservation
  import opened SchedulerDrain
  import FC = FiberContexts
  import FD = FiberDiscipline

  // -------------------------------------------------------------------------------------------
  // What the operations on fibers do, as far as it matters here.

  // Fiber x has gone to state st, thread w to the given stack in so many switches, and all else is as before, up to
  // saved contexts.
  ghost predicate After(m: FC.Machine, w: nat, x: FC.FiberId, st: FState, stack: Option<FC.FiberId>, more: nat,
                        n: FC.Machine) {
    && n.fibers.Keys == m.fibers.Keys && n.lastId == m.lastId && w < |m.threads| == |n.threads|
    && (forall f :: f in m.fibers ==>
         n.fibers[f].kind == m.fibers[f].kind && n.fibers[f].state == if f == x then st else m.fibers[f].state)
    && (forall v :: 0 <= v < |m.threads| && v != w ==> n.threads[v] == m.threads[v])
    && n.threads[w].main == m.threads[w].main && n.threads[w].scheduling == m.threads[w].scheduling
    && n.threads[w].stack == stack && |n.threads[w].loaded| == |m.threads[w].loaded| + more
  }

  // One allowed operation leads from m to n.
  ghost predicate OneOp(m: FC.Machine, op: FC.Op, n: FC.Machine) {
    FC.Allowed(m, op) && FC.Step(m, op) == Some(n) && FC.Disciplined(n)
  }

  lemma SwapInAfter(m: FC.Machine, w: nat, x: FC.FiberId) returns (n: FC.Machine)
    requires FC.Disciplined(m) && FC.Allowed(m, FC.DoSwapIn(w, x))
    ensures OneOp(m, FC.DoSwapIn(w, x), n) && After(m, w, x, EXEC, Some(x), 1, n)
  {
    FD.StepKeeps(m, FC.DoSwapIn(w, x));
    n := FC.Step(m, FC.DoSwapIn(w, x)).value;
    assert FC.ThreadOk(m, m.threads[w]);
  }

  lemma YieldAfter(m: FC.Machine, w: nat, x: FC.FiberId, hold: bool) returns (n: FC.Machine)
    requires FC.Disciplined(m) && FC.OnTask(m, w) && m.threads[w].stack == Some(x)
    ensures OneOp(m, FC.DoYield(w, hold), n)
    ensures After(m, w, x, if hold then HOLD else READY, m.threads[w].scheduling, 1, n)
  {
    FD.StepKeeps(m, FC.DoYield(w, hold));
    n := FC.Step(m, FC.DoYield(w, hold)).value;
    assert FC.ThreadOk(m, m.threads[w]);
  }

  lemma FinishAfter(m: FC.Machine, w: nat, x: FC.FiberId, throws: bool) returns (n: FC.Machine)
    requires FC.Disciplined(m) && FC.OnTask(m, w) && m.threads[w].stack == Some(x)
    ensures OneOp(m, FC.DoFinish(w, throws), n)
    ensures After(m, w, x, if throws then EXCEPT else TERM, m.threads[w].scheduling, 1, n)
  {
    FD.StepKeeps(m, FC.DoFinish(w, throws));
    n := FC.Step(m, FC.DoFinish(w, throws)).value;
    assert FC.ThreadOk(m, m.threads[w]);
  }

  // How a task leaves in this state.
  function LeavesBy(w: nat, st: FState): FC.Op {
    if Yielded(st) then FC.DoYield(w, st == HOLD) else FC.DoFinish(w, st == EXCEPT)
  }

  lemma LeaveAfter(m: FC.Machine, w: nat, x: FC.FiberId, st: FState) returns (op: FC.Op, n: FC.Machine)
    requires FC.Disciplined(m) && FC.OnTask(m, w) && m.threads[w].stack == Some(x) && (Yielded(st) || Finished(st))
    ensures op == LeavesBy(w, st) && OneOp(m, op, n) && After(m, w, x, st, m.threads[w].scheduling, 1, n)
  {
    if Yielded(st) {
      op := FC.DoYield(w, st == HOLD);
      n := YieldAfter(m, w, x, st == HOLD);
    } else {
      op := FC.DoFinish(w, st == EXCEPT);
      n := FinishAfter(m, w, x, st == EXCEPT);
    }
  }

  lemma RootEnds(m: FC.Machine, w: nat, x: FC.FiberId) returns (n: FC.Machine)
    requires FC.Disciplined(m) && FC.OnRoot(m, w) && m.threads[w].stack == Some(x)
    ensures OneOp(m, FC.DoFinish(w, false), n) && After(m, w, x, TERM, m.threads[w].main, 1, n)
  {
    FD.StepKeeps(m, FC.DoFinish(w, false));
    n := FC.Step(m, FC.DoFinish(w, false)).value;
    assert FC.ThreadOk(m, m.threads[w]);
  }

  lemma CallAfter(m: FC.Machine, w: nat, x: FC.FiberId) returns (n: FC.Machine)
    requires FC.Disciplined(m) && FC.Allowed(m, FC.DoCall(w, x))
    ensures OneOp(m, FC.DoCall(w, x), n) && After(m, w, x, EXEC, Some(x), 1, n)
  {
    FD.StepKeeps(m, FC.DoCall(w, x));
    n := FC.Step(m, FC.DoCall(w, x)).value;
    assert FC.ThreadOk(m, m.threads[w]);
  }

  lemma ResetAfter(m: FC.Machine, w: nat, x: FC.FiberId) returns (n: FC.Machine)
    requires FC.Disciplined(m) && FC.Allowed(m, FC.DoReset(x)) && w < |m.threads|
    ensures OneOp(m, FC.DoReset(x), n) && After(m, w, x, INIT, m.threads[w].stack, 0, n)
  {
    FD.StepKeeps(m, FC.DoReset(x));
    n := FC.Step(m, FC.DoReset(x)).value;
  }

  // A new task fiber.
  lemma MakeAfter(m: FC.Machine) returns (n: FC.Machine, x: FC.FiberId)
    requires FC.Disciplined(m)
    ensures OneOp(m, FC.DoMake, n) && x !in m.fibers && n.threads == m.threads
    ensures n.fibers.Keys == m.fibers.Keys + {x} && (forall f :: f in m.fibers ==> n.fibers[f] == m.fibers[f])
    ensures n.fibers[x].kind == FC.TaskFiber && n.fibers[x].state == INIT
  {
    FD.StepKeeps(m, FC.DoMake);
    n := FC.Step(m, FC.DoMake).value;
    x := n.lastId;
  }

  // A pool thread enters `run`.
  lemma EnterAfter(m: FC.Machine, w: nat) returns (n: FC.Machine)
    requires FC.Disciplined(m) && w < |m.threads| && m.threads[w].scheduling.None? && m.threads[w].stack.None?
    ensures OneOp(m, FC.DoEnterRun(w), n) && |n.threads| == |m.threads|
    ensures forall f :: f in m.fibers ==> f in n.fibers && n.fibers[f] == m.fibers[f]
    ensures forall v :: 0 <= v < |m.threads| && v != w ==> n.threads[v] == m.threads[v]
    ensures n.threads[w].scheduling.Some? && n.threads[w].stack == n.threads[w].scheduling == n.threads[w].main
    ensures n.threads[w].loaded == m.threads[w].loaded
  {
    FD.StepKeeps(m, FC.DoEnterRun(w));
    n := FC.Step(m, FC.DoEnterRun(w)).value;
    assert FC.ThreadOk(m, m.threads[w]);
  }

  // -------------------------------------------------------------------------------------------
  // Which fiber stands for which.

  // A fiber of the scheduler, or the idle fiber of a worker.
  datatype Name = Task(f: FiberId) | Idle(w: nat)

  type Names = map<Name, FC.FiberId>

  function StateOf(s: State, n: Name): Option<FState> {
    match n
    case Task(f) => if f in s.g.heap then Some(s.g.heap[f].state) else None
    case Idle(w) => if w < |s.workers| then Some(s.workers[w].idle) else None
  }

  // Every name has a task fiber of its own, in the state the scheduler has for it.
  ghost predicate NamesOk(s: State, m: FC.Machine, names: Names) {
    && (forall n :: n in names ==>
         && names[n] in m.fibers && m.fibers[names[n]].kind == FC.TaskFiber
         && StateOf(s, n) == Some(m.fibers[names[n]].state))
    && (forall n, n' :: n in names && n' in names && n != n' ==> names[n] != names[n'])
  }

  // Only fibers that had finished before they were submitted have no name.
  ghost predicate Covered(s: State, names: Names) {
    forall f :: f in s.g.heap ==> Task(f) in names || Finished(s.g.heap[f].state)
  }

  predicate IsRoot(s: State, w: nat) {
    s.root && w == s.pool
  }

  // The fiber whose stack the worker's thread executes on: the task or the idle fiber inside a switch, otherwise the
  // one that schedules.
  function StackOf(me: Worker, w: nat, names: Names, scheduling: Option<FC.FiberId>): Option<FC.FiberId> {
    if me.pc.On? && me.pc.phase == Running && Task(me.pc.f) in names then
      Some(names[Task(me.pc.f)])
    else if me.pc == IdleRun && Idle(w) in names then
      Some(names[Idle(w)])
    else
      scheduling
  }

  ghost predicate WorkerMirrors(s: State, m: FC.Machine, names: Names, w: nat)
    requires w < |s.workers| && w < |m.threads|
  {
    var me, t := s.workers[w], m.threads[w];
    if me.pc == Dormant then
      && Idle(w) !in names
      && (if IsRoot(s, w) then
            && t.scheduling.Some? && t.scheduling.value in m.fibers && t.main.Some? && t.stack == t.main
            && m.fibers[t.scheduling.value].kind == FC.RootFiber && m.fibers[t.scheduling.value].state == INIT
          else
            t.scheduling.None? && t.stack.None?)
    else
      && Idle(w) in names && (me.pc.On? ==> Task(me.pc.f) in names)
      && (me.pc != Exited ==>
           && t.scheduling.Some? && t.stack == StackOf(me, w, names, t.scheduling)
           && (IsRoot(s, w) ==>
                t.scheduling.value in m.fibers && m.fibers[t.scheduling.value].kind == FC.RootFiber))
  }

  ghost predicate Mirrors(s: State, m: FC.Machine, names: Names) {
    && |m.threads| == |s.workers| && FC.Disciplined(m) && NamesOk(s, m, names) && Covered(s, names)
    && forall w :: 0 <= w < |s.workers| ==> WorkerMirrors(s, m, names, w)
  }

  // -------------------------------------------------------------------------------------------
  // Runs of operations.

  ghost predicate Leads(m: FC.Machine, ops: seq<FC.Op>, n: FC.Machine) {
    FC.AllAllowed(m, ops) && FC.Execute(m, ops) == Some(n)
  }

  lemma LeadsNowhere(m: FC.Machine)
    ensures Leads(m, [], m)
  {
  }

  lemma LeadsOne(m: FC.Machine, op: FC.Op, n: FC.Machine)
    requires OneOp(m, op, n)
    ensures Leads(m, [op], n)
  {
    assert [op][1..] == [];
    assert FC.Execute(n, []) == Some(n);
  }

  lemma {:induction false} LeadsConcat(m: FC.Machine, a: seq<FC.Op>, n: FC.Machine, b: seq<FC.Op>, k: FC.Machine)
    requires Leads(m, a, n) && Leads(n, b, k)
    ensures Leads(m, a + b, k)
    decreases |a|
  {
    if a == [] {
      assert a + b == b;
    } else {
      assert (a + b)[1..] == a[1..] + b;
      LeadsConcat(FC.Step(m, a[0]).value, a[1..], n, b, k);
    }
  }

  // Inside a task or inside the idle fiber.
  predicate InSwitch(pc: Pc) {
    pc == IdleRun || (pc.On? && pc.phase == Running)
  }

  // How many switches deep the worker's thread is, from the stack it started on.
  function Level(s: State, w: nat): nat
    requires w < |s.workers|
  {
    var pc := s.workers[w].pc;
    (if IsRoot(s, w) && pc != Dormant && pc != Exited then 1 else 0) + if InSwitch(pc) then 1 else 0
  }

  function Gap(a: nat, b: nat): nat {
    if a < b then b - a else a - b
  }

  // Every thread has switched exactly as often as its worker has gone into or out of a fiber.
  ghost predicate Switches(s: State, m: FC.Machine, t: State, n: FC.Machine) {
    && |s.workers| == |t.workers| == |m.threads| == |n.threads|
    && forall w :: 0 <= w < |s.workers| ==>
         |n.threads[w].loaded| == |m.threads[w].loaded| + Gap(Level(s, w), Level(t, w))
  }

  predicate Keeps(names: Names, names': Names) {
    forall k :: k in names ==> k in names' && names'[k] == names[k]
  }

  // The operations carry out one step of the scheduler, from s to t.
  ghost predicate Carries(s: State, m: FC.Machine, names: Names, ops: seq<FC.Op>, t: State, n: FC.Machine,
                          names': Names) {
    Leads(m, ops, n) && Mirrors(t, n, names') && Switches(s, m, t, n) && Keeps(names, names')
  }

  // -------------------------------------------------------------------------------------------
  // How the correspondence is carried from one state to the next.

  // Between s and t only worker w has changed, besides the shared state.
  ghost predicate OnlyWorker(s: State, w: nat, t: State) {
    && w < |s.workers| == |t.workers| && t.root == s.root && t.pool == s.pool
    && forall v :: 0 <= v < |s.workers| && v != w ==> t.workers[v] == s.workers[v]
  }

  lemma OneSwitches(s: State, t: State, m: FC.Machine, n: FC.Machine, w: nat)
    requires OnlyWorker(s, w, t) && |m.threads| == |n.threads| == |s.workers|
    requires forall v :: 0 <= v < |m.threads| && v != w ==> n.threads[v] == m.threads[v]
    requires |n.threads[w].loaded| == |m.threads[w].loaded| + Gap(Level(s, w), Level(t, w))
    ensures Switches(s, m, t, n)
  {
    forall v | 0 <= v < |s.workers|
      ensures |n.threads[v].loaded| == |m.threads[v].loaded| + Gap(Level(s, v), Level(t, v))
    {
      assert v != w ==> Level(t, v) == Level(s, v);
    }
  }

  // A switch: fiber x of the machine changes its state, and the names see just that.
  lemma Carried(s: State, t: State, m: FC.Machine, n: FC.Machine, names: Names, w: nat, x: FC.FiberId, st: FState,
                stack: Option<FC.FiberId>)
    requires Mirrors(s, m, names) && OnlyWorker(s, w, t) && FC.Disciplined(n)
    requires After(m, w, x, st, stack, Gap(Level(s, w), Level(t, w)), n)
    requires x in m.fibers && (m.fibers[x].kind == FC.TaskFiber || m.threads[w].scheduling == Some(x))
    requires forall k :: k in names ==> StateOf(t, k) == if names[k] == x then Some(st) else StateOf(s, k)
    requires Covered(t, names) && WorkerMirrors(t, n, names, w)
    ensures Mirrors(t, n, names) && Switches(s, m, t, n)
  {
    OneSwitches(s, t, m, n, w);
    hide Switches;
    hide StateOf;
    hide Covered;
    forall v | 0 <= v < |t.workers| ensures WorkerMirrors(t, n, names, v) {
      if v != w {
        assert WorkerMirrors(s, m, names, v);
        OtherScheduling(m, v, w);
      }
    }
  }

  lemma OtherScheduling(m: FC.Machine, v: nat, w: nat)
    requires FC.Disciplined(m) && v < |m.threads| && w < |m.threads| && v != w
    ensures m.threads[v].scheduling.Some? ==> m.threads[v].scheduling != m.threads[w].scheduling
  {
    assert if v < w then FC.Apart(m.threads[v], m.threads[w]) else FC.Apart(m.threads[w], m.threads[v]);
  }

  // Nothing happens to the fibers.
  lemma Kept(s: State, t: State, m: FC.Machine, names: Names, w: nat)
    requires Mirrors(s, m, names) && OnlyWorker(s, w, t) && Level(t, w) == Level(s, w)
    requires forall k :: k in names ==> StateOf(t, k) == StateOf(s, k)
    requires Covered(t, names) && WorkerMirrors(t, m, names, w)
    ensures Carries(s, m, names, [], t, m, names)
  {
    OneSwitches(s, t, m, m, w);
    LeadsNowhere(m);
    hide Switches;
    hide Leads;
    forall v | 0 <= v < |t.workers| ensures WorkerMirrors(t, m, names, v) {
      assert WorkerMirrors(s, m, names, v);
    }
  }

  lemma ExtendedNames(s: State, t: State, m: FC.Machine, n: FC.Machine, names: Names, k: Name, x: FC.FiberId)
    requires NamesOk(s, m, names) && x !in m.fibers && n.fibers.Keys == m.fibers.Keys + {x}
    requires forall f :: f in m.fibers ==> n.fibers[f] == m.fibers[f]
    requires n.fibers[x].kind == FC.TaskFiber && n.fibers[x].state == INIT
    requires k !in names && StateOf(t, k) == Some(INIT)
    requires forall k' :: k' in names ==> StateOf(t, k') == StateOf(s, k')
    ensures NamesOk(t, n, names[k := x]) && Keeps(names, names[k := x])
  {
  }

  // A new task fiber x gets the name k.
  lemma Extended(s: State, t: State, m: FC.Machine, n: FC.Machine, names: Names, w: nat, k: Name, x: FC.FiberId)
    requires Mirrors(s, m, names) && OnlyWorker(s, w, t) && FC.Disciplined(n)
    requires x !in m.fibers && n.threads == m.threads && n.fibers.Keys == m.fibers.Keys + {x}
    requires forall f :: f in m.fibers ==> n.fibers[f] == m.fibers[f]
    requires n.fibers[x].kind == FC.TaskFiber && n.fibers[x].state == INIT
    requires k !in names && StateOf(t, k) == Some(INIT) && (k.Idle? ==> k.w == w) && Level(t, w) == Level(s, w)
    requires forall k' :: k' in names ==> StateOf(t, k') == StateOf(s, k')
    requires Covered(t, names[k := x]) && WorkerMirrors(t, n, names[k := x], w)
    ensures Mirrors(t, n, names[k := x]) && Switches(s, m, t, n) && Keeps(names, names[k := x])
  {
    OneSwitches(s, t, m, n, w);
    ExtendedNames(s, t, m, n, names, k, x);
    hide Switches;
    hide NamesOk;
    hide StateOf;
    hide FC.Disciplined;
    hide Covered;
    var names' := names[k := x];
    forall v | 0 <= v < |t.workers| ensures WorkerMirrors(t, n, names', v) {
      if v != w {
        assert WorkerMirrors(s, m, names, v);
      }
    }
  }

  // -------------------------------------------------------------------------------------------
  // The actions of a worker that switch no context.

  lemma Quiet(s: State, m: FC.Machine, names: Names, w: nat, t: State)
    requires Mirrors(s, m, names) && OnlyWorker(s, w, t) && t.g.heap == s.g.heap
    requires s.workers[w].pc != Dormant && s.workers[w].pc != Exited && t.workers[w].pc != Dormant
    requires t.workers[w].idle == s.workers[w].idle && InSwitch(s.workers[w].pc) == InSwitch(t.workers[w].pc) == false
    requires t.workers[w].pc.On? ==> Task(t.workers[w].pc.f) in names
    requires t.workers[w].pc == Exited ==> !IsRoot(s, w)
    ensures Carries(s, m, names, [], t, m, names)
  {
    assert WorkerMirrors(s, m, names, w);
    Kept(s, t, m, names, w);
  }

  // A submission, by a task or from outside. A fiber that is new gets its name.
  lemma SubmittedMirrors(s: State, m: FC.Machine, names: Names, item: Item, thread: int, t: State)
    returns (ops: seq<FC.Op>, n: FC.Machine, names': Names)
    requires Mirrors(s, m, names) && Fresh(s.g, item) && t.g == Submitted(s.g, item, thread)
    requires t.workers == s.workers && t.root == s.root && t.pool == s.pool && |s.workers| > 0
    ensures Carries(s, m, names, ops, t, n, names')
  {
    hide FC.Disciplined;
    hide Leads;
    hide FC.Allowed;
    hide FC.Step;
    assert WorkerMirrors(s, m, names, 0);
    if item.NewFiber? {
      var x;
      n, x := MakeAfter(m);
      ops, names' := [FC.DoMake], names[Task(item.f) := x];
      LeadsOne(m, FC.DoMake, n);
      Extended(s, t, m, n, names, 0, Task(item.f), x);
    } else {
      ops, n, names' := [], m, names;
      Kept(s, t, m, names, 0);
    }
  }

  // -------------------------------------------------------------------------------------------
  // The actions that switch.

  lemma NotOnAny(m: FC.Machine, x: FC.FiberId)
    requires FC.Disciplined(m) && x in m.fibers && m.fibers[x].state != EXEC
    ensures !FC.OnSome(m, x)
  {
    forall w | 0 <= w < |m.threads| ensures m.threads[w].stack != Some(x) {
      assert FC.ThreadOk(m, m.threads[w]);
    }
  }

  // Worker w switches into the fiber named k.
  lemma EnterMirrors(s: State, m: FC.Machine, names: Names, w: nat, k: Name, t: State)
    returns (ops: seq<FC.Op>, n: FC.Machine)
    requires Mirrors(s, m, names) && OnlyWorker(s, w, t) && k in names
    requires s.workers[w].pc != Dormant && s.workers[w].pc != Exited && !InSwitch(s.workers[w].pc)
    requires !Finished(StateOf(s, k).value) && StateOf(s, k).value != EXEC
    requires forall k' :: k' in names ==> StateOf(t, k') == if k' == k then Some(EXEC) else StateOf(s, k')
    requires t.workers[w].pc != Dormant && StackOf(t.workers[w], w, names, None) == Some(names[k])
    requires t.workers[w].pc != Exited && (t.workers[w].pc.On? ==> Task(t.workers[w].pc.f) in names)
    requires Covered(t, names)
    ensures Carries(s, m, names, ops, t, n, names)
  {
    assert WorkerMirrors(s, m, names, w);
    NotOnAny(m, names[k]);
    n := SwapInAfter(m, w, names[k]);
    ops := [FC.DoSwapIn(w, names[k])];
    LeadsOne(m, ops[0], n);
    Carried(s, t, m, n, names, w, names[k], EXEC, Some(names[k]));
  }

  // The fiber named k, which worker w is in, switches out by the operation op, and is in state st then.
  lemma LeaveMirrors(s: State, m: FC.Machine, names: Names, w: nat, k: Name, st: FState, t: State)
    returns (ops: seq<FC.Op>, n: FC.Machine)
    requires Mirrors(s, m, names) && OnlyWorker(s, w, t) && k in names
    requires s.workers[w].pc != Dormant && s.workers[w].pc != Exited
    requires StackOf(s.workers[w], w, names, None) == Some(names[k]) && (Yielded(st) || Finished(st))
    requires forall k' :: k' in names ==> StateOf(t, k') == if k' == k then Some(st) else StateOf(s, k')
    requires t.workers[w].pc != Dormant && !InSwitch(t.workers[w].pc)
    requires t.workers[w].pc != Exited && (t.workers[w].pc.On? ==> Task(t.workers[w].pc.f) in names)
    requires Covered(t, names)
    ensures Carries(s, m, names, ops, t, n, names) && ops == [LeavesBy(w, st)]
  {
    assert WorkerMirrors(s, m, names, w);
    var op;
    op, n := LeaveAfter(m, w, names[k], st);
    ops := [op];
    LeadsOne(m, op, n);
    hide Leads;
    hide OneOp;
    hide FC.OnTask;
    Carried(s, t, m, n, names, w, names[k], st, m.threads[w].scheduling);
  }

  // Worker w, outside of any switch, resets the fiber named k.
  lemma ResetMirrors(s: State, m: FC.Machine, names: Names, w: nat, k: Name, t: State)
    returns (ops: seq<FC.Op>, n: FC.Machine)
    requires Mirrors(s, m, names) && OnlyWorker(s, w, t) && k in names && Disposable(StateOf(s, k).value)
    requires s.workers[w].pc != Dormant && s.workers[w].pc != Exited && !InSwitch(s.workers[w].pc)
    requires forall k' :: k' in names ==> StateOf(t, k') == if k' == k then Some(INIT) else StateOf(s, k')
    requires t.workers[w].pc != Dormant && t.workers[w].pc != Exited && !InSwitch(t.workers[w].pc)
    requires t.workers[w].pc.On? ==> Task(t.workers[w].pc.f) in names
    requires Covered(t, names)
    ensures Carries(s, m, names, ops, t, n, names)
  {
    assert WorkerMirrors(s, m, names, w);
    n := ResetAfter(m, w, names[k]);
    ops := [FC.DoReset(names[k])];
    LeadsOne(m, ops[0], n);
    Carried(s, t, m, n, names, w, names[k], INIT, m.threads[w].stack);
  }

  // Worker w makes a fiber for a callable.
  lemma MakeMirrors(s: State, m: FC.Machine, names: Names, w: nat, f: FiberId, t: State)
    returns (ops: seq<FC.Op>, n: FC.Machine, names': Names)
    requires Mirrors(s, m, names) && OnlyWorker(s, w, t) && f !in s.g.heap
    requires s.workers[w].pc != Dormant && s.workers[w].pc != Exited && !InSwitch(s.workers[w].pc)
    requires t.g.heap.Keys == s.g.heap.Keys + {f} && t.g.heap[f].state == INIT
    requires forall g :: g in s.g.heap ==> t.g.heap[g] == s.g.heap[g]
    requires t.workers[w].idle == s.workers[w].idle && t.workers[w].pc != Dormant && t.workers[w].pc != Exited
    requires !InSwitch(t.workers[w].pc) && (t.workers[w].pc.On? ==> t.workers[w].pc.f == f)
    ensures Carries(s, m, names, ops, t, n, names')
  {
    hide FC.Disciplined;
    hide Leads;
    hide FC.Step;
    hide FC.Allowed;
    assert WorkerMirrors(s, m, names, w);
    var x;
    n, x := MakeAfter(m);
    ops, names' := [FC.DoMake], names[Task(f) := x];
    LeadsOne(m, FC.DoMake, n);
    Extended(s, t, m, n, names, w, Task(f), x);
  }

  // The root fiber returns from `run`.
  lemma RootMirrors(s: State, m: FC.Machine, names: Names, w: nat, t: State)
    returns (ops: seq<FC.Op>, n: FC.Machine)
    requires Mirrors(s, m, names) && OnlyWorker(s, w, t) && IsRoot(s, w) && t.g.heap == s.g.heap
    requires s.workers[w].pc == NoEntry && t.workers[w].pc == Exited && t.workers[w].idle == s.workers[w].idle
    ensures Carries(s, m, names, ops, t, n, names)
  {
    assert WorkerMirrors(s, m, names, w);
    var x := m.threads[w].scheduling.value;
    n := RootEnds(m, w, x);
    ops := [FC.DoFinish(w, false)];
    LeadsOne(m, ops[0], n);
    Carried(s, t, m, n, names, w, x, TERM, m.threads[w].main);
  }

  // -------------------------------------------------------------------------------------------
  // Waking a worker: its thread enters `run`, or calls the root fiber that does, and makes its idle fiber.

  // t is s with worker w woken.
  ghost predicate Wakes(s: State, w: nat, t: State) {
    && OnlyWorker(s, w, t) && t.g.heap == s.g.heap && s.workers[w].pc == Dormant && s.workers[w].idle == INIT
    && t.workers[w] == Woken(s.workers[w])
  }

  lemma WokenMirrors(s: State, m: FC.Machine, names: Names, w: nat, t: State, n: FC.Machine, x: FC.FiberId)
    requires Mirrors(s, m, names) && Wakes(s, w, t) && FC.Disciplined(n) && |n.threads| == |m.threads|
    requires forall f :: f in m.fibers && m.fibers[f].kind == FC.TaskFiber ==>
      f in n.fibers && n.fibers[f] == m.fibers[f]
    requires forall f :: f in m.fibers && m.fibers[f].state == INIT && m.threads[w].scheduling != Some(f) ==>
      f in n.fibers && n.fibers[f] == m.fibers[f]
    requires forall v :: 0 <= v < |m.threads| && v != w ==> n.threads[v] == m.threads[v]
    requires x !in m.fibers && x in n.fibers && n.fibers[x].kind == FC.TaskFiber && n.fibers[x].state == INIT
    requires n.threads[w].scheduling.Some? && n.threads[w].stack == n.threads[w].scheduling
    requires IsRoot(s, w) ==>
      n.threads[w].scheduling.value in n.fibers && n.fibers[n.threads[w].scheduling.value].kind == FC.RootFiber
    ensures Mirrors(t, n, names[Idle(w) := x])
  {
    var names' := names[Idle(w) := x];
    assert WorkerMirrors(s, m, names, w);
    forall v | 0 <= v < |t.workers| ensures WorkerMirrors(t, n, names', v) {
      if v != w {
        assert WorkerMirrors(s, m, names, v);
        OtherScheduling(m, v, w);
      }
    }
  }

  lemma WakePool(s: State, m: FC.Machine, names: Names, w: nat, t: State)
    returns (ops: seq<FC.Op>, n: FC.Machine, names': Names)
    requires Mirrors(s, m, names) && Wakes(s, w, t) && !IsRoot(s, w)
    ensures Carries(s, m, names, ops, t, n, names')
  {
    assert WorkerMirrors(s, m, names, w);
    var entered := EnterAfter(m, w);
    var x;
    n, x := MakeAfter(entered);
    hide FC.Step;
    hide FC.Allowed;
    LeadsOne(m, FC.DoEnterRun(w), entered);
    LeadsOne(entered, FC.DoMake, n);
    LeadsConcat(m, [FC.DoEnterRun(w)], entered, [FC.DoMake], n);
    ops, names' := [FC.DoEnterRun(w)] + [FC.DoMake], names[Idle(w) := x];
    WokenMirrors(s, m, names, w, t, n, x);
  }

  lemma WakeRoot(s: State, m: FC.Machine, names: Names, w: nat, t: State)
    returns (ops: seq<FC.Op>, n: FC.Machine, names': Names)
    requires Mirrors(s, m, names) && Wakes(s, w, t) && IsRoot(s, w)
    ensures Carries(s, m, names, ops, t, n, names')
  {
    assert WorkerMirrors(s, m, names, w);
    var r := m.threads[w].scheduling.value;
    var called := CallAfter(m, w, r);
    var x;
    n, x := MakeAfter(called);
    hide FC.Step;
    hide FC.Allowed;
    LeadsOne(m, FC.DoCall(w, r), called);
    LeadsOne(called, FC.DoMake, n);
    LeadsConcat(m, [FC.DoCall(w, r)], called, [FC.DoMake], n);
    ops, names' := [FC.DoCall(w, r)] + [FC.DoMake], names[Idle(w) := x];
    WokenMirrors(s, m, names, w, t, n, x);
  }

  // -------------------------------------------------------------------------------------------
  // Every step of the scheduler.

  lemma PoppedMirrors(s: State, m: FC.Machine, names: Names, w: nat, newId: FiberId, t: State)
    returns (ops: seq<FC.Op>, n: FC.Machine, names': Names)
    requires Mirrors(s, m, names) && OnlyWorker(s, w, t) && WorkerOk(s.workers[w], s.g.heap)
    requires s.workers[w].pc.Popped?
    requires DoDispatch(s.workers[w], s.g, s.workers[w].pc.ft, newId) == Moved(t.workers[w], t.g)
    ensures Carries(s, m, names, ops, t, n, names')
  {
    hide FC.Disciplined;
    hide Leads;
    hide FC.Step;
    hide FC.Allowed;
    assert WorkerMirrors(s, m, names, w);
    var me, ft := s.workers[w], s.workers[w].pc.ft;
    names' := names;
    if ft.func.Some? && me.funcFiber.None? {
      ops, n, names' := MakeMirrors(s, m, names, w, newId, t);
    } else if ft.func.Some? {
      ops, n := ResetMirrors(s, m, names, w, Task(me.funcFiber.value), t);
    } else {
      ops, n := [], m;
      Quiet(s, m, names, w, t);
    }
  }

  // The idle fiber is switched into, or comes back.
  lemma IdleSwitches(s: State, m: FC.Machine, names: Names, w: nat, a: Action, t: State)
    returns (ops: seq<FC.Op>, n: FC.Machine)
    requires Mirrors(s, m, names) && OnlyWorker(s, w, t) && WorkerOk(s.workers[w], s.g.heap)
    requires (s.workers[w].pc == NoEntry && a == IdleEnter) || s.workers[w].pc == IdleRun
    requires Act(s.workers[w], w, s.g, a) == Moved(t.workers[w], t.g)
    ensures Carries(s, m, names, ops, t, n, names)
  {
    hide FC.Disciplined;
    hide Leads;
    hide FC.Step;
    hide FC.Allowed;
    assert WorkerMirrors(s, m, names, w);
    if a == IdleEnter {
      ops, n := EnterMirrors(s, m, names, w, Idle(w), t);
    } else {
      ops, n := LeaveMirrors(s, m, names, w, Idle(w), t.workers[w].idle, t);
    }
  }

  lemma IdleMirrors(s: State, m: FC.Machine, names: Names, w: nat, a: Action, t: State)
    returns (ops: seq<FC.Op>, n: FC.Machine)
    requires Mirrors(s, m, names) && OnlyWorker(s, w, t) && WorkerOk(s.workers[w], s.g.heap)
    requires s.workers[w].pc == NoEntry || s.workers[w].pc == IdleRun || s.workers[w].pc == IdleBack
    requires Act(s.workers[w], w, s.g, a) == Moved(t.workers[w], t.g)
    ensures Carries(s, m, names, ops, t, n, names)
  {
    if a == IdleEnter || a == IdleCheck {
      hide Mirrors;
      ops, n := IdleSwitches(s, m, names, w, a, t);
    } else if a == Break && IsRoot(s, w) {
      hide Mirrors;
      ops, n := RootMirrors(s, m, names, w, t);
    } else {
      hide Mirrors;
      ops, n := [], m;
      Quiet(s, m, names, w, t);
    }
  }

  lemma DecideMirrors(s: State, m: FC.Machine, names: Names, w: nat, t: State)
    returns (ops: seq<FC.Op>, n: FC.Machine)
    requires Mirrors(s, m, names) && OnlyWorker(s, w, t) && WorkerOk(s.workers[w], s.g.heap)
    requires s.workers[w].pc.On? && s.workers[w].pc.phase == Counted
    requires DoDecide(s.workers[w], s.g, s.workers[w].pc.slot, s.workers[w].pc.f) == Moved(t.workers[w], t.g)
    ensures Carries(s, m, names, ops, t, n, names)
  {
    assert WorkerMirrors(s, m, names, w);
    hide FC.Disciplined;
    hide Leads;
    hide FC.Step;
    hide FC.Allowed;
    var pc := s.workers[w].pc;
    if pc.slot == FuncSlot && Finished(s.g.heap[pc.f].state) {
      ops, n := ResetMirrors(s, m, names, w, Task(pc.f), t);
    } else {
      ops, n := [], m;
      Quiet(s, m, names, w, t);
    }
  }

  lemma EnteringMirrors(s: State, m: FC.Machine, names: Names, w: nat, t: State)
    returns (ops: seq<FC.Op>, n: FC.Machine)
    requires Mirrors(s, m, names) && OnlyWorker(s, w, t) && WorkerOk(s.workers[w], s.g.heap)
    requires s.workers[w].pc.On? && s.workers[w].pc.phase == Entering
    requires DoSwapIn(s.workers[w], s.g, s.workers[w].pc.slot, s.workers[w].pc.f) == Moved(t.workers[w], t.g)
    ensures Carries(s, m, names, ops, t, n, names)
  {
    assert WorkerMirrors(s, m, names, w);
    hide FC.Disciplined;
    hide Leads;
    ops, n := EnterMirrors(s, m, names, w, Task(s.workers[w].pc.f), t);
  }

  // A task that yields, returns or throws does just that to its fiber.
  predicate ActsAs(w: nat, a: Action, ops: seq<FC.Op>) {
    match a
    case Yield(hold) => ops == [FC.DoYield(w, hold)]
    case Finish(throws) => ops == [FC.DoFinish(w, throws)]
    case _ => true
  }

  // The task yields, returns or throws.
  lemma TurnMirrors(s: State, m: FC.Machine, names: Names, w: nat, a: Action, t: State)
    returns (ops: seq<FC.Op>, n: FC.Machine)
    requires Mirrors(s, m, names) && OnlyWorker(s, w, t) && (a.Yield? || a.Finish?)
    requires s.workers[w].pc.On? && s.workers[w].pc.phase == Running
    requires Act(s.workers[w], w, s.g, a) == Moved(t.workers[w], t.g)
    ensures Carries(s, m, names, ops, t, n, names) && ActsAs(w, a, ops)
  {
    assert WorkerMirrors(s, m, names, w);
    hide FC.Disciplined;
    hide Leads;
    var f := s.workers[w].pc.f;
    ops, n := LeaveMirrors(s, m, names, w, Task(f), t.g.heap[f].state, t);
  }

  lemma BetweenMirrors(s: State, m: FC.Machine, names: Names, w: nat, a: Action, t: State)
    requires Mirrors(s, m, names) && OnlyWorker(s, w, t)
    requires s.workers[w].pc.On? && s.workers[w].pc.phase in {Backed, Requeuing, Releasing}
    requires Act(s.workers[w], w, s.g, a) == Moved(t.workers[w], t.g)
    ensures Carries(s, m, names, [], t, m, names)
  {
    assert WorkerMirrors(s, m, names, w);
    hide FC.Disciplined;
    Quiet(s, m, names, w, t);
  }

  lemma TaskMirrors(s: State, m: FC.Machine, names: Names, w: nat, a: Action, t: State)
    returns (ops: seq<FC.Op>, n: FC.Machine, names': Names)
    requires Mirrors(s, m, names) && OnlyWorker(s, w, t) && WorkerOk(s.workers[w], s.g.heap)
    requires s.workers[w].pc.On? && Act(s.workers[w], w, s.g, a) == Moved(t.workers[w], t.g)
    ensures Carries(s, m, names, ops, t, n, names') && ActsAs(w, a, ops)
  {
    hide Mirrors;
    hide Leads;
    names' := names;
    match s.workers[w].pc.phase {
      case Entering => ops, n := EnteringMirrors(s, m, names, w, t);
      case Running =>
        if a.Submit? {
          assert t.workers == s.workers;
          ops, n, names' := SubmittedMirrors(s, m, names, a.item, a.thread, t);
        } else {
          ops, n := TurnMirrors(s, m, names, w, a, t);
        }
      case Counted => ops, n := DecideMirrors(s, m, names, w, t);
      case _ =>
        ops, n := [], m;
        BetweenMirrors(s, m, names, w, a, t);
    }
  }

  lemma DoesMirrors(s: State, m: FC.Machine, names: Names, w: nat, a: Action, t: State)
    returns (ops: seq<FC.Op>, n: FC.Machine, names': Names)
    requires Mirrors(s, m, names) && WorkersOk(s) && Took(s, w, a, t)
    ensures Carries(s, m, names, ops, t, n, names') && ActsAs(w, a, ops)
  {
    hide FC.Disciplined;
    hide Leads;
    assert WorkerOk(s.workers[w], s.g.heap);
    assert WorkerMirrors(s, m, names, w);
    names' := names;
    match s.workers[w].pc {
      case Head =>
        ops, n := [], m;
        Quiet(s, m, names, w, t);
      case Popped(_) => ops, n, names' := PoppedMirrors(s, m, names, w, a.newId, t);
      case On(_, _, _) => ops, n, names' := TaskMirrors(s, m, names, w, a, t);
      case _ => ops, n := IdleMirrors(s, m, names, w, a, t);
    }
  }

  // s with the first k pool threads woken.
  function Started(s: State, k: nat): State
    requires k <= s.pool <= |s.workers|
  {
    s.(workers := seq(|s.workers|, i requires 0 <= i < |s.workers| =>
      if i < k then Woken(s.workers[i]) else s.workers[i]))
  }

  // Two steps in a row, of which for each thread at most one switches.
  lemma CarriesOn(s: State, m: FC.Machine, names: Names, a: seq<FC.Op>, r: State, k: FC.Machine, between: Names,
                  b: seq<FC.Op>, t: State, n: FC.Machine, names': Names)
    requires Carries(s, m, names, a, r, k, between) && Carries(r, k, between, b, t, n, names')
    requires forall w :: 0 <= w < |s.workers| && w < |r.workers| ==> Level(r, w) == Level(s, w)
    ensures Carries(s, m, names, a + b, t, n, names')
  {
    LeadsConcat(m, a, k, b, n);
    hide Leads;
    hide Mirrors;
    forall w | 0 <= w < |s.workers|
      ensures |n.threads[w].loaded| == |m.threads[w].loaded| + Gap(Level(s, w), Level(t, w))
    {
      assert Level(r, w) == Level(s, w);
    }
  }

  lemma StaysCarried(s: State, m: FC.Machine, names: Names)
    requires Mirrors(s, m, names)
    ensures Carries(s, m, names, [], s, m, names)
  {
    LeadsNowhere(m);
  }

  lemma {:induction false} PoolMirrors(s: State, m: FC.Machine, names: Names, k: nat)
    returns (ops: seq<FC.Op>, n: FC.Machine, names': Names)
    requires Mirrors(s, m, names) && k <= s.pool <= |s.workers|
    requires forall i :: 0 <= i < s.pool ==> s.workers[i].pc == Dormant && s.workers[i].idle == INIT
    ensures Carries(s, m, names, ops, Started(s, k), n, names')
    decreases k
  {
    hide Leads;
    if k == 0 {
      assert Started(s, 0).workers == s.workers;
      assert Started(s, 0) == s;
      ops, n, names' := [], m, names;
      hide Mirrors;
      StaysCarried(s, m, names);
    } else {
      hide Mirrors;
      var before, r, between := PoolMirrors(s, m, names, k - 1);
      var last;
      last, n, names' := WakePool(Started(s, k - 1), r, between, k - 1, Started(s, k));
      ops := before + last;
      CarriesOn(s, m, names, before, Started(s, k - 1), r, between, last, Started(s, k), n, names');
    }
  }

  // A change of flags, or of stop()'s program point.
  lemma FlagsMirror(s: State, m: FC.Machine, names: Names, t: State)
    requires Mirrors(s, m, names) && |s.workers| > 0
    requires t.workers == s.workers && t.g.heap == s.g.heap && t.root == s.root && t.pool == s.pool
    ensures Carries(s, m, names, [], t, m, names)
  {
    assert WorkerMirrors(s, m, names, 0);
    Kept(s, t, m, names, 0);
  }

  lemma StartMirrors(s: State, m: FC.Machine, names: Names)
    returns (ops: seq<FC.Op>, n: FC.Machine, names': Names)
    requires SleepersOk(s) && WorkersOk(s) && Mirrors(s, m, names) && s.stop == NotCalled
    ensures Carries(s, m, names, ops, DoStart(s), n, names')
  {
    hide Mirrors;
    if s.g.stopping {
      forall i | 0 <= i < s.pool ensures s.workers[i].idle == INIT {
        assert WorkerOk(s.workers[i], s.g.heap);
      }
      ops, n, names' := PoolMirrors(s, m, names, s.pool);
      assert DoStart(s).workers == Started(s, s.pool).workers;
      FlagsMirror(Started(s, s.pool), n, names', DoStart(s));
      CarriesOn(s, m, names, ops, Started(s, s.pool), n, names', [], DoStart(s), n, names');
      assert ops + [] == ops;
    } else {
      ops, n, names' := [], m, names;
      StaysCarried(s, m, names);
    }
  }

  lemma StopMirrors(s: State, m: FC.Machine, names: Names)
    returns (ops: seq<FC.Op>, n: FC.Machine, names': Names)
    requires SleepersOk(s) && WorkersOk(s) && Mirrors(s, m, names) && DoStop(s).Some?
    ensures Carries(s, m, names, ops, DoStop(s).value, n, names')
  {
    StopShape(s);
    hide DoStop;
    hide Carries;
    hide Mirrors;
    if WakesRoot(s) {
      assert WorkerOk(s.workers[s.pool], s.g.heap);
      ops, n, names' := WakeRoot(s, m, names, s.pool, DoStop(s).value);
    } else {
      ops, n, names' := [], m, names;
      FlagsMirror(s, m, names, DoStop(s).value);
    }
  }

  lemma StepMirrors(s: State, m: FC.Machine, names: Names, l: Label)
    returns (ops: seq<FC.Op>, n: FC.Machine, names': Names)
    requires SleepersOk(s) && WorkersOk(s) && Mirrors(s, m, names) && Step(s, l).Some?
    ensures Carries(s, m, names, ops, Step(s, l).value, n, names') && (l.Does? ==> ActsAs(l.w, l.a, ops))
  {
    hide Carries;
    hide Mirrors;
    hide Live;
    match l {
      case Does(w, a) =>
        DoesTook(s, w, a);
        hide Act;
        ops, n, names' := DoesMirrors(s, m, names, w, a, Step(s, l).value);
      case Outside(item, thread) =>
        ops, n, names' := SubmittedMirrors(s, m, names, item, thread, Step(s, l).value);
      case Start => ops, n, names' := StartMirrors(s, m, names);
      case Stop => ops, n, names' := StopMirrors(s, m, names);
    }
  }

  // Scheduler(threads, useCaller)
  lemma InitMirrors(threads: nat, useCaller: bool) returns (ops: seq<FC.Op>, m: FC.Machine)
    requires threads > 0
    ensures ops == if useCaller then [FC.DoMakeRoot(threads - 1)] else []
    ensures Leads(FC.Init(threads), ops, m) && Mirrors(Init(threads, useCaller), m, map[])
  {
    FD.InitDisciplined(threads);
    m := FC.Init(threads);
    if useCaller {
      ops := [FC.DoMakeRoot(threads - 1)];
      FD.StepKeeps(m, ops[0]);
      LeadsOne(m, ops[0], FC.Step(m, ops[0]).value);
      m := FC.Step(m, ops[0]).value;
    } else {
      ops := [];
      LeadsNowhere(m);
    }
  }

  // The operations carry out the run label by label: before every label the machine mirrors the scheduler, and a first
  // part of what is left of the operations carries out just this label.
  ghost predicate Lockstep(s: State, m: FC.Machine, names: Names, run: seq<Label>, ops: seq<FC.Op>)
    decreases run
  {
    && Mirrors(s, m, names)
    && (run == [] ==> ops == [])
    && (run != [] ==> Step(s, run[0]).Some? && exists k: nat, n: FC.Machine, names': Names ::
         && k <= |ops| && (run[0].Does? ==> ActsAs(run[0].w, run[0].a, ops[..k]))
         && Carries(s, m, names, ops[..k], Step(s, run[0]).value, n, names')
         && Lockstep(Step(s, run[0]).value, n, names', run[1..], ops[k..]))
  }

  lemma LockstepCons(s: State, m: FC.Machine, names: Names, run: seq<Label>, first: seq<FC.Op>, n: FC.Machine,
                     names': Names, rest: seq<FC.Op>)
    requires Mirrors(s, m, names) && run != [] && Step(s, run[0]).Some?
    requires Carries(s, m, names, first, Step(s, run[0]).value, n, names')
    requires run[0].Does? ==> ActsAs(run[0].w, run[0].a, first)
    requires Lockstep(Step(s, run[0]).value, n, names', run[1..], rest)
    ensures Lockstep(s, m, names, run, first + rest)
  {
    hide Mirrors;
    hide Carries;
    hide ActsAs;
    hide Step;
    var ops := first + rest;
    assert ops[..|first|] == first && ops[|first|..] == rest;
  }

  lemma {:induction false} ExecuteMirrors(s: State, m: FC.Machine, names: Names, run: seq<Label>)
    returns (ops: seq<FC.Op>, n: FC.Machine, names': Names)
    requires Good(s) && Mirrors(s, m, names) && Execute(s, run).Some?
    ensures Leads(m, ops, n) && Mirrors(Execute(s, run).value, n, names') && Lockstep(s, m, names, run, ops)
    decreases run
  {
    hide Leads;
    hide Mirrors;
    if run == [] {
      ops, n, names' := [], m, names;
      LeadsNowhere(m);
    } else {
      StepKeeps(s, run[0]);
      var first, r, between := StepMirrors(s, m, names, run[0]);
      hide Step;
      var rest;
      rest, n, names' := ExecuteMirrors(Step(s, run[0]).value, r, between, run[1..]);
      ops := first + rest;
      LockstepCons(s, m, names, run, first, r, between, rest);
      LeadsConcat(m, first, r, rest, n);
    }
  }

  // t_fiber is the fiber of the task that is executed, the idle fiber inside the idle switch, and otherwise the fiber
  // that schedules.
  predicate CurrentIs(me: Worker, w: nat, t: FC.Thread, names: Names) {
    if me.pc.On? && me.pc.phase == Running then
      Task(me.pc.f) in names && t.current == Some(names[Task(me.pc.f)])
    else if me.pc == IdleRun then
      Idle(w) in names && t.current == Some(names[Idle(w)])
    else
      t.scheduling.Some? && t.current == t.scheduling
  }

  lemma MirrorsCurrent(s: State, m: FC.Machine, names: Names)
    requires Mirrors(s, m, names)
    ensures |m.threads| == |s.workers|
    ensures forall w :: 0 <= w < |s.workers| && s.workers[w].pc != Dormant && s.workers[w].pc != Exited ==>
      CurrentIs(s.workers[w], w, m.threads[w], names)
  {
    forall w | 0 <= w < |s.workers| && s.workers[w].pc != Dormant && s.workers[w].pc != Exited
      ensures CurrentIs(s.workers[w], w, m.threads[w], names)
    {
      assert WorkerMirrors(s, m, names, w) && FC.ThreadOk(m, m.threads[w]);
    }
  }

  // Every run of the scheduler, with any number of threads, is carried out by a run of allowed operations on fibers,
  // label by label, so that no assertion in Fiber fails. In each label a thread switches once for every fiber that its
  // worker goes into or out of, and not otherwise. At the end, and so after every label, each thread's t_fiber is the
  // one it should be, and every switch out of a task, an idle fiber or the root fiber has gone back to exactly where
  // the thread switched in.
  lemma RunsKeepContexts(threads: nat, useCaller: bool, run: seq<Label>, s: State)
    returns (begin: seq<FC.Op>, r: FC.Machine, ops: seq<FC.Op>, m: FC.Machine, names: Names)
    requires threads > 0 && Execute(Init(threads, useCaller), run) == Some(s)
    ensures begin == (if useCaller then [FC.DoMakeRoot(threads - 1)] else []) && Leads(FC.Init(threads), begin, r)
    ensures Leads(r, ops, m) && Lockstep(Init(threads, useCaller), r, map[], run, ops)
    ensures Mirrors(s, m, names) && |m.threads| == |s.workers| == threads
    ensures forall w :: 0 <= w < threads && s.workers[w].pc != Dormant && s.workers[w].pc != Exited ==>
      CurrentIs(s.workers[w], w, m.threads[w], names)
    ensures FD.ExecuteNested(FD.InitStacks(threads), begin + ops).Some?
    ensures forall w :: 0 <= w < threads ==>
      && w < |FD.ExecuteNested(FD.InitStacks(threads), begin + ops).value.threads|
      && m.threads[w].loaded == FD.ExecuteNested(FD.InitStacks(threads), begin + ops).value.threads[w].resumed
  {
    hide Leads;
    hide Lockstep;
    hide Mirrors;
    begin, r := InitMirrors(threads, useCaller);
    InitGood(threads, useCaller);
    ops, m, names := ExecuteMirrors(Init(threads, useCaller), r, map[], run);
    LeadsConcat(FC.Init(threads), begin, r, ops, m);
    FD.SwitchesAreNestedCalls(threads, begin + ops);
    MirrorsCurrent(s, m, names);
  }
}
