// What every run of allowed operations keeps, and that switching back always finds the context that switched in.
module FiberDiscipline {
  import opened Options
  import opened FiberStates
  import opened FiberContexts

  // -------------------------------------------------------------------------------------------
  // Every allowed operation succeeds and keeps the discipline.

  lemma InitDisciplined(n: nat)
    ensures Disciplined(Init(n))
  {
  }

  lemma CurrentKeeps(m: Machine, w: nat)
    requires Disciplined(m) && w < |m.threads|
    ensures Disciplined(Current(m, w)) && Current(m, w).threads[w].current.Some?
    ensures Current(m, w).threads[w].scheduling == m.threads[w].scheduling
  {
  }

  lemma MadeKeeps(m: Machine, kind: Kind)
    requires Disciplined(m)
    ensures Disciplined(Made(m, kind))
  {
  }

  lemma MakeRootKeeps(m: Machine, w: nat)
    requires Disciplined(m) && w < |m.threads| && m.threads[w].scheduling.None?
    ensures Disciplined(MakeRoot(m, w))
  {
    CurrentKeeps(m, w);
    MadeKeeps(Current(m, w), RootFiber);
  }

  lemma EnterRunKeeps(m: Machine, w: nat)
    requires Disciplined(m) && w < |m.threads| && m.threads[w].scheduling.None?
    ensures Disciplined(EnterRun(m, w))
  {
    CurrentKeeps(m, w);
  }

  lemma SwapInShape(m: Machine, w: nat, f: FiberId)
    requires Disciplined(m) && Allowed(m, DoSwapIn(w, f))
    ensures SwapIn(m, w, f).Some?
    ensures var n := SwapIn(m, w, f).value; var r := m.threads[w].scheduling.value; var t := m.threads[w];
      && f != r && n.lastId == m.lastId
      && n.fibers == m.fibers[f := m.fibers[f].(state := EXEC)][r := m.fibers[r].(ctx := Context(r, m.clock))]
      && n.threads == m.threads[w := t.(current := Some(f), stack := Some(f), loaded := t.loaded + [m.fibers[f].ctx])]
  {
    assert ThreadOk(m, m.threads[w]);
  }

  lemma SwapInKeeps(m: Machine, w: nat, f: FiberId)
    requires Disciplined(m) && Allowed(m, DoSwapIn(w, f))
    ensures SwapIn(m, w, f).Some? && Disciplined(SwapIn(m, w, f).value)
  {
    SwapInShape(m, w, f);
    hide SwapIn;
    var n := SwapIn(m, w, f).value;
    assert ThreadOk(m, m.threads[w]);
    forall v | 0 <= v < |n.threads| ensures ThreadOk(n, n.threads[v]) {
      assert ThreadOk(m, m.threads[v]);
    }
  }

  lemma CallKeeps(m: Machine, w: nat, f: FiberId)
    requires Disciplined(m) && Allowed(m, DoCall(w, f))
    ensures Call(m, w, f).Some? && Disciplined(Call(m, w, f).value)
  {
    assert ThreadOk(m, m.threads[w]);
  }

  // A task switches out, with whatever state it has given itself.
  lemma TaskLeaves(m: Machine, w: nat, f: FiberId, state: FState)
    requires Disciplined(m) && OnTask(m, w) && m.threads[w].stack == Some(f)
    ensures SwapOut(SetState(m, f, state), w, f).Some?
    ensures Disciplined(SwapOut(SetState(m, f, state), w, f).value)
  {
    assert ThreadOk(m, m.threads[w]);
  }

  lemma RootLeaves(m: Machine, w: nat, f: FiberId, state: FState)
    requires Disciplined(m) && OnRoot(m, w) && m.threads[w].stack == Some(f) && state != EXEC
    ensures Back(SetState(m, f, state), w, f).Some?
    ensures Disciplined(Back(SetState(m, f, state), w, f).value)
  {
    assert ThreadOk(m, m.threads[w]);
  }

  lemma ResetKeeps(m: Machine, f: FiberId)
    requires Disciplined(m) && Allowed(m, DoReset(f))
    ensures Reset(m, f).Some? && Disciplined(Reset(m, f).value)
  {
    forall w | 0 <= w < |m.threads| ensures ThreadOk(Reset(m, f).value, m.threads[w]) {
      assert ThreadOk(m, m.threads[w]);
    }
  }

  // No allowed operation follows a null pointer or fails an assertion, YieldToReady's and YieldToHold's on the state
  // included, and all keep the discipline.
  lemma StepKeeps(m: Machine, op: Op)
    requires Disciplined(m) && Allowed(m, op)
    ensures Step(m, op).Some? && Disciplined(Step(m, op).value)
  {
    if op.DoSwapOut? || op.DoYield? || op.DoFinish? {
      LeaveKeeps(m, op);
    } else {
      match op
      case DoGetThis(w) => CurrentKeeps(m, w);
      case DoMake => MadeKeeps(m, TaskFiber);
      case DoMakeRoot(w) => MakeRootKeeps(m, w);
      case DoEnterRun(w) => EnterRunKeeps(m, w);
      case DoCall(w, f) => CallKeeps(m, w, f);
      case DoSwapIn(w, f) => SwapInKeeps(m, w, f);
      case DoReset(f) => ResetKeeps(m, f);
    }
  }

  lemma LeaveKeeps(m: Machine, op: Op)
    requires Disciplined(m) && Allowed(m, op) && (op.DoSwapOut? || op.DoYield? || op.DoFinish?)
    ensures Step(m, op).Some? && Disciplined(Step(m, op).value)
  {
    var f := m.threads[op.w].stack.value;
    assert ThreadOk(m, m.threads[op.w]);
    match op
    case DoSwapOut(w) =>
      assert SetState(m, f, EXEC) == m by { assert m.fibers[f := m.fibers[f]] == m.fibers; }
      TaskLeaves(m, w, f, EXEC);
    case DoYield(w, hold) =>
      TaskLeaves(m, w, f, if hold then HOLD else READY);
    case DoFinish(w, throws) =>
      if OnTask(m, w) {
        TaskLeaves(m, w, f, if throws then EXCEPT else TERM);
      } else {
        RootLeaves(m, w, f, if throws then EXCEPT else TERM);
      }
  }

  // -------------------------------------------------------------------------------------------
  // The conditions on the caller are exact.

  // A suspended task may be switched in exactly from the fiber that schedules on this thread. From any other fiber the
  // context of the scheduling fiber is overwritten with a foreign one, or there is none to save to.
  lemma SwapInOnlyFromScheduling(m: Machine, w: nat, f: FiberId)
    requires Disciplined(m) && w < |m.threads| && Suspended(m, f)
    ensures SwapIn(m, w, f).Some? && Disciplined(SwapIn(m, w, f).value) <==>
            m.threads[w].scheduling.Some? && m.threads[w].stack == m.threads[w].scheduling
  {
    assert ThreadOk(m, m.threads[w]);
    var t := m.threads[w];
    if t.scheduling.Some? && t.stack == t.scheduling {
      SwapInKeeps(m, w, f);
    } else if SwapIn(m, w, f).Some? {
      var n := SwapIn(m, w, f).value;
      assert n.fibers[t.scheduling.value].ctx.owner != t.scheduling.value;
    }
  }

  // swapOut() of fiber f keeps the discipline exactly if f is the executing fiber and either is a task or schedules
  // itself, in which case nothing is switched.
  lemma SwapOutOnlySelf(m: Machine, w: nat, f: FiberId)
    requires Disciplined(m) && w < |m.threads| && f in m.fibers
    ensures SwapOut(m, w, f).Some? && Disciplined(SwapOut(m, w, f).value) <==>
            m.threads[w].stack == Some(f) && (OnTask(m, w) || m.threads[w].scheduling == Some(f))
  {
    var t := m.threads[w];
    assert ThreadOk(m, t);
    if t.stack == Some(f) && OnTask(m, w) {
      assert SetState(m, f, EXEC) == m by { assert m.fibers[f := m.fibers[f]] == m.fibers; }
      TaskLeaves(m, w, f, EXEC);
    } else if SwapOut(m, w, f).Some? {
      var n := SwapOut(m, w, f).value;
      if t.stack != Some(f) {
        assert n.fibers[f].ctx.owner != f;
      } else if t.scheduling == Some(f) {
        SelfSwitch(m, w, f);
      } else {
        assert !ThreadOk(n, n.threads[w]);
      }
    }
  }

  lemma SelfSwitch(m: Machine, w: nat, f: FiberId)
    requires Disciplined(m) && w < |m.threads| && f in m.fibers
    requires m.threads[w].stack == m.threads[w].scheduling == Some(f)
    ensures SwapOut(m, w, f).Some? && Disciplined(SwapOut(m, w, f).value)
  {
    assert ThreadOk(m, m.threads[w]);
  }

  // YieldToReady and YieldToHold may be called exactly from a task.
  lemma YieldOnlyFromTask(m: Machine, w: nat, hold: bool)
    requires Disciplined(m) && w < |m.threads|
    ensures Yield(m, w, hold).Some? && Disciplined(Yield(m, w, hold).value) <==> OnTask(m, w)
  {
    if OnTask(m, w) {
      StepKeeps(m, DoYield(w, hold));
    } else if Yield(m, w, hold).Some? {
      CurrentKeeps(m, w);
      var n := Yield(m, w, hold).value;
      assert ThreadOk(m, m.threads[w]);
      assert !ThreadOk(n, n.threads[w]);
    }
  }

  // -------------------------------------------------------------------------------------------
  // The life of a task.

  // A new task fiber, or one that has been reset, may be switched in, and then its function runs from the start.
  lemma NewTaskStarts(m: Machine, w: nat)
    requires Disciplined(m) && w < |m.threads|
    requires m.threads[w].scheduling.Some? && m.threads[w].stack == m.threads[w].scheduling
    ensures var n := Made(m, TaskFiber);
      Allowed(n, DoSwapIn(w, n.lastId)) && StartsAt(SwapIn(n, w, n.lastId), w, Context(n.lastId, m.clock))
  {
    var n := Made(m, TaskFiber);
    MadeKeeps(m, TaskFiber);
    forall v | 0 <= v < |m.threads| ensures m.threads[v].stack != Some(n.lastId) {
      assert ThreadOk(m, m.threads[v]);
    }
    SwapInKeeps(n, w, n.lastId);
  }

  lemma ResetTaskStarts(m: Machine, w: nat, f: FiberId)
    requires Disciplined(m) && w < |m.threads| && Allowed(m, DoReset(f))
    requires m.threads[w].scheduling.Some? && m.threads[w].stack == m.threads[w].scheduling
    ensures var n := Reset(m, f).value;
      Allowed(n, DoSwapIn(w, f)) && StartsAt(SwapIn(n, w, f), w, Context(f, m.clock))
  {
    var n := Reset(m, f).value;
    ResetKeeps(m, f);
    forall v | 0 <= v < |m.threads| ensures m.threads[v].stack != Some(f) {
      assert ThreadOk(m, m.threads[v]);
    }
    SwapInKeeps(n, w, f);
  }

  // Thread w has just switched to this context.
  predicate StartsAt(m: Option<Machine>, w: nat, ctx: Context) {
    && m.Some? && w < |m.value.threads| && m.value.threads[w].loaded != []
    && m.value.threads[w].loaded[|m.value.threads[w].loaded| - 1] == ctx
    && m.value.threads[w].stack == Some(ctx.owner)
  }

  // A task that has yielded may be switched in again, one that has finished may not before it is reset.
  lemma AfterTurn(m: Machine, w: nat, f: FiberId, hold: bool, throws: bool)
    requires Disciplined(m) && OnTask(m, w) && m.threads[w].stack == Some(f)
    ensures Yield(m, w, hold).Some? && Suspended(Yield(m, w, hold).value, f)
    ensures Yield(m, w, hold).value.fibers[f].state == if hold then HOLD else READY
    ensures Reset(m, f).None? && Reset(Yield(m, w, hold).value, f).None?
    ensures Finish(m, w, throws).Some? && !Suspended(Finish(m, w, throws).value, f)
    ensures Finish(m, w, throws).value.fibers[f].state == if throws then EXCEPT else TERM
    ensures Allowed(Finish(m, w, throws).value, DoReset(f))
  {
    assert ThreadOk(m, m.threads[w]);
    StepKeeps(m, DoYield(w, hold));
    StepKeeps(m, DoFinish(w, throws));
    var n := Yield(m, w, hold).value;
    forall v | 0 <= v < |n.threads| ensures n.threads[v].stack != Some(f) {
      assert ThreadOk(n, n.threads[v]);
    }
  }

  // -------------------------------------------------------------------------------------------
  // The reference: nested calls. Switching in pushes the place to return to, switching out pops it.

  datatype Stack = Stack(running: Option<FiberId>, below: seq<Context>, resumed: seq<Context>)

  datatype Stacks = Stacks(at: map<FiberId, Context>, threads: seq<Stack>, clock: nat, lastId: FiberId)

  function Alive(a: Stacks, w: nat): Stacks
    requires w < |a.threads|
  {
    if a.threads[w].running.Some? then
      a
    else
      var f := a.lastId + 1;
      a.(at := a.at[f := Context(f, a.clock)], threads := a.threads[w := a.threads[w].(running := Some(f))],
         clock := a.clock + 1, lastId := f)
  }

  function Begun(a: Stacks, f: FiberId): Stacks {
    a.(at := a.at[f := Context(f, a.clock)], clock := a.clock + 1)
  }

  function Push(a: Stacks, w: nat, f: FiberId): Stacks
    requires w < |a.threads| && a.threads[w].running.Some? && f in a.at
  {
    var t := a.threads[w];
    var here := Context(t.running.value, a.clock);
    a.(at := a.at[t.running.value := here], clock := a.clock + 1,
       threads := a.threads[w := Stack(Some(f), t.below + [here], t.resumed + [a.at[f]])])
  }

  function Pop(a: Stacks, w: nat): Stacks
    requires w < |a.threads| && a.threads[w].running.Some? && a.threads[w].below != []
  {
    var t := a.threads[w];
    var back := t.below[|t.below| - 1];
    a.(at := a.at[t.running.value := Context(t.running.value, a.clock)], clock := a.clock + 1,
       threads := a.threads[w := Stack(Some(back.owner), t.below[..|t.below| - 1], t.resumed + [back])])
  }

  predicate CanDo(a: Stacks, op: Op) {
    && (!op.DoMake? && !op.DoReset? ==> op.w < |a.threads|)
    && (op.DoCall? || op.DoSwapIn? ==> a.threads[op.w].running.Some? && op.f in a.at)
    && (op.DoSwapOut? || op.DoYield? || op.DoFinish? ==>
         a.threads[op.w].running.Some? && a.threads[op.w].below != [])
  }

  function Nested(a: Stacks, op: Op): Stacks
    requires CanDo(a, op)
  {
    match op
    case DoGetThis(w) => Alive(a, w)
    case DoMake => Begun(a, a.lastId + 1).(lastId := a.lastId + 1)
    case DoMakeRoot(w) => var b := Alive(a, w); Begun(b, b.lastId + 1).(lastId := b.lastId + 1)
    case DoEnterRun(w) => Alive(a, w)
    case DoCall(w, f) => Push(a, w, f)
    case DoSwapIn(w, f) => Push(a, w, f)
    case DoSwapOut(w) => Pop(a, w)
    case DoYield(w, _) => Pop(a, w)
    case DoFinish(w, _) => Pop(a, w)
    case DoReset(f) => Begun(a, f)
  }

  function ExecuteNested(a: Stacks, run: seq<Op>): Option<Stacks>
    decreases run
  {
    if run == [] then Some(a) else if CanDo(a, run[0]) then ExecuteNested(Nested(a, run[0]), run[1..]) else None
  }

  function InitStacks(n: nat): Stacks {
    Stacks(map[], seq(n, _ => Stack(None, [], [])), 0, 0)
  }

  // Where a thread will return to, read off the saved contexts: main, then root, then the task that executes.
  function Below(m: Machine, t: Thread): seq<Context>
    requires ThreadOk(m, t)
  {
    if t.stack == t.main then
      []
    else if t.stack == t.scheduling || t.scheduling == t.main then
      [m.fibers[t.main.value].ctx]
    else
      [m.fibers[t.main.value].ctx, m.fibers[t.scheduling.value].ctx]
  }

  ghost predicate Refines(m: Machine, a: Stacks)
    requires Disciplined(m)
  {
    && a.clock == m.clock && a.lastId == m.lastId && |a.threads| == |m.threads|
    && a.at.Keys == m.fibers.Keys && (forall f :: f in m.fibers ==> a.at[f] == m.fibers[f].ctx)
    && (forall w :: 0 <= w < |m.threads| ==>
         a.threads[w] == Stack(m.threads[w].stack, Below(m, m.threads[w]), m.threads[w].loaded))
  }

  lemma CurrentRefines(m: Machine, a: Stacks, w: nat)
    requires Disciplined(m) && Refines(m, a) && w < |m.threads| && Disciplined(Current(m, w))
    ensures Refines(Current(m, w), Alive(a, w))
  {
  }

  lemma MadeRefines(m: Machine, a: Stacks, kind: Kind)
    requires Disciplined(m) && Refines(m, a) && Disciplined(Made(m, kind))
    ensures Refines(Made(m, kind), Begun(a, a.lastId + 1).(lastId := a.lastId + 1))
  {
    forall w | 0 <= w < |m.threads| ensures Below(Made(m, kind), m.threads[w]) == Below(m, m.threads[w]) {
    }
  }

  lemma EnterRunRefines(m: Machine, a: Stacks, w: nat)
    requires Disciplined(m) && Refines(m, a) && w < |m.threads| && m.threads[w].scheduling.None?
    requires Disciplined(EnterRun(m, w))
    ensures Refines(EnterRun(m, w), Alive(a, w))
  {
    CurrentKeeps(m, w);
    CurrentRefines(m, a, w);
  }

  lemma MakeRootRefines(m: Machine, a: Stacks, w: nat)
    requires Disciplined(m) && Refines(m, a) && w < |m.threads| && m.threads[w].scheduling.None?
    requires Disciplined(MakeRoot(m, w))
    ensures Refines(MakeRoot(m, w), Nested(a, DoMakeRoot(w)))
  {
    var n := Current(m, w);
    CurrentKeeps(m, w);
    CurrentRefines(m, a, w);
    MadeKeeps(n, RootFiber);
    MadeRefines(n, Alive(a, w), RootFiber);
  }

  lemma SwapInRefines(m: Machine, a: Stacks, w: nat, f: FiberId)
    requires Disciplined(m) && Refines(m, a) && Allowed(m, DoSwapIn(w, f))
    requires SwapIn(m, w, f).Some? && Disciplined(SwapIn(m, w, f).value)
    ensures CanDo(a, DoSwapIn(w, f)) && Refines(SwapIn(m, w, f).value, Push(a, w, f))
  {
    assert ThreadOk(m, m.threads[w]);
  }

  lemma CallRefines(m: Machine, a: Stacks, w: nat, f: FiberId)
    requires Disciplined(m) && Refines(m, a) && Allowed(m, DoCall(w, f))
    requires Call(m, w, f).Some? && Disciplined(Call(m, w, f).value)
    ensures CanDo(a, DoCall(w, f)) && Refines(Call(m, w, f).value, Push(a, w, f))
  {
    assert ThreadOk(m, m.threads[w]);
  }

  lemma TaskLeavesRefines(m: Machine, a: Stacks, w: nat, f: FiberId, state: FState)
    requires Disciplined(m) && Refines(m, a) && OnTask(m, w) && m.threads[w].stack == Some(f)
    requires SwapOut(SetState(m, f, state), w, f).Some?
    requires Disciplined(SwapOut(SetState(m, f, state), w, f).value)
    ensures a.threads[w].running.Some? && a.threads[w].below != []
    ensures Refines(SwapOut(SetState(m, f, state), w, f).value, Pop(a, w))
  {
    assert ThreadOk(m, m.threads[w]);
  }

  lemma RootLeavesRefines(m: Machine, a: Stacks, w: nat, f: FiberId, state: FState)
    requires Disciplined(m) && Refines(m, a) && OnRoot(m, w) && m.threads[w].stack == Some(f)
    requires Back(SetState(m, f, state), w, f).Some?
    requires Disciplined(Back(SetState(m, f, state), w, f).value)
    ensures a.threads[w].running.Some? && a.threads[w].below != []
    ensures Refines(Back(SetState(m, f, state), w, f).value, Pop(a, w))
  {
    assert ThreadOk(m, m.threads[w]);
  }

  lemma LeaveRefines(m: Machine, a: Stacks, op: Op)
    requires Disciplined(m) && Refines(m, a) && Allowed(m, op) && (op.DoSwapOut? || op.DoYield? || op.DoFinish?)
    requires Step(m, op).Some? && Disciplined(Step(m, op).value)
    ensures CanDo(a, op) && Refines(Step(m, op).value, Pop(a, op.w))
  {
    var f := m.threads[op.w].stack.value;
    assert ThreadOk(m, m.threads[op.w]);
    match op
    case DoSwapOut(w) =>
      assert SetState(m, f, EXEC) == m by { assert m.fibers[f := m.fibers[f]] == m.fibers; }
      TaskLeavesRefines(m, a, w, f, EXEC);
    case DoYield(w, hold) =>
      TaskLeavesRefines(m, a, w, f, if hold then HOLD else READY);
    case DoFinish(w, throws) =>
      if OnTask(m, w) {
        TaskLeavesRefines(m, a, w, f, if throws then EXCEPT else TERM);
      } else {
        RootLeavesRefines(m, a, w, f, if throws then EXCEPT else TERM);
      }
  }

  lemma ResetRefines(m: Machine, a: Stacks, f: FiberId)
    requires Disciplined(m) && Refines(m, a) && Allowed(m, DoReset(f))
    requires Reset(m, f).Some? && Disciplined(Reset(m, f).value)
    ensures Refines(Reset(m, f).value, Begun(a, f))
  {
    forall w | 0 <= w < |m.threads|
      ensures Below(Reset(m, f).value, m.threads[w]) == Below(m, m.threads[w])
    {
      assert ThreadOk(m, m.threads[w]);
    }
  }

  lemma StepRefines(m: Machine, a: Stacks, op: Op)
    requires Disciplined(m) && Refines(m, a) && Allowed(m, op)
    requires Step(m, op).Some? && Disciplined(Step(m, op).value)
    ensures CanDo(a, op) && Refines(Step(m, op).value, Nested(a, op))
  {
    if op.DoSwapOut? || op.DoYield? || op.DoFinish? {
      LeaveRefines(m, a, op);
    } else {
      match op
      case DoGetThis(w) => CurrentRefines(m, a, w);
      case DoMake => MadeRefines(m, a, TaskFiber);
      case DoMakeRoot(w) => MakeRootRefines(m, a, w);
      case DoEnterRun(w) => EnterRunRefines(m, a, w);
      case DoCall(w, f) => CallRefines(m, a, w, f);
      case DoSwapIn(w, f) => SwapInRefines(m, a, w, f);
      case DoReset(f) => ResetRefines(m, a, f);
    }
  }

  lemma {:induction false} RunRefines(m: Machine, a: Stacks, run: seq<Op>)
    requires Disciplined(m) && Refines(m, a) && AllAllowed(m, run)
    ensures Execute(m, run).Some? && ExecuteNested(a, run).Some?
    ensures Disciplined(Execute(m, run).value) && Refines(Execute(m, run).value, ExecuteNested(a, run).value)
    decreases run
  {
    if run != [] {
      StepKeeps(m, run[0]);
      StepRefines(m, a, run[0]);
      RunRefines(Step(m, run[0]).value, Nested(a, run[0]), run[1..]);
    }
  }

  // Any run of allowed operations on any number of threads goes through. At its end every thread executes the fiber
  // that t_fiber names, and the contexts it has switched to, one after the other, are those of the nested calls: every
  // swapOut and back has returned to exactly the place from which the fiber was switched in.
  lemma SwitchesAreNestedCalls(n: nat, run: seq<Op>)
    requires AllAllowed(Init(n), run)
    ensures Execute(Init(n), run).Some? && ExecuteNested(InitStacks(n), run).Some?
    ensures var m := Execute(Init(n), run).value; var a := ExecuteNested(InitStacks(n), run).value;
      && Disciplined(m) && |m.threads| == |a.threads| == n
      && forall w :: 0 <= w < n ==>
        && m.threads[w].current == m.threads[w].stack == a.threads[w].running
        && m.threads[w].loaded == a.threads[w].resumed
  {
    InitDisciplined(n);
    RunRefines(Init(n), InitStacks(n), run);
    ThreadsStay(Init(n), run);
    var m := Execute(Init(n), run).value;
    forall w | 0 <= w < n ensures m.threads[w].current == m.threads[w].stack {
      assert ThreadOk(m, m.threads[w]);
    }
  }

  lemma {:induction false} ThreadsStay(m: Machine, run: seq<Op>)
    requires Execute(m, run).Some?
    ensures |Execute(m, run).value.threads| == |m.threads|
    decreases run
  {
    if run != [] {
      ThreadsStay(Step(m, run[0]).value, run[1..]);
    }
  }
}
