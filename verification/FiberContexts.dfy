// Fiber's context switches: the thread-local pointers, one saved context per fiber, and swapcontext between them. A
// context stands for the rest of the computation of the fiber whose stack it was taken on.
module FiberContexts {
  import opened Options
  import opened FiberStates

  type FiberId = nat

  // Which constructor made the fiber: Fiber(), Fiber(f), or Fiber(f, 0, true). The last two enter MainFunc and
  // CallerMainFunc.
  datatype Kind = MainFiber | TaskFiber | RootFiber

  // The continuation of fiber `owner` at the moment `stamp`.
  datatype Context = Context(owner: FiberId, stamp: nat)

  datatype Fiber = Fiber(kind: Kind, state: FState, ctx: Context)

  datatype Thread = Thread(
    stack: Option<FiberId>,      // whose stack the thread executes on; None before its main fiber exists
    current: Option<FiberId>,    // t_fiber
    main: Option<FiberId>,       // t_threadFiber
    scheduling: Option<FiberId>, // t_scheduler_fiber
    loaded: seq<Context>)        // history: the contexts switched to

  datatype Machine = Machine(fibers: map<FiberId, Fiber>, threads: seq<Thread>, clock: nat, lastId: FiberId)

  // -------------------------------------------------------------------------------------------
  // What each operation does. None: a null pointer is followed or an assertion fails.

  function Enter(m: Machine, w: nat, f: FiberId): Machine
    requires w < |m.threads| && f in m.fibers
  {
    m.(threads := m.threads[w := m.threads[w].(current := Some(f))])
  }

  function SetState(m: Machine, f: FiberId, state: FState): Machine
    requires f in m.fibers
  {
    m.(fibers := m.fibers[f := m.fibers[f].(state := state)])
  }

  // swapcontext(&save->m_ctx, &load->m_ctx): store first, then load.
  function SwapContext(m: Machine, w: nat, save: FiberId, load: FiberId): Option<Machine>
    requires w < |m.threads| && save in m.fibers && load in m.fibers
  {
    var t := m.threads[w];
    if t.stack.None? then
      None
    else
      var fibers := m.fibers[save := m.fibers[save].(ctx := Context(t.stack.value, m.clock))];
      var ctx := fibers[load].ctx;
      Some(Machine(fibers, m.threads[w := t.(stack := Some(ctx.owner), loaded := t.loaded + [ctx])], m.clock + 1,
                   m.lastId))
  }

  function SwapIn(m: Machine, w: nat, f: FiberId): Option<Machine> {
    if w < |m.threads| && f in m.fibers && m.threads[w].scheduling.Some?
       && m.threads[w].scheduling.value in m.fibers then
      SwapContext(SetState(Enter(m, w, f), f, EXEC), w, m.threads[w].scheduling.value, f)
    else
      None
  }

  function SwapOut(m: Machine, w: nat, f: FiberId): Option<Machine> {
    if w < |m.threads| && f in m.fibers && m.threads[w].scheduling.Some?
       && m.threads[w].scheduling.value in m.fibers then
      SwapContext(Enter(m, w, m.threads[w].scheduling.value), w, f, m.threads[w].scheduling.value)
    else
      None
  }

  function Call(m: Machine, w: nat, f: FiberId): Option<Machine> {
    if w < |m.threads| && f in m.fibers && m.threads[w].main.Some? && m.threads[w].main.value in m.fibers then
      SwapContext(SetState(Enter(m, w, f), f, EXEC), w, m.threads[w].main.value, f)
    else
      None
  }

  function Back(m: Machine, w: nat, f: FiberId): Option<Machine> {
    if w < |m.threads| && f in m.fibers && m.threads[w].main.Some? && m.threads[w].main.value in m.fibers then
      SwapContext(Enter(m, w, m.threads[w].main.value), w, f, m.threads[w].main.value)
    else
      None
  }

  // new Fiber of any kind.
  function Made(m: Machine, kind: Kind): Machine {
    var f := m.lastId + 1;
    m.(fibers := m.fibers[f := Fiber(kind, if kind == MainFiber then EXEC else INIT, Context(f, m.clock))],
       clock := m.clock + 1, lastId := f)
  }

  // GetThis: the first call on a thread makes its main fiber, which owns the stack the thread started on.
  function Current(m: Machine, w: nat): Machine
    requires w < |m.threads|
  {
    if m.threads[w].current.Some? then
      m
    else
      var f := m.lastId + 1;
      var t := m.threads[w].(current := Some(f), main := Some(f), stack := Some(f));
      Made(m, MainFiber).(threads := m.threads[w := t])
  }

  // YieldToHold, YieldToReady
  function Yield(m: Machine, w: nat, hold: bool): Option<Machine>
    requires w < |m.threads|
  {
    var n := Current(m, w);
    var f := n.threads[w].current.value;
    if f in n.fibers && n.fibers[f].state == EXEC then
      SwapOut(SetState(n, f, if hold then HOLD else READY), w, f)
    else
      None
  }

  // The end of MainFunc or CallerMainFunc, after the callable has returned or thrown.
  function Finish(m: Machine, w: nat, throws: bool): Option<Machine>
    requires w < |m.threads|
  {
    match m.threads[w].current
    case None => None
    case Some(f) =>
      if f !in m.fibers || m.fibers[f].kind == MainFiber then
        None
      else
        var n := SetState(m, f, if throws then EXCEPT else TERM);
        if m.fibers[f].kind == TaskFiber then SwapOut(n, w, f) else Back(n, w, f)
  }

  function Reset(m: Machine, f: FiberId): Option<Machine> {
    if f in m.fibers && m.fibers[f].kind != MainFiber && Disposable(m.fibers[f].state) then
      Some(m.(fibers := m.fibers[f := m.fibers[f].(state := INIT, ctx := Context(f, m.clock))], clock := m.clock + 1))
    else
      None
  }

  // Scheduler(threads, true): the calling thread gets a main fiber and a root fiber that will schedule.
  function MakeRoot(m: Machine, w: nat): Machine
    requires w < |m.threads|
  {
    var n := Made(Current(m, w), RootFiber);
    n.(threads := n.threads[w := n.threads[w].(scheduling := Some(n.lastId))])
  }

  // The beginning of Scheduler::run on a pool thread, whose main fiber schedules.
  function EnterRun(m: Machine, w: nat): Machine
    requires w < |m.threads|
  {
    var n := Current(m, w);
    n.(threads := n.threads[w := n.threads[w].(scheduling := n.threads[w].current)])
  }

  // -------------------------------------------------------------------------------------------
  // Runs.

  datatype Op =
    | DoGetThis(w: nat) | DoMake | DoMakeRoot(w: nat) | DoEnterRun(w: nat)
    | DoCall(w: nat, f: FiberId) | DoSwapIn(w: nat, f: FiberId) | DoSwapOut(w: nat)
    | DoYield(w: nat, hold: bool) | DoFinish(w: nat, throws: bool) | DoReset(f: FiberId)

  function Step(m: Machine, op: Op): Option<Machine> {
    if !op.DoMake? && !op.DoReset? && op.w >= |m.threads| then
      None
    else
      match op
      case DoGetThis(w) => Some(Current(m, w))
      case DoMake => Some(Made(m, TaskFiber))
      case DoMakeRoot(w) => Some(MakeRoot(m, w))
      case DoEnterRun(w) => Some(EnterRun(m, w))
      case DoCall(w, f) => Call(m, w, f)
      case DoSwapIn(w, f) => SwapIn(m, w, f)
      case DoSwapOut(w) => if m.threads[w].current.Some? then SwapOut(m, w, m.threads[w].current.value) else None
      case DoYield(w, hold) => Yield(m, w, hold)
      case DoFinish(w, throws) => Finish(m, w, throws)
      case DoReset(f) => Reset(m, f)
  }

  predicate OnSome(m: Machine, f: FiberId) {
    exists w :: 0 <= w < |m.threads| && m.threads[w].stack == Some(f)
  }

  predicate OnTask(m: Machine, w: nat) {
    && w < |m.threads| && m.threads[w].stack.Some? && m.threads[w].stack.value in m.fibers
    && m.fibers[m.threads[w].stack.value].kind == TaskFiber
  }

  predicate OnRoot(m: Machine, w: nat) {
    && w < |m.threads| && m.threads[w].stack.Some? && m.threads[w].stack.value in m.fibers
    && m.fibers[m.threads[w].stack.value].kind == RootFiber
  }

  // A task that no thread executes and that has not finished.
  predicate Suspended(m: Machine, f: FiberId) {
    f in m.fibers && m.fibers[f].kind == TaskFiber && !Finished(m.fibers[f].state) && !OnSome(m, f)
  }

  // What the callers of each operation have to see to: the scheduling fiber switches tasks in, tasks switch out, the
  // root fiber is called from the main fiber of its thread and before it has run, only task fibers are reset.
  predicate Allowed(m: Machine, op: Op) {
    match op
    case DoGetThis(w) => w < |m.threads|
    case DoMake => true
    case DoMakeRoot(w) => w < |m.threads| && m.threads[w].scheduling.None?
    case DoEnterRun(w) => w < |m.threads| && m.threads[w].scheduling.None?
    case DoCall(w, f) =>
      && w < |m.threads| && m.threads[w].scheduling == Some(f) && f in m.fibers
      && m.fibers[f].kind == RootFiber && m.fibers[f].state == INIT
    case DoSwapIn(w, f) =>
      && w < |m.threads| && Suspended(m, f)
      && m.threads[w].scheduling.Some? && m.threads[w].stack == m.threads[w].scheduling
    case DoSwapOut(w) => OnTask(m, w)
    case DoYield(w, _) => OnTask(m, w)
    case DoFinish(w, _) => OnTask(m, w) || OnRoot(m, w)
    case DoReset(f) => f in m.fibers && m.fibers[f].kind == TaskFiber && Disposable(m.fibers[f].state)
  }

  function Init(n: nat): Machine {
    Machine(map[], seq(n, _ => Thread(None, None, None, None, [])), 0, 0)
  }

  function Execute(m: Machine, run: seq<Op>): Option<Machine>
    decreases run
  {
    if run == [] then
      Some(m)
    else
      match Step(m, run[0])
      case None => None
      case Some(n) => Execute(n, run[1..])
  }

  predicate AllAllowed(m: Machine, run: seq<Op>)
    decreases run
  {
    run != [] ==> Allowed(m, run[0]) && (Step(m, run[0]).Some? ==> AllAllowed(Step(m, run[0]).value, run[1..]))
  }

  // -------------------------------------------------------------------------------------------
  // The discipline.

  // t_fiber is the fiber whose stack executes, and it is EXEC. A thread executes its main fiber, or the root fiber that
  // was called from there, or a task that the scheduling fiber has switched in; a root fiber below a task is EXEC.
  predicate ThreadOk(m: Machine, t: Thread) {
    && t.current == t.stack
    && (t.stack.None? ==> t.main.None? && t.scheduling.None?)
    && (t.stack.Some? ==>
      && t.main.Some? && t.main.value in m.fibers && m.fibers[t.main.value].kind == MainFiber
      && t.stack.value in m.fibers && m.fibers[t.stack.value].state == EXEC
      && m.fibers[t.main.value].state == EXEC
      && (t.scheduling.None? ==> t.stack == t.main)
      && (t.scheduling.Some? ==>
        && t.scheduling.value in m.fibers
        && (t.scheduling == t.main || m.fibers[t.scheduling.value].kind == RootFiber)
        && (t.stack == t.main || t.stack == t.scheduling || m.fibers[t.stack.value].kind == TaskFiber)
        && ((t.scheduling == t.main || t.stack != t.main) <==> m.fibers[t.scheduling.value].state == EXEC)))
  }

  // Two threads share neither a main fiber nor a scheduling fiber, and they execute different fibers.
  predicate Apart(t: Thread, u: Thread) {
    && (t.main.Some? ==> t.main != u.main)
    && (t.scheduling.Some? ==> t.scheduling != u.scheduling)
    && (t.stack.Some? ==> t.stack != u.stack)
  }

  ghost predicate Disciplined(m: Machine) {
    && (forall f :: f in m.fibers ==> m.fibers[f].ctx.owner == f && f <= m.lastId)
    && (forall w :: 0 <= w < |m.threads| ==> ThreadOk(m, m.threads[w]))
    && (forall v, w :: 0 <= v < w < |m.threads| ==> Apart(m.threads[v], m.threads[w]))
  }

  // -------------------------------------------------------------------------------------------
  // The operations as the source performs them. Thread w is the calling thread.

  class Runtime {
    var fibers: map<FiberId, Fiber>
    var threads: seq<Thread>
    var clock: nat                   // counts the contexts taken
    var lastId: FiberId              // s_fiber_id

    function Snapshot(): Machine
      reads this
    {
      Machine(fibers, threads, clock, lastId)
    }

    constructor (n: nat)
      ensures Snapshot() == Init(n)
    {
      fibers, threads, clock, lastId := map[], seq(n, _ => Thread(None, None, None, None, [])), 0, 0;
    }

    method SetThis(w: nat, f: FiberId)
      requires w < |threads| && f in fibers
      modifies this`threads
      ensures Snapshot() == Enter(old(Snapshot()), w, f)
    {
      threads := threads[w := threads[w].(current := Some(f))];
    }

    // getcontext and makecontext: a context that enters the fiber's function.
    method FreshContext(f: FiberId) returns (ctx: Context)
      modifies this`clock
      ensures ctx == Context(f, old(clock)) && clock == old(clock) + 1
    {
      ctx := Context(f, clock);
      clock := clock + 1;
    }

    method Swap(w: nat, save: FiberId, load: FiberId)
      requires w < |threads| && save in fibers && load in fibers && threads[w].stack.Some?
      modifies this`fibers, this`threads, this`clock
      ensures SwapContext(old(Snapshot()), w, save, load) == Some(Snapshot())
    {
      var here := Context(threads[w].stack.value, clock);
      fibers := fibers[save := fibers[save].(ctx := here)];
      var ctx := fibers[load].ctx;
      threads := threads[w := threads[w].(stack := Some(ctx.owner), loaded := threads[w].loaded + [ctx])];
      clock := clock + 1;
    }

    // Fiber(), run on the stack the thread started on.
    method NewMain(w: nat) returns (f: FiberId)
      requires w < |threads| && threads[w].current.None?
      modifies this
      ensures f == old(lastId) + 1
      ensures Snapshot() == Made(old(Snapshot()), MainFiber).(threads :=
        old(threads)[w := old(threads)[w].(current := Some(f), stack := Some(f))])
    {
      f := lastId + 1;
      threads := threads[w := threads[w].(current := Some(f), stack := Some(f))];
      var ctx := FreshContext(f);
      lastId := f;
      fibers := fibers[f := Fiber(MainFiber, EXEC, ctx)];
    }

    // Fiber(f, 0, useCaller)
    method NewFiber(useCaller: bool) returns (f: FiberId)
      modifies this`fibers, this`clock, this`lastId
      ensures f == lastId && Snapshot() == Made(old(Snapshot()), if useCaller then RootFiber else TaskFiber)
    {
      f := lastId + 1;
      lastId := f;
      var ctx := FreshContext(f);
      fibers := fibers[f := Fiber(if useCaller then RootFiber else TaskFiber, INIT, ctx)];
    }

    method GetThis(w: nat) returns (f: FiberId)
      requires w < |threads|
      modifies this
      ensures Snapshot() == Current(old(Snapshot()), w) && threads[w].current == Some(f)
    {
      if threads[w].current.Some? {
        return threads[w].current.value;
      }
      f := NewMain(w);
      threads := threads[w := threads[w].(main := Some(f))];
    }

    method ResetFiber(f: FiberId)
      requires f in fibers && fibers[f].kind != MainFiber && Disposable(fibers[f].state)
      modifies this`fibers, this`clock
      ensures Reset(old(Snapshot()), f) == Some(Snapshot())
    {
      var ctx := FreshContext(f);
      fibers := fibers[f := fibers[f].(ctx := ctx)];
      fibers := fibers[f := fibers[f].(state := INIT)];
      assert fibers == old(fibers)[f := old(fibers)[f].(state := INIT, ctx := ctx)];
    }

    method CallFiber(w: nat, f: FiberId)
      requires w < |threads| && f in fibers && threads[w].stack.Some?
      requires threads[w].main.Some? && threads[w].main.value in fibers
      modifies this`fibers, this`threads, this`clock
      ensures Call(old(Snapshot()), w, f) == Some(Snapshot())
    {
      SetThis(w, f);
      fibers := fibers[f := fibers[f].(state := EXEC)];
      Swap(w, threads[w].main.value, f);
    }

    method BackFrom(w: nat, f: FiberId)
      requires w < |threads| && f in fibers && threads[w].stack.Some?
      requires threads[w].main.Some? && threads[w].main.value in fibers
      modifies this`fibers, this`threads, this`clock
      ensures Back(old(Snapshot()), w, f) == Some(Snapshot())
    {
      SetThis(w, threads[w].main.value);
      Swap(w, f, threads[w].main.value);
    }

    method SwapFiberIn(w: nat, f: FiberId)
      requires w < |threads| && f in fibers && threads[w].stack.Some?
      requires threads[w].scheduling.Some? && threads[w].scheduling.value in fibers
      modifies this`fibers, this`threads, this`clock
      ensures SwapIn(old(Snapshot()), w, f) == Some(Snapshot())
    {
      SetThis(w, f);
      fibers := fibers[f := fibers[f].(state := EXEC)];
      Swap(w, threads[w].scheduling.value, f);
    }

    method SwapFiberOut(w: nat, f: FiberId)
      requires w < |threads| && f in fibers && threads[w].stack.Some?
      requires threads[w].scheduling.Some? && threads[w].scheduling.value in fibers
      modifies this`fibers, this`threads, this`clock
      ensures SwapOut(old(Snapshot()), w, f) == Some(Snapshot())
    {
      SetThis(w, threads[w].scheduling.value);
      Swap(w, f, threads[w].scheduling.value);
    }

    method YieldTo(w: nat, hold: bool)
      requires w < |threads| && Yield(Snapshot(), w, hold).Some?
      modifies this
      ensures Yield(old(Snapshot()), w, hold) == Some(Snapshot())
    {
      var cur := GetThis(w);
      fibers := fibers[cur := fibers[cur].(state := if hold then HOLD else READY)];
      SwapFiberOut(w, cur);
    }

    // What MainFunc and CallerMainFunc do once the callable has returned or thrown.
    method FinishMain(w: nat, throws: bool)
      requires w < |threads| && Finish(Snapshot(), w, throws).Some?
      modifies this
      ensures Finish(old(Snapshot()), w, throws) == Some(Snapshot())
    {
      var cur := GetThis(w);
      fibers := fibers[cur := fibers[cur].(state := if throws then EXCEPT else TERM)];
      if fibers[cur].kind == TaskFiber {
        SwapFiberOut(w, cur);
      } else {
        BackFrom(w, cur);
      }
    }

    // The part of Scheduler(threads, true) that deals with fibers.
    method AdoptCaller(w: nat)
      requires w < |threads|
      modifies this
      ensures Snapshot() == MakeRoot(old(Snapshot()), w)
    {
      var _ := GetThis(w);
      var root := NewFiber(true);
      threads := threads[w := threads[w].(scheduling := Some(root))];
    }

    // The beginning of run() on a pool thread.
    method BeginRun(w: nat)
      requires w < |threads|
      modifies this
      ensures Snapshot() == EnterRun(old(Snapshot()), w)
    {
      var f := GetThis(w);
      threads := threads[w := threads[w].(scheduling := Some(f))];
    }
  }
}
