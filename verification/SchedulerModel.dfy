// The scheduler as a transition system: any number of worker threads, one queue behind one mutex,
// fibers as heap objects that queue entries and workers refer to. A critical section, or one access
// to shared memory outside of it, is one step; the steps of different threads interleave freely.
module SchedulerModel {
  import opened Options
  import opened FiberStates

  type FiberId = nat
  // One act of submitting a callable, on its own or inside a fiber.
  type JobId = nat

  // m_state and m_func of a Fiber object.
  datatype FiberObject = FiberObject(state: FState, func: Option<JobId>)

  type Heap = map<FiberId, FiberObject>

  // FiberAndThread; thread -1 means any thread. A thread's id is its worker's index.
  datatype Entry = Entry(fiber: Option<FiberId>, func: Option<JobId>, thread: int)

  // The local of `run` that refers to the fiber being executed: ft.fiber or func_fiber.
  datatype Slot = FtSlot | FuncSlot

  datatype Phase =
    | Entering    // about to call swapIn
    | Running     // the task executes
    | Backed      // the task has switched out, the active count is not decremented yet
    | Counted     // decremented, the state is not looked at yet
    | Requeuing   // seen READY or HOLD, about to be queued again
    | Releasing   // queued again, the local reference is not dropped yet

  // Program points of one thread inside `run`.
  datatype Pc =
    | Dormant             // the thread does not exist yet, or the root fiber was not called yet
    | Head                // loop head, before the locked scan
    | Popped(ft: Entry)   // the scan took an entry
    | NoEntry             // the scan took nothing
    | On(phase: Phase, slot: Slot, f: FiberId)
    | IdleRun             // inside the idle fiber
    | IdleBack            // the idle fiber has switched out
    | Exited

  datatype Worker = Worker(pc: Pc, funcFiber: Option<FiberId>, idle: FState)

  // What the threads share, followed by history that no step reads.
  datatype Shared = Shared(
    heap: Heap,
    queue: seq<Entry>,
    active: int,
    idling: int,
    stopping: bool,
    autoStop: bool,
    accepted: multiset<JobId>,
    starts: multiset<JobId>,
    finished: multiset<JobId>)

  // What schedule() is given: a new fiber, a fiber that has already finished, or a callable.
  datatype Item =
    | NewFiber(f: FiberId, j: JobId)
    | DeadFiber(f: FiberId, threw: bool)
    | Callable(j: JobId)

  // The steps a worker takes inside `run`, its task and its idle fiber included.
  datatype Action =
    | Scan | Dispatch(newId: FiberId) | SwapIn
    | Submit(item: Item, thread: int) | Yield(hold: bool) | Finish(throws: bool)
    | Decrement | Decide | Push | Clear
    | IdleEnter | IdleCheck | IdleLeave | Break

  datatype Move = Stuck | Moved(me: Worker, g: Shared)

  // -------------------------------------------------------------------------------------------
  // One worker.

  // The entry is neither pinned to another thread nor a fiber that executes somewhere.
  predicate Takeable(e: Entry, h: Heap, w: nat) {
    && (e.thread == -1 || e.thread == w)
    && !(e.fiber.Some? && e.fiber.value in h && h[e.fiber.value].state == EXEC)
  }

  // The index at which the scan stops; |q| if it reaches the end.
  function FirstTakeable(q: seq<Entry>, h: Heap, w: nat, from: nat := 0): (k: nat)
    requires from <= |q|
    ensures from <= k <= |q|
    ensures forall i :: from <= i < k ==> !Takeable(q[i], h, w)
    ensures k < |q| ==> Takeable(q[k], h, w)
    decreases |q| - from
  {
    if from == |q| || Takeable(q[from], h, w) then from else FirstTakeable(q, h, w, from + 1)
  }

  function Without(q: seq<Entry>, k: nat): seq<Entry>
    requires k < |q|
  {
    q[..k] + q[k + 1..]
  }

  function DoScan(me: Worker, w: nat, g: Shared): Move {
    var k := FirstTakeable(g.queue, g.heap, w);
    if k == |g.queue| then
      Moved(me.(pc := NoEntry), g)
    else
      Moved(me.(pc := Popped(g.queue[k])), g.(queue := Without(g.queue, k), active := g.active + 1))
  }

  // Branch on what was taken. `newId` names the Fiber object that `new Fiber(ft.func)` would allocate.
  function DoDispatch(me: Worker, g: Shared, ft: Entry, newId: FiberId): Move {
    if ft.fiber.Some? && ft.fiber.value !in g.heap then
      Stuck
    else if ft.fiber.Some? && !Finished(g.heap[ft.fiber.value].state) then
      Moved(me.(pc := On(Entering, FtSlot, ft.fiber.value)), g)
    else if ft.func.Some? then
      if me.funcFiber.None? && newId in g.heap then
        Stuck
      else
        var f := if me.funcFiber.Some? then me.funcFiber.value else newId;
        Moved(me.(pc := On(Entering, FuncSlot, f), funcFiber := Some(f)),
              g.(heap := g.heap[f := FiberObject(INIT, ft.func)]))
    else
      Moved(me.(pc := Head), g.(active := g.active - 1))
  }

  // swapIn: the first switch into a fiber enters MainFunc, which starts the callable.
  function DoSwapIn(me: Worker, g: Shared, slot: Slot, f: FiberId): Move
    requires f in g.heap
  {
    var fb := g.heap[f];
    Moved(me.(pc := On(Running, slot, f)),
          g.(heap := g.heap[f := FiberObject(EXEC, fb.func)],
             starts := g.starts + if fb.state == INIT && fb.func.Some? then multiset{fb.func.value} else multiset{}))
  }

  function DoYield(me: Worker, g: Shared, slot: Slot, f: FiberId, hold: bool): Move
    requires f in g.heap
  {
    Moved(me.(pc := On(Backed, slot, f)),
          g.(heap := g.heap[f := FiberObject(if hold then HOLD else READY, g.heap[f].func)]))
  }

  // The callable returns (m_func is cleared) or throws; MainFunc then switches out.
  function DoFinish(me: Worker, g: Shared, slot: Slot, f: FiberId, throws: bool): Move
    requires f in g.heap
  {
    var fb := g.heap[f];
    Moved(me.(pc := On(Backed, slot, f)),
          g.(heap := g.heap[f := if throws then FiberObject(EXCEPT, fb.func) else FiberObject(TERM, None)],
             finished := g.finished + if fb.func.Some? then multiset{fb.func.value} else multiset{}))
  }

  // What `run` does with the fiber once it has switched out. The last case parks a fiber that is still EXEC.
  function DoDecide(me: Worker, g: Shared, slot: Slot, f: FiberId): Move
    requires f in g.heap
  {
    if Yielded(g.heap[f].state) then
      Moved(me.(pc := On(Requeuing, slot, f)), g)
    else if Finished(g.heap[f].state) then
      Moved(me.(pc := Head), if slot == FtSlot then g else g.(heap := g.heap[f := FiberObject(INIT, None)]))
    else
      Moved(me.(pc := Head, funcFiber := if slot == FtSlot then me.funcFiber else None),
            g.(heap := g.heap[f := FiberObject(HOLD, g.heap[f].func)]))
  }

  function Requeued(f: FiberId): Entry {
    Entry(Some(f), None, -1)
  }

  // stopping()
  predicate Stopping(g: Shared) {
    g.autoStop && g.stopping && g.queue == [] && g.active == 0
  }

  // The item is not known to the scheduler yet.
  predicate Fresh(g: Shared, item: Item) {
    match item
    case NewFiber(f, j) => f !in g.heap && g.accepted[j] == 0
    case DeadFiber(f, _) => f !in g.heap
    case Callable(j) => g.accepted[j] == 0
  }

  // schedule(item, thread), from outside or from a running task.
  function Submitted(g: Shared, item: Item, thread: int): Shared
    requires Fresh(g, item)
  {
    match item
    case NewFiber(f, j) =>
      g.(heap := g.heap[f := FiberObject(INIT, Some(j))],
         queue := g.queue + [Entry(Some(f), None, thread)], accepted := g.accepted + multiset{j})
    case DeadFiber(f, threw) =>
      g.(heap := g.heap[f := FiberObject(if threw then EXCEPT else TERM, None)],
         queue := g.queue + [Entry(Some(f), None, thread)])
    case Callable(j) =>
      g.(queue := g.queue + [Entry(None, Some(j), thread)], accepted := g.accepted + multiset{j})
  }

  // Worker w takes action a. Stuck: the action is not the next one at its program point.
  function Act(me: Worker, w: nat, g: Shared, a: Action): Move {
    match me.pc
    case Head =>
      if a == Scan then DoScan(me, w, g) else Stuck
    case Popped(ft) =>
      if a.Dispatch? then DoDispatch(me, g, ft, a.newId) else Stuck
    case NoEntry =>
      if a == IdleEnter && me.idle != TERM then
        Moved(me.(pc := IdleRun, idle := EXEC), g.(idling := g.idling + 1))
      else if a == Break && me.idle == TERM then
        Moved(me.(pc := Exited, funcFiber := None), g)  // leaving `run` destroys its locals
      else
        Stuck
    case IdleRun =>
      // One round of idle(): look at stopping(), then end or yield.
      if a == IdleCheck then Moved(me.(pc := IdleBack, idle := if Stopping(g) then TERM else HOLD), g) else Stuck
    case IdleBack =>
      if a == IdleLeave then
        Moved(me.(pc := Head, idle := if Finished(me.idle) then me.idle else HOLD), g.(idling := g.idling - 1))
      else
        Stuck
    case On(phase, slot, f) =>
      if f !in g.heap then
        Stuck
      else (
        match phase
        case Entering => if a == SwapIn then DoSwapIn(me, g, slot, f) else Stuck
        case Running =>
          if a.Yield? then
            DoYield(me, g, slot, f, a.hold)
          else if a.Finish? then
            DoFinish(me, g, slot, f, a.throws)
          else if a.Submit? && Fresh(g, a.item) then
            Moved(me, Submitted(g, a.item, a.thread))
          else
            Stuck
        case Backed =>
          if a == Decrement then Moved(me.(pc := On(Counted, slot, f)), g.(active := g.active - 1)) else Stuck
        case Counted => if a == Decide then DoDecide(me, g, slot, f) else Stuck
        case Requeuing =>
          if a == Push then
            Moved(me.(pc := On(Releasing, slot, f)), g.(queue := g.queue + [Requeued(f)]))
          else
            Stuck
        case Releasing =>
          if a == Clear then
            Moved(me.(pc := Head, funcFiber := if slot == FtSlot then me.funcFiber else None), g)
          else
            Stuck
      )
    case Dormant => Stuck
    case Exited => Stuck
  }

  // -------------------------------------------------------------------------------------------
  // The whole scheduler.

  // Program points of the thread that calls `stop`.
  datatype StopPc = NotCalled | AutoSet | EarlyCheck | Flagging | RootCheck | WaitRoot | Joining | Returned

  datatype State = State(
    g: Shared,
    workers: seq<Worker>,   // the pool, then the caller's thread if it takes part
    pool: nat,
    root: bool,
    stop: StopPc,
    started: bool,          // history: start() has created the pool
    late: bool,             // history: some outside submission came after stop() began
    stray: bool,            // history: after stop() began, a task pinned work to a thread other than its own
    doomed: bool)           // history: after stop() began, work came that no thread would look at any more

  // Scheduler(threads, useCaller): stopping is true before start(), which start() relies on.
  function Init(threads: nat, useCaller: bool): State
    requires threads > 0
  {
    State(Shared(map[], [], 0, 0, true, false, multiset{}, multiset{}, multiset{}),
          seq(threads, _ => Worker(Dormant, None, INIT)),
          if useCaller then threads - 1 else threads, useCaller, NotCalled, false, false, false, false)
  }

  datatype Label = Does(w: nat, a: Action) | Outside(item: Item, thread: int) | Start | Stop

  // The worker will not look at the queue again.
  predicate Gone(w: Worker) {
    w.pc == Exited || (w.pc == NoEntry && w.idle == TERM)
  }

  // stop() has begun and has not decided yet whether the root fiber is called.
  predicate RootUndecided(stop: StopPc) {
    stop == AutoSet || stop == EarlyCheck || stop == Flagging || stop == RootCheck
  }

  // Worker i may still look at the queue: it is not gone, and if it sleeps it can still be woken.
  predicate Live(s: State, i: int) {
    && 0 <= i < |s.workers| && !Gone(s.workers[i])
    && (s.workers[i].pc == Dormant ==> s.stop == NotCalled || (i == s.pool && s.root && RootUndecided(s.stop)))
  }

  // Some thread that may run an entry with this pin may still look at the queue.
  predicate Watched(s: State, thread: int) {
    if thread == -1 then exists i :: 0 <= i < |s.workers| && Live(s, i) else Live(s, thread)
  }

  // After stop() has begun, a task pins work to some thread.
  predicate PinsLate(s: State, a: Action) {
    s.stop != NotCalled && a.Submit? && a.thread != -1
  }

  function Woken(w: Worker): Worker {
    w.(pc := Head)
  }

  // start(), called before stop(). A second call returns at once because stopping is false by then.
  function DoStart(s: State): State {
    if !s.g.stopping then
      s
    else
      s.(g := s.g.(stopping := false), started := true,
         workers := seq(|s.workers|, i requires 0 <= i < |s.workers| =>
           if i < s.pool then Woken(s.workers[i]) else s.workers[i]))
  }

  predicate Joinable(s: State) {
    forall i :: 0 <= i < s.pool && i < |s.workers| ==>
      s.workers[i].pc == Exited || (!s.started && s.workers[i].pc == Dormant)
  }

  // The next step of stop(). The root fiber is worker number `pool`.
  function DoStop(s: State): Option<State> {
    match s.stop
    case NotCalled => Some(s.(g := s.g.(autoStop := true), stop := AutoSet))
    case AutoSet =>
      if s.root && s.pool == 0 then
        Some(s.(g := s.g.(stopping := true), stop := EarlyCheck))
      else
        Some(s.(stop := Flagging))
    case EarlyCheck => Some(s.(stop := if Stopping(s.g) then Returned else Flagging))
    case Flagging => Some(s.(g := s.g.(stopping := true), stop := RootCheck))
    case RootCheck =>
      if s.root && !Stopping(s.g) && s.pool < |s.workers| then
        Some(s.(workers := s.workers[s.pool := Woken(s.workers[s.pool])], stop := WaitRoot))
      else
        Some(s.(stop := Joining))
    case WaitRoot =>
      if s.pool < |s.workers| && s.workers[s.pool].pc == Exited then Some(s.(stop := Joining)) else None
    case Joining => if Joinable(s) then Some(s.(stop := Returned)) else None
    case Returned => None
  }

  // None: the step is not possible in this state.
  function Step(s: State, l: Label): Option<State> {
    match l
    case Does(w, a) =>
      if w >= |s.workers| then
        None
      else (
        match Act(s.workers[w], w, s.g, a)
        case Stuck => None
        case Moved(me, g) =>
          Some(s.(g := g, workers := s.workers[w := me],
                  stray := s.stray || (PinsLate(s, a) && a.thread != w),
                  doomed := s.doomed || (PinsLate(s, a) && !Live(s, a.thread))))
      )
    case Outside(item, thread) =>
      if Fresh(s.g, item) then
        Some(s.(g := Submitted(s.g, item, thread), late := s.late || s.stop != NotCalled,
                doomed := s.doomed || (s.stop != NotCalled && !Watched(s, thread))))
      else
        None
    case Start => if s.stop == NotCalled then Some(DoStart(s)) else None
    case Stop => DoStop(s)
  }

  // The state after a whole run; None if one of its steps was not possible.
  function Execute(s: State, run: seq<Label>): Option<State>
    decreases run
  {
    if run == [] then
      Some(s)
    else
      match Step(s, run[0])
      case None => None
      case Some(t) => Execute(t, run[1..])
  }

  // Some run from some freshly constructed scheduler leads to s.
  ghost predicate Reachable(s: State) {
    exists threads: nat, useCaller: bool, run: seq<Label> ::
      threads > 0 && Execute(Init(threads, useCaller), run) == Some(s)
  }
}
