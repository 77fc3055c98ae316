# LioNet in Dafny

A verification project for the core of LioNet, a C++ library with an M:N fiber scheduler, a logger and a configuration
store. `dafny verify dfyconfig.toml` checks all of it.

**Scheduler, any number of threads.** `SchedulerModel` is a transition system. Each thread inside `run` has a program
point; every critical section, and every access to shared memory outside of one, is a step; the steps of all threads,
of `start`, of `stop` and of outside callers interleave freely. `SchedulerInvariant` states the inductive invariant with
counting functions (how many owners a fiber has, in how many places a submission is pending), and `SchedulerPreservation`
shows that every step keeps it. From it follow single ownership, exactly-once execution, exact counters and safe reuse
of fibers (`SchedulerTheorems`), bounded waiting (`SchedulerFairness`) and the drain theorem (`SchedulerDrain`): when
`stop` has returned, the queue is empty exactly if no work has come, after `stop` began, that no thread would look at any
more, whoever submitted it; `SchedulerHistory` says the same of the run itself. `SchedulerIdle` says exactly when an idle
fiber ends and what `stop` tests, `SchedulerStopping` exactly when `stopping()` means that no work is left,
`SchedulerBlocked` which entries keep `stop` from ever returning, `SchedulerCompletion` that without such an entry it can
always still return, and `SchedulerLostWork` has runs, for every number of threads from two on, that show why the
conditions are needed.

**Scheduler, one thread.** `OneThread` is `Scheduler(1, true)` as a class with the source's loops. `stop()` is proved to
return, with an empty queue, zero counters and every queued fiber finished, and the turns its tasks have taken are
exactly those of the first-in first-out list machine in `RoundRobin`, whose rounds and lengths are worked out there.

**Fiber contexts.** `FiberContexts` has the thread-local pointers and one saved context per fiber, with `swapcontext` as
"store the continuation of the executing stack, then load". `FiberDiscipline` proves that every allowed operation
succeeds and keeps `t_fiber` and the saved contexts in order, that the conditions on the callers of `swapIn`, `swapOut`
and the yields are exact, and that on every run over any number of threads the contexts switched to are those of a
machine of nested calls. `SchedulerContexts` shows that every run of the scheduler is carried out, step by step, by
allowed operations, so that all this holds for the scheduler itself.

**Log patterns.** `LogPattern` defines the pieces of a pattern and how they are spelled. The scan is lossless exactly if
every brace a directive opens is closed, and a list of pieces is read back from its spelling exactly if it is canonical.
`LogFormatter` has the index-driven scanner of `LogFormatter::init` and proves that it computes these pieces.
`LogPrinting` has what every directive and the default pattern print.

**Configuration.** `ConfigVars` (values, listeners, ids), `ConfigTree` (flattening a YAML tree) and `ConfigStore`
(registry, `Lookup`, `LoadFromYaml`): listener chains over all runs, exact flattening, last writer wins, and when a
second load is silent.

**Log configuration.** `LogDefines` (levels, defines, their encoding as nodes), `LogLoggers` (what the listener on the
`logs` variable comes to, name by name, and over whole histories of changes) and `LogManager` (the loggers, the manager
and the listener as objects).

Assumptions taken from the code where it is silent:

- `m_stopping` and `m_autoStop` have no initialiser (`LioNet/scheduler.h:214-215`). They are taken to be true and false
  at first; `start` works only if `m_stopping` is true (`LioNet/scheduler.cc:54`).
- A thread's id is the index of its worker; the caller's thread is the last worker.
- `isalpha` and `tolower` are those of the C locale.
- Where the comments disagree with the code, the code is modelled: `swapIn` sets EXEC (`LioNet/fiber.cc:141`), not READY
  (`doc/fiber.md:75`) or INIT (`LioNet/fiber.h:67`); `%%` is no escape, because only its first `%` is consumed
  (`LioNet/log.cc:458-463`, against the comment in `LioNet/log.cc:447`); the alphabet of names has no `9`
  (`LioNet/config.cc:22`, against `LioNet/config.h:450`); `LogDefine::operator==` compares `appenders` with itself
  (`LioNet/log.cc:615`).

## Model

| member | source | states |
|---|---|---|
| SchedulerModel.FirstTakeable | LioNet/scheduler.cc:137-156 | the locked scan stops at the first entry that is not pinned to another thread and whose fiber is not EXEC, and passes over only entries that are |
| SchedulerPreservation.StepKeeps | LioNet/scheduler.cc:51-234 | every step of every thread, of start, of stop and of outside callers keeps the whole invariant: ownership, fiber states, counters, conservation |
| SchedulerPreservation.ReachableGood | LioNet/scheduler.cc:12-34 | the invariant holds in every state that any run of any freshly constructed scheduler reaches |
| SchedulerTheorems.SingleOwner | LioNet/scheduler.cc:135-196 | in every reachable state a fiber is in at most one queue entry or one worker's hands, never both; an executing fiber is EXEC and executed by one thread only |
| SchedulerTheorems.QueuedNeverExec | LioNet/scheduler.cc:145-148 | no queued fiber is EXEC, so the scan's test for it never fires |
| SchedulerTheorems.LoopAssertions | LioNet/scheduler.cc:126-206 | at the loop head func_fiber is null or an empty INIT fiber of this worker; reset's assertions hold; a fiber is switched into only from INIT, READY or HOLD and with a callable; one that has switched out is requeued or finished, never parked; the idle fiber is TERM at exit |
| SchedulerTheorems.ReleasedFibersDisposable | LioNet/fiber.cc:88-92 | a fiber the scheduler no longer refers to is INIT, TERM or EXCEPT, as the destructor asserts |
| SchedulerTheorems.CountersExact | LioNet/scheduler.cc:152-210 | the active count is the number of workers between pop and decrement, the idle count the number inside the idle switch; their sum is at most the number of threads, no step makes either negative, both are zero when all have left run |
| SchedulerTheorems.ExactlyOnce | LioNet/scheduler.cc:150-196 | an accepted submission is in exactly one of queue, hands and finished; its callable has been started at most once, and exactly when it no longer waits to begin |
| SchedulerTheorems.ScanTakesFirst | LioNet/scheduler.cc:135-156 | in every reachable state a scan takes the first entry that is unpinned or pinned to its own thread, leaves all others in order and counts one more active worker; without such an entry it changes nothing |
| SchedulerTheorems.SubmissionQueued | LioNet/scheduler.h:144-152 | a submission, by a task or from outside, is appended with the thread it was given; the fiber in it is as it was handed over |
| SchedulerTheorems.RequeuedLast | LioNet/scheduler.cc:163-196 | a fiber that switched out READY or HOLD is appended for any thread, one that has ended is not queued again |
| SchedulerTheorems.FuncFiberReused | LioNet/scheduler.cc:176-196 | func_fiber is made for the first callable and reset for a later one, kept empty when its task has ended, and given up when it has been queued again |
| SchedulerDrain.Drained | LioNet/scheduler.cc:69-111 | once stop has returned, in any interleaving, whatever was submitted by whom and when, with some thread to run: the queue is empty if and only if no work came, after stop began, that no thread would look at (pinned to a thread that had left or does not exist, or unpinned after all had left); then every accepted submission was started once and has finished. So it is if nothing came from outside after stop began and, with two threads or more, no task pinned work late to a thread other than its own. Both counters are zero |
| SchedulerHistory.DrainedExactly | LioNet/scheduler.cc:69-111 | the same said of the run itself: nothing is left if and only if every submission made after stop began came when some thread that may run it would still look at the queue; so it is if none comes from outside then and, with two threads or more, no task submits for another thread then |
| SchedulerDrain.NeverStartedKeepsAll | LioNet/scheduler.cc:51-67 | without start and without the caller's thread nothing is ever started: everything accepted stays queued, so it is drained if and only if nothing was submitted |
| SchedulerBlocked.UntakeableBlocksStop | LioNet/scheduler.cc:139-143 | an entry that no thread will look at, as one pinned to a thread that does not exist, has left or will not be woken, keeps stop from ever returning once some other thread runs whose idle fiber has not ended |
| SchedulerBlocked.ForeignPinBlocksStop | LioNet/scheduler.cc:139-143 | the same for any number of threads, woken or not, while none of their idle fibers has ended, and for one thread always, as long as there is a thread to run and nothing comes from outside after stop began |
| SchedulerCompletion.StopCanReturn | LioNet/scheduler.cc:69-111 | at every moment after stop began, if every queued entry has a thread that may take it, some continuation without further submissions lets stop return |
| SchedulerCompletion.CanReturnExactly | LioNet/scheduler.cc:69-156 | while some woken thread's idle fiber has not ended, stop can still return without further submissions if and only if every queued entry has a thread that may take it |
| SchedulerIdle.IdleEndsExactly | LioNet/scheduler.cc:223-234 | in every reachable state a step ends an idle fiber if and only if that fiber looks when m_autoStop and m_stopping are both set, the queue is empty and no worker is active; otherwise its look puts it on HOLD |
| SchedulerIdle.IdleEndedAfterStop | LioNet/scheduler.cc:69-90 | once the pool has been started no idle fiber has ended before stop set m_stopping: at once for the caller's thread alone, otherwise only behind the first test |
| SchedulerIdle.StopTests | LioNet/scheduler.cc:71-102 | stop returns early, and passes the root fiber by, if and only if the same four conditions hold |
| SchedulerIdle.StopSequence | LioNet/scheduler.cc:69-90 | stop sets m_autoStop first and m_stopping before each of its tests, and makes the early one exactly for a scheduler of the caller's thread alone |
| SchedulerStopping.StoppingExact | LioNet/scheduler.cc:163-196 | when stopping() holds, so that both flags are set, the queue is empty and no worker is active, all accepted work has finished if and only if no worker is between the decrement of the active count and the push of a fiber that yielded |
| SchedulerStopping.StoppingWithoutYields | LioNet/scheduler.cc:223-227 | for tasks that never yield, stopping() means that all accepted work has finished |
| SchedulerLostWork.StoppingIsNotDrained | LioNet/scheduler.cc:166-170 | a reachable state in which stopping() holds although an accepted submission is unfinished in a worker's hands |
| SchedulerLostWork.PinnedWorkIsLost | LioNet/scheduler.cc:184-195 | for every number of threads from two on, with or without the caller's, a run after which stop has returned and a callable that a task pinned to a thread that had left is still queued, never started |
| SchedulerLostWork.AlwaysDrainedOnlyAlone | LioNet/scheduler.cc:69-111 | without outside submissions after stop began, but whatever tasks pin, a scheduler is always drained when stop returns if and only if it has one thread |
| SchedulerLostWork.LateWorkIsLost | LioNet/scheduler.cc:102-110 | a run in which a callable submitted from outside while stop waits, when the last thread has looked at the queue for the last time, is never started |
| SchedulerContexts.RunsKeepContexts | LioNet/scheduler.cc:117-216 | every run of the scheduler is carried out label by label by allowed fiber operations, a task that yields, returns or throws by just that operation on its fiber, with exactly one context switch on a thread where its worker enters or leaves a fiber and none elsewhere: no assertion in Fiber fails, at each step t_fiber is the task's, the idle or the scheduling fiber as it should be, and each switch out goes back to where it was switched in |
| SchedulerFairness.BoundedWaiting | LioNet/scheduler.cc:137-155 | an entry at index k never moves back, moves up with each pop by a thread it may run on, and is taken within k+1 of those, whatever is pushed meanwhile |
| SchedulerFairness.TakenByItsThread | LioNet/scheduler.cc:139-154 | an entry that has left the queue was popped by a worker it may run on |
| RoundRobin.TraceLength | LioNet/scheduler.cc:163-196 | the list machine gives every task, spawned ones included, exactly its turns |
| RoundRobin.TraceInRounds | LioNet/scheduler.cc:163-196 | without spawning, round j runs in submission order the tasks that yield at least j times |
| RoundRobin.SpawnFreeLength | LioNet/scheduler.cc:163-196 | without spawning, the number of turns is the sum over all tasks of yields + 1 |
| RoundRobin.OutcomeLaw | LioNet/fiber.cc:169-208 | YieldToHold leaves HOLD, YieldToReady READY, a return TERM and a throw EXCEPT |
| OneThread.Scheduler.constructor | LioNet/scheduler.cc:12-34 | initial state of Scheduler(1, true) |
| OneThread.Scheduler.Start | LioNet/scheduler.cc:51-67 | with no pool, start only clears the flag |
| OneThread.Scheduler.Schedule | LioNet/scheduler.h:144-152 | appends the entry unless fiber and callable are both null; asks for a tickle if the queue was empty |
| OneThread.Scheduler.ScheduleAll | LioNet/scheduler.h:90-104 | the batch form appends all non-null fibers, unpinned, in order |
| OneThread.BatchInOrder | LioNet/scheduler.h:90-104 | a batch is queued fiber by fiber in order, null pointers left out, each for any thread |
| OneThread.Scheduler.Scan | LioNet/scheduler.cc:135-157 | removes the first entry that is not skipped and counts it as active, or leaves queue and count alone; tickle is due exactly if a foreign entry was passed over or entries remain |
| OneThread.Scheduler.SwapIn | LioNet/fiber.cc:138-208 | one turn of a task: it submits what it spawns in program order and leaves in the state that fits how it left, HOLD, READY, TERM without its callable, or EXCEPT with it; if suspended it carries the rest of its program |
| OneThread.Scheduler.RunFiber | LioNet/scheduler.cc:163-175 | one turn, one decrement, then the fiber is the last entry of the queue, for any thread, or has finished |
| OneThread.Scheduler.RunFunc | LioNet/scheduler.cc:176-196 | the same for a callable on func_fiber: it is kept for the next callable exactly if the task ended, and queued, for any thread, if the task yielded |
| OneThread.Scheduler.TakeOne | LioNet/scheduler.cc:130-202 | one loop round drops a finished entry or gives the first task one turn, as the list machine does |
| OneThread.Scheduler.Run | LioNet/scheduler.cc:117-216 | terminates; empty queue, zero counters, all queued fibers finished as their programs end, trace of the list machine |
| OneThread.Scheduler.Stop | LioNet/scheduler.cc:69-111 | terminates for finitely many yields and a finite spawn tree with pins -1 or the root thread; nothing is left, the trace is that of the list machine, a fiber that was queued is EXCEPT if and only if its program throws after its last yield and otherwise TERM without a callable, the root fiber is TERM or was never needed |
| FiberContexts.Runtime.NewMain | LioNet/fiber.cc:51-63 | the main fiber is EXEC, current, and owns the stack the thread runs on |
| FiberContexts.Runtime.NewFiber | LioNet/fiber.cc:65-86 | a new fiber is INIT with a context of its own and a new id |
| FiberContexts.Runtime.GetThis | LioNet/fiber.cc:158-167 | the current fiber; the first call on a thread makes its main fiber |
| FiberContexts.Runtime.ResetFiber | LioNet/fiber.cc:106-121 | an INIT, TERM or EXCEPT fiber starts afresh |
| FiberContexts.Runtime.CallFiber | LioNet/fiber.cc:123-129 | new state of call() |
| FiberContexts.Runtime.BackFrom | LioNet/fiber.cc:131-136 | new state of back() |
| FiberContexts.Runtime.SwapFiberIn | LioNet/fiber.cc:138-145 | new state of swapIn() |
| FiberContexts.Runtime.SwapFiberOut | LioNet/fiber.cc:147-152 | new state of swapOut() |
| FiberContexts.Runtime.YieldTo | LioNet/fiber.cc:169-183 | new state of YieldToReady and YieldToHold |
| FiberContexts.Runtime.FinishMain | LioNet/fiber.cc:189-243 | new state after MainFunc or CallerMainFunc: TERM or EXCEPT, out to the scheduling or the main fiber |
| FiberContexts.Runtime.AdoptCaller | LioNet/scheduler.cc:16-28 | use_caller gives the thread a main fiber and a root fiber that schedules |
| FiberContexts.Runtime.BeginRun | LioNet/scheduler.cc:119-124 | on a pool thread the main fiber schedules |
| FiberDiscipline.StepKeeps | LioNet/fiber.cc:106-243 | no allowed operation follows a null pointer or fails an assertion; t_fiber stays the executing fiber and EXEC, every saved context its own fiber's, no two threads share a fiber |
| FiberDiscipline.SwapInOnlyFromScheduling | LioNet/fiber.cc:138-145 | switching a suspended task in keeps the discipline if and only if the scheduling fiber of the thread executes |
| FiberDiscipline.SwapOutOnlySelf | LioNet/fiber.cc:147-152 | swapOut keeps it if and only if it is called on the executing fiber, which is a task or schedules itself |
| FiberDiscipline.YieldOnlyFromTask | LioNet/fiber.cc:169-183 | YieldToReady and YieldToHold keep it if and only if a task executes |
| FiberDiscipline.NewTaskStarts | LioNet/fiber.cc:65-86 | a new task may be switched in and then runs from its start |
| FiberDiscipline.ResetTaskStarts | LioNet/fiber.cc:106-121 | so may a task that has been reset |
| FiberDiscipline.AfterTurn | LioNet/fiber.cc:169-208 | a task that yields is READY or HOLD, may be switched in again and not reset; one that ends is TERM or EXCEPT, may not be switched in, and may be reset |
| FiberDiscipline.SwitchesAreNestedCalls | LioNet/fiber.cc:123-152 | on every run of allowed operations the contexts each thread switches to are those of nested calls: swapOut and back return to exactly the place that switched in |
| LogPattern.LosslessScan | LioNet/log.cc:452-520 | the spelling of the scanned pieces is the pattern if and only if no directive has an unclosed brace |
| LogPattern.RoundTrip | LioNet/log.cc:448-520 | a list of pieces is read back from its spelling if and only if it is canonical |
| LogPattern.ScanIsOnto | LioNet/log.cc:448-520 | every pattern without an unclosed brace is the spelling of a canonical list, its scan |
| LogPattern.DoubledPercent | LioNet/log.cc:458-463 | the first % of %% becomes text and the second is read again: it begins a directive, or an error if the directive's brace is unclosed |
| LogPattern.OneCharacter | LioNet/log.cc:465-515 | after a % every letter a to z and A to Z and the closing brace is a name, an opening brace is an error with its text, and any other character ends the directive before it has a name |
| LogPattern.NameExtent | LioNet/log.cc:471-476 | a name consists of letters and closing braces and ends before the first other character, from which the scan goes on |
| LogFormatter.ReadDirective | LioNet/log.cc:465-501 | the inner loop stays in bounds, terminates, and finds name, format and end of the directive, or that its brace is unclosed |
| LogFormatter.Formatter.TakeDirective | LioNet/log.cc:503-515 | pending text is flushed before a directive; a faulty one adds the error text, keeps the pending text and resumes behind the % |
| LogFormatter.Formatter.Tokenize | LioNet/log.cc:450-520 | the outer loop computes the pieces of the pattern |
| LogFormatter.Formatter.Init | LioNet/log.cc:546-561 | one item for each piece; in error if and only if a brace is unclosed or a directive unknown |
| LogFormatter.Formatter.constructor | LioNet/log.cc:425-427 | a new formatter has the items of its pattern and is in error exactly if the pattern is faulty |
| LogFormatter.Formatter.Format | LioNet/log.cc:429-445 | prints the meaning of the pattern, piece by piece |
| LogFormatter.CanonicalPattern | LioNet/log.cc:429-561 | a canonical list of known directives is spelled by a sound pattern that has exactly these items and means exactly these pieces |
| LogPrinting.OneDirective | LioNet/log.cc:85-224 | what each of the twelve directives prints; only %d looks at its format, which has a default; any other name prints an error text |
| LogPrinting.LetterPattern | LioNet/log.cc:522-557 | a letter behind %, with a format in braces or without, prints what its directive does, and the pattern is sound for exactly twelve letters |
| LogPrinting.DefaultLine | LioNet/log.cc:227-231 | the default pattern is sound and prints time, thread, thread name, fiber, [level], [logger], file:line and message with tabs between them and a newline |
| ConfigVars.ConfigVar.constructor | LioNet/config.h:316-318 | the name is lower-cased, the value is the default, no listener |
| ConfigVars.ConfigVar.SetValue | LioNet/config.h:366-379 | an equal value changes nothing; otherwise every listener is called once, in id order, with the old and the new value, then the value is stored |
| ConfigVars.ConfigVar.FromString | LioNet/config.h:341-352 | false and no change if the text does not parse, otherwise setValue |
| ConfigVars.ConfigVar.AddListener | LioNet/config.h:390-396 | the listener is found under the id that is returned, the next of the shared 64-bit counter, and every other id finds what it did |
| ConfigVars.ConfigVar.DelListener | LioNet/config.h:402-405 | the listener with this id is gone |
| ConfigVars.ConfigVar.GetListener | LioNet/config.h:412-416 | the listener with this id, if there is one |
| ConfigVars.FindPut | LioNet/config.h:390-416 | after an addition the new id finds the new listener, every other id what it found before |
| ConfigVars.FindErase | LioNet/config.h:402-416 | after a removal the id finds nothing, every other id what it found before |
| ConfigVars.NotifiedInOrder | LioNet/config.h:372-375 | one round of notification calls every listener exactly once, in the order of the ids |
| ConfigVars.ListenerChains | LioNet/config.h:341-424 | after every run each live listener has seen a chain of real changes from the value at its registration to the present value, and its ids are in order |
| ConfigVars.RegisteredExactly | LioNet/config.h:390-424 | after every run of sets, parses, additions and removals each id finds the function of the last addition that returned it, unless it was removed since |
| ConfigVars.ChangeCallsRegistered | LioNet/config.h:366-379 | the next change of the value calls exactly the functions registered by then, each once, with the old and the new value |
| ConfigVars.IdsReusedAfterWrap | LioNet/config.h:390-396 | two additions get the same id if and only if the number of additions from one to the other is a multiple of 2^64 |
| ConfigVars.LowerAlphabet | LioNet/config.h:316-318 | the name's letters A to Z become a to z and no other character changes |
| ConfigTree.ListAllMember | LioNet/config.cc:19-38 | appends the listing of the tree to the output |
| ConfigTree.FlatteningExact | LioNet/config.cc:19-38 | the listing is exactly the nodes whose own path is valid, in preorder: pruning an invalid subtree drops nothing else |
| ConfigTree.ListedExactly | LioNet/config.cc:29-37 | a node is listed under p if and only if p is a valid name and some keys lead from the root to the node, p being the keys with dots between them, without the empty keys in front |
| ConfigTree.ListedAreValid | LioNet/config.cc:22-27 | every listed path is a valid name |
| ConfigTree.NameAlphabet | LioNet/config.cc:22 | the alphabet of names: the 26 small letters, dot, underscore and the digits 0 to 8 |
| ConfigStore.LoadIsSetting | LioNet/config.cc:44-62 | for each variable, loading is setting the values listed for its name one after the other; nothing is registered, a nameless variable is never loaded |
| ConfigStore.LastWriterWins | LioNet/config.cc:40-63 | after loading, a variable holds the value of the last node with its name that parses, or is wholly unchanged if there is none; listeners and keys stay |
| ConfigStore.WritesExactly | LioNet/config.cc:44-62 | the values a variable is set to are those that the nodes at its dotted name parse to, a scalar by its text, any other node by what is printed for it |
| ConfigStore.LoadedByPath | LioNet/config.cc:40-63 | after loading, the variable whose name the keys of a path spell holds the value of the node there, if that node alone has this name |
| ConfigStore.UnnamedUntouched | LioNet/config.cc:40-63 | a variable for which no node of its name parses is left wholly as it was |
| ConfigStore.Reload | LioNet/config.cc:40-63 | for any type whose == is an equivalence, loading the same tree again leaves every value; a listener hears of it if and only if the tree gives the variable values that are not all equal in that sense |
| ConfigStore.ReloadDistinct | LioNet/config.cc:40-63 | with distinct paths a second load changes nothing at all, for any reflexive == |
| ConfigStore.Config.Lookup | LioNet/config.h:453-482 | existing variable of the same type, null for another type, invalid_argument for a bad name, otherwise a new variable under its own name |
| ConfigStore.Config.LoadFromYaml | LioNet/config.cc:40-63 | the new contents of all registered variables; the registry itself is unchanged |
| LogDefines.EncodeDefine | LioNet/log.cc:682-713 | the node of a define |
| LogDefines.DefineFields | LioNet/log.cc:682-693 | the written node has the name, the level and the formatter unless unset, and the appender list unless empty |
| LogDefines.AppenderFields | LioNet/log.cc:695-709 | an appender's node has its type, a file its name, and level and formatter unless unset |
| LogDefines.DecodeDefine | LioNet/log.cc:626-676 | the define of a node, or an exception |
| LogDefines.DefineExactly | LioNet/log.cc:626-676 | a define is read if and only if the node is a map with a scalar name, level and formatter are missing or scalars, and every element of the appender list can be read or skipped; what each field becomes |
| LogDefines.AppenderExactly | LioNet/log.cc:641-673 | an appender is read if and only if the element is a map with one of the two types, a formatter that is missing or scalar and, for a file, a scalar name; its level is never read |
| LogDefines.SkippedExactly | LioNet/log.cc:643-670 | an element is skipped if and only if it has no type, an unknown type, or is a file without a name |
| LogDefines.AppendersConcat | LioNet/log.cc:640-673 | the list is read element by element in order, and one element that throws makes the whole list throw |
| LogDefines.LevelSpelling | LioNet/log.cc:12-52 | the five level names, written in capitals and read in capitals or small letters; any other text is read as UNKNOW |
| LogDefines.DefineRoundTrip | LioNet/log.cc:624-714 | encoding and decoding never throws and is exactly the normaliser: unknown appenders dropped, appender levels cleared, file cleared on stdout appenders |
| LogDefines.NormalIsFixed | LioNet/log.cc:624-714 | the normaliser is idempotent and the identity if and only if the define is normal |
| LogDefines.DecodedIsNormal | LioNet/log.cc:641-673 | whatever the node, a decoded define is normal |
| LogLoggers.ReconciliationExact | LioNet/log.cc:721-780 | for every name: a new or changed define configures its logger, a removed one gets level 0 and no appenders, any other logger is untouched |
| LogLoggers.RemovedExactly | LioNet/log.cc:771-779 | the logger of a removed define has level UNKNOW and no appenders and keeps its name and formatter |
| LogLoggers.OrderIrrelevant | LioNet/log.cc:725-779 | the result does not depend on the order in which the sets are walked |
| LogLoggers.ConfiguredExactly | LioNet/log.cc:740-769 | the define's level, its formatter if sound, and exactly the listed appenders in order, without stdout under -d, each with its own sound formatter or the logger's |
| LogLoggers.ListedInOrder | LioNet/log.cc:746-769 | one appender for each listed define in order: a file or the standard output, the latter not under -d, with the define's level and its sound formatter or else the logger's |
| LogLoggers.AppenderChangesIgnored | LioNet/log.cc:613-616 | a change that concerns appenders only reaches no logger |
| LogLoggers.FormatterNotInherited | LioNet/log.cc:245-279 | addAppender leaves every appender with a formatter of its own, so a later setFormatter changes none |
| LogLoggers.FormattedExactly | LioNet/log.cc:245-266 | setFormatter refuses a faulty pattern; a sound one becomes the logger's and that of exactly the appenders without a formatter of their own |
| LogLoggers.LevelsFollow | LioNet/log.cc:721-780 | after every history of changes each configured logger has the level of its define |
| LogLoggers.AppendersFollow | LioNet/log.cc:726-738 | after a change a logger's appenders are those of its define if and only if level or formatter changed too or both defines list the same appenders |
| LogLoggers.AppendersFollowAnnounced | LioNet/log.cc:721-780 | after every history in which a change of a kept define's appenders comes with a change of its level or formatter, each configured logger has exactly the appenders its define lists |
| LogLoggers.AppendersInSyncExactly | LioNet/log.cc:721-780 | after every history of changes from the empty configuration, a configured logger has exactly the appenders its define lists if and only if the define that was last applied to it lists the same ones |
| LogLoggers.LogsEquality | LioNet/log.cc:613-616 | == of the logs variable is an equivalence, so the reload result covers it, although it is not identity |
| LogLoggers.AppendersMayLag | LioNet/log.cc:613-616 | a history after which a configured logger lacks an appender its define lists |
| LogManager.ListeningExact | LioNet/log.cc:402-408 | an appender prints an event exactly if the event's level reaches its own |
| LogManager.WrittenExactly | LioNet/log.cc:315-408 | an appender prints an event if and only if the event reaches its level and the logger's and it is one of the logger's own or, if there is none, of the root logger's, whose level the event must reach too |
| LogLoggers.LevelOrder | LioNet/log.h:91-99 | UNKNOW, DEBUG, INFO, WARN, ERROR, FATAL in this order |
| LogManager.RemovedFallsBack | LioNet/log.cc:771-779 | after a change that removes a define, its logger prints an event of any level exactly as the root logger does |
| LogManager.DefaultAppenders | LioNet/log.cc:590-594 | an unconfigured logger writes from DEBUG on to stdout and to its own file |
| LogManager.Logger.AddAppender | LioNet/log.cc:273-279 | the appender is appended, with the logger's formatter if it has none |
| LogManager.Logger.SetFormatter | LioNet/log.cc:245-266 | a faulty pattern is refused |
| LogManager.Logger.Log | LioNet/log.cc:315-328 | the appenders that print an event: the logger's own, or the root logger's if it has none |
| LogManager.Logger.Configure | LioNet/log.cc:740-769 | new state of the logger of a changed define, unless an appender has an unknown type, on which the source follows a null pointer |
| LogManager.LoggerManager.constructor | LioNet/log.cc:565-574 | a root logger with the default appenders twice |
| LogManager.LoggerManager.OnLogsChanged | LioNet/log.cc:721-780 | the listener gets through if and only if every new or changed define lists only known appender types, and then all loggers are reconciled |
| LogManager.DecodedGetsThrough | LioNet/log.cc:641-673 | if every define of the new value was decoded from a node, the listener gets through, whatever was set before |
| LogManager.LoggerManager.GetLogger | LioNet/log.cc:576-588 | the known logger, or a new one with the default appenders below the root logger |

## Left out

- `ucontext`, stacks, `malloc`, pthreads, semaphores and `shared_ptr` counts: a context is an abstract continuation with
  its owner, a lock is an atomic step, creating a thread is one step.
- `switchTo` and `SchedulerSwitcher`: they queue the running fiber, which `run` then queues again, so a fiber has two
  owners. Scheduling one fiber twice is left out for the same reason. A fiber that had finished before it was first
  submitted may be scheduled; one that finished under this scheduler is not submitted again in `SchedulerModel`.
- A task that calls `swapOut` itself is part of `FiberContexts` but not of the scheduler models, where tasks leave by
  yielding, returning or throwing.
- `start` after `stop` has begun, a second `stop`, and the assertions of `stop` on the calling thread.
- In `SchedulerModel` the batch form of `schedule` is a sequence of single submissions; `tickle`, which only logs, is not
  a step.
- `reset` of a `use_caller` fiber, which installs `MainFunc` in place of `CallerMainFunc`.
- `m_stack` and its size; the main fiber's `m_stack` is never initialised and is taken to be null.
- OneThread.Scheduler.Run: the fibers are records in a map field instead of objects, so sharing and destruction of
  `Fiber` objects are not captured there.
- OneThread.Scheduler.Stop: pins other than -1 and the root thread are excluded, because `stop` then does not return:
  `SchedulerBlocked.ForeignPinBlocksStop` shows this for one thread and any entry pinned elsewhere.
- LogManager.LoggerManager.OnLogsChanged: nothing is said of the loggers after an appender of unknown type.
- Termination of `stop` with several threads, which needs a fair operating system.
- LogFormatter.Formatter.Format: numbers, level and names of an event enter as text and `strftime` as a function.
- `isalpha` on characters outside of ASCII.
- YAML text, yaml-cpp and `boost::lexical_cast`: a node is a tree with scalar keys, its printed form and every `FromStr`
  are unknown functions. The container casts in `LioNet/config.h:77-292` are not modelled.
- LogDefines.DecodeDefine: indexing a non-empty map under `appenders` by number is taken to throw, and so is reading a
  null node as a string.
- ConfigVars.ListenerChains: listeners that throw or call back into the variable, and concurrent `setValue` and
  `clearListener`, where check and write are not one atomic step.
- `Config::LoadFromConfDir`, `Config::Visit`, `toString` and the one-argument `Lookup`.
- `env.cc`, `util.cc`, file reopening, the `toYamlString` members and `delAppender`.
