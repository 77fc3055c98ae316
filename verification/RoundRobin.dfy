// Round robin over task programs: the behaviour the one-thread scheduler is meant to have.
module RoundRobin {
  import opened FiberStates

  // What a task does: it submits further tasks and then yields, returns or throws. Every program is finite, and so is
  // the tree of tasks it spawns.
  datatype Prog =
    | Done(spawns: seq<Spawn>, throws: bool)
    | Yield(spawns: seq<Spawn>, hold: bool, rest: Prog)

  datatype Spawn = Spawn(tag: nat, asFiber: bool, prog: Prog, thread: int)

  datatype Task = Task(tag: nat, body: Prog)

  // One turn of a task and the state in which it switched out.
  datatype Event = Event(tag: nat, outcome: FState)

  function Outcome(p: Prog): FState {
    match p
    case Done(_, throws) => if throws then EXCEPT else TERM
    case Yield(_, hold, _) => if hold then HOLD else READY
  }

  // A turn ends in the state that fits how the task leaves.
  lemma OutcomeLaw(sp: seq<Spawn>, rest: Prog)
    ensures Outcome(Yield(sp, true, rest)) == HOLD && Outcome(Yield(sp, false, rest)) == READY
    ensures Outcome(Done(sp, true)) == EXCEPT && Outcome(Done(sp, false)) == TERM
  {
  }

  // How the task ends, after its last yield.
  predicate EndsThrowing(p: Prog) {
    match p
    case Done(_, throws) => throws
    case Yield(_, _, rest) => EndsThrowing(rest)
  }

  function Turn(t: Task): Event {
    Event(t.tag, Outcome(t.body))
  }

  function Spawned(sp: seq<Spawn>): (ts: seq<Task>)
    ensures |ts| == |sp|
    ensures forall i :: 0 <= i < |sp| ==> ts[i] == Task(sp[i].tag, sp[i].prog)
  {
    if sp == [] then [] else [Task(sp[0].tag, sp[0].prog)] + Spawned(sp[1..])
  }

  // What is left of a task after one turn.
  function Rest(t: Task): seq<Task> {
    match t.body
    case Done(_, _) => []
    case Yield(_, _, rest) => [Task(t.tag, rest)]
  }

  // The number of turns of a program and of everything it spawns.
  function Turns(p: Prog): (n: nat)
    ensures n >= 1
    decreases p
  {
    match p
    case Done(sp, _) => 1 + SpawnTurns(sp)
    case Yield(sp, _, rest) => 1 + SpawnTurns(sp) + Turns(rest)
  }

  function SpawnTurns(sp: seq<Spawn>): nat
    decreases sp
  {
    if sp == [] then 0 else OneSpawnTurns(sp[0]) + SpawnTurns(sp[1..])
  }

  function OneSpawnTurns(s: Spawn): nat
    decreases s
  {
    Turns(s.prog)
  }

  function AllTurns(q: seq<Task>): nat {
    if q == [] then 0 else Turns(q[0].body) + AllTurns(q[1..])
  }

  lemma {:induction false} AllTurnsConcat(a: seq<Task>, b: seq<Task>)
    ensures AllTurns(a + b) == AllTurns(a) + AllTurns(b)
  {
    if a == [] {
      assert a + b == b;
    } else {
      assert (a + b)[1..] == a[1..] + b;
      AllTurnsConcat(a[1..], b);
    }
  }

  lemma {:induction false} SpawnedTurns(sp: seq<Spawn>)
    ensures AllTurns(Spawned(sp)) == SpawnTurns(sp)
  {
    if sp != [] {
      assert Spawned(sp)[1..] == Spawned(sp[1..]);
      SpawnedTurns(sp[1..]);
    }
  }

  // The queue after the first task has had one turn: what it spawned goes to the end, then the task if it yields.
  function Rotate(q: seq<Task>): (r: seq<Task>)
    requires q != []
    ensures AllTurns(r) == AllTurns(q) - 1
  {
    var r := q[1..] + Spawned(q[0].body.spawns) + Rest(q[0]);
    assert AllTurns(r) == AllTurns(q) - 1 by {
      AllTurnsConcat(q[1..] + Spawned(q[0].body.spawns), Rest(q[0]));
      AllTurnsConcat(q[1..], Spawned(q[0].body.spawns));
      SpawnedTurns(q[0].body.spawns);
    }
    r
  }

  // The list machine: turn after turn, first in, first out.
  function Trace(q: seq<Task>): seq<Event>
    decreases AllTurns(q)
  {
    if q == [] then [] else [Turn(q[0])] + Trace(Rotate(q))
  }

  // Every turn of every task, spawned ones included, is taken exactly once.
  lemma {:induction false} TraceLength(q: seq<Task>)
    ensures |Trace(q)| == AllTurns(q)
    decreases AllTurns(q)
  {
    if q != [] {
      TraceLength(Rotate(q));
    }
  }

  // -------------------------------------------------------------------------------------------
  // Without spawning, the machine proceeds in rounds.

  function Yields(p: Prog): nat {
    match p
    case Done(_, _) => 0
    case Yield(_, _, rest) => 1 + Yields(rest)
  }

  predicate SpawnFree(p: Prog) {
    p.spawns == [] && (p.Yield? ==> SpawnFree(p.rest))
  }

  predicate AllSpawnFree(q: seq<Task>) {
    forall i :: 0 <= i < |q| ==> SpawnFree(q[i].body)
  }

  // The program after j yields.
  function After(p: Prog, j: nat): Prog
    requires j <= Yields(p)
  {
    if j == 0 then p else After(p.rest, j - 1)
  }

  // Round j: in submission order, the (j+1)-st turn of every task that yields at least j times.
  function Round(q: seq<Task>, j: nat): seq<Event> {
    if q == [] then
      []
    else
      (if Yields(q[0].body) >= j then [Turn(Task(q[0].tag, After(q[0].body, j)))] else []) + Round(q[1..], j)
  }

  function RoundsFrom(q: seq<Task>, j: nat, end: nat): seq<Event>
    requires j <= end
    decreases end - j
  {
    if j == end then [] else Round(q, j) + RoundsFrom(q, j + 1, end)
  }

  // What is left, in submission order, after everybody has had one turn.
  function Survivors(q: seq<Task>): seq<Task> {
    if q == [] then [] else Rest(q[0]) + Survivors(q[1..])
  }

  lemma {:induction false} SurvivorsAppend(q: seq<Task>, t: Task)
    ensures Survivors(q + [t]) == Survivors(q) + Rest(t)
  {
    if q == [] {
      assert [] + [t] == [t] && [t][1..] == [];
    } else {
      assert (q + [t])[1..] == q[1..] + [t];
      SurvivorsAppend(q[1..], t);
    }
  }

  lemma {:induction false} SurvivorsSpawnFree(q: seq<Task>)
    requires AllSpawnFree(q)
    ensures AllSpawnFree(Survivors(q))
  {
    if q != [] {
      SurvivorsSpawnFree(q[1..]);
    }
  }

  lemma TraceStep(q: seq<Task>)
    requires q != []
    ensures Trace(q) == [Turn(q[0])] + Trace(Rotate(q))
  {
  }

  lemma RotateSpawnFree(a: seq<Task>, b: seq<Task>)
    requires a != [] && a[0].body.spawns == []
    ensures Rotate(a + b) == a[1..] + (b + Rest(a[0]))
  {
    assert (a + b)[1..] == a[1..] + b;
  }

  lemma RoundStep(a: seq<Task>)
    requires a != []
    ensures Round(a, 0) == [Turn(a[0])] + Round(a[1..], 0)
  {
    assert Task(a[0].tag, a[0].body) == a[0];
  }

  lemma SurvivorsStep(a: seq<Task>, b: seq<Task>)
    requires a != []
    ensures b + Survivors(a) == b + Rest(a[0]) + Survivors(a[1..])
  {
  }

  lemma EventsAssoc(e: Event, x: seq<Event>, y: seq<Event>)
    ensures [e] + (x + y) == [e] + x + y
  {
  }

  // While a queue a of tasks that wait for their turn is worked off, the ones that yield gather behind it in order.
  lemma {:induction false} OneRound(a: seq<Task>, b: seq<Task>)
    requires AllSpawnFree(a)
    ensures Trace(a + b) == Round(a, 0) + Trace(b + Survivors(a))
    decreases |a|
  {
    if a == [] {
      assert a + b == b && b + Survivors(a) == b;
    } else {
      hide Trace;
      hide Rotate;
      hide Round;
      hide Survivors;
      hide Rest;
      var b' := b + Rest(a[0]);
      TraceStep(a + b);
      RotateSpawnFree(a, b);
      OneRound(a[1..], b');
      SurvivorsStep(a, b);
      RoundStep(a);
      EventsAssoc(Turn(a[0]), Round(a[1..], 0), Trace(b + Survivors(a)));
    }
  }

  // Round j of what is left after one round is round j + 1.
  lemma {:induction false} RoundShift(q: seq<Task>, j: nat)
    ensures Round(Survivors(q), j) == Round(q, j + 1)
  {
    if q != [] {
      RoundShift(q[1..], j);
      var r := Rest(q[0]);
      if r != [] {
        assert Survivors(q)[1..] == Survivors(q[1..]);
      } else {
        assert Survivors(q) == Survivors(q[1..]);
      }
    }
  }

  lemma {:induction false} RoundsShift(q: seq<Task>, j: nat, end: nat)
    requires j <= end
    ensures RoundsFrom(Survivors(q), j, end) == RoundsFrom(q, j + 1, end + 1)
    decreases end - j
  {
    if j < end {
      RoundShift(q, j);
      RoundsShift(q, j + 1, end);
    }
  }

  lemma {:induction false} SurvivorsYields(q: seq<Task>, n: nat)
    requires n > 0 && forall i :: 0 <= i < |q| ==> Yields(q[i].body) < n
    ensures n == 1 ==> Survivors(q) == []
    ensures forall i :: 0 <= i < |Survivors(q)| ==> Yields(Survivors(q)[i].body) < n - 1
  {
    if q != [] {
      SurvivorsYields(q[1..], n);
    }
  }

  // Without spawning, the schedule is round 0, then round 1, and so on, up to any bound on the number of yields.
  lemma {:induction false} TraceInRounds(q: seq<Task>, n: nat)
    requires AllSpawnFree(q) && forall i :: 0 <= i < |q| ==> Yields(q[i].body) < n
    ensures Trace(q) == RoundsFrom(q, 0, n)
    decreases n
  {
    if n > 0 {
      OneRound(q, []);
      hide Trace;
      hide Round;
      hide SpawnFree;
      assert q + [] == q && [] + Survivors(q) == Survivors(q);
      SurvivorsSpawnFree(q);
      SurvivorsYields(q, n);
      TraceInRounds(Survivors(q), n - 1);
      RoundsShift(q, 0, n - 1);
    }
  }

  lemma {:induction false} SpawnFreeTurns(p: Prog)
    requires SpawnFree(p)
    ensures Turns(p) == Yields(p) + 1
  {
    if p.Yield? {
      SpawnFreeTurns(p.rest);
    }
  }

  function TotalYields(q: seq<Task>): nat {
    if q == [] then 0 else Yields(q[0].body) + TotalYields(q[1..])
  }

  // ... and takes, over all tasks, the sum of (yields + 1) turns.
  lemma {:induction false} SpawnFreeLength(q: seq<Task>)
    requires AllSpawnFree(q)
    ensures |Trace(q)| == |q| + TotalYields(q)
  {
    TraceLength(q);
    SpawnFreeAllTurns(q);
  }

  lemma {:induction false} SpawnFreeAllTurns(q: seq<Task>)
    requires AllSpawnFree(q)
    ensures AllTurns(q) == |q| + TotalYields(q)
  {
    if q != [] {
      SpawnFreeTurns(q[0].body);
      SpawnFreeAllTurns(q[1..]);
    }
  }
}
