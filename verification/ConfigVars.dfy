// A configuration variable and its change listeners.
module ConfigVars {
  import opened Options

  // Which function was registered.
  type Callback = nat

  // m_cbs maps ids to functions; `since` and `start` remember how many calls there had been and which value the
  // variable had when the listener was added.
  datatype Listener<V> = Listener(id: nat, cb: Callback, since: nat, start: V)

  // A listener was called with (from, to).
  datatype Call<V> = Call(id: nat, cb: Callback, from: V, to: V)

  // A variable: m_val, m_cbs in key order, the counter s_fun_id, and the calls made so far.
  datatype Var<V> = Var(val: V, cbs: seq<Listener<V>>, lastId: nat, calls: seq<Call<V>>)

  const ID_COUNT := 0x1_0000_0000_0000_0000

  // ++s_fun_id on 64 bits.
  function NextId(last: nat): (id: nat)
    ensures id < ID_COUNT
  {
    (last + 1) % ID_COUNT
  }

  // m_cbs[l.id] = l, in key order.
  function Put<V>(cbs: seq<Listener<V>>, l: Listener<V>): seq<Listener<V>> {
    if cbs == [] || l.id < cbs[0].id then
      [l] + cbs
    else if l.id == cbs[0].id then
      [l] + cbs[1..]
    else
      [cbs[0]] + Put(cbs[1..], l)
  }

  function Erase<V>(cbs: seq<Listener<V>>, id: nat): seq<Listener<V>> {
    if cbs == [] then [] else if cbs[0].id == id then cbs[1..] else [cbs[0]] + Erase(cbs[1..], id)
  }

  function Find<V>(cbs: seq<Listener<V>>, id: nat): Option<Callback> {
    if cbs == [] then None else if cbs[0].id == id then Some(cbs[0].cb) else Find(cbs[1..], id)
  }

  function Notified<V>(cbs: seq<Listener<V>>, from: V, to: V): seq<Call<V>> {
    if cbs == [] then
      []
    else
      Notified(cbs[..|cbs| - 1], from, to) + [Call(cbs[|cbs| - 1].id, cbs[|cbs| - 1].cb, from, to)]
  }

  // -------------------------------------------------------------------------------------------
  // What each operation does to a variable. `eq` is operator== of its type, `parse` its FromStr.

  function Set<V>(x: Var<V>, eq: (V, V) -> bool, v: V): Var<V> {
    if eq(v, x.val) then x else x.(val := v, calls := x.calls + Notified(x.cbs, x.val, v))
  }

  function Parsed<V>(x: Var<V>, eq: (V, V) -> bool, v: Option<V>): Var<V> {
    match v
    case None => x
    case Some(v) => Set(x, eq, v)
  }

  function Added<V>(x: Var<V>, cb: Callback): Var<V> {
    var id := NextId(x.lastId);
    x.(cbs := Put(x.cbs, Listener(id, cb, |x.calls|, x.val)), lastId := id)
  }

  datatype Op<V> =
    | SetTo(v: V) | FromText(text: string) | Add(cb: Callback) | Delete(id: nat) | Clear
    | AddElsewhere   // to another variable of the same type, which shares the counter

  function Do<V>(x: Var<V>, eq: (V, V) -> bool, parse: string -> Option<V>, op: Op<V>): Var<V> {
    match op
    case SetTo(v) => Set(x, eq, v)
    case FromText(text) => Parsed(x, eq, parse(text))
    case Add(cb) => Added(x, cb)
    case Delete(id) => x.(cbs := Erase(x.cbs, id))
    case Clear => x.(cbs := [])
    case AddElsewhere => x.(lastId := NextId(x.lastId))
  }

  function DoAll<V>(x: Var<V>, eq: (V, V) -> bool, parse: string -> Option<V>, run: seq<Op<V>>): Var<V>
    decreases run
  {
    if run == [] then x else DoAll(Do(x, eq, parse, run[0]), eq, parse, run[1..])
  }

  // -------------------------------------------------------------------------------------------
  // The operations as the source performs them.

  class IdSource {
    var last: nat   // s_fun_id, one for all variables of a type

    constructor ()
      ensures last == 0
    {
      last := 0;
    }
  }

  class ConfigVar<V> {
    const name: string
    const kind: nat                         // which T the variable was made with
    const eq: (V, V) -> bool
    const parse: string -> Option<V>
    const ids: IdSource
    var val: V
    var cbs: seq<Listener<V>>
    var calls: seq<Call<V>>

    function Snapshot(): Var<V>
      reads this, ids
    {
      Var(val, cbs, ids.last, calls)
    }

    constructor (name: string, kind: nat, eq: (V, V) -> bool, parse: string -> Option<V>, ids: IdSource, v: V)
      ensures this.name == ToLower(name) && this.kind == kind && this.eq == eq && this.parse == parse
      ensures this.ids == ids && Snapshot() == Var(v, [], ids.last, [])
    {
      this.name, this.kind, this.eq, this.parse, this.ids := ToLower(name), kind, eq, parse, ids;
      val, cbs, calls := v, [], [];
    }

    // setValue: no change, no call; otherwise every listener is called with the value still in place.
    method SetValue(v: V)
      modifies this
      ensures Snapshot() == Set(old(Snapshot()), eq, v)
    {
      if eq(v, val) {
        return;
      }
      var i := 0;
      while i < |cbs|
        invariant 0 <= i <= |cbs| && cbs == old(cbs) && val == old(val)
        invariant calls == old(calls) + Notified(cbs[..i], val, v)
      {
        assert cbs[..i + 1][..i] == cbs[..i];
        calls := calls + [Call(cbs[i].id, cbs[i].cb, val, v)];
        i := i + 1;
      }
      assert cbs[..i] == cbs;
      val := v;
    }

    // fromString: false, and nothing happens, if the text does not parse.
    method FromString(text: string) returns (ok: bool)
      modifies this
      ensures ok == parse(text).Some? && Snapshot() == Parsed(old(Snapshot()), eq, parse(text))
    {
      var v := parse(text);
      if v.None? {
        return false;
      }
      SetValue(v.value);
      ok := true;
    }

    method AddListener(cb: Callback) returns (id: nat)
      requires ids as object != this
      modifies this, ids
      ensures Snapshot() == Added(old(Snapshot()), cb)
      ensures id == ids.last == (old(ids.last) + 1) % 0x1_0000_0000_0000_0000
      ensures Ordered(old(cbs)) ==>
        Find(cbs, id) == Some(cb) && forall other :: other != id ==> Find(cbs, other) == old(Find(cbs, other))
    {
      if Ordered(cbs) {
        AddedFinds(Snapshot(), cb);
      }
      ids.last := (ids.last + 1) % ID_COUNT;
      id := ids.last;
      cbs := Put(cbs, Listener(id, cb, |calls|, val));
    }

    method DelListener(id: nat)
      modifies this`cbs
      ensures cbs == Erase(old(cbs), id)
    {
      cbs := Erase(cbs, id);
    }

    method GetListener(id: nat) returns (cb: Option<Callback>)
      ensures cb == Find(cbs, id)
    {
      cb := Find(cbs, id);
    }

    method ClearListener()
      modifies this`cbs
      ensures cbs == []
    {
      cbs := [];
    }
  }

  // std::transform with ::tolower, for the letters of the C locale.
  function LowerChar(c: char): char {
    if 'A' <= c <= 'Z' then c - 'A' + 'a' else c
  }

  function ToLower(s: string): (r: string)
    ensures |r| == |s| && forall i :: 0 <= i < |s| ==> r[i] == LowerChar(s[i])
  {
    seq(|s|, i requires 0 <= i < |s| => LowerChar(s[i]))
  }

  // The letters A to Z become a to z, and no other character changes.
  lemma LowerAlphabet(k: nat, c: char)
    ensures k < 26 ==> ToLower(["ABCDEFGHIJKLMNOPQRSTUVWXYZ"[k]]) == ["abcdefghijklmnopqrstuvwxyz"[k]]
    ensures c < 'A' || 'Z' < c ==> ToLower([c]) == [c]
  {
    if k < 26 {
      assert "ABCDEFGHIJKLMNOPQRSTUVWXYZ"[k] as int == 'A' as int + k;
      assert "abcdefghijklmnopqrstuvwxyz"[k] as int == 'a' as int + k;
    }
  }

  // -------------------------------------------------------------------------------------------
  // Listener chains.

  ghost predicate Ordered<V>(cbs: seq<Listener<V>>) {
    forall i, j :: 0 <= i < j < |cbs| ==> cbs[i].id < cbs[j].id
  }

  // getListener after addListener and delListener.
  lemma {:induction false} FindPut<V>(cbs: seq<Listener<V>>, l: Listener<V>, id: nat)
    requires Ordered(cbs)
    ensures Find(Put(cbs, l), id) == if id == l.id then Some(l.cb) else Find(cbs, id)
  {
    if cbs != [] {
      FindPut(cbs[1..], l, id);
    }
  }

  lemma {:induction false} FindErase<V>(cbs: seq<Listener<V>>, gone: nat, id: nat)
    requires Ordered(cbs)
    ensures Find(Erase(cbs, gone), id) == if id == gone then None else Find(cbs, id)
  {
    if cbs != [] {
      FindErase(cbs[1..], gone, id);
      if cbs[0].id == gone {
        NotFound(cbs[1..], gone);
      }
    }
  }

  lemma AddedFinds<V>(x: Var<V>, cb: Callback)
    requires Ordered(x.cbs)
    ensures var y := Added(x, cb);
      && Find(y.cbs, y.lastId) == Some(cb)
      && forall id :: id != y.lastId ==> Find(y.cbs, id) == Find(x.cbs, id)
  {
    var l := Listener(NextId(x.lastId), cb, |x.calls|, x.val);
    forall id ensures Find(Put(x.cbs, l), id) == if id == l.id then Some(cb) else Find(x.cbs, id) {
      FindPut(x.cbs, l, id);
    }
  }

  lemma {:induction false} NotFound<V>(cbs: seq<Listener<V>>, id: nat)
    requires forall i :: 0 <= i < |cbs| ==> cbs[i].id != id
    ensures Find(cbs, id) == None
  {
    if cbs != [] {
      NotFound(cbs[1..], id);
    }
  }

  // The calls that went to the listener with this id.
  function CallsTo<V>(calls: seq<Call<V>>, id: nat): seq<Call<V>> {
    if calls == [] then
      []
    else
      CallsTo(calls[..|calls| - 1], id) + if calls[|calls| - 1].id == id then [calls[|calls| - 1]] else []
  }

  // Calls that lead from one value to another: each takes up where the one before ended, and none is called without a
  // change.
  ghost predicate Chain<V>(calls: seq<Call<V>>, start: V, end: V, eq: (V, V) -> bool) {
    if calls == [] then
      start == end
    else
      var c := calls[|calls| - 1];
      c.to == end && !eq(c.to, c.from) && Chain(calls[..|calls| - 1], start, c.from, eq)
  }

  // What listener l has seen since it was added.
  function Seen<V>(x: Var<V>, l: Listener<V>): seq<Call<V>>
    requires l.since <= |x.calls|
  {
    CallsTo(x.calls[l.since..], l.id)
  }

  ghost predicate ListenerOk<V>(x: Var<V>, l: Listener<V>, eq: (V, V) -> bool) {
    && l.since <= |x.calls| && Chain(Seen(x, l), l.start, x.val, eq)
    && forall i :: 0 <= i < |Seen(x, l)| ==> Seen(x, l)[i].cb == l.cb
  }

  ghost predicate VarOk<V>(x: Var<V>, eq: (V, V) -> bool) {
    Ordered(x.cbs) && forall l :: l in x.cbs ==> ListenerOk(x, l, eq)
  }

  lemma HeadLeast<V>(cbs: seq<Listener<V>>, l: Listener<V>)
    requires Ordered(cbs) && cbs != [] && l in cbs[1..]
    ensures cbs[0].id < l.id
  {
    var i :| 0 <= i < |cbs[1..]| && cbs[1..][i] == l;
    assert cbs[i + 1] == l;
  }

  lemma {:induction false} PutMember<V>(cbs: seq<Listener<V>>, l: Listener<V>, k: Listener<V>)
    requires Ordered(cbs)
    ensures k in Put(cbs, l) <==> k == l || (k in cbs && k.id != l.id)
  {
    if cbs != [] {
      assert cbs == [cbs[0]] + cbs[1..];
      assert k in cbs <==> k == cbs[0] || k in cbs[1..];
      if k in cbs[1..] {
        HeadLeast(cbs, k);
      }
      PutMember(cbs[1..], l, k);
    }
  }

  lemma {:induction false} PutOrdered<V>(cbs: seq<Listener<V>>, l: Listener<V>)
    requires Ordered(cbs)
    ensures Ordered(Put(cbs, l))
  {
    if cbs != [] && l.id > cbs[0].id {
      PutOrdered(cbs[1..], l);
      var r := Put(cbs[1..], l);
      forall j | 0 <= j < |r| ensures cbs[0].id < r[j].id {
        PutMember(cbs[1..], l, r[j]);
        if r[j] != l {
          HeadLeast(cbs, r[j]);
        }
      }
    }
  }

  lemma {:induction false} EraseMember<V>(cbs: seq<Listener<V>>, id: nat, k: Listener<V>)
    requires Ordered(cbs)
    ensures k in Erase(cbs, id) <==> k in cbs && k.id != id
  {
    if cbs != [] {
      assert cbs == [cbs[0]] + cbs[1..];
      assert k in cbs <==> k == cbs[0] || k in cbs[1..];
      if k in cbs[1..] {
        HeadLeast(cbs, k);
      }
      EraseMember(cbs[1..], id, k);
    }
  }

  lemma {:induction false} EraseOrdered<V>(cbs: seq<Listener<V>>, id: nat)
    requires Ordered(cbs)
    ensures Ordered(Erase(cbs, id))
  {
    if cbs != [] && cbs[0].id != id {
      EraseOrdered(cbs[1..], id);
      var r := Erase(cbs[1..], id);
      forall j | 0 <= j < |r| ensures cbs[0].id < r[j].id {
        EraseMember(cbs[1..], id, r[j]);
        HeadLeast(cbs, r[j]);
      }
    }
  }

  lemma {:induction false} CallsToConcat<V>(a: seq<Call<V>>, b: seq<Call<V>>, id: nat)
    ensures CallsTo(a + b, id) == CallsTo(a, id) + CallsTo(b, id)
  {
    if b == [] {
      assert a + b == a;
    } else {
      assert (a + b)[..|a + b| - 1] == a + b[..|b| - 1];
      CallsToConcat(a, b[..|b| - 1], id);
    }
  }

  // One round of notifications calls every listener once.
  lemma {:induction false} NotifiedOnce<V>(cbs: seq<Listener<V>>, k: nat, from: V, to: V)
    requires Ordered(cbs) && k < |cbs|
    ensures CallsTo(Notified(cbs, from, to), cbs[k].id) == [Call(cbs[k].id, cbs[k].cb, from, to)]
  {
    var front := cbs[..|cbs| - 1];
    assert Notified(cbs, from, to)[..|Notified(cbs, from, to)| - 1] == Notified(front, from, to);
    if k < |cbs| - 1 {
      NotifiedOnce(front, k, from, to);
    } else {
      NotifiedOthers(front, cbs[k].id, from, to);
    }
  }

  lemma {:induction false} NotifiedOthers<V>(cbs: seq<Listener<V>>, id: nat, from: V, to: V)
    requires forall i :: 0 <= i < |cbs| ==> cbs[i].id != id
    ensures CallsTo(Notified(cbs, from, to), id) == []
  {
    if cbs != [] {
      var front := cbs[..|cbs| - 1];
      assert Notified(cbs, from, to)[..|Notified(cbs, from, to)| - 1] == Notified(front, from, to);
      NotifiedOthers(front, id, from, to);
    }
  }

  // The calls of one round come in the order of the ids, one for each listener.
  lemma {:induction false} NotifiedInOrder<V>(cbs: seq<Listener<V>>, from: V, to: V)
    ensures |Notified(cbs, from, to)| == |cbs|
    ensures forall i :: 0 <= i < |cbs| ==> Notified(cbs, from, to)[i] == Call(cbs[i].id, cbs[i].cb, from, to)
  {
    if cbs != [] {
      NotifiedInOrder(cbs[..|cbs| - 1], from, to);
    }
  }

  // A change shows to a listener as one more call.
  lemma SetSeen<V>(x: Var<V>, eq: (V, V) -> bool, v: V, k: nat)
    requires Ordered(x.cbs) && k < |x.cbs| && !eq(v, x.val) && x.cbs[k].since <= |x.calls|
    ensures var l := x.cbs[k];
      l.since <= |Set(x, eq, v).calls| && Seen(Set(x, eq, v), l) == Seen(x, l) + [Call(l.id, l.cb, x.val, v)]
  {
    var l, more := x.cbs[k], Notified(x.cbs, x.val, v);
    assert (x.calls + more)[l.since..] == x.calls[l.since..] + more;
    CallsToConcat(x.calls[l.since..], more, l.id);
    NotifiedOnce(x.cbs, k, x.val, v);
  }

  lemma SetListenerOk<V>(x: Var<V>, eq: (V, V) -> bool, v: V, k: nat)
    requires VarOk(x, eq) && k < |x.cbs| && !eq(v, x.val)
    ensures ListenerOk(Set(x, eq, v), x.cbs[k], eq)
  {
    var l, y := x.cbs[k], Set(x, eq, v);
    assert ListenerOk(x, l, eq);
    SetSeen(x, eq, v, k);
    hide Seen;
    var c := Call(l.id, l.cb, x.val, v);
    assert (Seen(x, l) + [c])[..|Seen(x, l)|] == Seen(x, l);
  }

  // Removing listeners, or anything else that leaves the value and the calls alone.
  lemma FewerOk<V>(x: Var<V>, y: Var<V>, eq: (V, V) -> bool)
    requires VarOk(x, eq) && y.val == x.val && y.calls == x.calls && Ordered(y.cbs)
    requires forall l :: l in y.cbs ==> l in x.cbs || (l.since == |x.calls| && l.start == x.val)
    ensures VarOk(y, eq)
  {
    forall l | l in y.cbs ensures ListenerOk(y, l, eq) {
      if l in x.cbs {
        assert ListenerOk(x, l, eq);
      } else {
        assert y.calls[l.since..] == [];
      }
    }
  }

  lemma DoOk<V>(x: Var<V>, eq: (V, V) -> bool, parse: string -> Option<V>, op: Op<V>)
    requires VarOk(x, eq)
    ensures VarOk(Do(x, eq, parse, op), eq)
  {
    match op
    case SetTo(v) => SetOk(x, eq, v);
    case FromText(text) => if parse(text).Some? { SetOk(x, eq, parse(text).value); }
    case Add(cb) =>
      var l := Listener(NextId(x.lastId), cb, |x.calls|, x.val);
      PutOrdered(x.cbs, l);
      forall k | k in Put(x.cbs, l) ensures k == l || k in x.cbs {
        PutMember(x.cbs, l, k);
      }
      FewerOk(x, Do(x, eq, parse, op), eq);
    case Delete(id) =>
      EraseOrdered(x.cbs, id);
      forall k | k in Erase(x.cbs, id) ensures k in x.cbs {
        EraseMember(x.cbs, id, k);
      }
      FewerOk(x, Do(x, eq, parse, op), eq);
    case Clear =>
    case AddElsewhere =>
      FewerOk(x, Do(x, eq, parse, op), eq);
  }

  lemma SetOk<V>(x: Var<V>, eq: (V, V) -> bool, v: V)
    requires VarOk(x, eq)
    ensures VarOk(Set(x, eq, v), eq)
  {
    if !eq(v, x.val) {
      forall l | l in x.cbs ensures ListenerOk(Set(x, eq, v), l, eq) {
        var k :| 0 <= k < |x.cbs| && x.cbs[k] == l;
        SetListenerOk(x, eq, v, k);
      }
    }
  }

  // After every run of sets, parses, additions and removals, each live listener has seen a chain of changes that starts
  // at the value the variable had when the listener was added and ends at the present value.
  lemma {:induction false} ListenerChains<V>(x: Var<V>, eq: (V, V) -> bool, parse: string -> Option<V>,
                                             run: seq<Op<V>>)
    requires VarOk(x, eq)
    ensures VarOk(DoAll(x, eq, parse, run), eq)
    decreases run
  {
    if run != [] {
      DoOk(x, eq, parse, run[0]);
      ListenerChains(Do(x, eq, parse, run[0]), eq, parse, run[1..]);
    }
  }

  // -------------------------------------------------------------------------------------------
  // Which function is registered under which id.

  // The registrations after a run, by id, when `last` was the counter at its start.
  function Book<V>(book: map<nat, Callback>, last: nat, run: seq<Op<V>>): map<nat, Callback>
    decreases run
  {
    if run == [] then
      book
    else
      var next := (last + 1) % 0x1_0000_0000_0000_0000;
      match run[0]
      case Add(cb) => Book(book[next := cb], next, run[1..])
      case AddElsewhere => Book(book, next, run[1..])
      case Delete(id) => Book(book - {id}, last, run[1..])
      case Clear => Book(map[], last, run[1..])
      case _ => Book(book, last, run[1..])
  }

  function Entered(book: map<nat, Callback>, id: nat): Option<Callback> {
    if id in book then Some(book[id]) else None
  }

  ghost predicate BookOk<V>(cbs: seq<Listener<V>>, book: map<nat, Callback>) {
    Ordered(cbs) && forall id :: Find(cbs, id) == Entered(book, id)
  }

  lemma DoBooked<V>(x: Var<V>, eq: (V, V) -> bool, parse: string -> Option<V>, op: Op<V>, book: map<nat, Callback>)
    requires BookOk(x.cbs, book)
    ensures var y := Do(x, eq, parse, op);
      BookOk(y.cbs, Book(book, x.lastId, [op])) &&
      y.lastId == if op.Add? || op.AddElsewhere? then (x.lastId + 1) % 0x1_0000_0000_0000_0000 else x.lastId
  {
    assert [op][1..] == [];
    match op
    case Add(cb) =>
      PutOrdered(x.cbs, Listener(NextId(x.lastId), cb, |x.calls|, x.val));
      AddedFinds(x, cb);
    case Delete(id) =>
      EraseOrdered(x.cbs, id);
      forall i ensures Find(Erase(x.cbs, id), i) == Entered(book - {id}, i) {
        FindErase(x.cbs, id, i);
      }
    case _ =>
  }

  lemma BookOne<V>(book: map<nat, Callback>, last: nat, run: seq<Op<V>>)
    requires run != []
    ensures var op := run[0];
      var next := if op.Add? || op.AddElsewhere? then (last + 1) % 0x1_0000_0000_0000_0000 else last;
      Book(book, last, run) == Book(Book(book, last, [op]), next, run[1..])
  {
    assert [run[0]][1..] == [];
  }

  // After every run getListener finds under each id the function whose addition got this id last, unless it has been
  // removed since.
  lemma {:induction false} RegisteredExactly<V>(x: Var<V>, eq: (V, V) -> bool, parse: string -> Option<V>,
                                                run: seq<Op<V>>, book: map<nat, Callback>)
    requires BookOk(x.cbs, book)
    ensures BookOk(DoAll(x, eq, parse, run).cbs, Book(book, x.lastId, run))
    decreases run
  {
    if run != [] {
      DoBooked(x, eq, parse, run[0], book);
      BookOne(book, x.lastId, run);
      RegisteredExactly(Do(x, eq, parse, run[0]), eq, parse, run[1..], Book(book, x.lastId, [run[0]]));
    }
  }

  lemma {:induction false} FindAt<V>(cbs: seq<Listener<V>>, id: nat)
    ensures if Find(cbs, id).Some? then
              exists k :: 0 <= k < |cbs| && cbs[k].id == id && cbs[k].cb == Find(cbs, id).value
            else
              forall k :: 0 <= k < |cbs| ==> cbs[k].id != id
  {
    if cbs != [] && cbs[0].id != id {
      FindAt(cbs[1..], id);
      if Find(cbs[1..], id).Some? {
        var k :| 0 <= k < |cbs[1..]| && cbs[1..][k].id == id && cbs[1..][k].cb == Find(cbs[1..], id).value;
        assert cbs[k + 1] == cbs[1..][k];
      }
    }
  }

  // The next change of the value calls exactly these functions, each once, with the value it leaves and the new one.
  lemma ChangeCallsRegistered<V>(x: Var<V>, eq: (V, V) -> bool, parse: string -> Option<V>, run: seq<Op<V>>, v: V,
                                 id: nat)
    requires x.cbs == [] && !eq(v, DoAll(x, eq, parse, run).val)
    ensures var y := DoAll(x, eq, parse, run); var z := Do(y, eq, parse, SetTo(v));
      var book := Book(map[], x.lastId, run);
      && z.val == v && |z.calls| == |y.calls| + |y.cbs| && z.calls[..|y.calls|] == y.calls
      && CallsTo(z.calls[|y.calls|..], id) == if id in book then [Call(id, book[id], y.val, v)] else []
  {
    var y, book := DoAll(x, eq, parse, run), Book(map[], x.lastId, run);
    RegisteredExactly(x, eq, parse, run, map[]);
    FindAt(y.cbs, id);
    NotifiedInOrder(y.cbs, y.val, v);
    var more := Notified(y.cbs, y.val, v);
    assert (y.calls + more)[|y.calls|..] == more;
    assert Find(y.cbs, id) == Entered(book, id);
    if id in book {
      var k :| 0 <= k < |y.cbs| && y.cbs[k].id == id && y.cbs[k].cb == book[id];
      NotifiedOnce(y.cbs, k, y.val, v);
    } else {
      NotifiedOthers(y.cbs, id, y.val, v);
    }
  }

  predicate Adds<V>(op: Op<V>) {
    op.Add? || op.AddElsewhere?
  }

  function AddCount<V>(run: seq<Op<V>>): nat {
    if run == [] then 0 else (if Adds(run[0]) then 1 else 0) + AddCount(run[1..])
  }

  lemma OneMore(last: nat, n: nat)
    ensures ((last + 1) % ID_COUNT + n) % ID_COUNT == (last + (1 + n)) % ID_COUNT
  {
    var q := (last + 1) / ID_COUNT;
    var r := (last + 1) % ID_COUNT + n;
    Remainder(last + 1 + n, q + r / ID_COUNT, r % ID_COUNT);
  }

  lemma {:induction false} IdAfter<V>(x: Var<V>, eq: (V, V) -> bool, parse: string -> Option<V>, run: seq<Op<V>>)
    requires x.lastId < ID_COUNT
    ensures DoAll(x, eq, parse, run).lastId == (x.lastId + AddCount(run)) % ID_COUNT
    decreases run
  {
    if run != [] {
      var y := Do(x, eq, parse, run[0]);
      assert y.lastId == if Adds(run[0]) then (x.lastId + 1) % ID_COUNT else x.lastId;
      hide Do;
      IdAfter(y, eq, parse, run[1..]);
      OneMore(x.lastId, AddCount(run[1..]));
    }
  }

  // Two additions get the same id exactly if a positive multiple of 2^64 additions lies between them: no id is reused
  // before all others have been.
  lemma IdsReusedAfterWrap<V>(x: Var<V>, eq: (V, V) -> bool, parse: string -> Option<V>, cb: Callback,
                              run: seq<Op<V>>, cb2: Callback)
    requires x.lastId < ID_COUNT
    ensures var y := Added(x, cb); var z := Added(DoAll(y, eq, parse, run), cb2);
      z.lastId == y.lastId <==> (AddCount(run) + 1) % 0x1_0000_0000_0000_0000 == 0
  {
    var y := Added(x, cb);
    hide NextId;
    IdAfter(y, eq, parse, run);
    Wraps(y.lastId, AddCount(run));
  }

  lemma Remainder(x: int, q: int, r: nat)
    requires x == q * ID_COUNT + r && r < ID_COUNT
    ensures x % ID_COUNT == r
  {
  }

  lemma Wraps(id: nat, n: nat)
    requires id < ID_COUNT
    ensures NextId((id + n) % ID_COUNT) == id <==> (n + 1) % ID_COUNT == 0
  {
    var q, r := (id + n) / ID_COUNT, (id + n) % ID_COUNT;
    var next := if r + 1 == ID_COUNT then 0 else r + 1;
    var p := if r + 1 == ID_COUNT then q + 1 else q;
    Remainder(r + 1, p - q, next);
    assert id + n + 1 == p * ID_COUNT + next;
    if next >= id {
      Remainder(n + 1, p, next - id);
    } else {
      Remainder(n + 1, p - 1, ID_COUNT + next - id);
    }
  }
}
