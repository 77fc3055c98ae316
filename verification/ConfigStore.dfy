// The registry of configuration variables and loading a YAML tree into it.
module ConfigStore {
  import opened Options
  import opened ConfigTree
  import opened ConfigVars

  // A registered variable with operator== and FromStr of its type.
  datatype Typed<!V> = Typed(x: Var<V>, eq: (V, V) -> bool, parse: string -> Option<V>)

  // The text handed to fromString; `dump` is how yaml-cpp prints a node.
  function Text(node: Node, dump: Node -> string): string {
    if node.Scalar? then node.text else dump(node)
  }

  // -------------------------------------------------------------------------------------------
  // What loading does.

  function LoadNode<V>(s: map<string, Typed<V>>, n: Named, dump: Node -> string): map<string, Typed<V>> {
    var key := ToLower(n.path);
    if n.path == "" || key !in s then
      s
    else
      s[key := s[key].(x := Parsed(s[key].x, s[key].eq, s[key].parse(Text(n.node, dump))))]
  }

  function LoadList<V>(s: map<string, Typed<V>>, nodes: seq<Named>, dump: Node -> string): map<string, Typed<V>> {
    if nodes == [] then s else LoadNode(LoadList(s, nodes[..|nodes| - 1], dump), nodes[|nodes| - 1], dump)
  }

  // The values that the nodes named k parse to, in order.
  function Writes<V>(nodes: seq<Named>, k: string, parse: string -> Option<V>, dump: Node -> string): seq<V> {
    if nodes == [] then
      []
    else
      var n := nodes[|nodes| - 1];
      Writes(nodes[..|nodes| - 1], k, parse, dump) +
      if n.path == k && parse(Text(n.node, dump)).Some? then [parse(Text(n.node, dump)).value] else []
  }

  function SetAll<V>(x: Var<V>, eq: (V, V) -> bool, ws: seq<V>): Var<V> {
    if ws == [] then x else Set(SetAll(x, eq, ws[..|ws| - 1]), eq, ws[|ws| - 1])
  }

  // -------------------------------------------------------------------------------------------

  lemma LowerValid(s: string)
    requires ValidName(s)
    ensures ToLower(s) == s
  {
    assert forall i :: 0 <= i < |s| ==> NameChar(s[i]);
  }

  ghost predicate AllNamesValid(nodes: seq<Named>) {
    forall i :: 0 <= i < |nodes| ==> ValidName(nodes[i].path)
  }

  lemma {:induction false} LoadKeepsKeys<V>(s: map<string, Typed<V>>, nodes: seq<Named>, dump: Node -> string)
    ensures LoadList(s, nodes, dump).Keys == s.Keys
  {
    if nodes != [] {
      LoadKeepsKeys(s, nodes[..|nodes| - 1], dump);
    }
  }

  // One more node: its value is set if it is named k and parses.
  lemma WritesSnoc<V>(x: Var<V>, eq: (V, V) -> bool, parse: string -> Option<V>, nodes: seq<Named>, k: string,
                      dump: Node -> string)
    requires nodes != []
    ensures var before := SetAll(x, eq, Writes(nodes[..|nodes| - 1], k, parse, dump));
      SetAll(x, eq, Writes(nodes, k, parse, dump)) ==
      if nodes[|nodes| - 1].path == k then
        Parsed(before, eq, parse(Text(nodes[|nodes| - 1].node, dump)))
      else
        before
  {
    var ws := Writes(nodes[..|nodes| - 1], k, parse, dump);
    var n := nodes[|nodes| - 1];
    if n.path == k && parse(Text(n.node, dump)).Some? {
      assert (ws + [parse(Text(n.node, dump)).value])[..|ws|] == ws;
    } else {
      assert ws + [] == ws;
    }
  }

  lemma LoadNone<V>(s: map<string, Typed<V>>, nodes: seq<Named>, dump: Node -> string)
    ensures LoadList(s, nodes[..0], dump) == s
  {
  }

  lemma LoadSnoc<V>(s: map<string, Typed<V>>, nodes: seq<Named>, i: nat, dump: Node -> string)
    requires i < |nodes|
    ensures LoadList(s, nodes[..i + 1], dump) == LoadNode(LoadList(s, nodes[..i], dump), nodes[i], dump)
  {
    assert nodes[..i + 1][..i] == nodes[..i];
  }

  // For a variable named k, loading is setting the values listed for k one after the other. A variable without a name
  // is never loaded.
  lemma {:induction false} LoadIsSetting<V>(s: map<string, Typed<V>>, nodes: seq<Named>, k: string,
                                            dump: Node -> string)
    requires AllNamesValid(nodes) && k in s
    ensures LoadList(s, nodes, dump).Keys == s.Keys
    ensures LoadList(s, nodes, dump)[k] ==
            if k == "" then s[k] else s[k].(x := SetAll(s[k].x, s[k].eq, Writes(nodes, k, s[k].parse, dump)))
  {
    LoadKeepsKeys(s, nodes, dump);
    if nodes != [] {
      var front, n := nodes[..|nodes| - 1], nodes[|nodes| - 1];
      LoadKeepsKeys(s, front, dump);
      LoadIsSetting(s, front, k, dump);
      LowerValid(n.path);
      WritesSnoc(s[k].x, s[k].eq, s[k].parse, nodes, k, dump);
    }
  }

  // `val` is what remains of writing v last: v itself, or a value that v equals in the sense of its type.
  predicate Holds<V(==)>(val: V, v: V, eq: (V, V) -> bool) {
    val == v || eq(v, val)
  }

  // The variable ends up with the last value set; without any it is as before.
  lemma LastSetWins<V>(x: Var<V>, eq: (V, V) -> bool, ws: seq<V>)
    ensures ws == [] ==> SetAll(x, eq, ws) == x
    ensures ws != [] ==> Holds(SetAll(x, eq, ws).val, ws[|ws| - 1], eq)
    ensures SetAll(x, eq, ws).lastId == x.lastId
  {
    SameListeners(x, eq, ws);
  }

  lemma {:induction false} SameListeners<V>(x: Var<V>, eq: (V, V) -> bool, ws: seq<V>)
    ensures SetAll(x, eq, ws).cbs == x.cbs && SetAll(x, eq, ws).lastId == x.lastId
    ensures |SetAll(x, eq, ws).calls| >= |x.calls|
  {
    if ws != [] {
      SameListeners(x, eq, ws[..|ws| - 1]);
    }
  }

  // What operator== of a type has to be; it need not be identity.
  ghost predicate Equivalence<V(!new)>(eq: (V, V) -> bool) {
    && (forall a :: eq(a, a))
    && (forall a, b :: eq(a, b) ==> eq(b, a))
    && (forall a, b, c :: eq(a, b) && eq(b, c) ==> eq(a, c))
  }

  lemma {:induction false} NothingToSet<V>(y: Var<V>, eq: (V, V) -> bool, ws: seq<V>)
    requires forall i :: 0 <= i < |ws| ==> eq(ws[i], y.val)
    ensures SetAll(y, eq, ws) == y
  {
    if ws != [] {
      NothingToSet(y, eq, ws[..|ws| - 1]);
    }
  }

  lemma {:induction false} SilentOnlyIfEqual<V>(y: Var<V>, eq: (V, V) -> bool, ws: seq<V>)
    requires y.cbs != [] && |SetAll(y, eq, ws).calls| == |y.calls|
    ensures SetAll(y, eq, ws) == y && forall i :: 0 <= i < |ws| ==> eq(ws[i], y.val)
  {
    if ws != [] {
      var front := ws[..|ws| - 1];
      SameListeners(y, eq, front);
      NotifiedInOrder(y.cbs, SetAll(y, eq, front).val, ws[|ws| - 1]);
      SilentOnlyIfEqual(y, eq, front);
    }
  }

  // The values are all equal in the sense of their type.
  ghost predicate AllEq<V>(ws: seq<V>, eq: (V, V) -> bool) {
    forall i, j :: 0 <= i < |ws| && 0 <= j < |ws| ==> eq(ws[i], ws[j])
  }

  lemma AllEqFront<V(!new)>(ws: seq<V>, eq: (V, V) -> bool)
    requires Equivalence(eq) && ws != [] && AllEq(ws[..|ws| - 1], eq) && |ws| > 1
    requires eq(ws[|ws| - 1], ws[|ws| - 2])
    ensures AllEq(ws, eq)
  {
    var front, v := ws[..|ws| - 1], ws[|ws| - 1];
    forall i | 0 <= i < |ws| ensures eq(ws[i], v) && eq(v, ws[i]) {
      if i < |front| {
        assert eq(front[i], front[|front| - 1]);
      }
    }
  }

  // If the values are not all equal, some write goes through whatever the variable held, so its value at the end does
  // not depend on its value at the start.
  lemma {:induction false} EndIndependent<V(!new)>(x: Var<V>, y: Var<V>, eq: (V, V) -> bool, ws: seq<V>)
    requires Equivalence(eq) && !AllEq(ws, eq)
    ensures SetAll(x, eq, ws).val == SetAll(y, eq, ws).val
  {
    var front, v := ws[..|ws| - 1], ws[|ws| - 1];
    if AllEq(front, eq) {
      assert front != [];
      var last := front[|front| - 1];
      if eq(v, last) {
        AllEqFront(ws, eq);
      }
      LastSetWins(x, eq, front);
      LastSetWins(y, eq, front);
      hide SetAll;
      Overwrites(SetAll(x, eq, front), eq, last, v);
      Overwrites(SetAll(y, eq, front), eq, last, v);
      SetAllSnoc(x, eq, ws);
      SetAllSnoc(y, eq, ws);
    } else {
      EndIndependent(x, y, eq, front);
    }
  }

  lemma SetAllSnoc<V>(x: Var<V>, eq: (V, V) -> bool, ws: seq<V>)
    requires ws != []
    ensures SetAll(x, eq, ws) == Set(SetAll(x, eq, ws[..|ws| - 1]), eq, ws[|ws| - 1])
  {
  }

  // A variable that holds `last` takes a value that differs from it.
  lemma Overwrites<V(!new)>(x: Var<V>, eq: (V, V) -> bool, last: V, v: V)
    requires Equivalence(eq) && Holds(x.val, last, eq) && !eq(v, last)
    ensures Set(x, eq, v).val == v
  {
    assert eq(last, x.val);
    assert eq(x.val, last);
  }

  // Once equal values have been set, the variable holds one that equals them all.
  lemma {:induction false} EqualAfter<V(!new)>(x: Var<V>, eq: (V, V) -> bool, ws: seq<V>)
    requires Equivalence(eq) && AllEq(ws, eq)
    ensures forall i :: 0 <= i < |ws| ==> eq(ws[i], SetAll(x, eq, ws).val)
  {
    if ws != [] {
      var v := ws[|ws| - 1];
      LastSetWins(x, eq, ws);
      forall i | 0 <= i < |ws| ensures eq(ws[i], SetAll(x, eq, ws).val) {
        assert eq(ws[i], v);
      }
    }
  }

  // Setting the same values a second time leaves the value, and calls a listener exactly if they are not all equal.
  lemma SettingAgain<V(!new)>(x: Var<V>, eq: (V, V) -> bool, ws: seq<V>)
    requires Equivalence(eq)
    ensures var y := SetAll(x, eq, ws);
      && SetAll(y, eq, ws).val == y.val
      && (AllEq(ws, eq) ==> SetAll(y, eq, ws) == y)
      && (x.cbs != [] && SetAll(y, eq, ws).calls == y.calls ==> AllEq(ws, eq))
  {
    var y := SetAll(x, eq, ws);
    SameListeners(x, eq, ws);
    if AllEq(ws, eq) {
      EqualAfter(x, eq, ws);
      NothingToSet(y, eq, ws);
    } else {
      EndIndependent(x, y, eq, ws);
      if x.cbs != [] && SetAll(y, eq, ws).calls == y.calls {
        SilentOnlyIfEqual(y, eq, ws);
        AllEqualTo(ws, eq, y.val);
      }
    }
  }

  lemma AllEqualTo<V(!new)>(ws: seq<V>, eq: (V, V) -> bool, v: V)
    requires Equivalence(eq) && forall i :: 0 <= i < |ws| ==> eq(ws[i], v)
    ensures AllEq(ws, eq)
  {
    forall i, j | 0 <= i < |ws| && 0 <= j < |ws| ensures eq(ws[i], ws[j]) {
      assert eq(ws[i], v) && eq(v, ws[j]);
    }
  }

  // One value set twice: enough that a value equals itself.
  lemma SettingOneAgain<V>(x: Var<V>, eq: (V, V) -> bool, v: V)
    requires eq(v, v)
    ensures SetAll(SetAll(x, eq, [v]), eq, [v]) == SetAll(x, eq, [v])
  {
    assert [v][..0] == [];
  }

  lemma {:induction false} DistinctWriteOnce<V>(nodes: seq<Named>, k: string, parse: string -> Option<V>,
                                                dump: Node -> string)
    requires forall i, j :: 0 <= i < j < |nodes| ==> nodes[i].path != nodes[j].path
    ensures |Writes(nodes, k, parse, dump)| <= 1
    ensures (forall i :: 0 <= i < |nodes| ==> nodes[i].path != k) ==> Writes(nodes, k, parse, dump) == []
  {
    if nodes != [] {
      DistinctWriteOnce(nodes[..|nodes| - 1], k, parse, dump);
    }
  }

  // -------------------------------------------------------------------------------------------
  // LoadFromYaml.

  function LoadTree<V>(s: map<string, Typed<V>>, root: Node, dump: Node -> string): map<string, Typed<V>> {
    LoadList(s, Listed("", root), dump)
  }

  lemma LoadTreeIs<V>(s: map<string, Typed<V>>, root: Node, dump: Node -> string)
    ensures LoadTree(s, root, dump) == LoadList(s, Listed("", root), dump)
  {
  }

  // After loading, the variable k holds the value of the last node named k that parses. Without such a node it is as
  // before, its listeners not called. No variable is registered or removed.
  lemma LastWriterWins<V>(s: map<string, Typed<V>>, root: Node, k: string, dump: Node -> string)
    requires k in s
    ensures LoadTree(s, root, dump).Keys == s.Keys
    ensures var t := LoadTree(s, root, dump)[k]; var ws := Writes(Listed("", root), k, s[k].parse, dump);
      && t.eq == s[k].eq && t.parse == s[k].parse && t.x.cbs == s[k].x.cbs && t.x.lastId == s[k].x.lastId
      && (k == "" || ws == [] ==> t == s[k])
      && (k != "" && ws != [] ==> Holds(t.x.val, ws[|ws| - 1], s[k].eq))
  {
    ListedAreValid(root);
    LoadIsSetting(s, Listed("", root), k, dump);
    var ws := Writes(Listed("", root), k, s[k].parse, dump);
    LastSetWins(s[k].x, s[k].eq, ws);
    SameListeners(s[k].x, s[k].eq, ws);
  }

  lemma {:induction false} WritesMember<V>(nodes: seq<Named>, k: string, parse: string -> Option<V>,
                                           dump: Node -> string, v: V)
    ensures v in Writes(nodes, k, parse, dump) <==> exists n :: Named(k, n) in nodes && WritesValue(n, parse, dump, v)
  {
    if nodes != [] {
      var front, last := nodes[..|nodes| - 1], nodes[|nodes| - 1];
      WritesMember(front, k, parse, dump, v);
      assert nodes == front + [last];
      if last.path == k && WritesValue(last.node, parse, dump, v) {
        assert last == Named(k, last.node);
      }
    }
  }

  // The node gives the value: a scalar by its text, any other node by what is printed for it.
  ghost predicate WritesValue<V>(n: Node, parse: string -> Option<V>, dump: Node -> string, v: V) {
    if n.Scalar? then parse(n.text) == Some(v) else parse(dump(n)) == Some(v)
  }

  // Which values loading sets: those of the nodes that keys with dots between them lead to.
  lemma WritesExactly<V>(root: Node, k: string, parse: string -> Option<V>, dump: Node -> string, v: V)
    ensures v in Writes(Listed("", root), k, parse, dump) <==>
      ValidName(k) && exists keys, n :: At(root, keys, n) && k == Dotted(keys) && WritesValue(n, parse, dump, v)
  {
    WritesMember(Listed("", root), k, parse, dump, v);
    if v in Writes(Listed("", root), k, parse, dump) {
      var n :| Named(k, n) in Listed("", root) && WritesValue(n, parse, dump, v);
      ListedExactly(root, k, n);
      var keys :| At(root, keys, n) && k == Dotted(keys);
    }
    if keys, n :| ValidName(k) && At(root, keys, n) && k == Dotted(keys) && WritesValue(n, parse, dump, v) {
      ListedAt(root, keys, n);
    }
  }

  // Only nodes with the value n are named k.
  ghost predicate OnlyNode(root: Node, k: string, n: Node) {
    forall keys, n' :: At(root, keys, n') && k == Dotted(keys) ==> n' == n
  }

  // So a variable whose name the keys spell gets the value of the node they lead to, if no other node has that name.
  lemma LoadedByPath<V>(s: map<string, Typed<V>>, root: Node, k: string, keys: seq<string>, n: Node, v: V,
                        dump: Node -> string)
    requires k in s && k != "" && ValidName(k) && At(root, keys, n) && k == Dotted(keys) && OnlyNode(root, k, n)
    requires WritesValue(n, s[k].parse, dump, v)
    ensures k in LoadTree(s, root, dump) && Holds(LoadTree(s, root, dump)[k].x.val, v, s[k].eq)
  {
    LastWriterWins(s, root, k, dump);
    ValueWritten(root, keys, n, s[k].parse, dump, v);
    hide *;
    var ws := Writes(Listed("", root), k, s[k].parse, dump);
    LastIsOnly(root, k, n, s[k].parse, dump, v, ws[|ws| - 1]);
  }

  lemma ValueWritten<V>(root: Node, keys: seq<string>, n: Node, parse: string -> Option<V>, dump: Node -> string, v: V)
    requires ValidName(Dotted(keys)) && At(root, keys, n) && WritesValue(n, parse, dump, v)
    ensures v in Writes(Listed("", root), Dotted(keys), parse, dump)
  {
    ListedAt(root, keys, n);
    WritesMember(Listed("", root), Dotted(keys), parse, dump, v);
  }

  lemma LastIsOnly<V>(root: Node, k: string, n: Node, parse: string -> Option<V>, dump: Node -> string, v: V, last: V)
    requires OnlyNode(root, k, n) && WritesValue(n, parse, dump, v)
    requires last in Writes(Listed("", root), k, parse, dump)
    ensures last == v
  {
    WritesExactly(root, k, parse, dump, last);
    hide Listed;
    hide Writes;
    hide Dotted;
    hide ValidName;
    var keys, n' :| At(root, keys, n') && k == Dotted(keys) && WritesValue(n', parse, dump, last);
    hide At;
  }

  // A variable that no node of its name gives a value is left as it was.
  lemma UnnamedUntouched<V>(s: map<string, Typed<V>>, root: Node, k: string, dump: Node -> string)
    requires k in s
    requires forall keys, n :: At(root, keys, n) && k == Dotted(keys) ==>
      s[k].parse(if n.Scalar? then n.text else dump(n)) == None
    ensures k in LoadTree(s, root, dump) && LoadTree(s, root, dump)[k] == s[k]
  {
    LastWriterWins(s, root, k, dump);
    var ws := Writes(Listed("", root), k, s[k].parse, dump);
    if ws != [] {
      WritesExactly(root, k, s[k].parse, dump, ws[0]);
    }
  }

  // Loading the same tree again leaves every value as it is. A listener hears of it exactly if the tree gives the
  // variable values that are not all equal in the sense of its type.
  lemma Reload<V(!new)>(s: map<string, Typed<V>>, root: Node, k: string, dump: Node -> string)
    requires k in s && k != "" && Equivalence(s[k].eq)
    ensures var once := LoadTree(s, root, dump); var twice := LoadTree(once, root, dump);
      var ws := Writes(Listed("", root), k, s[k].parse, dump);
      && k in once && k in twice && twice[k].x.val == once[k].x.val
      && (AllEq(ws, s[k].eq) ==> twice[k] == once[k])
      && (s[k].x.cbs != [] && twice[k].x.calls == once[k].x.calls ==> AllEq(ws, s[k].eq))
  {
    hide Listed;
    hide Writes;
    hide SetAll;
    ListedAreValid(root);
    var once := LoadTree(s, root, dump);
    var ws := Writes(Listed("", root), k, s[k].parse, dump);
    LoadIsSetting(s, Listed("", root), k, dump);
    LoadIsSetting(once, Listed("", root), k, dump);
    SettingAgain(s[k].x, s[k].eq, ws);
    SameTyped(once[k]);
  }

  lemma SameTyped<V>(t: Typed<V>)
    ensures t.(x := t.x) == t
  {
  }

  // If every path is listed once, loading again changes nothing at all, even for a type whose == is only reflexive.
  lemma ReloadDistinct<V(!new)>(s: map<string, Typed<V>>, root: Node, dump: Node -> string)
    requires forall i, j :: 0 <= i < j < |Listed("", root)| ==> Listed("", root)[i].path != Listed("", root)[j].path
    requires forall k :: k in s ==> forall v :: s[k].eq(v, v)
    ensures LoadTree(LoadTree(s, root, dump), root, dump) == LoadTree(s, root, dump)
  {
    var nodes := Listed("", root);
    var once := LoadTree(s, root, dump);
    ListedAreValid(root);
    LoadKeepsKeys(s, nodes, dump);
    LoadKeepsKeys(once, nodes, dump);
    forall k | k in s ensures LoadTree(once, root, dump)[k] == once[k] {
      LoadIsSetting(s, nodes, k, dump);
      LoadIsSetting(once, nodes, k, dump);
      var ws := Writes(nodes, k, s[k].parse, dump);
      DistinctWriteOnce(nodes, k, s[k].parse, dump);
      if ws != [] {
        assert ws == [ws[0]];
        SettingOneAgain(s[k].x, s[k].eq, ws[0]);
      }
    }
  }

  // -------------------------------------------------------------------------------------------
  // The registry.

  datatype LookupResult<V> =
    | Found(x: V)
    | OtherType   // the variable exists but was made with another T: nullptr
    | BadName     // std::invalid_argument

  class Config<V> {
    var datas: map<string, ConfigVar<V>>
    const dump: Node -> string

    constructor (dump: Node -> string)
      ensures Valid() && datas == map[] && this.dump == dump
    {
      datas := map[];
      this.dump := dump;
    }

    ghost function Vars(): set<object>
      reads this
    {
      set k | k in datas :: datas[k]
    }

    // Every variable is registered under its own name, and the name is valid.
    ghost predicate Valid()
      reads this
    {
      forall k :: k in datas ==> datas[k].name == k && ValidName(k)
    }

    ghost function Store(): map<string, Typed<V>>
      reads this, Vars(), set k | k in datas :: datas[k].ids
    {
      map k | k in datas :: Typed(datas[k].Snapshot(), datas[k].eq, datas[k].parse)
    }

    method LookupBase(name: string) returns (x: Option<ConfigVar<V>>)
      ensures x == if name in datas then Some(datas[name]) else None
    {
      x := if name in datas then Some(datas[name]) else None;
    }

    // Lookup(name, default): the registered variable if it has the type asked for, otherwise a new one, unless the name
    // is taken or not valid.
    method Lookup(name: string, kind: nat, eq: (V, V) -> bool, parse: string -> Option<V>, ids: IdSource, v: V)
      returns (r: LookupResult<ConfigVar<V>>)
      requires Valid()
      modifies this`datas
      ensures Valid()
      ensures name in old(datas) ==>
        datas == old(datas) && r == if datas[name].kind == kind then Found(datas[name]) else OtherType
      ensures name !in old(datas) && !ValidName(name) ==> datas == old(datas) && r == BadName
      ensures name !in old(datas) && ValidName(name) ==>
        && r.Found? && fresh(r.x) && datas == old(datas)[name := r.x] && r.x.name == name && r.x.kind == kind
        && r.x.eq == eq && r.x.parse == parse && r.x.ids == ids && r.x.Snapshot() == Var(v, [], ids.last, [])
    {
      if name in datas {
        if datas[name].kind == kind {
          return Found(datas[name]);
        }
        return OtherType;
      }
      if !ValidName(name) {
        return BadName;
      }
      LowerValid(name);
      var x := new ConfigVar(name, kind, eq, parse, ids, v);
      datas := datas[name := x];
      r := Found(x);
    }

    method LoadFromYaml(root: Node)
      requires Valid()
      modifies Vars()
      ensures datas == old(datas) && Valid()
      ensures Store() == LoadTree(old(Store()), root, dump)
    {
      ghost var before := Store();
      var nodes := ListAllMember("", root, []);
      assert Store() == before;
      hide *;
      assert [] + Listed("", root) == Listed("", root);
      LoadNone(before, nodes, dump);
      var i := 0;
      while i < |nodes|
        invariant 0 <= i <= |nodes| && datas == old(datas)
        invariant Valid() && Vars() == old(Vars()) && Store() == LoadList(before, nodes[..i], dump)
      {
        LoadSnoc(before, nodes, i, dump);
        LoadOne(nodes[i]);
        i := i + 1;
      }
      assert nodes[..i] == nodes;
      LoadTreeIs(before, root, dump);
    }

    // The body of the loop.
    method LoadOne(n: Named)
      requires Valid()
      modifies Vars()
      ensures datas == old(datas) && Valid() && Vars() == old(Vars())
      ensures Store() == LoadNode(old(Store()), n, dump)
    {
      if n.path == "" {
        return;
      }
      var key := ToLower(n.path);
      var x := LookupBase(key);
      if x.Some? {
        ghost var before := Store();
        var _ := x.value.FromString(Text(n.node, dump));
        assert Store() == LoadNode(before, n, dump);
      }
    }
  }
}
