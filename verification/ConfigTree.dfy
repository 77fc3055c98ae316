// Flattening a YAML tree into the list of its named nodes.
module ConfigTree {
  // A YAML node; the keys of a map are scalars.
  datatype Node = Null | Scalar(text: string) | Sequence(items: seq<Node>) | Map(entries: seq<Entry>)

  datatype Entry = Entry(key: string, value: Node)

  datatype Named = Named(path: string, node: Node)

  // The alphabet of find_first_not_of, which has no 9.
  predicate NameChar(c: char) {
    'a' <= c <= 'z' || '0' <= c <= '8' || c == '.' || c == '_'
  }

  predicate ValidName(s: string) {
    forall i :: 0 <= i < |s| ==> NameChar(s[i])
  }

  function Join(prefix: string, key: string): string {
    if prefix == "" then key else prefix + "." + key
  }

  // What ListAllMember adds to its output.
  function Listed(prefix: string, node: Node): seq<Named>
    decreases node
  {
    if !ValidName(prefix) then
      []
    else
      [Named(prefix, node)] + if node.Map? then ListedEntries(prefix, node.entries) else []
  }

  function ListedEntries(prefix: string, entries: seq<Entry>): seq<Named>
    decreases entries
  {
    if entries == [] then
      []
    else
      ListedEntries(prefix, entries[..|entries| - 1]) + ListedEntry(prefix, entries[|entries| - 1])
  }

  function ListedEntry(prefix: string, e: Entry): seq<Named>
    decreases e
  {
    Listed(Join(prefix, e.key), e.value)
  }

  lemma EntriesSnoc(prefix: string, entries: seq<Entry>, i: nat)
    requires i < |entries|
    ensures ListedEntries(prefix, entries[..i + 1]) ==
            ListedEntries(prefix, entries[..i]) + ListedEntry(prefix, entries[i])
  {
    assert entries[..i + 1][..i] == entries[..i];
  }

  lemma Grown(a: seq<Named>, b: seq<Named>, c: seq<Named>, d: seq<Named>)
    ensures a + (b + c) + d == a + (b + (c + d))
  {
  }

  // ListAllMember
  method ListAllMember(prefix: string, node: Node, output: seq<Named>) returns (out: seq<Named>)
    ensures out == output + Listed(prefix, node)
    decreases node
  {
    out := output;
    if !ValidName(prefix) {
      return;
    }
    out := out + [Named(prefix, node)];
    if node.Map? {
      var i := 0;
      while i < |node.entries|
        invariant 0 <= i <= |node.entries|
        invariant out == output + ([Named(prefix, node)] + ListedEntries(prefix, node.entries[..i]))
      {
        EntriesSnoc(prefix, node.entries, i);
        Grown(output, [Named(prefix, node)], ListedEntries(prefix, node.entries[..i]),
              ListedEntry(prefix, node.entries[i]));
        out := ListAllMember(Join(prefix, node.entries[i].key), node.entries[i].value, out);
        i := i + 1;
      }
      assert node.entries[..i] == node.entries;
    }
  }

  // All nodes of the tree with their paths, a map before its entries, whatever the names.
  function Preorder(prefix: string, node: Node): seq<Named>
    decreases node
  {
    [Named(prefix, node)] + if node.Map? then PreorderEntries(prefix, node.entries) else []
  }

  function PreorderEntries(prefix: string, entries: seq<Entry>): seq<Named>
    decreases entries
  {
    if entries == [] then
      []
    else
      PreorderEntries(prefix, entries[..|entries| - 1]) + PreorderEntry(prefix, entries[|entries| - 1])
  }

  function PreorderEntry(prefix: string, e: Entry): seq<Named>
    decreases e
  {
    Preorder(Join(prefix, e.key), e.value)
  }

  function Valid(nodes: seq<Named>): seq<Named> {
    if nodes == [] then
      []
    else
      Valid(nodes[..|nodes| - 1]) + if ValidName(nodes[|nodes| - 1].path) then [nodes[|nodes| - 1]] else []
  }

  lemma {:induction false} ValidConcat(a: seq<Named>, b: seq<Named>)
    ensures Valid(a + b) == Valid(a) + Valid(b)
  {
    if b == [] {
      assert a + b == a;
    } else {
      assert (a + b)[..|a + b| - 1] == a + b[..|b| - 1];
      ValidConcat(a, b[..|b| - 1]);
    }
  }

  lemma ValidOne(prefix: string, node: Node)
    ensures Valid([Named(prefix, node)]) == if ValidName(prefix) then [Named(prefix, node)] else []
  {
    assert [Named(prefix, node)][..0] == [];
  }

  lemma JoinValid(prefix: string, key: string)
    requires ValidName(Join(prefix, key))
    ensures ValidName(prefix)
  {
    forall i | 0 <= i < |prefix| ensures NameChar(prefix[i]) {
      assert Join(prefix, key)[i] == prefix[i];
    }
  }

  // Under a prefix that is not valid no node has a valid path.
  lemma {:induction false} InvalidSubtree(prefix: string, node: Node)
    requires !ValidName(prefix)
    ensures Valid(Preorder(prefix, node)) == []
    decreases node
  {
    ValidOne(prefix, node);
    if node.Map? {
      InvalidEntries(prefix, node.entries);
      ValidConcat([Named(prefix, node)], PreorderEntries(prefix, node.entries));
    } else {
      assert [Named(prefix, node)] + [] == [Named(prefix, node)];
    }
  }

  lemma {:induction false} InvalidEntries(prefix: string, entries: seq<Entry>)
    requires !ValidName(prefix)
    ensures Valid(PreorderEntries(prefix, entries)) == []
    decreases entries
  {
    if entries != [] {
      var front, last := entries[..|entries| - 1], entries[|entries| - 1];
      InvalidEntries(prefix, front);
      InvalidEntry(prefix, last);
      ValidConcat(PreorderEntries(prefix, front), PreorderEntry(prefix, last));
    }
  }

  lemma {:induction false} InvalidEntry(prefix: string, e: Entry)
    requires !ValidName(prefix)
    ensures Valid(PreorderEntry(prefix, e)) == []
    decreases e
  {
    if ValidName(Join(prefix, e.key)) {
      JoinValid(prefix, e.key);
    }
    InvalidSubtree(Join(prefix, e.key), e.value);
  }

  // ListAllMember lists exactly the nodes with a valid path, in preorder. Skipping the whole subtree under an invalid
  // prefix drops nothing else.
  lemma {:induction false} FlatteningExact(prefix: string, node: Node)
    ensures Listed(prefix, node) == Valid(Preorder(prefix, node))
    decreases node
  {
    if !ValidName(prefix) {
      InvalidSubtree(prefix, node);
    } else {
      ValidOne(prefix, node);
      if node.Map? {
        EntriesExact(prefix, node.entries);
        ValidConcat([Named(prefix, node)], PreorderEntries(prefix, node.entries));
      } else {
        assert [Named(prefix, node)] + [] == [Named(prefix, node)];
      }
    }
  }

  lemma {:induction false} EntriesExact(prefix: string, entries: seq<Entry>)
    ensures ListedEntries(prefix, entries) == Valid(PreorderEntries(prefix, entries))
    decreases entries
  {
    if entries != [] {
      var front, last := entries[..|entries| - 1], entries[|entries| - 1];
      EntriesExact(prefix, front);
      EntryExact(prefix, last);
      ValidConcat(PreorderEntries(prefix, front), PreorderEntry(prefix, last));
    }
  }

  lemma {:induction false} EntryExact(prefix: string, e: Entry)
    ensures ListedEntry(prefix, e) == Valid(PreorderEntry(prefix, e))
    decreases e
  {
    FlatteningExact(Join(prefix, e.key), e.value);
  }

  lemma {:induction false} AllValid(nodes: seq<Named>)
    ensures forall i :: 0 <= i < |Valid(nodes)| ==> ValidName(Valid(nodes)[i].path)
  {
    if nodes != [] {
      AllValid(nodes[..|nodes| - 1]);
    }
  }

  lemma ListedAreValid(root: Node)
    ensures forall i :: 0 <= i < |Listed("", root)| ==> ValidName(Listed("", root)[i].path)
  {
    FlatteningExact("", root);
    AllValid(Preorder("", root));
  }

  // -------------------------------------------------------------------------------------------
  // Paths.

  // Following the keys one after the other from `node` leads to n. A map may hold a key twice.
  ghost predicate At(node: Node, keys: seq<string>, n: Node)
    decreases keys
  {
    if keys == [] then
      n == node
    else
      node.Map? && exists i :: 0 <= i < |node.entries| && InEntry(node.entries[i], keys, n)
  }

  ghost predicate InEntry(e: Entry, keys: seq<string>, n: Node)
    requires keys != []
    decreases keys, 0
  {
    e.key == keys[0] && At(e.value, keys[1..], n)
  }

  // The keys, each after a dot.
  function Suffixed(keys: seq<string>): string {
    if keys == [] then "" else "." + keys[0] + Suffixed(keys[1..])
  }

  // The keys with dots between them. Empty keys at the front leave no trace.
  function Dotted(keys: seq<string>): string {
    if keys == [] then
      ""
    else if keys[0] == "" then
      Dotted(keys[1..])
    else
      keys[0] + Suffixed(keys[1..])
  }

  // A path that is already there, and keys to follow.
  function Extended(prefix: string, keys: seq<string>): string {
    if prefix == "" then Dotted(keys) else prefix + Suffixed(keys)
  }

  lemma ExtendedByOne(prefix: string, keys: seq<string>)
    requires keys != []
    ensures Extended(Join(prefix, keys[0]), keys[1..]) == Extended(prefix, keys)
  {
    if prefix != "" {
      assert prefix + "." + keys[0] + Suffixed(keys[1..]) == prefix + ("." + keys[0] + Suffixed(keys[1..]));
    }
  }

  // The preorder has a node under a path exactly if keys lead to it that spell the rest of the path.
  lemma {:induction false} PreorderPaths(prefix: string, node: Node, p: string, n: Node)
    ensures Named(p, n) in Preorder(prefix, node) <==> exists keys :: At(node, keys, n) && p == Extended(prefix, keys)
    decreases node
  {
    var here := Named(prefix, node);
    var no: seq<string> := [];
    assert Extended(prefix, no) == prefix by {
      assert prefix + "" == prefix;
    }
    assert here == Named(p, n) ==> At(node, no, n) && p == Extended(prefix, no);
    if node.Map? {
      EntriesPaths(prefix, node.entries, p, n);
      forall e, keys | LedTo(prefix, node.entries, p, n, e, keys)
        ensures At(node, keys, n) && p == Extended(prefix, keys)
      {
      }
      forall keys | At(node, keys, n) && p == Extended(prefix, keys)
        ensures Named(p, n) in Preorder(prefix, node)
      {
        if keys != [] {
          var e :| 0 <= e < |node.entries| && InEntry(node.entries[e], keys, n);
          assert LedTo(prefix, node.entries, p, n, e, keys);
        }
      }
    } else {
      forall keys | At(node, keys, n) && p == Extended(prefix, keys)
        ensures Named(p, n) in Preorder(prefix, node)
      {
      }
    }
  }

  ghost predicate LedTo(prefix: string, entries: seq<Entry>, p: string, n: Node, e: int, keys: seq<string>) {
    0 <= e < |entries| && keys != [] && InEntry(entries[e], keys, n) && p == Extended(prefix, keys)
  }

  lemma {:induction false} EntriesPaths(prefix: string, entries: seq<Entry>, p: string, n: Node)
    ensures Named(p, n) in PreorderEntries(prefix, entries) <==>
      exists e, keys :: LedTo(prefix, entries, p, n, e, keys)
    decreases entries
  {
    if entries != [] {
      var front, last := entries[..|entries| - 1], entries[|entries| - 1];
      EntriesPaths(prefix, front, p, n);
      EntryPaths(prefix, last, p, n);
      forall e, keys ensures LedTo(prefix, entries, p, n, e, keys) <==>
        LedTo(prefix, front, p, n, e, keys) || (e == |front| && LedTo(prefix, [last], p, n, 0, keys))
      {
        LedToSnoc(prefix, entries, p, n, e, keys);
      }
      hide LedTo;
      if keys :| LedTo(prefix, [last], p, n, 0, keys) {
        assert LedTo(prefix, entries, p, n, |front|, keys);
      }
    }
  }

  lemma LedToSnoc(prefix: string, entries: seq<Entry>, p: string, n: Node, e: int, keys: seq<string>)
    requires entries != []
    ensures var front, last := entries[..|entries| - 1], entries[|entries| - 1];
      LedTo(prefix, entries, p, n, e, keys) <==>
      LedTo(prefix, front, p, n, e, keys) || (e == |front| && LedTo(prefix, [last], p, n, 0, keys))
  {
  }

  lemma {:induction false} EntryPaths(prefix: string, e: Entry, p: string, n: Node)
    ensures Named(p, n) in PreorderEntry(prefix, e) <==> exists keys :: LedTo(prefix, [e], p, n, 0, keys)
    decreases e
  {
    PreorderPaths(Join(prefix, e.key), e.value, p, n);
    if Named(p, n) in PreorderEntry(prefix, e) {
      var rest :| At(e.value, rest, n) && p == Extended(Join(prefix, e.key), rest);
      var keys := [e.key] + rest;
      assert keys[1..] == rest;
      ExtendedByOne(prefix, keys);
      assert LedTo(prefix, [e], p, n, 0, keys);
    }
    if keys :| LedTo(prefix, [e], p, n, 0, keys) {
      ExtendedByOne(prefix, keys);
      assert At(e.value, keys[1..], n) && p == Extended(Join(prefix, e.key), keys[1..]);
    }
  }

  lemma {:induction false} ValidMember(nodes: seq<Named>, x: Named)
    ensures x in Valid(nodes) <==> x in nodes && ValidName(x.path)
  {
    if nodes != [] {
      ValidMember(nodes[..|nodes| - 1], x);
      assert nodes == nodes[..|nodes| - 1] + [nodes[|nodes| - 1]];
    }
  }

  // A node is listed under p exactly if p is a valid name and some keys lead from the root to the node, p being these
  // keys with dots between them.
  lemma ListedExactly(root: Node, p: string, n: Node)
    ensures Named(p, n) in Listed("", root) <==>
      ValidName(p) && exists keys :: At(root, keys, n) && p == Dotted(keys)
  {
    FlatteningExact("", root);
    ValidMember(Preorder("", root), Named(p, n));
    PreorderPaths("", root, p, n);
    if keys :| At(root, keys, n) && p == Dotted(keys) {
      assert Extended("", keys) == p;
    }
    if keys :| At(root, keys, n) && p == Extended("", keys) {
      assert Dotted(keys) == p;
    }
  }

  // Keys that lead to a node list it under what they spell, if that is a valid name.
  lemma ListedAt(root: Node, keys: seq<string>, n: Node)
    requires At(root, keys, n)
    ensures Named(Dotted(keys), n) in Listed("", root) <==> ValidName(Dotted(keys))
  {
    ListedExactly(root, Dotted(keys), n);
  }

  lemma LettersInAlphabet(c: char)
    requires 'a' <= c <= 'z'
    ensures c in "abcdefghijklmnopqrstuvwxyz"
  {
    assert "abcdefghijklmnopqrstuvwxyz"[c as int - 'a' as int] == c;
  }

  // The alphabet of names, letter by letter.
  lemma NameAlphabet(c: char)
    ensures NameChar(c) <==> c in "abcdefghijklmnopqrstuvwxyz._012345678"
  {
    var letters, others := "abcdefghijklmnopqrstuvwxyz", "._" + "012345678";
    assert letters + others == "abcdefghijklmnopqrstuvwxyz._012345678";
    if 'a' <= c <= 'z' {
      LettersInAlphabet(c);
    }
    assert c in letters ==> 'a' <= c <= 'z';
    assert c in others <==> c == '.' || c == '_' || '0' <= c <= '8';
  }
}
