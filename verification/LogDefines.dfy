// The log section of the configuration: levels, log defines, and their translation to and from YAML nodes.
module LogDefines {
  import opened Options
  import opened ConfigTree

  datatype Level = UNKNOW | DEBUG | INFO | WARN | ERROR | FATAL

  // LogLevel::ToString
  function LevelText(level: Level): string {
    match level
    case DEBUG => "DEBUG"
    case INFO => "INFO"
    case WARN => "WARN"
    case ERROR => "ERROR"
    case FATAL => "FATAL"
    case UNKNOW => "UNKNOWN"
  }

  // LogLevel::FromString
  function LevelOf(text: string): Level {
    if text == "debug" || text == "DEBUG" then DEBUG
    else if text == "info" || text == "INFO" then INFO
    else if text == "warn" || text == "WARN" then WARN
    else if text == "error" || text == "ERROR" then ERROR
    else if text == "fatal" || text == "FATAL" then FATAL
    else UNKNOW
  }

  lemma LevelRoundTrip(level: Level)
    ensures LevelOf(LevelText(level)) == level
  {
  }

  // A level is written in capitals and read in capitals or in small letters. Every other text is read as UNKNOW, the
  // one written for it included.
  lemma LevelSpelling(text: string)
    ensures LevelOf(text) == DEBUG <==> text == "DEBUG" || text == "debug"
    ensures LevelOf(text) == INFO <==> text == "INFO" || text == "info"
    ensures LevelOf(text) == WARN <==> text == "WARN" || text == "warn"
    ensures LevelOf(text) == ERROR <==> text == "ERROR" || text == "error"
    ensures LevelOf(text) == FATAL <==> text == "FATAL" || text == "fatal"
    ensures LevelText(DEBUG) == "DEBUG" && LevelText(INFO) == "INFO" && LevelText(WARN) == "WARN"
    ensures LevelText(ERROR) == "ERROR" && LevelText(FATAL) == "FATAL" && LevelText(UNKNOW) == "UNKNOWN"
  {
    assert "DEBUG"[0] == 'D' && "debug"[0] == 'd' && "INFO"[0] == 'I' && "info"[0] == 'i' && "WARN"[0] == 'W';
    assert "warn"[0] == 'w' && "ERROR"[0] == 'E' && "error"[0] == 'e' && "FATAL"[0] == 'F' && "fatal"[0] == 'f';
  }

  // LogAppenderDefine; type 1 is a file, 2 the standard output.
  datatype AppenderDefine = AppenderDefine(kind: int, level: Level, formatter: string, file: string)

  datatype LogDefine = LogDefine(name: string, level: Level, formatter: string, appenders: seq<AppenderDefine>)

  // LogDefine::operator==, which compares the appenders of the left side with themselves.
  predicate Same(a: LogDefine, b: LogDefine) {
    a.name == b.name && a.level == b.level && a.formatter == b.formatter && a.appenders == a.appenders
  }

  // -------------------------------------------------------------------------------------------
  // LogDefine to node.

  function Named(key: string, text: string): Entry {
    Entry(key, Scalar(text))
  }

  // A node without entries is null.
  function MapOf(entries: seq<Entry>): Node {
    if entries == [] then Null else Map(entries)
  }

  function KindEntries(a: AppenderDefine): seq<Entry> {
    if a.kind == 1 then [Named("type", "FileLogAppender"), Named("file", a.file)]
    else if a.kind == 2 then [Named("type", "StdoutLogAppender")]
    else []
  }

  function LevelEntries(level: Level): seq<Entry> {
    if level != UNKNOW then [Named("level", LevelText(level))] else []
  }

  function FormatterEntries(formatter: string): seq<Entry> {
    if formatter != "" then [Named("formatter", formatter)] else []
  }

  function AppenderNode(a: AppenderDefine): Node {
    MapOf(KindEntries(a) + LevelEntries(a.level) + FormatterEntries(a.formatter))
  }

  function AppenderNodes(xs: seq<AppenderDefine>): seq<Node> {
    if xs == [] then [] else AppenderNodes(xs[..|xs| - 1]) + [AppenderNode(xs[|xs| - 1])]
  }

  function DefineEntries(d: LogDefine): seq<Entry> {
    [Named("name", d.name)] + LevelEntries(d.level) + FormatterEntries(d.formatter) +
    if d.appenders == [] then [] else [Entry("appenders", Sequence(AppenderNodes(d.appenders)))]
  }

  function Encode(d: LogDefine): Node {
    Map(DefineEntries(d))
  }

  // LexicalCast<LogDefine, std::string>, up to the node it prints.
  method EncodeDefine(d: LogDefine) returns (n: Node)
    ensures n == Encode(d)
  {
    var entries := [Named("name", d.name)];
    if d.level != UNKNOW {
      entries := entries + [Named("level", LevelText(d.level))];
    }
    if d.formatter != "" {
      entries := entries + [Named("formatter", d.formatter)];
    }
    hide LevelText;
    hide AppenderNode;
    var nodes := [];
    var i := 0;
    while i < |d.appenders|
      invariant 0 <= i <= |d.appenders| && nodes == AppenderNodes(d.appenders[..i])
    {
      assert d.appenders[..i + 1][..i] == d.appenders[..i];
      var na := EncodeAppender(d.appenders[i]);
      nodes := nodes + [na];
      i := i + 1;
    }
    assert d.appenders[..i] == d.appenders;
    if nodes != [] {
      entries := entries + [Entry("appenders", Sequence(nodes))];
    }
    n := Map(entries);
  }

  method EncodeAppender(a: AppenderDefine) returns (na: Node)
    ensures na == AppenderNode(a)
  {
    var entries: seq<Entry> := [];
    if a.kind == 1 {
      entries := [Named("type", "FileLogAppender"), Named("file", a.file)];
    } else if a.kind == 2 {
      entries := [Named("type", "StdoutLogAppender")];
    }
    if a.level != UNKNOW {
      entries := entries + [Named("level", LevelText(a.level))];
    }
    if a.formatter != "" {
      entries := entries + [Named("formatter", a.formatter)];
    }
    na := MapOf(entries);
  }

  // -------------------------------------------------------------------------------------------
  // Node to LogDefine. A subscript or a conversion that yaml-cpp refuses throws.

  datatype Thrown<T> = Throws | Value(value: T)

  function Find(entries: seq<Entry>, key: string): Option<Node> {
    if entries == [] then None else if entries[0].key == key then Some(entries[0].value) else Find(entries[1..], key)
  }

  // node[key]; None is a node that is not defined.
  function Field(n: Node, key: string): Thrown<Option<Node>> {
    match n
    case Scalar(_) => Throws
    case Map(entries) => Value(Find(entries, key))
    case _ => Value(None)
  }

  function AsString(n: Node): Thrown<string> {
    if n.Scalar? then Value(n.text) else Throws
  }

  // A field that may be missing.
  function TextOr(n: Node, key: string, default: string): Thrown<string> {
    match Field(n, key)
    case Throws => Throws
    case Value(None) => Value(default)
    case Value(Some(f)) => AsString(f)
  }

  // What one entry of the appender list gives: None is skipped.
  function AppenderOf(a: Node): Thrown<Option<AppenderDefine>> {
    match Field(a, "type")
    case Throws => Throws
    case Value(None) => Value(None)
    case Value(Some(t)) =>
      match AsString(t)
      case Throws => Throws
      case Value(kind) =>
        if kind == "FileLogAppender" then
          match Find(a.entries, "file")
          case None => Value(None)
          case Some(file) =>
            if file.Scalar? && TextOr(a, "formatter", "").Value? then
              Value(Some(AppenderDefine(1, UNKNOW, TextOr(a, "formatter", "").value, file.text)))
            else
              Throws
        else if kind == "StdoutLogAppender" then
          if TextOr(a, "formatter", "").Value? then
            Value(Some(AppenderDefine(2, UNKNOW, TextOr(a, "formatter", "").value, "")))
          else
            Throws
        else
          Value(None)
  }

  function AppendersOf(nodes: seq<Node>): Thrown<seq<AppenderDefine>> {
    if nodes == [] then
      Value([])
    else
      match AppendersOf(nodes[..|nodes| - 1])
      case Throws => Throws
      case Value(xs) =>
        match AppenderOf(nodes[|nodes| - 1])
        case Throws => Throws
        case Value(None) => Value(xs)
        case Value(Some(x)) => Value(xs + [x])
  }

  // The list under "appenders"; a scalar or null has no elements, the elements of a map are not numbered.
  function ListUnder(n: Option<Node>): Thrown<seq<Node>> {
    match n
    case None => Value([])
    case Some(Sequence(items)) => Value(items)
    case Some(Map(entries)) => if entries == [] then Value([]) else Throws
    case Some(_) => Value([])
  }

  function Decode(n: Node): Thrown<LogDefine> {
    if !n.Map? || Find(n.entries, "name").None? then
      Throws
    else
      match (AsString(Find(n.entries, "name").value), TextOr(n, "level", ""), TextOr(n, "formatter", ""),
             ListUnder(Find(n.entries, "appenders")))
      case (Value(name), Value(level), Value(formatter), Value(nodes)) =>
        (match AppendersOf(nodes)
         case Throws => Throws
         case Value(xs) => Value(LogDefine(name, LevelOf(level), formatter, xs)))
      case _ => Throws
  }

  // LexicalCast<std::string, LogDefine>, from the node it has loaded.
  method DecodeDefine(n: Node) returns (r: Thrown<LogDefine>)
    ensures r == Decode(n)
  {
    if !n.Map? {
      return Throws;
    }
    var name := Find(n.entries, "name");
    if name.None? || !name.value.Scalar? {
      return Throws;
    }
    var level := TextOr(n, "level", "");
    if level.Throws? {
      return Throws;
    }
    var formatter := TextOr(n, "formatter", "");
    if formatter.Throws? {
      return Throws;
    }
    var nodes := ListUnder(Find(n.entries, "appenders"));
    if nodes.Throws? {
      return Throws;
    }
    var xs := DecodeAppenders(nodes.value);
    if xs.Throws? {
      return Throws;
    }
    r := Value(LogDefine(name.value.text, LevelOf(level.value), formatter.value, xs.value));
  }

  // The loop over the appender list.
  method DecodeAppenders(nodes: seq<Node>) returns (r: Thrown<seq<AppenderDefine>>)
    ensures r == AppendersOf(nodes)
  {
    var xs := [];
    var x := 0;
    while x < |nodes|
      invariant 0 <= x <= |nodes| && AppendersOf(nodes[..x]) == Value(xs)
    {
      PrefixThrows(nodes, x + 1);
      assert nodes[..x + 1][..x] == nodes[..x];
      var a := nodes[x];
      x := x + 1;
      var t := Field(a, "type");
      if t.Throws? {
        return Throws;
      }
      if t.value.None? {
        continue;
      }
      var kind := AsString(t.value.value);
      if kind.Throws? {
        return Throws;
      }
      if kind.value == "FileLogAppender" {
        var file := Find(a.entries, "file");
        if file.None? {
          continue;
        }
        var formatter := TextOr(a, "formatter", "");
        if !file.value.Scalar? || formatter.Throws? {
          return Throws;
        }
        xs := xs + [AppenderDefine(1, UNKNOW, formatter.value, file.value.text)];
      } else if kind.value == "StdoutLogAppender" {
        var formatter := TextOr(a, "formatter", "");
        if formatter.Throws? {
          return Throws;
        }
        xs := xs + [AppenderDefine(2, UNKNOW, formatter.value, "")];
      } else {
        continue;
      }
    }
    assert nodes[..x] == nodes;
    r := Value(xs);
  }

  lemma {:induction false} PrefixThrows(nodes: seq<Node>, k: nat)
    requires k <= |nodes|
    ensures AppendersOf(nodes[..k]).Throws? ==> AppendersOf(nodes).Throws?
    decreases |nodes| - k
  {
    if k == |nodes| {
      assert nodes[..k] == nodes;
    } else {
      assert nodes[..k + 1][..k] == nodes[..k];
      PrefixThrows(nodes, k + 1);
    }
  }

  // -------------------------------------------------------------------------------------------
  // What is read from a node, field by field.

  // A field that may be missing: its text, "" without it. A field that is no scalar has none.
  predicate Reads(field: Option<Node>, text: string) {
    match field
    case None => text == ""
    case Some(n) => n == Scalar(text)
  }

  predicate HasType(a: Node, kind: string) {
    a.Map? && Find(a.entries, "type") == Some(Scalar(kind))
  }

  // An appender is read from a map with one of the two types; a file needs its name, and the level is never looked at.
  lemma AppenderExactly(a: Node, x: AppenderDefine)
    ensures AppenderOf(a) == Value(Some(x)) <==>
      && (HasType(a, "FileLogAppender") || HasType(a, "StdoutLogAppender"))
      && x.level == UNKNOW && Reads(Find(a.entries, "formatter"), x.formatter)
      && (if HasType(a, "FileLogAppender") then x.kind == 1 && Find(a.entries, "file") == Some(Scalar(x.file))
          else x.kind == 2 && x.file == "")
  {
    KeysDiffer();
  }

  // An element without a type, of an unknown type or a file without a name is skipped.
  lemma SkippedExactly(a: Node)
    ensures AppenderOf(a) == Value(None) <==>
      || a.Null? || a.Sequence? || (a.Map? && Find(a.entries, "type") == None)
      || (HasType(a, "FileLogAppender") && Find(a.entries, "file") == None)
      || (exists kind :: HasType(a, kind) && kind != "FileLogAppender" && kind != "StdoutLogAppender")
  {
    KeysDiffer();
    if a.Map? && Find(a.entries, "type").Some? && Find(a.entries, "type").value.Scalar? {
      assert HasType(a, Find(a.entries, "type").value.text);
    }
  }

  // The list is read element by element.
  lemma {:induction false} AppendersConcat(a: seq<Node>, b: seq<Node>)
    ensures AppendersOf(a + b) ==
      if AppendersOf(a).Value? && AppendersOf(b).Value? then
        Value(AppendersOf(a).value + AppendersOf(b).value)
      else
        Throws
  {
    if b == [] {
      assert a + b == a;
      if AppendersOf(a).Value? {
        assert AppendersOf(a).value + [] == AppendersOf(a).value;
      }
    } else {
      assert (a + b)[..|a + b| - 1] == a + b[..|b| - 1] && (a + b)[|a + b| - 1] == b[|b| - 1];
      var front, last := b[..|b| - 1], b[|b| - 1];
      AppendersConcat(a, front);
      hide AppenderOf;
      if AppendersOf(a).Value? && AppendersOf(front).Value? && AppenderOf(last).Value? && AppenderOf(last).value.Some? {
        var xs, ys, x := AppendersOf(a).value, AppendersOf(front).value, AppenderOf(last).value.value;
        assert (xs + ys) + [x] == xs + (ys + [x]);
      }
    }
  }

  lemma AppendersOne(a: Node)
    ensures AppendersOf([a]) ==
      match AppenderOf(a)
      case Throws => Throws
      case Value(None) => Value([])
      case Value(Some(x)) => Value([x])
  {
    hide AppenderOf;
    var one := [a];
    var none: seq<AppenderDefine> := [];
    assert one[..0] == [] && AppendersOf(one[..0]) == Value(none);
    if AppenderOf(a).Value? && AppenderOf(a).value.Some? {
      assert none + [AppenderOf(a).value.value] == [AppenderOf(a).value.value];
    }
  }

  // The elements under "appenders": none without the field, or if it is null, a scalar or an empty map.
  predicate Lists(field: Option<Node>, nodes: seq<Node>) {
    match field
    case Some(Sequence(items)) => nodes == items
    case Some(Map(entries)) => entries == [] && nodes == []
    case _ => nodes == []
  }

  ghost predicate ReadsDefine(n: Node, d: LogDefine, level: string, nodes: seq<Node>) {
    && n.Map? && Find(n.entries, "name") == Some(Scalar(d.name)) && Reads(Find(n.entries, "formatter"), d.formatter)
    && Reads(Find(n.entries, "level"), level) && LevelOf(level) == d.level
    && Lists(Find(n.entries, "appenders"), nodes) && AppendersOf(nodes) == Value(d.appenders)
  }

  // A define is read from a map with a name. Level and formatter may be missing, and so may the appenders.
  lemma DefineExactly(n: Node, d: LogDefine)
    ensures Decode(n) == Value(d) <==> exists level, nodes :: ReadsDefine(n, d, level, nodes)
  {
    hide Find;
    hide LevelOf;
    hide AppendersOf;
    if Decode(n) == Value(d) {
      var level, nodes := TextOr(n, "level", "").value, ListUnder(Find(n.entries, "appenders")).value;
      FieldReads(n, "level", level);
      FieldReads(n, "formatter", d.formatter);
      ListReads(Find(n.entries, "appenders"));
      assert ReadsDefine(n, d, level, nodes);
    }
    if level, nodes :| ReadsDefine(n, d, level, nodes) {
      FieldReads(n, "level", level);
      FieldReads(n, "formatter", d.formatter);
      ListReads(Find(n.entries, "appenders"));
      hide TextOr;
    }
  }

  lemma FieldReads(n: Node, key: string, text: string)
    requires n.Map?
    ensures TextOr(n, key, "") == Value(text) <==> Reads(Find(n.entries, key), text)
  {
  }

  lemma ListReads(field: Option<Node>)
    ensures forall nodes :: ListUnder(field) == Value(nodes) <==> Lists(field, nodes)
  {
  }

  // -------------------------------------------------------------------------------------------
  // Encoding and decoding again.

  function NormalAppender(a: AppenderDefine): AppenderDefine {
    AppenderDefine(a.kind, UNKNOW, a.formatter, if a.kind == 2 then "" else a.file)
  }

  function NormalAppenders(xs: seq<AppenderDefine>): seq<AppenderDefine> {
    if xs == [] then
      []
    else
      var x := xs[|xs| - 1];
      NormalAppenders(xs[..|xs| - 1]) + if x.kind == 1 || x.kind == 2 then [NormalAppender(x)] else []
  }

  // What is left of a define: appenders of an unknown type are dropped, the levels of the others are lost, and so is
  // the file of one that writes to the standard output.
  function Normal(d: LogDefine): LogDefine {
    d.(appenders := NormalAppenders(d.appenders))
  }

  predicate IsNormal(d: LogDefine) {
    forall i :: 0 <= i < |d.appenders| ==> AppenderIsNormal(d.appenders[i])
  }

  predicate AppenderIsNormal(a: AppenderDefine) {
    (a.kind == 1 || a.kind == 2) && a.level == UNKNOW && (a.kind == 2 ==> a.file == "")
  }

  lemma {:induction false} FindConcat(a: seq<Entry>, b: seq<Entry>, key: string)
    ensures Find(a + b, key) == if Find(a, key).Some? then Find(a, key) else Find(b, key)
  {
    if a == [] {
      assert a + b == b;
    } else {
      assert (a + b)[1..] == a[1..] + b;
      FindConcat(a[1..], b, key);
    }
  }

  lemma KeysDiffer()
    ensures "name" != "level" && "name" != "formatter" && "name" != "appenders" && "name" != "type"
    ensures "level" != "formatter" && "level" != "appenders" && "formatter" != "appenders"
    ensures "type" != "file" && "type" != "level" && "type" != "formatter"
    ensures "file" != "level" && "file" != "formatter"
    ensures "FileLogAppender" != "StdoutLogAppender"
  {
    assert "name"[0] == 'n' && "level"[0] == 'l' && "formatter"[0] == 'f' && "appenders"[0] == 'a' && "type"[0] == 't';
    assert "FileLogAppender"[0] == 'F';
  }

  lemma FindIn(key: string, k: string, text: string)
    ensures Find([Named(k, text)], key) == if key == k then Some(Scalar(text)) else None
  {
  }

  lemma KindFields(a: AppenderDefine, key: string)
    requires a.kind == 1 || a.kind == 2
    ensures key == "type" ==>
      Find(KindEntries(a), key) == Some(Scalar(if a.kind == 1 then "FileLogAppender" else "StdoutLogAppender"))
    ensures key == "file" ==> Find(KindEntries(a), key) == if a.kind == 1 then Some(Scalar(a.file)) else None
    ensures key != "type" && key != "file" ==> Find(KindEntries(a), key) == None
  {
    KeysDiffer();
    if a.kind == 1 {
      FindConcat([Named("type", "FileLogAppender")], [Named("file", a.file)], key);
      assert KindEntries(a) == [Named("type", "FileLogAppender")] + [Named("file", a.file)];
      FindIn(key, "file", a.file);
    }
    FindIn(key, "type", if a.kind == 1 then "FileLogAppender" else "StdoutLogAppender");
  }

  lemma OptionalFields(level: Level, formatter: string, key: string)
    ensures Find(LevelEntries(level) + FormatterEntries(formatter), key) ==
      if key == "level" && level != UNKNOW then
        Some(Scalar(LevelText(level)))
      else if key == "formatter" && formatter != "" then
        Some(Scalar(formatter))
      else
        None
  {
    KeysDiffer();
    FindConcat(LevelEntries(level), FormatterEntries(formatter), key);
    FindIn(key, "level", LevelText(level));
    FindIn(key, "formatter", formatter);
  }

  // The fields of the node that is written for an appender.
  lemma AppenderFields(a: AppenderDefine, key: string)
    requires a.kind == 1 || a.kind == 2
    ensures AppenderNode(a).Map?
    ensures var entries := AppenderNode(a).entries;
      && (key == "type" ==>
           Find(entries, key) == Some(Scalar(if a.kind == 1 then "FileLogAppender" else "StdoutLogAppender")))
      && (key == "file" ==> Find(entries, key) == if a.kind == 1 then Some(Scalar(a.file)) else None)
      && (key == "formatter" ==> Find(entries, key) == if a.formatter != "" then Some(Scalar(a.formatter)) else None)
      && (key == "level" ==>
           Find(entries, key) == if a.level != UNKNOW then Some(Scalar(LevelText(a.level))) else None)
  {
    var more := LevelEntries(a.level) + FormatterEntries(a.formatter);
    assert KindEntries(a) + LevelEntries(a.level) + FormatterEntries(a.formatter) == KindEntries(a) + more;
    KeysDiffer();
    FindConcat(KindEntries(a), more, key);
    KindFields(a, key);
    OptionalFields(a.level, a.formatter, key);
  }

  lemma UntypedAppender(a: AppenderDefine)
    requires a.kind != 1 && a.kind != 2
    ensures AppenderOf(AppenderNode(a)) == Value(None)
  {
    KeysDiffer();
    OptionalFields(a.level, a.formatter, "type");
    assert [] + LevelEntries(a.level) + FormatterEntries(a.formatter) ==
      LevelEntries(a.level) + FormatterEntries(a.formatter);
  }

  lemma AppenderRoundTrip(a: AppenderDefine)
    ensures AppenderOf(AppenderNode(a)) ==
            Value(if a.kind == 1 || a.kind == 2 then Some(NormalAppender(a)) else None)
  {
    if a.kind == 1 || a.kind == 2 {
      hide AppenderNode;
      hide Find;
      AppenderFields(a, "type");
      AppenderFields(a, "file");
      AppenderFields(a, "formatter");
      KeysDiffer();
    } else {
      UntypedAppender(a);
    }
  }

  // The fields of the node that is written for a define.
  lemma DefineFields(d: LogDefine, key: string)
    ensures var entries := DefineEntries(d);
      && (key == "name" ==> Find(entries, key) == Some(Scalar(d.name)))
      && (key == "level" ==>
           Find(entries, key) == if d.level != UNKNOW then Some(Scalar(LevelText(d.level))) else None)
      && (key == "formatter" ==> Find(entries, key) == if d.formatter != "" then Some(Scalar(d.formatter)) else None)
      && (key == "appenders" ==>
           Find(entries, key) == if d.appenders == [] then None else Some(Sequence(AppenderNodes(d.appenders))))
  {
    KeysDiffer();
    var head := [Named("name", d.name)];
    var more := LevelEntries(d.level) + FormatterEntries(d.formatter);
    var tail := if d.appenders == [] then [] else [Entry("appenders", Sequence(AppenderNodes(d.appenders)))];
    assert DefineEntries(d) == head + (more + tail);
    FindConcat(head, more + tail, key);
    FindConcat(more, tail, key);
    FindIn(key, "name", d.name);
    OptionalFields(d.level, d.formatter, key);
  }

  lemma {:induction false} AppendersRoundTrip(xs: seq<AppenderDefine>)
    ensures AppendersOf(AppenderNodes(xs)) == Value(NormalAppenders(xs))
  {
    if xs != [] {
      var front := xs[..|xs| - 1];
      AppendersRoundTrip(front);
      AppenderRoundTrip(xs[|xs| - 1]);
      hide AppenderOf;
      hide AppenderNode;
      assert NormalAppenders(front) + [] == NormalAppenders(front);
      assert AppenderNodes(xs)[..|AppenderNodes(xs)| - 1] == AppenderNodes(front);
    }
  }

  lemma LevelField(d: LogDefine)
    ensures TextOr(Encode(d), "level", "").Value? && LevelOf(TextOr(Encode(d), "level", "").value) == d.level
  {
    hide DefineEntries;
    hide Find;
    DefineFields(d, "level");
    LevelRoundTrip(d.level);
  }

  lemma OtherFields(d: LogDefine)
    ensures Find(DefineEntries(d), "name") == Some(Scalar(d.name))
    ensures TextOr(Encode(d), "formatter", "") == Value(d.formatter)
    ensures ListUnder(Find(DefineEntries(d), "appenders")) == Value(AppenderNodes(d.appenders))
  {
    hide DefineEntries;
    hide Find;
    DefineFields(d, "name");
    DefineFields(d, "formatter");
    DefineFields(d, "appenders");
  }

  // Encoding a define and decoding it again is exactly Normal, and it never throws.
  lemma DefineRoundTrip(d: LogDefine)
    ensures Decode(Encode(d)) == Value(Normal(d))
  {
    hide DefineEntries;
    hide Find;
    hide TextOr;
    hide ListUnder;
    hide LevelOf;
    hide AppendersOf;
    hide AppenderNodes;
    AppendersRoundTrip(d.appenders);
    LevelField(d);
    OtherFields(d);
  }

  lemma {:induction false} NormalAppendersNormal(xs: seq<AppenderDefine>)
    ensures |NormalAppenders(xs)| <= |xs|
    ensures forall i :: 0 <= i < |NormalAppenders(xs)| ==> AppenderIsNormal(NormalAppenders(xs)[i])
  {
    if xs != [] {
      NormalAppendersNormal(xs[..|xs| - 1]);
    }
  }

  lemma {:induction false} NormalAppendersSame(xs: seq<AppenderDefine>)
    requires forall i :: 0 <= i < |xs| ==> AppenderIsNormal(xs[i])
    ensures NormalAppenders(xs) == xs
  {
    if xs != [] {
      NormalAppendersSame(xs[..|xs| - 1]);
      assert NormalAppender(xs[|xs| - 1]) == xs[|xs| - 1];
    }
  }

  // It is idempotent, and it changes nothing exactly if the define is normal.
  lemma NormalIsFixed(d: LogDefine)
    ensures IsNormal(Normal(d)) && Normal(Normal(d)) == Normal(d)
    ensures Normal(d) == d <==> IsNormal(d)
  {
    NormalAppendersNormal(d.appenders);
    NormalAppendersSame(NormalAppenders(d.appenders));
    if IsNormal(d) {
      NormalAppendersSame(d.appenders);
    }
  }

  // Whatever the node, a decoded define is normal.
  lemma {:induction false} DecodedAppendersNormal(nodes: seq<Node>)
    requires AppendersOf(nodes).Value?
    ensures forall i :: 0 <= i < |AppendersOf(nodes).value| ==> AppenderIsNormal(AppendersOf(nodes).value[i])
  {
    if nodes != [] {
      DecodedAppendersNormal(nodes[..|nodes| - 1]);
    }
  }

  lemma DecodedIsNormal(n: Node)
    requires Decode(n).Value?
    ensures IsNormal(Decode(n).value)
  {
    DecodedAppendersNormal(ListUnder(Find(n.entries, "appenders")).value);
  }
}
