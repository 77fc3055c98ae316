// Loggers and their manager as objects, with the listener that carries configuration changes over to them.
module LogManager {
  import opened Options
  import opened ConfigTree
  import opened LogDefines
  import opened LogLoggers
  import Patterns = LogFormatter

  // What a logger writes for an event of the given level, when `root` stands in for a logger without appenders. One
  // entry for each appender that prints the event.
  function Written(l: LoggerState, root: Option<LoggerState>, level: Level): seq<Appender> {
    if Rank(level) < Rank(l.level) then
      []
    else if l.appenders != [] then
      Listening(l.appenders, level)
    else if root.Some? && Rank(level) >= Rank(root.value.level) then
      Listening(root.value.appenders, level)
    else
      []
  }

  function Listening(xs: seq<Appender>, level: Level): seq<Appender> {
    if xs == [] then
      []
    else
      Listening(xs[..|xs| - 1], level) + if Rank(level) >= Rank(xs[|xs| - 1].level) then [xs[|xs| - 1]] else []
  }

  // A logger whose define has been removed hands every event on to the root logger, as that is then.
  lemma RemovedFallsBack(s: Loggers, olds: seq<LogDefine>, news: seq<LogDefine>, daemon: bool, name: string,
                         level: Level)
    requires DistinctNames(olds) && DistinctNames(news) && "root" in s
    requires FindDefine(olds, name).Some? && FindDefine(news, name).None?
    ensures var t := Reconciled(s, olds, news, daemon);
      && name in t && "root" in t
      && Written(t[name], Some(t["root"]), level) == Written(t["root"], None, level)
  {
    ReconciliationExact(s, olds, news, daemon, name);
    ReconciliationExact(s, olds, news, daemon, "root");
    var root := Reconciled(s, olds, news, daemon)["root"];
    assert root.appenders == [] ==> Listening(root.appenders, level) == [];
  }

  lemma {:induction false} ListeningExact(xs: seq<Appender>, level: Level, a: Appender)
    ensures a in Listening(xs, level) <==> a in xs && Rank(level) >= Rank(a.level)
  {
    if xs != [] {
      ListeningExact(xs[..|xs| - 1], level, a);
      assert xs == xs[..|xs| - 1] + [xs[|xs| - 1]];
    }
  }

  // Who prints an event: nobody if its level is below the logger's; of the logger's own appenders those whose level it
  // reaches; and if the logger has none, those of the root logger, if the event reaches that logger's level as well.
  lemma WrittenExactly(l: LoggerState, root: Option<LoggerState>, level: Level, a: Appender)
    ensures a in Written(l, root, level) <==>
      && Rank(level) >= Rank(l.level) && Rank(level) >= Rank(a.level)
      && if l.appenders != [] then a in l.appenders
         else root.Some? && Rank(level) >= Rank(root.value.level) && a in root.value.appenders
  {
    ListeningExact(l.appenders, level, a);
    if root.Some? {
      ListeningExact(root.value.appenders, level, a);
    }
  }

  // A logger nobody has configured writes events from level DEBUG on to the standard output and to its own file.
  lemma DefaultAppenders(name: string, root: Option<LoggerState>, level: Level)
    ensures Written(DefaultLogger(name), root, level) ==
      if level == UNKNOW then
        []
      else
        [Appender(Stdout, DEBUG, Some(DEFAULT_PATTERN), true),
         Appender(File("log/" + name + ".txt"), DEBUG, Some(DEFAULT_PATTERN), true)]
    ensures DefaultLogger(name).appenders == OutAndFile(name)
  {
    var out := Appender(Stdout, DEBUG, Some(DEFAULT_PATTERN), true);
    var file := Appender(File("log/" + name + ".txt"), DEBUG, Some(DEFAULT_PATTERN), true);
    assert DefaultLogger(name).appenders == [out, file];
    ListeningTwo(out, file, level);
  }

  // The appenders of a logger nobody has configured.
  function OutAndFile(name: string): seq<Appender> {
    [Appender(Stdout, DEBUG, Some(DEFAULT_PATTERN), true),
     Appender(File("log/" + name + ".txt"), DEBUG, Some(DEFAULT_PATTERN), true)]
  }

  lemma ListeningTwo(a: Appender, b: Appender, level: Level)
    requires a.level == b.level
    ensures Listening([a, b], level) == if Rank(level) >= Rank(a.level) then [a, b] else []
  {
    var one, two := [a], [a, b];
    assert two[..1] == one && one[..0] == [];
    assert Listening(one[..0], level) == [];
    assert Listening(one, level) == if Rank(level) >= Rank(a.level) then [a] else [];
  }

  class Logger {
    const name: string
    var level: Level
    var pattern: string             // of m_formatter
    var appenders: seq<Appender>
    var root: Logger?

    function Snapshot(): LoggerState
      reads this
    {
      LoggerState(name, level, pattern, appenders)
    }

    constructor (name: string)
      ensures this.name == name && Snapshot() == NewLogger(name) && root == null
    {
      this.name, level, pattern, appenders, root := name, DEBUG, DEFAULT_PATTERN, [], null;
    }

    method SetLevel(level: Level)
      modifies this`level
      ensures this.level == level
    {
      this.level := level;
    }

    method AddAppender(a: Appender)
      modifies this`appenders
      ensures Snapshot() == Added(old(Snapshot()), a)
    {
      var added := a;
      if added.pattern.None? {
        added := WithFormatter(added, pattern);
      }
      appenders := appenders + [added];
    }

    method ClearAppenders()
      modifies this`appenders
      ensures appenders == []
    {
      appenders := [];
    }

    // setFormatter of a text: a faulty pattern is refused.
    method SetFormatter(text: string)
      modifies this`pattern, this`appenders
      ensures Snapshot() == Formatted(old(Snapshot()), text)
    {
      var formatter := new Patterns.Formatter(text);
      if formatter.IsError() {
        return;
      }
      pattern := text;
      var i := 0;
      var xs := [];
      while i < |appenders|
        invariant 0 <= i <= |appenders| && xs == Inherit(appenders[..i], text)
      {
        assert appenders[..i + 1][..i] == appenders[..i];
        xs := xs + [if appenders[i].own then appenders[i] else appenders[i].(pattern := Some(text))];
        i := i + 1;
      }
      assert appenders[..i] == appenders;
      appenders := xs;
    }

    // applyDefaultConfig
    method ApplyDefaults()
      modifies this`appenders
      ensures Snapshot() == WithDefaults(old(Snapshot()))
    {
      AddAppender(Appender(Stdout, DEBUG, None, false));
      AddAppender(Appender(File("log/" + name + ".txt"), DEBUG, None, false));
    }

    // log(): the appenders that print an event of this level.
    method Log(level: Level) returns (out: seq<Appender>)
      requires root != null ==> root.root == null
      ensures out == Written(Snapshot(), if root == null then None else Some(root.Snapshot()), level)
      decreases if root == null then 0 else 1
    {
      out := [];
      if Rank(level) >= Rank(this.level) {
        if appenders != [] {
          var i := 0;
          while i < |appenders|
            invariant 0 <= i <= |appenders| && out == Listening(appenders[..i], level)
          {
            assert appenders[..i + 1][..i] == appenders[..i];
            if Rank(level) >= Rank(appenders[i].level) {
              out := out + [appenders[i]];
            }
            i := i + 1;
          }
          assert appenders[..i] == appenders;
        } else if root != null {
          out := root.Log(level);
        }
      }
    }

    // What the listener does with a define that is new or has changed. An appender of unknown type leaves it with a
    // null pointer, which it follows: then the result is false.
    method Configure(d: LogDefine, daemon: bool) returns (ok: bool)
      modifies this`level, this`pattern, this`appenders
      ensures ok == TypesKnown(d)
      ensures ok ==> Snapshot() == Configured(old(Snapshot()), d, daemon)
    {
      SetLevel(d.level);
      if d.formatter != "" {
        SetFormatter(d.formatter);
      }
      ClearAppenders();
      ghost var bare := Snapshot();
      var i := 0;
      while i < |d.appenders|
        invariant 0 <= i <= |d.appenders| && Snapshot() == AddedAll(bare, d.appenders[..i], daemon)
        invariant forall k :: 0 <= k < i ==> TypeKnown(d.appenders[k])
      {
        assert d.appenders[..i + 1][..i] == d.appenders[..i];
        var a := d.appenders[i];
        if a.kind != 1 && a.kind != 2 {
          return false;
        }
        i := i + 1;
        if a.kind == 2 && daemon {
          continue;
        }
        var ap := Appender(if a.kind == 1 then File(a.file) else Stdout, a.level, None, false);
        if a.formatter != "" {
          var fmt := new Patterns.Formatter(a.formatter);
          if !fmt.IsError() {
            ap := WithFormatter(ap, a.formatter);
          }
        }
        AddAppender(ap);
      }
      assert d.appenders[..i] == d.appenders;
      ok := true;
    }
  }

  class LoggerManager {
    var loggers: map<string, Logger>
    const root: Logger

    ghost predicate Valid()
      reads this, Objects()
    {
      && "root" in loggers && loggers["root"] == root && root.root == null
      && forall k :: k in loggers ==> loggers[k].name == k && (k != "root" ==> loggers[k].root == root)
    }

    ghost function Objects(): set<Logger>
      reads this
    {
      set k | k in loggers :: loggers[k]
    }

    ghost function Store(): Loggers
      reads this, Objects()
    {
      map k | k in loggers :: loggers[k].Snapshot()
    }

    // The root logger gets the default appenders twice.
    constructor ()
      ensures Valid() && fresh(Objects())
      ensures Store() == map["root" := WithDefaults(WithDefaults(NewLogger("root")))]
      ensures root.level == DEBUG && root.pattern == DEFAULT_PATTERN
      ensures root.appenders == OutAndFile("root") + OutAndFile("root")
    {
      var r := new Logger("root");
      r.ApplyDefaults();
      r.ApplyDefaults();
      root := r;
      loggers := map["root" := r];
    }

    // getLogger: a name that is not known yet gets a logger with the default appenders, below the root logger.
    method GetLogger(name: string) returns (logger: Logger)
      requires Valid()
      modifies this`loggers
      ensures Valid() && name in loggers && loggers[name] == logger
      ensures if name in old(loggers) then loggers == old(loggers)
              else fresh(logger) && loggers == old(loggers)[name := logger]
      ensures Store() == old(Store())[name := Base(old(Store()), name)]
      ensures name !in old(loggers) ==>
        && logger.level == DEBUG && logger.pattern == DEFAULT_PATTERN && logger.appenders == OutAndFile(name)
        && logger.root == root
    {
      if name in loggers {
        logger := loggers[name];
        assert Store() == old(Store())[name := Base(old(Store()), name)];
        return;
      }
      logger := new Logger(name);
      logger.ApplyDefaults();
      logger.root := root;
      loggers := loggers[name := logger];
    }

    // The listener on the "logs" variable. It gets through exactly if every define that is new or has changed lists
    // only appenders of the two types, and then the loggers are reconciled.
    method OnLogsChanged(olds: seq<LogDefine>, news: seq<LogDefine>, daemon: bool) returns (ok: bool)
      requires Valid()
      modifies this`loggers, Objects()
      ensures Valid() && ok == AllTypesKnown(olds, news)
      ensures ok ==> Store() == Reconciled(old(Store()), olds, news, daemon)
    {
      ghost var start := Store();
      ok := true;
      var i := 0;
      while i < |news|
        invariant 0 <= i <= |news| && Valid() && fresh(Objects() - old(Objects()))
        invariant forall k :: 0 <= k < i ==> Changed(olds, news[k]) ==> TypesKnown(news[k])
        invariant ok && Store() == ConfigureAll(start, olds, news[..i], daemon)
      {
        assert news[..i + 1][..i] == news[..i];
        ok := ConfigureLogger(olds, news[i], daemon);
        if !ok {
          return;
        }
        i := i + 1;
      }
      assert news[..i] == news;
      ghost var configured := Store();
      i := 0;
      while i < |olds|
        invariant 0 <= i <= |olds| && Valid() && fresh(Objects() - old(Objects()))
        invariant Store() == RemoveAll(configured, news, olds[..i])
      {
        assert olds[..i + 1][..i] == olds[..i];
        SilenceLogger(news, olds[i]);
        i := i + 1;
      }
      assert olds[..i] == olds;
    }

    // The body of the first loop.
    method ConfigureLogger(olds: seq<LogDefine>, d: LogDefine, daemon: bool) returns (ok: bool)
      requires Valid()
      modifies this`loggers, Objects()
      ensures Valid() && fresh(Objects() - old(Objects())) && ok == (Changed(olds, d) ==> TypesKnown(d))
      ensures ok ==> Store() == ConfigureOne(old(Store()), olds, d, daemon)
    {
      hide Configured;
      hide DefaultLogger;
      var it := FindDefine(olds, d.name);
      if it.Some? && Same(d, it.value) {
        return true;
      }
      ghost var s := Store();
      var _ := GetLogger(d.name);
      ok := ConfigureNamed(d, daemon);
      Overwritten(s, d.name, Base(s, d.name), Configured(Base(s, d.name), d, daemon));
    }

    method ConfigureNamed(d: LogDefine, daemon: bool) returns (ok: bool)
      requires Valid() && d.name in loggers
      modifies loggers[d.name]
      ensures loggers == old(loggers) && Valid() && ok == TypesKnown(d)
      ensures ok ==> Store() == old(Store())[d.name := Configured(old(Store())[d.name], d, daemon)]
    {
      hide Configured;
      ok := loggers[d.name].Configure(d, daemon);
    }

    // The body of the second loop.
    method SilenceLogger(news: seq<LogDefine>, o: LogDefine)
      requires Valid()
      modifies this`loggers, Objects()
      ensures Valid() && fresh(Objects() - old(Objects()))
      ensures Store() == RemoveOne(old(Store()), news, o)
    {
      hide DefaultLogger;
      var it := FindDefine(news, o.name);
      if it.None? {
        ghost var s := Store();
        var _ := GetLogger(o.name);
        SilenceNamed(o.name);
        Overwritten(s, o.name, Base(s, o.name), Removed(Base(s, o.name)));
      }
    }

    method SilenceNamed(name: string)
      requires Valid() && name in loggers
      modifies loggers[name]
      ensures loggers == old(loggers) && Valid()
      ensures Store() == old(Store())[name := Removed(old(Store())[name])]
    {
      var logger := loggers[name];
      logger.SetLevel(UNKNOW);
      logger.ClearAppenders();
    }
  }

  lemma Overwritten(s: Loggers, name: string, a: LoggerState, b: LoggerState)
    ensures s[name := a][name := b] == s[name := b]
  {
  }

  predicate TypeKnown(a: AppenderDefine) {
    a.kind == 1 || a.kind == 2
  }

  predicate TypesKnown(d: LogDefine) {
    forall i :: 0 <= i < |d.appenders| ==> TypeKnown(d.appenders[i])
  }

  predicate AllTypesKnown(olds: seq<LogDefine>, news: seq<LogDefine>) {
    forall k :: 0 <= k < |news| ==> Changed(olds, news[k]) ==> TypesKnown(news[k])
  }

  // A value that has been decoded never brings the listener down, whatever the nodes and whatever was set before.
  lemma DecodedGetsThrough(olds: seq<LogDefine>, nodes: seq<Node>, news: seq<LogDefine>)
    requires |nodes| == |news| && forall k :: 0 <= k < |news| ==> Decode(nodes[k]) == Value(news[k])
    ensures AllTypesKnown(olds, news)
  {
    forall k | 0 <= k < |news| ensures TypesKnown(news[k]) {
      DecodedIsNormal(nodes[k]);
      assert forall i :: 0 <= i < |news[k].appenders| ==> AppenderIsNormal(news[k].appenders[i]);
    }
  }
}
