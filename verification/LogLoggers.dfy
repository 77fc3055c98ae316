// Loggers, their appenders, and how a change of the log configuration is carried over to them.
module LogLoggers {
  import opened Options
  import opened LogDefines
  import ConfigStore
  import Patterns = LogFormatter

  datatype Sink = File(path: string) | Stdout

  // A LogAppender: m_level, the pattern of m_formatter, and m_hasFormatter.
  datatype Appender = Appender(sink: Sink, level: Level, pattern: Option<string>, own: bool)

  datatype LoggerState = LoggerState(name: string, level: Level, pattern: string, appenders: seq<Appender>)

  type Loggers = map<string, LoggerState>

  const DEFAULT_PATTERN := "%d{%Y-%m-%d %H:%M:%S}%T%t%T%N%T%F%T[%p]%T[%c]%T%f:%l%T%m%n"

  function Rank(level: Level): nat {
    match level
    case UNKNOW => 0
    case DEBUG => 1
    case INFO => 2
    case WARN => 3
    case ERROR => 4
    case FATAL => 5
  }

  // The levels in their order.
  lemma LevelOrder()
    ensures Rank(UNKNOW) < Rank(DEBUG) < Rank(INFO) < Rank(WARN) < Rank(ERROR) < Rank(FATAL)
  {
  }

  // -------------------------------------------------------------------------------------------
  // One logger.

  // setFormatter of an appender.
  function WithFormatter(a: Appender, pattern: string): Appender {
    a.(pattern := Some(pattern), own := true)
  }

  // addAppender: an appender without a formatter is given the logger's.
  function Added(l: LoggerState, a: Appender): LoggerState {
    l.(appenders := l.appenders + [if a.pattern.None? then WithFormatter(a, l.pattern) else a])
  }

  // The loop in Logger::setFormatter over the appenders that have no formatter of their own.
  function Inherit(xs: seq<Appender>, pattern: string): seq<Appender> {
    if xs == [] then
      []
    else
      var x := xs[|xs| - 1];
      Inherit(xs[..|xs| - 1], pattern) + [if x.own then x else x.(pattern := Some(pattern))]
  }

  function Formatted(l: LoggerState, pattern: string): LoggerState {
    if Patterns.Faulty(pattern) then l else l.(pattern := pattern, appenders := Inherit(l.appenders, pattern))
  }

  function NewLogger(name: string): LoggerState {
    LoggerState(name, DEBUG, DEFAULT_PATTERN, [])
  }

  // applyDefaultConfig
  function WithDefaults(l: LoggerState): LoggerState {
    Added(Added(l, Appender(Stdout, DEBUG, None, false)), Appender(File("log/" + l.name + ".txt"), DEBUG, None, false))
  }

  // What getLogger makes of a name it does not know.
  function DefaultLogger(name: string): LoggerState {
    WithDefaults(NewLogger(name))
  }

  // The appender for a define.
  function Built(a: AppenderDefine): Appender {
    var sink := if a.kind == 1 then File(a.file) else Stdout;
    if a.formatter != "" && !Patterns.Faulty(a.formatter) then
      Appender(sink, a.level, Some(a.formatter), true)
    else
      Appender(sink, a.level, None, false)
  }

  // With option -d, nothing is written to the standard output.
  function AddedAll(l: LoggerState, xs: seq<AppenderDefine>, daemon: bool): LoggerState {
    if xs == [] then
      l
    else
      var k := AddedAll(l, xs[..|xs| - 1], daemon);
      if xs[|xs| - 1].kind == 2 && daemon then k else Added(k, Built(xs[|xs| - 1]))
  }

  function Configured(l: LoggerState, d: LogDefine, daemon: bool): LoggerState {
    var leveled := l.(level := d.level);
    var formatted := if d.formatter != "" then Formatted(leveled, d.formatter) else leveled;
    AddedAll(formatted.(appenders := []), d.appenders, daemon)
  }

  function Removed(l: LoggerState): LoggerState {
    l.(level := UNKNOW, appenders := [])
  }

  // -------------------------------------------------------------------------------------------
  // All loggers.

  function FindDefine(ds: seq<LogDefine>, name: string): Option<LogDefine> {
    if ds == [] then None else if ds[0].name == name then Some(ds[0]) else FindDefine(ds[1..], name)
  }

  function Base(s: Loggers, name: string): LoggerState {
    if name in s then s[name] else DefaultLogger(name)
  }

  // The define d is new, or its level or formatter has changed.
  predicate Changed(olds: seq<LogDefine>, d: LogDefine) {
    match FindDefine(olds, d.name)
    case None => true
    case Some(o) => !Same(d, o)
  }

  function ConfigureOne(s: Loggers, olds: seq<LogDefine>, d: LogDefine, daemon: bool): Loggers {
    if Changed(olds, d) then s[d.name := Configured(Base(s, d.name), d, daemon)] else s
  }

  function ConfigureAll(s: Loggers, olds: seq<LogDefine>, news: seq<LogDefine>, daemon: bool): Loggers {
    if news == [] then
      s
    else
      ConfigureOne(ConfigureAll(s, olds, news[..|news| - 1], daemon), olds, news[|news| - 1], daemon)
  }

  function RemoveOne(s: Loggers, news: seq<LogDefine>, o: LogDefine): Loggers {
    if FindDefine(news, o.name).None? then s[o.name := Removed(Base(s, o.name))] else s
  }

  function RemoveAll(s: Loggers, news: seq<LogDefine>, olds: seq<LogDefine>): Loggers {
    if olds == [] then s else RemoveOne(RemoveAll(s, news, olds[..|olds| - 1]), news, olds[|olds| - 1])
  }

  // The listener on the "logs" variable.
  function Reconciled(s: Loggers, olds: seq<LogDefine>, news: seq<LogDefine>, daemon: bool): Loggers {
    RemoveAll(ConfigureAll(s, olds, news, daemon), news, olds)
  }

  // -------------------------------------------------------------------------------------------
  // What the listener comes to, name by name.

  // A std::set of defines, which holds each name once, in some order.
  ghost predicate DistinctNames(ds: seq<LogDefine>) {
    forall i, j :: 0 <= i < j < |ds| ==> ds[i].name != ds[j].name
  }

  function Get(s: Loggers, name: string): Option<LoggerState> {
    if name in s then Some(s[name]) else None
  }

  function Expected(s: Loggers, olds: seq<LogDefine>, news: seq<LogDefine>, daemon: bool, name: string)
    : Option<LoggerState>
  {
    match FindDefine(news, name)
    case Some(d) => if Changed(olds, d) then Some(Configured(Base(s, name), d, daemon)) else Get(s, name)
    case None => if FindDefine(olds, name).Some? then Some(Removed(Base(s, name))) else Get(s, name)
  }

  lemma {:induction false} FindSnoc(ds: seq<LogDefine>, d: LogDefine, name: string)
    ensures FindDefine(ds + [d], name) ==
      if FindDefine(ds, name).Some? then FindDefine(ds, name) else if d.name == name then Some(d) else None
  {
    if ds == [] {
      assert [] + [d] == [d] && [d][1..] == [];
    } else {
      assert (ds + [d])[1..] == ds[1..] + [d];
      FindSnoc(ds[1..], d, name);
    }
  }

  lemma {:induction false} FindMember(ds: seq<LogDefine>, d: LogDefine)
    requires DistinctNames(ds)
    ensures FindDefine(ds, d.name) == Some(d) <==> d in ds
    ensures FindDefine(ds, d.name).Some? ==> FindDefine(ds, d.name).value in ds
  {
    if ds != [] {
      assert ds == [ds[0]] + ds[1..];
      FindMember(ds[1..], d);
    }
  }

  lemma {:induction false} FoundName(ds: seq<LogDefine>, name: string)
    ensures FindDefine(ds, name).Some? ==> FindDefine(ds, name).value.name == name
    ensures FindDefine(ds, name).None? ==> forall i :: 0 <= i < |ds| ==> ds[i].name != name
    ensures FindDefine(ds, name).Some? ==> exists i :: 0 <= i < |ds| && ds[i].name == name
  {
    if ds != [] {
      FoundName(ds[1..], name);
      if ds[0].name != name && FindDefine(ds[1..], name).Some? {
        var i :| 0 <= i < |ds[1..]| && ds[1..][i].name == name;
        assert ds[i + 1].name == name;
      }
    }
  }

  lemma {:induction false} ConfigureExact(s: Loggers, olds: seq<LogDefine>, news: seq<LogDefine>, daemon: bool,
                                          name: string)
    requires DistinctNames(news)
    ensures Get(ConfigureAll(s, olds, news, daemon), name) ==
      match FindDefine(news, name)
      case Some(d) => if Changed(olds, d) then Some(Configured(Base(s, name), d, daemon)) else Get(s, name)
      case None => Get(s, name)
  {
    if news != [] {
      var front, d := news[..|news| - 1], news[|news| - 1];
      ConfigureExact(s, olds, front, daemon, name);
      assert news == front + [d];
      FindSnoc(front, d, name);
      FoundName(front, name);
    }
  }

  lemma {:induction false} RemoveExact(s: Loggers, news: seq<LogDefine>, olds: seq<LogDefine>, name: string)
    requires DistinctNames(olds)
    ensures Get(RemoveAll(s, news, olds), name) ==
      if FindDefine(olds, name).Some? && FindDefine(news, name).None? then
        Some(Removed(Base(s, name)))
      else
        Get(s, name)
  {
    if olds != [] {
      var front, o := olds[..|olds| - 1], olds[|olds| - 1];
      RemoveExact(s, news, front, name);
      assert olds == front + [o];
      FindSnoc(front, o, name);
      FoundName(front, name);
    }
  }

  // Every define that is new or changed configures its logger, which is created if need be; every define that is gone
  // silences it; any other logger is as before.
  lemma ReconciliationExact(s: Loggers, olds: seq<LogDefine>, news: seq<LogDefine>, daemon: bool, name: string)
    requires DistinctNames(olds) && DistinctNames(news)
    ensures Get(Reconciled(s, olds, news, daemon), name) == Expected(s, olds, news, daemon, name)
  {
    ConfigureExact(s, olds, news, daemon, name);
    RemoveExact(ConfigureAll(s, olds, news, daemon), news, olds, name);
  }

  // A logger whose define is gone keeps its name and its formatter, and has level UNKNOW and no appenders.
  lemma RemovedExactly(s: Loggers, olds: seq<LogDefine>, news: seq<LogDefine>, daemon: bool, name: string)
    requires DistinctNames(olds) && DistinctNames(news)
    requires FindDefine(olds, name).Some? && FindDefine(news, name).None?
    ensures name in Reconciled(s, olds, news, daemon)
    ensures var pattern := if name in s then s[name].pattern else DEFAULT_PATTERN;
      var l := Reconciled(s, olds, news, daemon)[name];
      l.level == UNKNOW && l.appenders == [] && l.pattern == pattern &&
      l.name == if name in s then s[name].name else name
  {
    ReconciliationExact(s, olds, news, daemon, name);
  }

  lemma FindSame(ds: seq<LogDefine>, es: seq<LogDefine>, name: string)
    requires DistinctNames(ds) && DistinctNames(es) && forall d :: d in ds <==> d in es
    ensures FindDefine(ds, name) == FindDefine(es, name)
  {
    FoundName(ds, name);
    FoundName(es, name);
    if FindDefine(ds, name).Some? {
      FindMember(ds, FindDefine(ds, name).value);
      FindMember(es, FindDefine(ds, name).value);
    } else if FindDefine(es, name).Some? {
      FindMember(es, FindDefine(es, name).value);
      FindMember(ds, FindDefine(es, name).value);
    }
  }

  lemma SameLoggers(s: Loggers, t: Loggers)
    requires forall name :: Get(s, name) == Get(t, name)
    ensures s == t
  {
    forall name | name in s ensures name in t && t[name] == s[name] {
      assert Get(s, name) == Get(t, name);
    }
    forall name | name in t ensures name in s {
      assert Get(s, name) == Get(t, name);
    }
  }

  // The order in which the two sets are walked through makes no difference.
  lemma OrderIrrelevant(s: Loggers, olds: seq<LogDefine>, news: seq<LogDefine>, olds': seq<LogDefine>,
                        news': seq<LogDefine>, daemon: bool)
    requires DistinctNames(olds) && DistinctNames(news) && DistinctNames(olds') && DistinctNames(news')
    requires (forall d :: d in olds <==> d in olds') && (forall d :: d in news <==> d in news')
    ensures Reconciled(s, olds, news, daemon) == Reconciled(s, olds', news', daemon)
  {
    forall name
      ensures Get(Reconciled(s, olds, news, daemon), name) == Get(Reconciled(s, olds', news', daemon), name)
    {
      ReconciliationExact(s, olds, news, daemon, name);
      ReconciliationExact(s, olds', news', daemon, name);
      FindSame(news, news', name);
      if FindDefine(news, name).Some? {
        FoundName(news, name);
      }
      FindSame(olds, olds', name);
    }
    SameLoggers(Reconciled(s, olds, news, daemon), Reconciled(s, olds', news', daemon));
  }

  // The appenders listed in a define, in order, for a logger with the given pattern.
  function ListedAppenders(xs: seq<AppenderDefine>, pattern: string, daemon: bool): seq<Appender> {
    if xs == [] then
      []
    else
      var x := xs[|xs| - 1];
      ListedAppenders(xs[..|xs| - 1], pattern, daemon) +
      if x.kind == 2 && daemon then
        []
      else
        [Appender(if x.kind == 1 then File(x.file) else Stdout, x.level,
                  Some(if x.formatter != "" && !Patterns.Faulty(x.formatter) then x.formatter else pattern), true)]
  }

  // Each define in the list stands for one appender, in order: a file, or the standard output unless that is switched
  // off, with the level of the define, and with its formatter if that is given and sound, otherwise the logger's.
  lemma {:induction false} ListedInOrder(xs: seq<AppenderDefine>, ys: seq<AppenderDefine>, a: AppenderDefine,
                                         pattern: string, daemon: bool)
    ensures ListedAppenders(xs + ys, pattern, daemon) ==
            ListedAppenders(xs, pattern, daemon) + ListedAppenders(ys, pattern, daemon)
    ensures var own := a.formatter != "" && !Patterns.Faulty(a.formatter);
      ListedAppenders([a], pattern, daemon) ==
      if a.kind == 1 then [Appender(File(a.file), a.level, Some(if own then a.formatter else pattern), true)]
      else if a.kind == 2 && daemon then []
      else [Appender(Stdout, a.level, Some(if own then a.formatter else pattern), true)]
  {
    hide Patterns.Faulty;
    var one := [a];
    assert one[..0] == [] && ListedAppenders(one[..0], pattern, daemon) == [];
    if ys == [] {
      assert xs + ys == xs;
    } else {
      assert (xs + ys)[..|xs + ys| - 1] == xs + ys[..|ys| - 1] && (xs + ys)[|xs + ys| - 1] == ys[|ys| - 1];
      ListedInOrder(xs, ys[..|ys| - 1], a, pattern, daemon);
    }
  }

  lemma {:induction false} AddedAllLists(l: LoggerState, xs: seq<AppenderDefine>, daemon: bool)
    ensures AddedAll(l, xs, daemon) == l.(appenders := l.appenders + ListedAppenders(xs, l.pattern, daemon))
  {
    if xs == [] {
      assert l.appenders + [] == l.appenders;
    } else {
      hide Patterns.Faulty;
      AddedAllLists(l, xs[..|xs| - 1], daemon);
      var front := ListedAppenders(xs[..|xs| - 1], l.pattern, daemon);
      assert front + [] == front;
    }
  }

  // A configured logger has the level of its define, its formatter if that is given and sound, and exactly the listed
  // appenders in order, each with its own sound formatter or else the logger's.
  lemma ConfiguredExactly(l: LoggerState, d: LogDefine, daemon: bool)
    ensures var c := Configured(l, d, daemon);
      && c.name == l.name && c.level == d.level
      && c.pattern == (if d.formatter != "" && !Patterns.Faulty(d.formatter) then d.formatter else l.pattern)
      && c.appenders == ListedAppenders(d.appenders, c.pattern, daemon)
  {
    hide Patterns.Faulty;
    var leveled := l.(level := d.level);
    var formatted := if d.formatter != "" then Formatted(leveled, d.formatter) else leveled;
    AddedAllLists(formatted.(appenders := []), d.appenders, daemon);
    var xs := ListedAppenders(d.appenders, formatted.pattern, daemon);
    assert [] + xs == xs;
  }

  // -------------------------------------------------------------------------------------------
  // Consequences.

  predicate SameDefines(olds: seq<LogDefine>, news: seq<LogDefine>) {
    |olds| == |news| && forall i :: 0 <= i < |olds| ==> Same(news[i], olds[i])
  }

  lemma {:induction false} NamesAgree(olds: seq<LogDefine>, news: seq<LogDefine>, name: string)
    requires SameDefines(olds, news)
    ensures FindDefine(olds, name).Some? == FindDefine(news, name).Some?
    ensures FindDefine(news, name).Some? ==> Same(FindDefine(news, name).value, FindDefine(olds, name).value)
  {
    if olds != [] {
      assert Same(news[0], olds[0]);
      forall i | 0 <= i < |olds[1..]| ensures Same(news[1..][i], olds[1..][i]) {
        assert Same(news[i + 1], olds[i + 1]);
      }
      NamesAgree(olds[1..], news[1..], name);
    }
  }

  // Since operator== does not look at the appenders, a change that concerns them alone reaches no logger.
  lemma AppenderChangesIgnored(s: Loggers, olds: seq<LogDefine>, news: seq<LogDefine>, daemon: bool)
    requires DistinctNames(olds) && DistinctNames(news) && SameDefines(olds, news)
    ensures Reconciled(s, olds, news, daemon) == s
  {
    forall name ensures Get(Reconciled(s, olds, news, daemon), name) == Get(s, name) {
      ReconciliationExact(s, olds, news, daemon, name);
      NamesAgree(olds, news, name);
      FoundName(news, name);
    }
    SameLoggers(Reconciled(s, olds, news, daemon), s);
  }

  predicate AllOwn(l: LoggerState) {
    forall i :: 0 <= i < |l.appenders| ==> l.appenders[i].own && l.appenders[i].pattern.Some?
  }

  lemma {:induction false} NothingInherited(xs: seq<Appender>, pattern: string)
    requires forall i :: 0 <= i < |xs| ==> xs[i].own
    ensures Inherit(xs, pattern) == xs
  {
    if xs != [] {
      NothingInherited(xs[..|xs| - 1], pattern);
    }
  }

  lemma {:induction false} InheritAt(xs: seq<Appender>, pattern: string, i: nat)
    requires i < |xs|
    ensures |Inherit(xs, pattern)| == |xs|
    ensures Inherit(xs, pattern)[i] ==
      if xs[i].own then xs[i] else Appender(xs[i].sink, xs[i].level, Some(pattern), false)
  {
    if |xs| > 1 {
      InheritAt(xs[..|xs| - 1], pattern, if i < |xs| - 1 then i else 0);
    }
  }

  // setFormatter of a logger refuses a faulty pattern. A sound one becomes the logger's, and that of each appender that
  // has none of its own.
  lemma FormattedExactly(l: LoggerState, pattern: string)
    ensures Patterns.Faulty(pattern) ==> Formatted(l, pattern) == l
    ensures !Patterns.Faulty(pattern) ==>
      var f := Formatted(l, pattern);
      && f.name == l.name && f.level == l.level && f.pattern == pattern && |f.appenders| == |l.appenders|
      && forall i :: 0 <= i < |l.appenders| ==>
           && f.appenders[i].sink == l.appenders[i].sink && f.appenders[i].level == l.appenders[i].level
           && f.appenders[i].own == l.appenders[i].own
           && f.appenders[i].pattern == if l.appenders[i].own then l.appenders[i].pattern else Some(pattern)
  {
    hide Patterns.Faulty;
    if l.appenders != [] {
      InheritAt(l.appenders, pattern, 0);
    }
    forall i: nat | i < |l.appenders|
      ensures Inherit(l.appenders, pattern)[i] == if l.appenders[i].own then l.appenders[i]
        else Appender(l.appenders[i].sink, l.appenders[i].level, Some(pattern), false)
    {
      InheritAt(l.appenders, pattern, i);
    }
  }

  // addAppender leaves no appender without a formatter of its own, so a later setFormatter of the logger changes none
  // of them.
  lemma FormatterNotInherited(l: LoggerState, a: Appender, pattern: string)
    requires AllOwn(l) && (a.pattern.Some? ==> a.own)
    ensures AllOwn(Added(l, a)) && AllOwn(Formatted(l, pattern))
    ensures Formatted(l, pattern).appenders == l.appenders
  {
    hide Patterns.Faulty;
    NothingInherited(l.appenders, pattern);
  }

  // -------------------------------------------------------------------------------------------
  // Whole histories of the "logs" variable, when only the listener touches the loggers.

  // The value, the loggers, and for each name the define that was applied to its logger last.
  datatype Logs = Logs(value: seq<LogDefine>, loggers: Loggers, applied: map<string, LogDefine>)

  function ApplyAll(applied: map<string, LogDefine>, olds: seq<LogDefine>, news: seq<LogDefine>)
    : map<string, LogDefine>
  {
    if news == [] then
      applied
    else
      var d, before := news[|news| - 1], ApplyAll(applied, olds, news[..|news| - 1]);
      if Changed(olds, d) then before[d.name := d] else before
  }

  // setValue: a value equal to the present one, in the sense of operator==, is dropped.
  function SetLogs(x: Logs, value: seq<LogDefine>, daemon: bool): Logs {
    if SameDefines(x.value, value) then
      x
    else
      Logs(value, Reconciled(x.loggers, x.value, value, daemon), ApplyAll(x.applied, x.value, value))
  }

  function SetAllLogs(x: Logs, values: seq<seq<LogDefine>>, daemon: bool): Logs {
    if values == [] then x else SetLogs(SetAllLogs(x, values[..|values| - 1], daemon), values[|values| - 1], daemon)
  }

  predicate LevelInSync(s: Loggers, d: LogDefine) {
    d.name in s && s[d.name].level == d.level
  }

  predicate AppendersInSync(s: Loggers, d: LogDefine, daemon: bool) {
    d.name in s && s[d.name].appenders == ListedAppenders(d.appenders, s[d.name].pattern, daemon)
  }

  ghost predicate LevelsInSync(x: Logs) {
    forall d :: d in x.value ==> LevelInSync(x.loggers, d)
  }

  lemma LevelsFollowOnce(x: Logs, value: seq<LogDefine>, daemon: bool)
    requires LevelsInSync(x) && DistinctNames(x.value) && DistinctNames(value)
    ensures LevelsInSync(SetLogs(x, value, daemon))
  {
    if !SameDefines(x.value, value) {
      forall d | d in value ensures LevelInSync(Reconciled(x.loggers, x.value, value, daemon), d) {
        ReconciliationExact(x.loggers, x.value, value, daemon, d.name);
        FindMember(value, d);
        ConfiguredExactly(Base(x.loggers, d.name), d, daemon);
        if !Changed(x.value, d) {
          FoundName(x.value, d.name);
          FindMember(x.value, FindDefine(x.value, d.name).value);
        }
      }
    }
  }

  // After every history of changes, each logger in the configuration has the level its define gives it.
  lemma {:induction false} LevelsFollow(x: Logs, values: seq<seq<LogDefine>>, daemon: bool)
    requires LevelsInSync(x) && DistinctNames(x.value)
    requires forall i :: 0 <= i < |values| ==> DistinctNames(values[i])
    ensures LevelsInSync(SetAllLogs(x, values, daemon)) && DistinctNames(SetAllLogs(x, values, daemon).value)
  {
    if values != [] {
      LevelsFollow(x, values[..|values| - 1], daemon);
      LevelsFollowOnce(SetAllLogs(x, values[..|values| - 1], daemon), values[|values| - 1], daemon);
    }
  }

  // The appenders do not follow in the same way. If a logger's appenders are those of its define before a change, they
  // are those of the new define exactly if the level or the formatter has changed as well, or the two defines list the
  // same appenders.
  lemma AppendersFollow(x: Logs, value: seq<LogDefine>, d: LogDefine, o: LogDefine, daemon: bool)
    requires DistinctNames(x.value) && DistinctNames(value) && !SameDefines(x.value, value)
    requires d in value && o in x.value && d.name == o.name && AppendersInSync(x.loggers, o, daemon)
    ensures AppendersInSync(SetLogs(x, value, daemon).loggers, d, daemon) <==>
      d.level != o.level || d.formatter != o.formatter
      || ListedAppenders(d.appenders, x.loggers[o.name].pattern, daemon) ==
         ListedAppenders(o.appenders, x.loggers[o.name].pattern, daemon)
  {
    ReconciliationExact(x.loggers, x.value, value, daemon, d.name);
    FindMember(value, d);
    FindMember(x.value, o);
    ConfiguredExactly(Base(x.loggers, d.name), d, daemon);
  }

  // Where the new value changes what a define lists, it also changes its level or its formatter.
  ghost predicate Announced(olds: seq<LogDefine>, news: seq<LogDefine>) {
    forall o, d :: o in olds && d in news && o.name == d.name ==>
      d.appenders == o.appenders || d.level != o.level || d.formatter != o.formatter
  }

  ghost predicate AllAnnounced(x: Logs, values: seq<seq<LogDefine>>, daemon: bool) {
    values == [] ||
    (var front := values[..|values| - 1];
     var now := SetAllLogs(x, front, daemon).value;
     AllAnnounced(x, front, daemon)
     && (SameDefines(now, values[|values| - 1]) || Announced(now, values[|values| - 1])))
  }

  ghost predicate AllInSync(x: Logs, daemon: bool) {
    forall d :: d in x.value ==> AppendersInSync(x.loggers, d, daemon)
  }

  lemma AnnouncedInSync(x: Logs, value: seq<LogDefine>, daemon: bool)
    requires AllInSync(x, daemon) && DistinctNames(x.value) && DistinctNames(value)
    requires SameDefines(x.value, value) || Announced(x.value, value)
    ensures AllInSync(SetLogs(x, value, daemon), daemon)
  {
    if !SameDefines(x.value, value) {
      forall d | d in value ensures AppendersInSync(SetLogs(x, value, daemon).loggers, d, daemon) {
        ReconciliationExact(x.loggers, x.value, value, daemon, d.name);
        FindMember(value, d);
        if Changed(x.value, d) {
          ConfiguredExactly(Base(x.loggers, d.name), d, daemon);
        } else {
          var o := FindDefine(x.value, d.name).value;
          FoundName(x.value, d.name);
          FindMember(x.value, o);
          assert AppendersInSync(x.loggers, o, daemon);
        }
      }
    }
  }

  // Over a whole history: if every change that is not dropped and alters what a kept define lists also alters its level
  // or formatter, each configured logger has exactly the appenders its define lists.
  lemma {:induction false} AppendersFollowAnnounced(x: Logs, values: seq<seq<LogDefine>>, daemon: bool)
    requires AllInSync(x, daemon) && DistinctNames(x.value) && AllAnnounced(x, values, daemon)
    requires forall i :: 0 <= i < |values| ==> DistinctNames(values[i])
    ensures AllInSync(SetAllLogs(x, values, daemon), daemon) && DistinctNames(SetAllLogs(x, values, daemon).value)
  {
    if values != [] {
      AppendersFollowAnnounced(x, values[..|values| - 1], daemon);
      AnnouncedInSync(SetAllLogs(x, values[..|values| - 1], daemon), values[|values| - 1], daemon);
    }
  }

  lemma {:induction false} AppliedExact(applied: map<string, LogDefine>, olds: seq<LogDefine>, news: seq<LogDefine>,
                                        d: LogDefine)
    requires DistinctNames(news)
    ensures d in news && Changed(olds, d) ==>
      d.name in ApplyAll(applied, olds, news) && ApplyAll(applied, olds, news)[d.name] == d
    ensures d in news && !Changed(olds, d) && d.name in applied ==>
      d.name in ApplyAll(applied, olds, news) && ApplyAll(applied, olds, news)[d.name] == applied[d.name]
    ensures (forall e :: e in news ==> e.name != d.name) && d.name in applied ==>
      d.name in ApplyAll(applied, olds, news) && ApplyAll(applied, olds, news)[d.name] == applied[d.name]
  {
    if news != [] {
      var front, e := news[..|news| - 1], news[|news| - 1];
      assert news == front + [e];
      AppliedExact(applied, olds, front, d);
    }
  }

  // A configured logger has the appenders of the define applied to it last, which has the level and the formatter of
  // the present one.
  predicate AsApplied(x: Logs, d: LogDefine, daemon: bool) {
    && d.name in x.applied && Same(x.applied[d.name], d)
    && AppendersInSync(x.loggers, x.applied[d.name], daemon)
  }

  ghost predicate AllAsApplied(x: Logs, daemon: bool) {
    forall d :: d in x.value ==> AsApplied(x, d, daemon)
  }

  lemma AsAppliedOnce(x: Logs, value: seq<LogDefine>, daemon: bool)
    requires AllAsApplied(x, daemon) && DistinctNames(x.value) && DistinctNames(value)
    ensures AllAsApplied(SetLogs(x, value, daemon), daemon)
  {
    if !SameDefines(x.value, value) {
      forall d | d in value ensures AsApplied(SetLogs(x, value, daemon), d, daemon) {
        ReconciliationExact(x.loggers, x.value, value, daemon, d.name);
        FindMember(value, d);
        AppliedExact(x.applied, x.value, value, d);
        if Changed(x.value, d) {
          ConfiguredExactly(Base(x.loggers, d.name), d, daemon);
        } else {
          var o := FindDefine(x.value, d.name).value;
          FoundName(x.value, d.name);
          FindMember(x.value, o);
          assert AsApplied(x, o, daemon);
        }
      }
    }
  }

  lemma {:induction false} AsAppliedAlways(x: Logs, values: seq<seq<LogDefine>>, daemon: bool)
    requires AllAsApplied(x, daemon) && DistinctNames(x.value)
    requires forall i :: 0 <= i < |values| ==> DistinctNames(values[i])
    ensures AllAsApplied(SetAllLogs(x, values, daemon), daemon) && DistinctNames(SetAllLogs(x, values, daemon).value)
  {
    if values != [] {
      AsAppliedAlways(x, values[..|values| - 1], daemon);
      AsAppliedOnce(SetAllLogs(x, values[..|values| - 1], daemon), values[|values| - 1], daemon);
    }
  }

  // After every history of changes from the start, a configured logger has exactly the appenders its define lists if
  // and only if the define that was applied to it last lists the same appenders.
  lemma AppendersInSyncExactly(values: seq<seq<LogDefine>>, d: LogDefine, daemon: bool)
    requires forall i :: 0 <= i < |values| ==> DistinctNames(values[i])
    requires d in SetAllLogs(NOTHING_SET, values, daemon).value
    ensures var x := SetAllLogs(NOTHING_SET, values, daemon);
      && d.name in x.loggers && d.name in x.applied
      && (AppendersInSync(x.loggers, d, daemon) <==>
           ListedAppenders(d.appenders, x.loggers[d.name].pattern, daemon) ==
           ListedAppenders(x.applied[d.name].appenders, x.loggers[d.name].pattern, daemon))
  {
    AsAppliedAlways(NOTHING_SET, values, daemon);
    assert AsApplied(SetAllLogs(NOTHING_SET, values, daemon), d, daemon);
  }

  // operator== of the "logs" variable is no identity, but it is an equivalence, which is what loading again needs.
  lemma LogsEquality()
    ensures ConfigStore.Equivalence((a: seq<LogDefine>, b: seq<LogDefine>) => SameDefines(a, b))
    ensures exists a, b :: SameDefines(a, b) && a != b
  {
    var eq := (a: seq<LogDefine>, b: seq<LogDefine>) => SameDefines(a, b);
    forall a, b | eq(a, b) ensures eq(b, a) {
      forall i | 0 <= i < |a| ensures Same(a[i], b[i]) {
        assert Same(b[i], a[i]);
      }
    }
    forall a, b, c | eq(a, b) && eq(b, c) ensures eq(a, c) {
      forall i | 0 <= i < |a| ensures Same(c[i], a[i]) {
        assert Same(b[i], a[i]) && Same(c[i], b[i]);
      }
    }
    var d := Quiet("a", INFO);
    var e := d.(appenders := [AppenderDefine(2, UNKNOW, "", "")]);
    assert SameDefines([d], [e]) && [d][0] != [e][0];
  }

  const NOTHING_SET := Logs([], map[], map[])

  function Quiet(name: string, level: Level): LogDefine {
    LogDefine(name, level, "", [])
  }

  lemma TwoValues(x: Logs, a: seq<LogDefine>, b: seq<LogDefine>, daemon: bool)
    ensures SetAllLogs(x, [a, b], daemon) == SetLogs(SetLogs(x, a, daemon), b, daemon)
  {
    hide SetLogs;
    var one, two := [a], [a, b];
    assert one[..0] == [] && two[..1] == one;
    assert SetAllLogs(x, one, daemon) == SetLogs(x, a, daemon);
  }

  // A logger that is configured without appenders has none.
  lemma QuietAtFirst(value: seq<LogDefine>, name: string, level: Level)
    requires DistinctNames(value) && Quiet(name, level) in value
    ensures SetLogs(NOTHING_SET, value, false).value == value
    ensures AppendersInSync(SetLogs(NOTHING_SET, value, false).loggers, Quiet(name, level), false)
  {
    ReconciliationExact(map[], [], value, false, name);
    FindMember(value, Quiet(name, level));
    ConfiguredExactly(DefaultLogger(name), Quiet(name, level), false);
  }

  lemma OneListed(a: AppenderDefine, pattern: string)
    requires a.kind == 1
    ensures |ListedAppenders([a], pattern, false)| == 1
  {
    assert [a][..0] == [];
  }

  // A history that ends with a value which lists a file for logger "a" that the logger does not write to: the change
  // came together with one to logger "b".
  lemma AppendersMayLag() returns (x: Logs, d: LogDefine)
    ensures x == SetAllLogs(NOTHING_SET, [[Quiet("a", INFO), Quiet("b", INFO)], x.value], false)
    ensures d in x.value && !AppendersInSync(x.loggers, d, false)
  {
    var file := AppenderDefine(1, UNKNOW, "", "a.txt");
    d := Quiet("a", INFO).(appenders := [file]);
    var first, second := [Quiet("a", INFO), Quiet("b", INFO)], [d, Quiet("b", WARN)];
    var y := SetLogs(NOTHING_SET, first, false);
    x := SetLogs(y, second, false);
    TwoValues(NOTHING_SET, first, second, false);
    assert "a"[0] != "b"[0];
    assert first[0] in first && second[0] in second && !Same(second[1], first[1]);
    QuietAtFirst(first, "a", INFO);
    AppendersFollow(y, second, d, first[0], false);
    OneListed(file, y.loggers["a"].pattern);
  }
}
