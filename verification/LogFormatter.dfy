// LogFormatter: the scanner as the source runs it, and what a formatter prints.
module LogFormatter {
  import opened Options
  import opened LogPattern

  // One format item class each.
  datatype Field =
    | Message | Level | Elapse | LoggerName | ThreadNumber | NewLine
    | DateTime | FileName | LineNumber | Tab | FiberNumber | ThreadName

  datatype Item = Text(text: string) | Shown(field: Field, fmt: string)

  // An event, its parts already as text; strftime gives the event's time in a format.
  datatype Event = Event(message: string, level: string, elapse: string, logger: string, thread: string,
                         fiber: string, threadName: string, file: string, line: string, strftime: string -> string)

  // A tuple of `vec`: kind 0 is text, kind 1 a directive.
  datatype Token = Token(str: string, fmt: string, kind: int)

  const DEFAULT_TIME := "%Y-%m-%d %H:%M:%S"

  // s_format_items
  function FieldOf(name: string): Option<Field> {
    if name == "m" then Some(Message)
    else if name == "p" then Some(Level)
    else if name == "r" then Some(Elapse)
    else if name == "c" then Some(LoggerName)
    else if name == "t" then Some(ThreadNumber)
    else if name == "n" then Some(NewLine)
    else if name == "d" then Some(DateTime)
    else if name == "f" then Some(FileName)
    else if name == "l" then Some(LineNumber)
    else if name == "T" then Some(Tab)
    else if name == "F" then Some(FiberNumber)
    else if name == "N" then Some(ThreadName)
    else None
  }

  // The `format` of each item class.
  function Render(item: Item, ev: Event): string {
    match item
    case Text(text) => text
    case Shown(Message, _) => ev.message
    case Shown(Level, _) => ev.level
    case Shown(Elapse, _) => ev.elapse
    case Shown(LoggerName, _) => ev.logger
    case Shown(ThreadNumber, _) => ev.thread
    case Shown(NewLine, _) => "\n"
    case Shown(DateTime, fmt) => ev.strftime(if fmt == "" then DEFAULT_TIME else fmt)
    case Shown(FileName, _) => ev.file
    case Shown(LineNumber, _) => ev.line
    case Shown(Tab, _) => "\t"
    case Shown(FiberNumber, _) => ev.fiber
    case Shown(ThreadName, _) => ev.threadName
  }

  // -------------------------------------------------------------------------------------------
  // What a pattern means.

  function Strip(p: Piece): Token {
    match p
    case Lit(text) => Token(text, "", 0)
    case Dir(name, fmt, _) => Token(name, fmt, 1)
  }

  function Tokens(ps: seq<Piece>): (ts: seq<Token>)
    ensures |ts| == |ps|
  {
    if ps == [] then [] else Tokens(ps[..|ps| - 1]) + [Strip(ps[|ps| - 1])]
  }

  predicate Known(p: Piece) {
    p.Dir? ==> FieldOf(p.name).Some?
  }

  predicate AllKnown(ps: seq<Piece>) {
    ps == [] || (AllKnown(ps[..|ps| - 1]) && Known(ps[|ps| - 1]))
  }

  // The item made for a piece of the pattern.
  function ItemFor(p: Piece): Item {
    match p
    case Lit(text) => Text(text)
    case Dir(name, fmt, _) =>
      match FieldOf(name)
      case None => Text("<<error_format %" + name + ">>")
      case Some(field) => Shown(field, fmt)
  }

  function ItemsFor(ps: seq<Piece>): (items: seq<Item>)
    ensures |items| == |ps|
  {
    if ps == [] then [] else ItemsFor(ps[..|ps| - 1]) + [ItemFor(ps[|ps| - 1])]
  }

  // What is printed for an event: piece by piece.
  function Meaning(ps: seq<Piece>, ev: Event): string {
    if ps == [] then "" else Meaning(ps[..|ps| - 1], ev) + Render(ItemFor(ps[|ps| - 1]), ev)
  }

  // A pattern is faulty if a brace stays open or a directive has no meaning.
  predicate Faulty(pattern: string) {
    !Terminated(pattern) || !AllKnown(Scan(pattern))
  }

  // -------------------------------------------------------------------------------------------
  // The scanner's inner loop, at the % in pattern[i].

  // k characters of s, which follows a %, have been read as a name.
  predicate AtName(s: string, k: nat, str: string) {
    k <= NameLen(s) && str == if k == |s| then s else ""
  }

  // s opens a brace at b, and up to k it is not closed.
  predicate InBraces(s: string, b: nat, k: nat, str: string) {
    && OpensBrace(s) && b == NameLen(s) && b < k <= |s| && k - b - 1 <= CloseAt(Inner(s))
    && (k < |s| ==> str == s[..b])
  }

  // s begins with the directive (name, fmt), which takes `used` characters.
  predicate Reads(s: string, name: string, fmt: string, used: nat) {
    && used <= |s| && !Unclosed(s) && AfterDirective(s) == s[used..]
    && DirectiveAt(s).name == name && DirectiveAt(s).fmt == fmt
  }

  lemma NameBegins(s: string)
    ensures AtName(s, 0, "")
  {
  }

  lemma NameStays(s: string, k: nat, str: string, str': string)
    requires AtName(s, k, str) && k < |s| && (Alpha(s[k]) || s[k] == '}')
    requires str' == if k + 1 == |s| && str == "" then s else str
    ensures AtName(s, k + 1, str')
  {
  }

  lemma NameEnds(s: string, k: nat, str: string)
    requires AtName(s, k, str) && k < |s| && !Alpha(s[k]) && s[k] != '{' && s[k] != '}'
    ensures Reads(s, s[..k], "", k)
  {
  }

  lemma NameEndsAll(s: string, str: string)
    requires AtName(s, |s|, str)
    ensures Reads(s, str, "", |s|)
  {
    assert s[..|s|] == s;
  }

  lemma BraceOpens(s: string, k: nat, str: string)
    requires AtName(s, k, str) && k < |s| && s[k] == '{'
    ensures InBraces(s, k, k + 1, s[..k])
  {
    assert NameLen(s) == k;
  }

  lemma ClosedAt(inner: string, c: nat)
    requires c <= CloseAt(inner) && c < |inner| && inner[c] == '}'
    ensures CloseAt(inner) == c
  {
  }

  lemma ClosedReads(s: string, c: nat)
    requires OpensBrace(s) && CloseAt(Inner(s)) == c < |Inner(s)|
    ensures Reads(s, s[..NameLen(s)], Inner(s)[..c], NameLen(s) + 1 + c + 1)
  {
    hide NameLen;
    hide CloseAt;
    Slices(s, NameLen(s) + 1, c + 1);
  }

  lemma BraceCloses(s: string, b: nat, k: nat, str: string)
    requires InBraces(s, b, k, str) && k < |s| && s[k] == '}'
    ensures Reads(s, str, s[b + 1..k], k + 1)
  {
    hide Reads;
    hide CloseAt;
    hide NameLen;
    var c := k - b - 1;
    ClosedAt(Inner(s), c);
    ClosedReads(s, c);
    Slices(s, b + 1, c);
  }

  lemma BraceStays(s: string, b: nat, k: nat, str: string, str': string)
    requires InBraces(s, b, k, str) && k < |s| && s[k] != '}' && (k + 1 < |s| ==> str' == str)
    ensures InBraces(s, b, k + 1, str')
  {
    assert Inner(s)[k - b - 1] == s[k];
  }

  lemma NeverCloses(s: string, b: nat, str: string)
    requires InBraces(s, b, |s|, str)
    ensures Unclosed(s)
  {
  }

  lemma Slices(s: string, i: nat, k: nat)
    requires i + k <= |s|
    ensures s[i..][k..] == s[i + k..] && s[i..][..k] == s[i..i + k]
  {
  }

  lemma InnerSlice(s: string, i: nat, j: nat, k: nat)
    requires i + j <= i + k <= |s|
    ensures s[i..][j..k] == s[i + j..i + k]
  {
  }

  method ReadDirective(pattern: string, i: nat) returns (n: nat, str: string, fmt: string, status: int)
    requires i < |pattern|
    ensures i < n <= |pattern| && (status == 0 || status == 1)
    ensures status == 0 ==> Reads(pattern[i + 1..], str, fmt, n - i - 1)
    ensures status == 1 ==> Unclosed(pattern[i + 1..]) && fmt == ""
  {
    hide *;
    ghost var s := pattern[i + 1..];
    n, status, str, fmt := i + 1, 0, "", "";
    var fmtBegin := i;
    NameBegins(s);
    while n < |pattern|
      invariant i + 1 <= n <= |pattern| && (status == 0 || status == 1) && fmt == ""
      invariant status == 0 ==> AtName(s, n - i - 1, str)
      invariant status == 1 ==> i < fmtBegin < n && InBraces(s, fmtBegin - i - 1, n - i - 1, str)
      decreases |pattern| - n
    {
      ghost var k := n - i - 1;
      ghost var was := str;
      assert s[k] == pattern[n];
      Slices(pattern, i + 1, k);
      if status == 0 && !Alpha(pattern[n]) && pattern[n] != '{' && pattern[n] != '}' {
        NameEnds(s, k, str);
        str := pattern[i + 1..n];
        return;
      }
      if status == 0 {
        if pattern[n] == '{' {
          BraceOpens(s, k, str);
          str := pattern[i + 1..n];
          status := 1;
          fmtBegin := n;
          n := n + 1;
          continue;
        }
      } else if status == 1 {
        if pattern[n] == '}' {
          BraceCloses(s, fmtBegin - i - 1, k, str);
          InnerSlice(pattern, i + 1, fmtBegin - i, k);
          fmt := pattern[fmtBegin + 1..n];
          status := 0;
          n := n + 1;
          return;
        }
      }
      n := n + 1;
      if n == |pattern| {
        if str == "" {
          str := pattern[i + 1..];
        }
      }
      if status == 0 {
        NameStays(s, k, was, str);
      } else {
        BraceStays(s, fmtBegin - i - 1, k, was, str);
      }
    }
    if status == 0 {
      NameEndsAll(s, str);
    } else {
      NeverCloses(s, fmtBegin - i - 1, str);
    }
  }

  // What the outer loop has done when it comes to pattern[i]: `done` pieces, the text nstr pending.
  ghost predicate ScannedTo(pattern: string, i: nat, done: seq<Piece>, nstr: string, failed: bool) {
    && i <= |pattern| && done + ScanFrom(pattern[i..], nstr) == Scan(pattern)
    && (Terminated(pattern) <==> !failed && Terminated(pattern[i..]))
  }

  lemma ScanEnds(pattern: string, i: nat, done: seq<Piece>, nstr: string, failed: bool)
    requires ScannedTo(pattern, i, done, nstr, failed) && i >= |pattern|
    ensures Scan(pattern) == done + Flush(nstr) && Terminated(pattern) == !failed && i == |pattern|
  {
    assert pattern[i..] == "";
  }

  lemma ScanBegins(pattern: string)
    ensures ScannedTo(pattern, 0, [], "", false) && Tokens([]) == []
  {
    assert pattern[0..] == pattern;
    var ps := Scan(pattern);
    assert [] + ps == ps;
  }

  lemma TextRead(pattern: string, i: nat, done: seq<Piece>, nstr: string, failed: bool)
    requires ScannedTo(pattern, i, done, nstr, failed) && i < |pattern|
    requires pattern[i] != '%' || (i + 1 < |pattern| && pattern[i + 1] == '%')
    ensures ScannedTo(pattern, i + 1, done, nstr + [pattern[i]], failed)
  {
    assert pattern[i..][1..] == pattern[i + 1..];
  }

  lemma FaultRead(pattern: string, i: nat, done: seq<Piece>, nstr: string, failed: bool)
    requires ScannedTo(pattern, i, done, nstr, failed) && i < |pattern| && pattern[i] == '%'
    requires (i + 1 < |pattern| ==> pattern[i + 1] != '%') && Unclosed(pattern[i + 1..])
    ensures ScannedTo(pattern, i + 1, done + [Lit(ERROR_TEXT)], nstr, true)
  {
    assert pattern[i..][1..] == pattern[i + 1..];
    Regrouped(done, [Lit(ERROR_TEXT)], ScanFrom(pattern[i + 1..], nstr));
  }

  lemma Regrouped(a: seq<Piece>, b: seq<Piece>, c: seq<Piece>)
    ensures (a + b) + c == a + (b + c)
  {
  }

  lemma TokensSnoc(ps: seq<Piece>, p: Piece)
    ensures Tokens(ps + [p]) == Tokens(ps) + [Strip(p)]
  {
    assert (ps + [p])[..|ps|] == ps;
  }

  lemma TokensText(ps: seq<Piece>, text: string)
    ensures Tokens(ps + [Lit(text)]) == Tokens(ps) + [Token(text, "", 0)]
  {
    TokensSnoc(ps, Lit(text));
  }

  lemma TokensFlushed(ps: seq<Piece>, nstr: string)
    ensures Tokens(ps + Flush(nstr)) == Tokens(ps) + if nstr == "" then [] else [Token(nstr, "", 0)]
  {
    if nstr == "" {
      assert ps + [] == ps;
    } else {
      TokensSnoc(ps, Lit(nstr));
    }
  }

  lemma TokensDirective(ps: seq<Piece>, nstr: string, d: Piece)
    ensures Tokens(ps + (Flush(nstr) + [d])) ==
            (Tokens(ps) + if nstr == "" then [] else [Token(nstr, "", 0)]) + [Strip(d)]
  {
    Regrouped(ps, Flush(nstr), [d]);
    TokensSnoc(ps + Flush(nstr), d);
    TokensFlushed(ps, nstr);
  }

  lemma DirectiveRead(pattern: string, i: nat, done: seq<Piece>, nstr: string, failed: bool, str: string, fmt: string,
                      n: nat) returns (done': seq<Piece>)
    requires ScannedTo(pattern, i, done, nstr, failed) && i < n <= |pattern| && pattern[i] == '%'
    requires (i + 1 < |pattern| ==> pattern[i + 1] != '%') && Reads(pattern[i + 1..], str, fmt, n - i - 1)
    ensures ScannedTo(pattern, n, done', "", failed)
    ensures Tokens(done') ==
            (Tokens(done) + if nstr == "" then [] else [Token(nstr, "", 0)]) + [Token(str, fmt, 1)]
  {
    var d := DirectiveAt(pattern[i + 1..]);
    assert pattern[i..][1..] == pattern[i + 1..];
    Slices(pattern, i + 1, n - i - 1);
    Regrouped(done, Flush(nstr) + [d], ScanFrom(pattern[n..], ""));
    TokensDirective(done, nstr, d);
    done' := done + (Flush(nstr) + [d]);
  }

  lemma {:induction false} TokenAt(ps: seq<Piece>, i: nat)
    requires i < |ps|
    ensures Tokens(ps)[i] == Strip(ps[i])
  {
    if i < |ps| - 1 {
      TokenAt(ps[..|ps| - 1], i);
    }
  }

  lemma {:induction false} ItemAt(ps: seq<Piece>, i: nat)
    requires i < |ps|
    ensures ItemsFor(ps)[i] == ItemFor(ps[i])
  {
    if i < |ps| - 1 {
      ItemAt(ps[..|ps| - 1], i);
    }
  }

  lemma PrefixSnoc(ps: seq<Piece>, i: nat)
    requires i < |ps|
    ensures ps[..i + 1][..i] == ps[..i]
  {
  }

  class Formatter {
    const pattern: string
    var items: seq<Item>   // m_items
    var error: bool        // m_error

    // The items stand for the pieces of the pattern.
    ghost predicate Valid()
      reads this
    {
      items == ItemsFor(Scan(pattern))
    }

    constructor (pattern: string)
      ensures this.pattern == pattern && Valid() && error == Faulty(pattern)
    {
      this.pattern, items, error := pattern, [], false;
      new;
      Init();
    }

    // The part of the outer loop that deals with a directive at pattern[i].
    method TakeDirective(i: nat, nstr: string, vec: seq<Token>, ghost done: seq<Piece>, ghost failed: bool)
      returns (next: nat, nstr': string, vec': seq<Token>, ghost done': seq<Piece>, ghost failed': bool)
      requires ScannedTo(pattern, i, done, nstr, failed) && vec == Tokens(done) && (failed ==> error)
      requires i < |pattern| && pattern[i] == '%' && (i + 1 < |pattern| ==> pattern[i + 1] != '%')
      modifies this`error
      ensures i < next && ScannedTo(pattern, next, done', nstr', failed') && vec' == Tokens(done')
      ensures error == (old(error) || failed') && (failed ==> failed')
    {
      hide *;
      var n, str, fmt, status := ReadDirective(pattern, i);
      nstr', vec', failed' := nstr, vec, failed || status == 1;
      if status == 0 {
        done' := DirectiveRead(pattern, i, done, nstr, failed, str, fmt, n);
        if nstr' != "" {
          vec' := vec' + [Token(nstr', "", 0)];
          nstr' := "";
        }
        vec' := vec' + [Token(str, fmt, 1)];
        next := n;
      } else {
        FaultRead(pattern, i, done, nstr, failed);
        TokensText(done, ERROR_TEXT);
        done' := done + [Lit(ERROR_TEXT)];
        error := true;
        vec' := vec' + [Token(ERROR_TEXT, fmt, 0)];
        next := i + 1;
      }
    }

    // The scanner. Its tokens are the pieces of the pattern.
    method Tokenize() returns (vec: seq<Token>)
      modifies this`error
      ensures vec == Tokens(Scan(pattern)) && error == (old(error) || !Terminated(pattern))
    {
      hide *;
      vec := [];
      var nstr := "";
      var i := 0;
      ghost var done, failed := [], false;
      ScanBegins(pattern);
      while i < |pattern|
        invariant ScannedTo(pattern, i, done, nstr, failed) && vec == Tokens(done)
        invariant error == (old(error) || failed)
        decreases |pattern| - i
      {
        if pattern[i] != '%' {
          TextRead(pattern, i, done, nstr, failed);
          nstr := nstr + [pattern[i]];
          i := i + 1;
          continue;
        }
        if i + 1 < |pattern| {
          if pattern[i + 1] == '%' {
            TextRead(pattern, i, done, nstr, failed);
            nstr := nstr + [pattern[i]];
            i := i + 1;
            continue;
          }
        }
        i, nstr, vec, done, failed := TakeDirective(i, nstr, vec, done, failed);
      }
      ScanEnds(pattern, i, done, nstr, failed);
      TokensFlushed(done, nstr);
      if nstr != "" {
        vec := vec + [Token(nstr, "", 0)];
      }
    }

    // init(): afterwards the formatter is in error if the pattern is faulty.
    method Init()
      requires items == []
      modifies this
      ensures Valid() && error == (old(error) || Faulty(pattern))
    {
      var vec := Tokenize();
      ghost var ps := Scan(pattern);
      ghost var was := error;
      var i := 0;
      while i < |vec|
        invariant 0 <= i <= |vec| == |ps| && items == ItemsFor(ps[..i])
        invariant vec == Tokens(ps) && error == (was || !AllKnown(ps[..i]))
      {
        PrefixSnoc(ps, i);
        TokenAt(ps, i);
        if vec[i].kind == 0 {
          items := items + [Text(vec[i].str)];
        } else {
          var field := FieldOf(vec[i].str);
          if field.None? {
            items := items + [Text("<<error_format %" + vec[i].str + ">>")];
            error := true;
          } else {
            items := items + [Shown(field.value, vec[i].fmt)];
          }
        }
        i := i + 1;
      }
      assert ps[..i] == ps;
    }

    predicate IsError()
      reads this
    {
      error
    }

    // format(): what is printed for the event is what the pattern means.
    method Format(ev: Event) returns (ss: string)
      requires Valid()
      ensures ss == Meaning(Scan(pattern), ev)
    {
      ss := "";
      ghost var ps := Scan(pattern);
      var i := 0;
      while i < |items|
        invariant 0 <= i <= |items| && ss == Meaning(ps[..i], ev)
      {
        PrefixSnoc(ps, i);
        ItemAt(ps, i);
        ss := ss + Render(items[i], ev);
        i := i + 1;
      }
      assert ps[..i] == ps;
    }
  }

  // A canonical list of pieces whose directives are all known is spelled by a pattern that has no error and means just
  // these pieces.
  lemma {:induction false} CanonicalPattern(ps: seq<Piece>, ev: Event)
    requires Canonical(ps) && AllKnown(ps)
    ensures !Faulty(Print(ps)) && Meaning(Scan(Print(ps)), ev) == Meaning(ps, ev)
    ensures ItemsFor(Scan(Print(ps))) == ItemsFor(ps)
  {
    RoundTrip(ps);
    LosslessScan(Print(ps));
  }
}
