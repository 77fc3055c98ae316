// The pattern language of LogFormatter: how a pattern is cut into pieces, and how pieces are spelled.
module LogPattern {
  // A stretch of text, or a directive: % with a name, and a format in braces if `braced`.
  datatype Piece = Lit(text: string) | Dir(name: string, fmt: string, braced: bool)

  const ERROR_TEXT := "<<pattern_error>>"

  // std::isalpha in the C locale.
  predicate Alpha(c: char) {
    'a' <= c <= 'z' || 'A' <= c <= 'Z'
  }

  // The scanner lets } stand in the name of a directive.
  predicate NameChar(c: char) {
    Alpha(c) || c == '}'
  }

  // Length of the longest prefix of s that is a name.
  function NameLen(s: string): (n: nat)
    ensures n <= |s| && (forall i :: 0 <= i < n ==> NameChar(s[i])) && (n < |s| ==> !NameChar(s[n]))
  {
    if s == "" || !NameChar(s[0]) then 0 else 1 + NameLen(s[1..])
  }

  // Index of the first } in s, |s| if there is none.
  function CloseAt(s: string): (n: nat)
    ensures n <= |s| && (forall i :: 0 <= i < n ==> s[i] != '}') && (n < |s| ==> s[n] == '}')
  {
    if s == "" || s[0] == '}' then 0 else 1 + CloseAt(s[1..])
  }

  predicate OpensBrace(s: string) {
    NameLen(s) < |s| && s[NameLen(s)] == '{'
  }

  // What follows the opening brace.
  function Inner(s: string): (r: string)
    requires OpensBrace(s)
    ensures |r| < |s|
  {
    s[NameLen(s) + 1..]
  }

  // s, which follows a %, opens a brace that is never closed.
  predicate Unclosed(s: string) {
    OpensBrace(s) && CloseAt(Inner(s)) == |Inner(s)|
  }

  function DirectiveAt(s: string): Piece
    requires !Unclosed(s)
  {
    if OpensBrace(s) then
      Dir(s[..NameLen(s)], Inner(s)[..CloseAt(Inner(s))], true)
    else
      Dir(s[..NameLen(s)], "", false)
  }

  function AfterDirective(s: string): (r: string)
    requires !Unclosed(s)
    ensures |r| <= |s|
  {
    if OpensBrace(s) then Inner(s)[CloseAt(Inner(s)) + 1..] else s[NameLen(s)..]
  }

  function Flush(nstr: string): seq<Piece> {
    if nstr == "" then [] else [Lit(nstr)]
  }

  // The pieces of s, when the text nstr has been read before it. An unclosed brace puts the error text in front of the
  // text read so far, and the scan goes on right behind the %.
  function ScanFrom(s: string, nstr: string): seq<Piece>
    decreases |s|
  {
    if s == "" then
      Flush(nstr)
    else if s[0] != '%' || (|s| > 1 && s[1] == '%') then
      ScanFrom(s[1..], nstr + [s[0]])
    else if Unclosed(s[1..]) then
      [Lit(ERROR_TEXT)] + ScanFrom(s[1..], nstr)
    else
      Flush(nstr) + [DirectiveAt(s[1..])] + ScanFrom(AfterDirective(s[1..]), "")
  }

  function Scan(pattern: string): seq<Piece> {
    ScanFrom(pattern, "")
  }

  // No directive of the pattern has an unclosed brace.
  predicate Terminated(s: string)
    decreases |s|
  {
    if s == "" then
      true
    else if s[0] != '%' || (|s| > 1 && s[1] == '%') then
      Terminated(s[1..])
    else
      !Unclosed(s[1..]) && Terminated(AfterDirective(s[1..]))
  }

  // -------------------------------------------------------------------------------------------
  // Spelling pieces out.

  function Spell(p: Piece): string {
    match p
    case Lit(text) => text
    case Dir(name, fmt, braced) => "%" + name + if braced then "{" + fmt + "}" else ""
  }

  function Print(ps: seq<Piece>): string {
    if ps == [] then "" else Spell(ps[0]) + Print(ps[1..])
  }

  lemma {:induction false} PrintConcat(a: seq<Piece>, b: seq<Piece>)
    ensures Print(a + b) == Print(a) + Print(b)
  {
    if a == [] {
      assert a + b == b;
    } else {
      assert (a + b)[1..] == a[1..] + b;
      PrintConcat(a[1..], b);
    }
  }

  lemma FlushPrints(nstr: string)
    ensures Print(Flush(nstr)) == nstr
  {
  }

  lemma Assoc(a: string, b: string, c: string)
    ensures (a + b) + c == a + (b + c)
  {
  }

  // The text read so far, a directive, and what follows.
  lemma DirectivePrints(nstr: string, d: Piece, tail: seq<Piece>)
    ensures Print(Flush(nstr) + [d] + tail) == nstr + (Spell(d) + Print(tail))
  {
    PrintConcat(Flush(nstr) + [d], tail);
    PrintConcat(Flush(nstr), [d]);
    FlushPrints(nstr);
    assert Print([d]) == Spell(d) + Print([]) == Spell(d);
    Assoc(nstr, Spell(d), Print(tail));
  }

  lemma BracedSpelled(name: string, fmt: string, rest: string)
    ensures Spell(Dir(name, fmt, true)) + rest == "%" + (name + ("{" + (fmt + ("}" + rest))))
  {
    Assoc("%" + name, "{" + fmt + "}", rest);
    Assoc("{" + fmt, "}", rest);
    Assoc("{", fmt, "}" + rest);
    Assoc("%", name, "{" + (fmt + ("}" + rest)));
  }

  lemma SplitAt(s: string, k: nat)
    requires k < |s|
    ensures s == s[..k] + ([s[k]] + s[k + 1..])
  {
  }

  lemma SplitBraced(s: string, k: nat, inner: string, c: nat)
    requires k < |s| && s[k] == '{' && inner == s[k + 1..] && c < |inner| && inner[c] == '}'
    ensures Spell(Dir(s[..k], inner[..c], true)) + inner[c + 1..] == "%" + s
  {
    BracedSpelled(s[..k], inner[..c], inner[c + 1..]);
    SplitAt(s, k);
    SplitAt(inner, c);
    assert [s[k]] == "{" && [inner[c]] == "}";
  }

  lemma SplitBare(s: string, k: nat)
    requires k <= |s|
    ensures Spell(Dir(s[..k], "", false)) + s[k..] == "%" + s
  {
    Assoc("%", s[..k], s[k..]);
    assert s == s[..k] + s[k..];
  }

  // A directive is spelled the way it was read.
  lemma DirectiveSpelled(s: string)
    requires !Unclosed(s)
    ensures Spell(DirectiveAt(s)) + AfterDirective(s) == "%" + s
  {
    hide Spell;
    hide NameLen;
    hide CloseAt;
    if OpensBrace(s) {
      var k, inner := NameLen(s), Inner(s);
      SplitBraced(s, k, inner, CloseAt(inner));
      assert DirectiveAt(s) == Dir(s[..k], inner[..CloseAt(inner)], true);
    } else {
      SplitBare(s, NameLen(s));
    }
  }

  lemma {:induction false} TerminatedIsLossless(s: string, nstr: string)
    requires Terminated(s)
    ensures Print(ScanFrom(s, nstr)) == nstr + s
    decreases |s|
  {
    if s == "" {
      FlushPrints(nstr);
    } else if s[0] != '%' || (|s| > 1 && s[1] == '%') {
      TerminatedIsLossless(s[1..], nstr + [s[0]]);
      Assoc(nstr, [s[0]], s[1..]);
      assert [s[0]] + s[1..] == s;
    } else {
      var rest := AfterDirective(s[1..]);
      TerminatedIsLossless(rest, "");
      assert "" + rest == rest;
      DirectivePrints(nstr, DirectiveAt(s[1..]), ScanFrom(rest, ""));
      DirectiveSpelled(s[1..]);
      assert "%" + s[1..] == s;
    }
  }

  // Every unclosed brace adds its error text and loses one %, so the spelling comes out longer than the pattern.
  lemma {:induction false} UnterminatedIsLonger(s: string, nstr: string)
    ensures |Print(ScanFrom(s, nstr))| >= |nstr| + |s|
    ensures !Terminated(s) ==> |Print(ScanFrom(s, nstr))| > |nstr| + |s|
    decreases |s|
  {
    if s == "" {
      FlushPrints(nstr);
    } else if s[0] != '%' || (|s| > 1 && s[1] == '%') {
      UnterminatedIsLonger(s[1..], nstr + [s[0]]);
    } else if Unclosed(s[1..]) {
      UnterminatedIsLonger(s[1..], nstr);
      PrintConcat([Lit(ERROR_TEXT)], ScanFrom(s[1..], nstr));
      assert Print([Lit(ERROR_TEXT)]) == ERROR_TEXT + Print([]);
    } else {
      var rest := AfterDirective(s[1..]);
      UnterminatedIsLonger(rest, "");
      DirectivePrints(nstr, DirectiveAt(s[1..]), ScanFrom(rest, ""));
      DirectiveSpelled(s[1..]);
      assert |Spell(DirectiveAt(s[1..])) + rest| == |s|;
    }
  }

  // The scan loses nothing exactly if every brace a directive opens is closed.
  lemma LosslessScan(pattern: string)
    ensures Print(Scan(pattern)) == pattern <==> Terminated(pattern)
  {
    if Terminated(pattern) {
      TerminatedIsLossless(pattern, "");
      assert "" + pattern == pattern;
    } else {
      UnterminatedIsLonger(pattern, "");
    }
  }

  // -------------------------------------------------------------------------------------------
  // Which lists of pieces are read back from their spelling.

  predicate StartsWith(s: string, c: char) {
    s != "" && s[0] == c
  }

  // Every % of the text is followed by another one; `rest` follows the text.
  predicate PercentsDoubled(text: string, rest: string) {
    forall k :: 0 <= k < |text| && text[k] == '%' ==> PercentAfter(text, rest, k)
  }

  predicate PercentAfter(text: string, rest: string, k: nat)
    requires k < |text|
  {
    if k + 1 < |text| then text[k + 1] == '%' else StartsWith(rest, '%')
  }

  predicate IsName(name: string) {
    forall i :: 0 <= i < |name| ==> NameChar(name[i])
  }

  // A directive without braces ends where `rest` begins.
  predicate Ends(name: string, rest: string) {
    rest == "" || (!NameChar(rest[0]) && rest[0] != '{' && (name == "" ==> rest[0] != '%'))
  }

  // The piece p can be read where it stands; `rest` follows it.
  predicate PieceOk(p: Piece, rest: string) {
    match p
    case Lit(text) => text != "" && PercentsDoubled(text, rest)
    case Dir(name, fmt, braced) => IsName(name) && if braced then '}' !in fmt else fmt == "" && Ends(name, rest)
  }

  predicate Canonical(ps: seq<Piece>) {
    ps == [] || (PieceOk(ps[0], Print(ps[1..])) && (ps[0].Lit? && |ps| > 1 ==> ps[1].Dir?) && Canonical(ps[1..]))
  }

  // The list ps, read when nstr was pending.
  function Joined(nstr: string, ps: seq<Piece>): seq<Piece> {
    if ps != [] && ps[0].Lit? then [Lit(nstr + ps[0].text)] + ps[1..] else Flush(nstr) + ps
  }

  lemma {:induction false} NameLenOf(name: string, tail: string)
    requires IsName(name) && (tail == "" || !NameChar(tail[0]))
    ensures NameLen(name + tail) == |name|
  {
    if name == "" {
      assert name + tail == tail;
    } else {
      assert (name + tail)[1..] == name[1..] + tail;
      NameLenOf(name[1..], tail);
    }
  }

  lemma {:induction false} CloseAtOf(fmt: string, tail: string)
    requires '}' !in fmt && StartsWith(tail, '}')
    ensures CloseAt(fmt + tail) == |fmt|
  {
    if fmt == "" {
      assert fmt + tail == tail;
    } else {
      assert (fmt + tail)[1..] == fmt[1..] + tail;
      CloseAtOf(fmt[1..], tail);
    }
  }

  lemma {:induction false} TextScanned(text: string, rest: string, nstr: string)
    requires PercentsDoubled(text, rest)
    ensures ScanFrom(text + rest, nstr) == ScanFrom(rest, nstr + text)
  {
    if text == "" {
      assert text + rest == rest && nstr + text == nstr;
    } else {
      var s := text + rest;
      assert s[1..] == text[1..] + rest;
      assert text[0] == '%' ==> PercentAfter(text, rest, 0);
      forall k | 0 <= k < |text[1..]| && text[1..][k] == '%' ensures PercentAfter(text[1..], rest, k) {
        assert PercentAfter(text, rest, k + 1);
      }
      TextScanned(text[1..], rest, nstr + [text[0]]);
      assert nstr + [text[0]] + text[1..] == nstr + text;
    }
  }

  lemma BracedRead(name: string, fmt: string, rest: string)
    requires IsName(name) && '}' !in fmt
    ensures var s := name + ("{" + (fmt + ("}" + rest)));
      !Unclosed(s) && DirectiveAt(s) == Dir(name, fmt, true) && AfterDirective(s) == rest
  {
    var inner := fmt + ("}" + rest);
    var s := name + ("{" + inner);
    NameLenOf(name, "{" + inner);
    CloseAtOf(fmt, "}" + rest);
    assert s[|name| + 1..] == inner;
  }

  lemma BareRead(name: string, rest: string)
    requires IsName(name) && Ends(name, rest)
    ensures !Unclosed(name + rest) && DirectiveAt(name + rest) == Dir(name, "", false)
    ensures AfterDirective(name + rest) == rest
  {
    NameLenOf(name, rest);
  }

  // What follows the % of a spelled directive.
  function Body(d: Piece, rest: string): string
    requires d.Dir?
  {
    if d.braced then d.name + ("{" + (d.fmt + ("}" + rest))) else d.name + rest
  }

  lemma BodySpelled(d: Piece, rest: string)
    requires d.Dir?
    ensures Spell(d) + rest == "%" + Body(d, rest)
  {
    if d.braced {
      BracedSpelled(d.name, d.fmt, rest);
    } else {
      Assoc("%", d.name, rest);
    }
  }

  lemma DirectiveScanned(d: Piece, rest: string, nstr: string)
    requires d.Dir? && PieceOk(d, rest)
    ensures ScanFrom(Spell(d) + rest, nstr) == Flush(nstr) + [d] + ScanFrom(rest, "")
  {
    BodySpelled(d, rest);
    var s := "%" + Body(d, rest);
    assert s[1..] == Body(d, rest);
    assert !StartsWith(Body(d, rest), '%');
    if d.braced {
      BracedRead(d.name, d.fmt, rest);
    } else {
      BareRead(d.name, rest);
    }
  }

  lemma {:induction false} CanonicalReadBack(ps: seq<Piece>, nstr: string)
    requires Canonical(ps)
    ensures ScanFrom(Print(ps), nstr) == Joined(nstr, ps)
    decreases |ps|
  {
    if ps == [] {
    } else if ps[0].Lit? {
      TextScanned(ps[0].text, Print(ps[1..]), nstr);
      CanonicalReadBack(ps[1..], nstr + ps[0].text);
    } else {
      DirectiveScanned(ps[0], Print(ps[1..]), nstr);
      CanonicalReadBack(ps[1..], "");
      JoinedEmpty(ps[1..]);
      Rejoined(nstr, ps);
    }
  }

  lemma JoinedEmpty(ps: seq<Piece>)
    ensures Joined("", ps) == ps
  {
    if ps != [] && ps[0].Lit? {
      assert "" + ps[0].text == ps[0].text;
      assert ps == [ps[0]] + ps[1..];
    } else {
      assert [] + ps == ps;
    }
  }

  lemma Rejoined(nstr: string, ps: seq<Piece>)
    requires ps != []
    ensures Flush(nstr) + [ps[0]] + ps[1..] == Flush(nstr) + ps
  {
    assert ps == [ps[0]] + ps[1..];
  }

  lemma DirectiveOk(s: string)
    requires !Unclosed(s) && !StartsWith(s, '%')
    ensures PieceOk(DirectiveAt(s), AfterDirective(s))
  {
  }

  lemma {:induction false} ScanIsCanonical(s: string, nstr: string)
    requires Terminated(s) && PercentsDoubled(nstr, s)
    ensures Canonical(ScanFrom(s, nstr))
    decreases |s|
  {
    if s == "" {
      assert nstr != "" ==> [Lit(nstr)][1..] == [];
    } else if s[0] != '%' || (|s| > 1 && s[1] == '%') {
      PendingDoubled(nstr, s);
      ScanIsCanonical(s[1..], nstr + [s[0]]);
    } else {
      var d, rest := DirectiveAt(s[1..]), AfterDirective(s[1..]);
      var tail := ScanFrom(rest, "");
      DirectiveOk(s[1..]);
      ScanIsCanonical(rest, "");
      TerminatedIsLossless(rest, "");
      assert "" + rest == rest;
      DirectiveSpelled(s[1..]);
      BodySpelled(d, rest);
      assert "%" + s[1..] == s;
      FlushedOk(nstr, d, tail);
    }
  }

  lemma PendingDoubled(nstr: string, s: string)
    requires PercentsDoubled(nstr, s) && s != "" && (s[0] != '%' || StartsWith(s[1..], '%'))
    ensures PercentsDoubled(nstr + [s[0]], s[1..])
  {
    forall k | 0 <= k < |nstr + [s[0]]| && (nstr + [s[0]])[k] == '%'
      ensures PercentAfter(nstr + [s[0]], s[1..], k)
    {
      assert k < |nstr| ==> PercentAfter(nstr, s, k);
    }
  }

  lemma CanonicalCons(p: Piece, ps: seq<Piece>)
    requires PieceOk(p, Print(ps)) && Canonical(ps) && (p.Lit? && ps != [] ==> ps[0].Dir?)
    ensures Canonical([p] + ps)
  {
    assert ([p] + ps)[1..] == ps;
  }

  lemma FlushedOk(nstr: string, d: Piece, tail: seq<Piece>)
    requires d.Dir? && PieceOk(d, Print(tail)) && Canonical(tail) && PercentsDoubled(nstr, "%" + Body(d, Print(tail)))
    ensures Canonical(Flush(nstr) + [d] + tail)
  {
    var ps := [d] + tail;
    CanonicalCons(d, tail);
    assert Flush(nstr) + [d] + tail == Flush(nstr) + ps;
    if nstr != "" {
      assert ps[1..] == tail;
      BodySpelled(d, Print(tail));
      CanonicalCons(Lit(nstr), ps);
    } else {
      assert [] + ps == ps;
    }
  }

  lemma ReadBackIsCanonical(ps: seq<Piece>)
    requires Scan(Print(ps)) == ps
    ensures Canonical(ps)
  {
    LosslessScan(Print(ps));
    ScanIsCanonical(Print(ps), "");
  }

  // A list of pieces is read back from its spelling exactly if it is canonical.
  lemma {:induction false} RoundTrip(ps: seq<Piece>)
    ensures Scan(Print(ps)) == ps <==> Canonical(ps)
  {
    if Canonical(ps) {
      CanonicalReadBack(ps, "");
      JoinedEmpty(ps);
    } else if Scan(Print(ps)) == ps {
      ReadBackIsCanonical(ps);
    }
  }

  // ... so scanning and spelling are inverse to each other between the terminated patterns and the canonical lists.
  lemma ScanIsOnto(pattern: string)
    requires Terminated(pattern)
    ensures Canonical(Scan(pattern)) && Print(Scan(pattern)) == pattern
  {
    ScanIsCanonical(pattern, "");
    LosslessScan(pattern);
  }

  // %% is no escape for %: the first % becomes text and the second is read again. Unless a third % follows, it begins a
  // directive, or an error if that opens a brace and never closes it.
  lemma DoubledPercent(text: string, rest: string)
    requires '%' !in text
    ensures var pieces := Scan(text + ("%%" + rest));
      && pieces == ScanFrom("%" + rest, text + "%")
      && (!StartsWith(rest, '%') && Unclosed(rest) ==> pieces == [Lit(ERROR_TEXT)] + ScanFrom(rest, text + "%"))
      && (!StartsWith(rest, '%') && !Unclosed(rest) ==>
           pieces == [Lit(text + "%"), DirectiveAt(rest)] + Scan(AfterDirective(rest)))
  {
    var s := "%%" + rest;
    TextScanned(text, s, "");
    assert "" + text == text;
    assert s[1..] == "%" + rest && s[1..][1..] == rest;
    assert ScanFrom(s, text) == ScanFrom(s[1..], text + "%");
    if !StartsWith(rest, '%') && !Unclosed(rest) {
      assert Flush(text + "%") + [DirectiveAt(rest)] == [Lit(text + "%"), DirectiveAt(rest)];
    }
  }

  // -------------------------------------------------------------------------------------------
  // What may stand in a name, character by character.

  // A pattern of % and one character: a letter is the name of a directive, and so is }; an opening brace is an error,
  // and any other character ends the directive before it has a name.
  lemma OneCharacter(c: char)
    ensures Scan("%" + [c]) ==
      if ('a' <= c && c <= 'z') || ('A' <= c && c <= 'Z') || c == '}' then [Dir([c], "", false)]
      else if c == '{' then [Lit("<<pattern_error>>"), Lit("{")]
      else if c == '%' then [Lit("%"), Dir("", "", false)]
      else [Dir("", "", false), Lit([c])]
  {
    var s, one := "%" + [c], [c];
    assert s[1..] == one && one[1..] == "" && one[..0] == "" && one[..1] == one && one[0..] == one;
    assert NameLen("") == 0;
    if NameChar(c) {
      assert NameLen(one) == 1;
      DirectiveFirst(one);
    } else if c == '%' {
      BareScanned(one);
      assert "" + [s[0]] == one;
      assert Flush(one) + [Dir("", "", false)] == [Lit("%"), Dir("", "", false)];
    } else {
      assert NameLen(one) == 0;
      TextLast(c);
      if c == '{' {
        assert Inner(one) == "" && Unclosed(one);
      } else {
        DirectiveFirst(one);
      }
    }
  }

  lemma DirectiveFirst(s: string)
    requires !Unclosed(s) && !StartsWith(s, '%')
    ensures Scan("%" + s) == [DirectiveAt(s)] + Scan(AfterDirective(s))
  {
    assert ("%" + s)[1..] == s;
    assert [] + [DirectiveAt(s)] == [DirectiveAt(s)];
  }

  lemma TextLast(c: char)
    requires c != '%'
    ensures Scan([c]) == [Lit([c])]
  {
    assert [c][1..] == "" && "" + [c] == [c];
    assert ScanFrom("", [c]) == [Lit([c])];
  }

  // A % at the very end.
  lemma BareScanned(nstr: string)
    ensures ScanFrom("%", nstr) == Flush(nstr) + [Dir("", "", false)]
  {
    assert "%"[1..] == "" && ""[..0] == "" && ""[0..] == "";
    assert ScanFrom("", "") == [];
  }

  // A name goes on as long as letters and } follow, and no other character is part of it.
  lemma NameExtent(name: string, c: char, rest: string)
    requires name != ""
    requires forall i :: 0 <= i < |name| ==>
      ('a' <= name[i] && name[i] <= 'z') || ('A' <= name[i] && name[i] <= 'Z') || name[i] == '}'
    requires !(('a' <= c && c <= 'z') || ('A' <= c && c <= 'Z') || c == '}' || c == '{')
    ensures Scan("%" + (name + ([c] + rest))) == [Dir(name, "", false)] + Scan([c] + rest)
  {
    var d := Dir(name, "", false);
    DirectiveScanned(d, [c] + rest, "");
    BodySpelled(d, [c] + rest);
    assert [] + [d] == [d];
  }
}
