// What single directives and the default pattern print, character by character.
module LogPrinting {
  import opened Options
  import opened LogPattern
  import opened LogFormatter
  import LogLoggers

  lemma MeaningOne(p: Piece, ev: Event)
    ensures Meaning([p], ev) == Render(ItemFor(p), ev)
    ensures AllKnown([p]) == Known(p)
  {
    assert [p][..0] == [];
    assert Meaning([p], ev) == "" + Render(ItemFor(p), ev);
  }

  // What one directive prints. Only %d looks at its format; a name without a meaning prints an error text.
  lemma OneDirective(name: string, fmt: string, braced: bool, ev: Event)
    ensures Meaning([Dir(name, fmt, braced)], ev) ==
      if name == "m" then ev.message
      else if name == "p" then ev.level
      else if name == "r" then ev.elapse
      else if name == "c" then ev.logger
      else if name == "t" then ev.thread
      else if name == "n" then "\n"
      else if name == "d" then ev.strftime(if fmt == "" then "%Y-%m-%d %H:%M:%S" else fmt)
      else if name == "f" then ev.file
      else if name == "l" then ev.line
      else if name == "T" then "\t"
      else if name == "F" then ev.fiber
      else if name == "N" then ev.threadName
      else "<<error_format %" + name + ">>"
  {
    MeaningOne(Dir(name, fmt, braced), ev);
  }

  predicate Letter(c: char) {
    ('a' <= c && c <= 'z') || ('A' <= c && c <= 'Z')
  }

  // A letter after % stands for its directive, with a format in braces or without; the pattern is sound for exactly
  // twelve of them.
  lemma LetterPattern(c: char, fmt: string, ev: Event)
    requires Letter(c) && '}' !in fmt
    ensures Meaning(Scan("%" + [c]), ev) == Meaning([Dir([c], "", false)], ev)
    ensures Meaning(Scan("%" + ([c] + ("{" + (fmt + "}")))), ev) == Meaning([Dir([c], fmt, true)], ev)
    ensures Faulty("%" + [c]) == (c !in "mprctndflTFN")
    ensures Faulty("%" + ([c] + ("{" + (fmt + "}")))) == (c !in "mprctndflTFN")
  {
    OneCharacter(c);
    var bare, braced := Dir([c], "", false), Dir([c], fmt, true);
    DirectiveScanned(braced, "", "");
    BodySpelled(braced, "");
    assert [c][0] == c;
    assert "}" + "" == "}" && Scan("") == [] && Spell(braced) + "" == Spell(braced);
    assert [] + [braced] + [] == [braced];
    MeaningOne(bare, ev);
    MeaningOne(braced, ev);
    LetterKnown(c);
    Spelled(bare);
    Spelled(braced);
    LosslessScan("%" + [c]);
    LosslessScan(Spell(braced));
  }

  lemma LetterKnown(c: char)
    ensures FieldOf([c]).Some? <==> c in "mprctndflTFN"
  {
    var names := "mprctndflTFN";
    assert names == ['m', 'p', 'r', 'c', 't', 'n', 'd', 'f', 'l', 'T', 'F', 'N'];
  }

  lemma Spelled(p: Piece)
    ensures Print([p]) == Spell(p)
  {
    assert [p][1..] == [];
  }

  // -------------------------------------------------------------------------------------------
  // The default pattern.

  lemma {:induction false} MeaningCons(p: Piece, ps: seq<Piece>, ev: Event)
    ensures Meaning([p] + ps, ev) == Meaning([p], ev) + Meaning(ps, ev)
    ensures AllKnown([p] + ps) <==> Known(p) && AllKnown(ps)
  {
    MeaningOne(p, ev);
    hide Render;
    hide ItemFor;
    hide Known;
    if ps == [] {
      assert [p] + ps == [p];
    } else {
      var front := ps[..|ps| - 1];
      assert ([p] + ps)[..|ps|] == [p] + front && ([p] + ps)[|ps|] == ps[|ps| - 1];
      MeaningCons(p, front, ev);
      Grouped(Meaning([p], ev), Meaning(front, ev), Render(ItemFor(ps[|ps| - 1]), ev));
    }
  }

  // The pattern is sound and prints this line.
  ghost predicate Prints(pattern: string, line: string, ev: Event) {
    exists ps: seq<Piece> ::
      Canonical(ps) && AllKnown(ps) && (ps != [] ==> ps[0].Dir?) && Print(ps) == pattern && Meaning(ps, ev) == line
  }

  lemma PrintsNothing(ev: Event)
    ensures Prints("", "", ev)
  {
    assert Canonical([]) && AllKnown([]) && Print([]) == "" && Meaning([], ev) == "";
  }

  // A directive in front.
  lemma PrintsDirective(d: Piece, pattern: string, line: string, ev: Event)
    requires d.Dir? && Known(d) && PieceOk(d, pattern) && Prints(pattern, line, ev)
    ensures Prints(Spell(d) + pattern, Meaning([d], ev) + line, ev)
  {
    var ps: seq<Piece> :| Canonical(ps) && AllKnown(ps) && (ps != [] ==> ps[0].Dir?) && Print(ps) == pattern &&
      Meaning(ps, ev) == line;
    DirectiveInFront(d, ps, ev);
    hide *;
    var rs := [d] + ps;
    assert Prints(Print(rs), Meaning(rs, ev), ev);
  }

  lemma Grouped(a: string, b: string, c: string)
    ensures (a + b) + c == a + (b + c)
  {
  }

  // Text in front; only a directive can come before it.
  lemma PrintsText(d: Piece, text: string, pattern: string, line: string, ev: Event)
    requires d.Dir? && Known(d) && PieceOk(d, text + pattern) && Prints(pattern, line, ev)
    requires text != "" && '%' !in text
    ensures Prints(Spell(d) + (text + pattern), Meaning([d], ev) + (text + line), ev)
  {
    var ps: seq<Piece> :| Canonical(ps) && AllKnown(ps) && (ps != [] ==> ps[0].Dir?) && Print(ps) == pattern &&
      Meaning(ps, ev) == line;
    var qs := TextInFront(text, ps, ev);
    DirectiveInFront(d, qs, ev);
    hide *;
    var rs := [d] + qs;
    assert Prints(Print(rs), Meaning(rs, ev), ev);
  }

  lemma TextInFront(text: string, ps: seq<Piece>, ev: Event) returns (qs: seq<Piece>)
    requires Canonical(ps) && AllKnown(ps) && (ps != [] ==> ps[0].Dir?) && text != "" && '%' !in text
    ensures Canonical(qs) && AllKnown(qs) && Print(qs) == text + Print(ps) && Meaning(qs, ev) == text + Meaning(ps, ev)
  {
    var p := Lit(text);
    qs := [p] + ps;
    MeaningOne(p, ev);
    MeaningCons(p, ps, ev);
    hide Meaning;
    hide AllKnown;
    assert qs[1..] == ps;
    assert PercentsDoubled(text, Print(ps));
  }

  lemma DirectiveInFront(d: Piece, ps: seq<Piece>, ev: Event)
    requires d.Dir? && Known(d) && PieceOk(d, Print(ps)) && Canonical(ps) && AllKnown(ps)
    ensures Canonical([d] + ps) && AllKnown([d] + ps)
    ensures Print([d] + ps) == Spell(d) + Print(ps) && Meaning([d] + ps, ev) == Meaning([d], ev) + Meaning(ps, ev)
  {
    MeaningCons(d, ps, ev);
    hide Meaning;
    hide AllKnown;
    assert ([d] + ps)[1..] == ps;
  }

  lemma ShortOk(c: char, rest: string)
    requires Letter(c) && (rest == "" || rest[0] in "%[]:")
    ensures PieceOk(Dir([c], "", false), rest) && Spell(Dir([c], "", false)) == "%" + [c]
  {
    assert "%" + [c] + "" == "%" + [c];
    assert "%[]:" == ['%', '[', ']', ':'];
  }

  // %c and then some text in front.
  lemma Short(c: char, text: string, pattern: string, line: string, ev: Event)
    requires Letter(c) && c in "mprctndflTFN" && Prints(pattern, line, ev)
    requires pattern == "" || pattern[0] == '%'
    requires text == "" || (text[0] in "[]:" && '%' !in text)
    ensures Prints("%" + [c] + (text + pattern), Meaning([Dir([c], "", false)], ev) + (text + line), ev)
  {
    LetterKnown(c);
    ShortOk(c, text + pattern) by {
      assert "[]:" == ['[', ']', ':'] && "%[]:" == ['%', '[', ']', ':'];
    }
    var d := Dir([c], "", false);
    assert Known(d);
    hide *;
    if text == "" {
      assert text + pattern == pattern && text + line == line;
      PrintsDirective(d, pattern, line, ev);
    } else {
      PrintsText(d, text, pattern, line, ev);
    }
  }

  function Before(c: char, text: string, rest: string): string {
    "%" + [c] + (text + rest)
  }

  // %c prints the value.
  predicate Value(c: char, value: string, ev: Event) {
    || (c == 'T' && value == "\t") || (c == 'n' && value == "\n") || (c == 'm' && value == ev.message)
    || (c == 'l' && value == ev.line) || (c == 'f' && value == ev.file) || (c == 'c' && value == ev.logger)
    || (c == 'p' && value == ev.level) || (c == 'F' && value == ev.fiber) || (c == 'N' && value == ev.threadName)
    || (c == 't' && value == ev.thread)
  }

  // One more directive, and some text behind it.
  lemma OneMore(c: char, text: string, pattern: string, value: string, line: string, ev: Event)
    returns (pattern': string, line': string)
    requires Prints(pattern, line, ev) && (pattern == "" || pattern[0] == '%')
    requires text == "" || text == "[" || text == "]" || text == ":"
    requires Value(c, value, ev)
    ensures pattern' == Before(c, text, pattern) && line' == value + (text + line)
    ensures pattern'[0] == '%' && Prints(pattern', line', ev)
  {
    OneDirective([c], "", false, ev);
    Short(c, text, pattern, line, ev);
    pattern', line' := Before(c, text, pattern), value + (text + line);
  }

  // The default pattern, from its end.
  lemma LastDirectives(ev: Event) returns (p: string, line: string)
    ensures p == "%l%T%m%n" && Prints(p, line, ev) && line == ev.line + ("\t" + (ev.message + "\n"))
  {
    PrintsNothing(ev);
    hide Prints;
    p, line := "", "";
    p, line := OneMore('n', "", p, "\n", line, ev);
    p, line := OneMore('m', "", p, ev.message, line, ev);
    p, line := OneMore('T', "", p, "\t", line, ev);
    p, line := OneMore('l', "", p, ev.line, line, ev);
  }

  lemma LaterDirectives(p0: string, line0: string, ev: Event) returns (p: string, line: string)
    requires Prints(p0, line0, ev) && p0 != "" && p0[0] == '%'
    ensures p == "%T[%c]%T%f:" + p0 && p[0] == '%' && Prints(p, line, ev)
    ensures line == "\t[" + (ev.logger + ("]\t" + (ev.file + (":" + line0))))
  {
    hide Prints;
    p, line := p0, line0;
    p, line := OneMore('f', ":", p, ev.file, line, ev);
    p, line := OneMore('T', "", p, "\t", line, ev);
    p, line := OneMore('c', "]", p, ev.logger, line, ev);
    p, line := OneMore('T', "[", p, "\t", line, ev);
  }

  lemma MiddleDirectives(p0: string, line0: string, ev: Event) returns (p: string, line: string)
    requires Prints(p0, line0, ev) && p0 != "" && p0[0] == '%'
    ensures p == "%T%F%T[%p]" + p0 && p[0] == '%' && Prints(p, line, ev)
    ensures line == "\t" + (ev.fiber + ("\t[" + (ev.level + ("]" + line0))))
  {
    hide Prints;
    p, line := p0, line0;
    p, line := OneMore('p', "]", p, ev.level, line, ev);
    p, line := OneMore('T', "[", p, "\t", line, ev);
    p, line := OneMore('F', "", p, ev.fiber, line, ev);
    p, line := OneMore('T', "", p, "\t", line, ev);
  }

  lemma FirstDirectives(p0: string, line0: string, ev: Event) returns (p: string, line: string)
    requires Prints(p0, line0, ev) && p0 != "" && p0[0] == '%'
    ensures p == "%T%t%T%N" + p0 && p[0] == '%' && Prints(p, line, ev)
    ensures line == "\t" + (ev.thread + ("\t" + (ev.threadName + line0)))
  {
    hide Prints;
    p, line := p0, line0;
    p, line := OneMore('N', "", p, ev.threadName, line, ev);
    p, line := OneMore('T', "", p, "\t", line, ev);
    p, line := OneMore('t', "", p, ev.thread, line, ev);
    p, line := OneMore('T', "", p, "\t", line, ev);
  }

  lemma TimeSpelled(fmt: string, braced: string, spelled: string)
    requires fmt == "%Y-%m-%d %H:%M:%S" && braced == "{" + fmt + "}" && spelled == "%" + "d" + braced
    ensures spelled == "%d{%Y-%m-%d %H:%M:%S}"
  {
    assert braced == "{%Y-%m-%d %H:%M:%S}";
  }

  lemma NoBrace(fmt: string)
    requires fmt == "%Y-%m-%d %H:%M:%S"
    ensures '}' !in fmt
  {
  }

  lemma TimeInFront(time: string, pattern: string, line: string, ev: Event)
    requires time == "%d{%Y-%m-%d %H:%M:%S}" && Prints(pattern, line, ev)
    ensures Prints(time + pattern, ev.strftime("%Y-%m-%d %H:%M:%S") + line, ev)
  {
    var d := Dir("d", "%Y-%m-%d %H:%M:%S", true);
    OneDirective("d", d.fmt, true, ev);
    LetterKnown('d');
    NoBrace(d.fmt);
    TimeSpelled(d.fmt, "{" + d.fmt + "}", Spell(d));
    assert NameChar('d') && "d" == ['d'] && Known(d) && PieceOk(d, pattern);
    hide *;
    PrintsDirective(d, pattern, line, ev);
  }

  lemma PrintsMeaning(pattern: string, line: string, ev: Event)
    requires Prints(pattern, line, ev)
    ensures !Faulty(pattern) && Meaning(Scan(pattern), ev) == line
  {
    var ps: seq<Piece> :| Canonical(ps) && AllKnown(ps) && (ps != [] ==> ps[0].Dir?) && Print(ps) == pattern &&
      Meaning(ps, ev) == line;
    CanonicalPattern(ps, ev);
  }

  // The pattern every logger starts with is sound, and prints the time, the thread, its name and the fiber, the level
  // and the logger in brackets, file and line, and the message, with tabs between them.
  lemma DefaultLine(ev: Event)
    ensures !Faulty(LogLoggers.DEFAULT_PATTERN)
    ensures Meaning(Scan(LogLoggers.DEFAULT_PATTERN), ev) ==
      ev.strftime("%Y-%m-%d %H:%M:%S") + ("\t" + (ev.thread + ("\t" + (ev.threadName + ("\t" + (ev.fiber + ("\t[" +
      (ev.level + ("]" + ("\t[" + (ev.logger + ("]\t" + (ev.file + (":" + (ev.line + ("\t" + (ev.message + "\n")
      ))))))))))))))))
  {
    var end, line0 := LastDirectives(ev);
    var last, line := LaterDirectives(end, line0, ev);
    var middle, line2 := MiddleDirectives(last, line, ev);
    var first, line3 := FirstDirectives(middle, line2, ev);
    var time := "%d{%Y-%m-%d %H:%M:%S}";
    TimeInFront(time, first, line3, ev);
    PrintsMeaning(time + first, ev.strftime("%Y-%m-%d %H:%M:%S") + line3, ev);
    hide *;
    DefaultSpelled(time, first, middle, last, end);
  }

  lemma DefaultSpelled(a: string, b: string, c: string, d: string, e: string)
    requires a == "%d{%Y-%m-%d %H:%M:%S}" && b == "%T%t%T%N" + c && c == "%T%F%T[%p]" + d && d == "%T[%c]%T%f:" + e
    requires e == "%l%T%m%n"
    ensures LogLoggers.DEFAULT_PATTERN == a + b
  {
  }
}
