/** Strings as the server's line readers see them: JavaScript white space, trimming,
    and cutting text into newline-terminated lines. */
module Text {

  /** The characters that `trim` and `trimStart` remove. */
  predicate IsSpace(c: char) {
    var n := c as int;
    || 9 <= n <= 13 || n == 32 || n == 160 || n == 0x1680 || 0x2000 <= n <= 0x200A
    || n == 0x2028 || n == 0x2029 || n == 0x202F || n == 0x205F || n == 0x3000 || n == 0xFEFF
  }

  function TrimStart(s: string): (t: string)
    ensures |t| <= |s| && s[|s| - |t|..] == t
    ensures forall i :: 0 <= i < |s| - |t| ==> IsSpace(s[i])
    ensures t != "" ==> !IsSpace(t[0])
  {
    if s != "" && IsSpace(s[0]) then TrimStart(s[1..]) else s
  }

  function TrimEnd(s: string): (t: string)
    ensures t <= s
    ensures forall i :: |t| <= i < |s| ==> IsSpace(s[i])
    ensures t != "" ==> !IsSpace(t[|t| - 1])
  {
    if s != "" && IsSpace(s[|s| - 1]) then TrimEnd(s[..|s| - 1]) else s
  }

  function Trim(s: string): string {
    TrimEnd(TrimStart(s))
  }

  /** The index of the first newline, or -1. */
  function NewlineAt(s: string): (i: int)
    ensures -1 <= i < |s|
    ensures i >= 0 ==> s[i] == '\n' && '\n' !in s[..i]
    ensures i < 0 ==> '\n' !in s
  {
    if s == "" then -1
    else if s[0] == '\n' then 0
    else
      var i := NewlineAt(s[1..]);
      if i < 0 then -1
      else
        assert s[..i + 1] == [s[0]] + s[1..][..i];
        i + 1
  }

  /** Text cut at its newlines: the terminated lines, and what follows the last newline. */
  datatype Cut = Cut(lines: seq<string>, rest: string)

  /** Reading one more character. */
  function Read(c: Cut, ch: char): Cut {
    if ch == '\n' then Cut(c.lines + [c.rest], "") else Cut(c.lines, c.rest + [ch])
  }

  function CutFrom(c: Cut, s: string): Cut
    decreases |s|
  {
    if s == "" then c else CutFrom(Read(c, s[0]), s[1..])
  }

  function CutLines(s: string): Cut {
    CutFrom(Cut([], ""), s)
  }

  function Concat(parts: seq<string>): string {
    if parts == [] then "" else Concat(parts[..|parts| - 1]) + parts[|parts| - 1]
  }

  function JoinLines(parts: seq<string>): string {
    if parts == [] then ""
    else if |parts| == 1 then parts[0]
    else JoinLines(parts[..|parts| - 1]) + "\n" + parts[|parts| - 1]
  }

  /** The text that terminated lines and a rest spell. */
  function Terminate(lines: seq<string>): string {
    if lines == [] then "" else Terminate(lines[..|lines| - 1]) + lines[|lines| - 1] + "\n"
  }

  function Spell(c: Cut): string {
    Terminate(c.lines) + c.rest
  }

  ghost predicate NewlineFree(c: Cut) {
    '\n' !in c.rest && forall i :: 0 <= i < |c.lines| ==> '\n' !in c.lines[i]
  }

  /** Cutting in two goes. */
  lemma {:induction false} CutInTwo(c: Cut, a: string, b: string)
    ensures CutFrom(c, a + b) == CutFrom(CutFrom(c, a), b)
    decreases |a|
  {
    if a == "" {
      assert a + b == b;
    } else {
      assert (a + b)[1..] == a[1..] + b;
      CutInTwo(Read(c, a[0]), a[1..], b);
    }
  }

  /** Lines already cut stay in front. */
  lemma {:induction false} CutAfter(lines: seq<string>, rest: string, s: string)
    ensures CutFrom(Cut(lines, rest), s).lines == lines + CutFrom(Cut([], rest), s).lines
    ensures CutFrom(Cut(lines, rest), s).rest == CutFrom(Cut([], rest), s).rest
    decreases |s|
  {
    if s != "" {
      if s[0] == '\n' {
        CutAfter(lines + [rest], "", s[1..]);
        CutAfter([rest], "", s[1..]);
        var tail := CutFrom(Cut([], ""), s[1..]).lines;
        assert Read(Cut([], rest), s[0]) == Cut([rest], "");
        assert lines + [rest] + tail == lines + ([rest] + tail);
      } else {
        CutAfter(lines, rest + [s[0]], s[1..]);
      }
    }
  }

  lemma {:induction false} CutPlain(rest: string, s: string)
    requires '\n' !in s
    ensures CutFrom(Cut([], rest), s) == Cut([], rest + s)
    decreases |s|
  {
    if s != "" {
      CutPlain(rest + [s[0]], s[1..]);
      assert rest + [s[0]] + s[1..] == rest + s;
    }
  }

  /** The first line of a text, taken off its front. */
  lemma CutFirst(s: string)
    requires NewlineAt(s) >= 0
    ensures var i := NewlineAt(s);
            CutLines(s) == Cut([s[..i]] + CutLines(s[i + 1..]).lines, CutLines(s[i + 1..]).rest)
  {
    var i := NewlineAt(s);
    assert s == s[..i] + s[i..] && s[i..][1..] == s[i + 1..];
    CutInTwo(Cut([], ""), s[..i], s[i..]);
    CutPlain("", s[..i]);
    assert "" + s[..i] == s[..i];
    assert Read(Cut([], s[..i]), '\n') == Cut([s[..i]], "");
    CutAfter([s[..i]], "", s[i + 1..]);
  }

  /** Cutting loses nothing and leaves no newline inside a line. */
  lemma {:induction false} CutSpells(c: Cut, s: string)
    requires NewlineFree(c)
    ensures Spell(CutFrom(c, s)) == Spell(c) + s
    ensures NewlineFree(CutFrom(c, s))
    decreases |s|
  {
    if s != "" {
      var d := Read(c, s[0]);
      if s[0] == '\n' {
        assert (c.lines + [c.rest])[..|c.lines|] == c.lines;
      }
      assert Spell(d) == Spell(c) + [s[0]];
      CutSpells(d, s[1..]);
      assert Spell(c) + [s[0]] + s[1..] == Spell(c) + s;
    }
  }

  /** The cut is the only newline-free way to spell a text. */
  lemma {:induction false} CutUnique(c: Cut)
    requires NewlineFree(c)
    ensures CutLines(Spell(c)) == c
  {
    TerminatedCut(c.lines);
    CutInTwo(Cut([], ""), Terminate(c.lines), c.rest);
    CutAfter(c.lines, "", c.rest);
    CutPlain("", c.rest);
    assert "" + c.rest == c.rest;
  }

  /** One more terminated line. */
  lemma OneLine(lines: seq<string>, line: string)
    requires '\n' !in line
    ensures CutFrom(Cut(lines, ""), line + "\n") == Cut(lines + [line], "")
  {
    CutInTwo(Cut(lines, ""), line, "\n");
    CutAfter(lines, "", line);
    CutPlain("", line);
    assert "" + line == line && lines + [] == lines;
    assert CutFrom(Cut(lines, line), "\n") == Read(Cut(lines, line), '\n');
  }

  lemma {:induction false} TerminatedCut(lines: seq<string>)
    requires forall i :: 0 <= i < |lines| ==> '\n' !in lines[i]
    ensures CutLines(Terminate(lines)) == Cut(lines, "")
  {
    if lines != [] {
      var init, last := lines[..|lines| - 1], lines[|lines| - 1];
      TerminatedCut(init);
      CutInTwo(Cut([], ""), Terminate(init), last + "\n");
      TerminateLast(lines);
      OneLine(init, last);
    }
  }

  lemma TerminateLast(lines: seq<string>)
    requires lines != []
    ensures Terminate(lines) == Terminate(lines[..|lines| - 1]) + (lines[|lines| - 1] + "\n")
  {
    Associate(Terminate(lines[..|lines| - 1]), lines[|lines| - 1], "\n");
  }

  lemma Associate(a: string, b: string, c: string)
    ensures a + b + c == a + (b + c)
  {
  }

  /** Cutting on: what the first part leaves over is put before the second. */
  lemma CutResumes(a: string, b: string)
    ensures var c, d := CutLines(a), CutLines(CutLines(a).rest + b);
            CutLines(a + b) == Cut(c.lines + d.lines, d.rest)
  {
    var c := CutLines(a);
    CutInTwo(Cut([], ""), a, b);
    CutAfter(c.lines, c.rest, b);
    CutSpells(Cut([], ""), a);
    CutInTwo(Cut([], ""), c.rest, b);
    CutPlain("", c.rest);
    assert "" + c.rest == c.rest;
  }

  /** A reader half way: `done` are the lines of `whole` taken so far, `pending` spells the others. */
  ghost predicate Peeled(whole: Cut, done: seq<string>, pending: string) {
    var c := CutLines(pending);
    whole.lines == done + c.lines && whole.rest == c.rest
  }

  lemma PeelOne(whole: Cut, done: seq<string>, pending: string)
    requires Peeled(whole, done, pending) && NewlineAt(pending) >= 0
    ensures var i := NewlineAt(pending); Peeled(whole, done + [pending[..i]], pending[i + 1..])
  {
    var i := NewlineAt(pending);
    CutFirst(pending);
    var tail := CutLines(pending[i + 1..]).lines;
    assert done + ([pending[..i]] + tail) == done + [pending[..i]] + tail;
  }

  lemma PeeledOut(whole: Cut, done: seq<string>, pending: string)
    requires Peeled(whole, done, pending) && NewlineAt(pending) < 0
    ensures whole == Cut(done, pending)
  {
    CutPlain("", pending);
    assert "" + pending == pending && done + [] == done;
  }
}
