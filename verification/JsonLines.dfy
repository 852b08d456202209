/** The JSON-line collector: a closure over `pending` that reports each terminated line. */
module JsonLines {
  import opened Text

  /** The lines reported for a whole text: its terminated lines, trimmed, the blank ones dropped. */
  function Reported(lines: seq<string>): seq<string> {
    if lines == [] then []
    else (if Trim(lines[0]) == "" then [] else [Trim(lines[0])]) + Reported(lines[1..])
  }

  lemma {:induction false} ReportedAppends(a: seq<string>, b: seq<string>)
    ensures Reported(a + b) == Reported(a) + Reported(b)
  {
    if a == [] {
      assert a + b == b;
    } else {
      assert (a + b)[1..] == a[1..] + b;
      ReportedAppends(a[1..], b);
    }
  }

  lemma ReportedOne(a: seq<string>, line: string)
    ensures Reported(a + [line]) == if Trim(line) == "" then Reported(a) else Reported(a) + [Trim(line)]
  {
    ReportedAppends(a, [line]);
  }

  lemma ReportedResumes(received: string, chunk: string)
    ensures var c, d := CutLines(received), CutLines(CutLines(received).rest + chunk);
            && CutLines(received + chunk).rest == d.rest
            && Reported(CutLines(received + chunk).lines) == Reported(c.lines) + Reported(d.lines)
  {
    var c, d := CutLines(received), CutLines(CutLines(received).rest + chunk);
    CutResumes(received, chunk);
    ReportedAppends(c.lines, d.lines);
  }

  /** The collector's inner loop: report every terminated line of `text`, keep the rest. */
  method Drain(text: string) returns (reported: seq<string>, pending: string)
    ensures reported == Reported(CutLines(text).lines)
    ensures pending == CutLines(text).rest
  {
    reported, pending := [], text;
    ghost var whole, done := CutLines(text), [];
    assert Peeled(whole, done, pending);
    var newline := NewlineAt(pending);
    while newline >= 0
      invariant newline == NewlineAt(pending)
      invariant Peeled(whole, done, pending)
      invariant reported == Reported(done)
      decreases |pending|
    {
      PeelOne(whole, done, pending);
      ReportedOne(done, pending[..newline]);
      done := done + [pending[..newline]];
      var line := Trim(pending[..newline]);
      pending := pending[newline + 1..];
      if line != "" { reported := reported + [line]; }
      newline := NewlineAt(pending);
    }
    PeeledOut(whole, done, pending);
  }

  class Collector {
    var pending: string
    var reported: seq<string>    // the calls of onLine, in order
    ghost var received: string   // everything fed so far

    ghost predicate Valid()
      reads this
    {
      && reported == Reported(CutLines(received).lines)
      && pending == CutLines(received).rest
    }

    constructor ()
      ensures Valid() && received == "" && reported == []
    {
      pending, reported, received := "", [], "";
    }

    method Feed(chunk: string)
      requires Valid()
      modifies this
      ensures Valid() && received == old(received) + chunk
      ensures old(reported) <= reported
    {
      ReportedResumes(received, chunk);
      received := received + chunk;
      var lines;
      lines, pending := Drain(pending + chunk);
      reported := reported + lines;
    }
  }

  /** What is reported depends on the text received, not on where it was cut into chunks. */
  method CollectAll(chunks: seq<string>) returns (reported: seq<string>)
    ensures reported == Reported(CutLines(Concat(chunks)).lines)
  {
    var c := new Collector();
    assert chunks[..0] == [];
    for i := 0 to |chunks|
      invariant c.Valid() && fresh(c) && c.received == Concat(chunks[..i])
    {
      assert chunks[..i + 1] == chunks[..i] + [chunks[i]];
      c.Feed(chunks[i]);
    }
    assert chunks[..|chunks|] == chunks;
    reported := c.reported;
  }
}
