/** The stream generator itself: its closure variables as fields, its read loop, and the
    refinement of the batch reading in ResponseStream. */
module ChatStream {
  import opened Options
  import opened Text
  import opened ResponseStream

  lemma {:induction false} ReadInTwo(r: Reader, a: seq<string>, b: seq<string>, codec: Codec)
    requires Coherent(r.w.st)
    ensures ReadLines(r, a + b, codec) == ReadLines(ReadLines(r, a, codec), b, codec)
    decreases |a|
  {
    if a == [] {
      assert a + b == b;
    } else if r.failure.None? {
      assert (a + b)[1..] == a[1..] + b;
      ReadInTwo(ReadLine(r, a[0], codec), a[1..], b, codec);
    }
  }

  /** A reader that failed ignores further lines. */
  lemma FailedIgnores(r: Reader, lines: seq<string>, codec: Codec)
    requires Coherent(r.w.st) && r.failure.Some?
    ensures ReadLines(r, lines, codec) == r
  {
  }

  predicate Unterminated(s: string) {
    s != "" && s[|s| - 1] != '\n'
  }

  lemma {:induction false} TerminateEnds(lines: seq<string>)
    ensures !Unterminated(Terminate(lines))
  {
  }

  /** The buffer lacks its final newline exactly when the whole text does. */
  lemma BufferTells(received: string, piece: string)
    ensures Unterminated(CutLines(received).rest + piece) <==> Unterminated(received + piece)
  {
    CutSpells(Cut([], ""), received);
    var c := CutLines(received);
    TerminateEnds(c.lines);
    assert received == Terminate(c.lines) + c.rest;
    if piece == "" && c.rest != "" {
      assert c.rest[|c.rest| - 1] in c.rest;
    }
  }

  class ChatStream {
    const codec: Codec
    var buffer: string
    var eventData: seq<string>
    var output: seq<Item>
    var tools: seq<Tool>
    var textIndex: Option<nat>
    var fullText: string
    var sequence: nat
    var finishReason: Option<string>
    var usage: Option<Usage>
    var failure: Option<string>      // the code of the error thrown while reading
    var yielded: seq<Numbered>       // what the consumer was handed
    ghost var received: string       // all decoded text so far

    function St(): State
      reads this
    {
      State(output, tools, textIndex, fullText, sequence, finishReason, usage)
    }

    ghost function AsReader(): Reader
      reads this
    {
      Reader(eventData, Work(St(), yielded), failure)
    }

    /** All of `received` that was terminated has been read; the rest is buffered. */
    ghost predicate Valid()
      reads this
    {
      && Coherent(St())
      && AsReader() == ReadLines(OPENED, CutLines(received).lines, codec)
      && (failure.None? ==> buffer == CutLines(received).rest)
    }

    constructor (codec: Codec)
      ensures Valid() && received == "" && failure.None? && this.codec == codec
    {
      this.codec := codec;
      buffer, eventData, output, tools, textIndex, fullText := "", [], [], [], None, "";
      sequence, finishReason, usage, failure, yielded, received := 0, None, None, None, [], "";
      new;
      var created := NewEvent(Created);
      yielded := yielded + [created];
      var started := NewEvent(Started);
      yielded := yielded + [started];
    }

    method NewEvent(e: Event) returns (numbered: Numbered)
      modifies this`sequence
      ensures numbered == Numbered(old(sequence), e) && sequence == old(sequence) + 1
    {
      numbered := Numbered(sequence, e);
      sequence := sequence + 1;
    }

    method TakeText(text: string) returns (events: seq<Numbered>)
      requires Coherent(St())
      modifies this`output, this`textIndex, this`fullText, this`sequence
      ensures Work(St(), yielded + events) == AddText(Work(old(St()), yielded), text)
    {
      events := [];
      if textIndex.None? {
        textIndex := Some(|output|);
        var item := Message("", InProgress);
        output := output + [item];
        var added := NewEvent(ItemAdded(textIndex.value, item));
        var part := NewEvent(PartAdded(textIndex.value));
        events := [added, part];
      }
      fullText := fullText + text;
      var delta := NewEvent(TextDelta(textIndex.value, text));
      events := events + [delta];
    }

    method TakeNewTool(key: nat, callId: string, name: string, ghost log: seq<Numbered>) returns (added: Numbered)
      requires Coherent(St())
      modifies this`output, this`tools, this`sequence
      ensures Coherent(St()) && Work(St(), log + [added]) == OpenTool(Work(old(St()), log), key, callId, name)
    {
      var item := Call(callId, name, "", InProgress);
      tools := tools + [Tool(key, |output|)];
      output := output + [item];
      added := NewEvent(ItemAdded(|output| - 1, item));
    }

    method TakeArguments(at: nat, text: string, ghost log: seq<Numbered>) returns (delta: Numbered)
      requires Coherent(St()) && at < |output| && output[at].Call?
      modifies this`output, this`sequence
      ensures Coherent(St()) && Work(St(), log + [delta]) == AddArguments(Work(old(St()), log), at, text)
    {
      output := output[at := output[at].(arguments := output[at].arguments + text)];
      delta := NewEvent(ArgumentsDelta(at, text));
    }

    method TakeFragment(f: Fragment, ghost log: seq<Numbered>) returns (events: seq<Numbered>, thrown: Option<string>)
      requires Coherent(St())
      modifies this`output, this`tools, this`sequence
      ensures Coherent(St())
      ensures AddFragment(Work(old(St()), log), f) ==
                if thrown.None? then Ok(Work(St(), log + events)) else Err(Work(St(), log + events), thrown.value)
    {
      events := [];
      assert log + events == log;
      if f.NullFragment? { return events, Some(FAILED); }
      if f.index.None? { return events, Some(TOOL_CALL_INVALID); }
      var found := FindTool(tools, f.index.value);
      var at := found.Or(|output|);
      if found.None? {
        if Empty(f.id) || Empty(f.name) { return events, Some(TOOL_CALL_INVALID); }
        var added := TakeNewTool(f.index.value, f.id.value, f.name.value, log);
        events := [added];
      }
      ghost var withTool := Work(St(), log + events);
      if !Empty(f.arguments) {
        var delta := TakeArguments(at, f.arguments.value, withTool.log);
        assert log + (events + [delta]) == withTool.log + [delta];
        events := events + [delta];
      }
      thrown := None;
    }

    method TakeFragments(fragments: seq<Fragment>, ghost log: seq<Numbered>) returns (events: seq<Numbered>, thrown: Option<string>)
      requires Coherent(St())
      modifies this`output, this`tools, this`sequence
      ensures Coherent(St())
      ensures AddFragments(Work(old(St()), log), fragments) ==
                if thrown.None? then Ok(Work(St(), log + events)) else Err(Work(St(), log + events), thrown.value)
    {
      events, thrown := [], None;
      assert log + events == log && fragments[0..] == fragments;
      for i := 0 to |fragments|
        invariant Coherent(St()) && thrown.None?
        invariant AddFragments(Work(old(St()), log), fragments) == AddFragments(Work(St(), log + events), fragments[i..])
      {
        var more;
        more, thrown := TakeFragment(fragments[i], log + events);
        assert log + events + more == log + (events + more);
        assert fragments[i..][1..] == fragments[i + 1..];
        events := events + more;
        if thrown.Some? { return; }
      }
    }

    method TakeContent(content: Option<string>) returns (events: seq<Numbered>)
      requires Coherent(St())
      modifies this`output, this`textIndex, this`fullText, this`sequence
      ensures Coherent(St())
      ensures Work(St(), yielded + events) ==
              if Empty(content) then Work(old(St()), yielded) else AddText(Work(old(St()), yielded), content.value)
    {
      events := [];
      assert yielded + events == yielded;
      if !Empty(content) { events := TakeText(content.value); }
    }

    /** The tool calls and the finish reason, after the events `first` of the content. */
    method TakeCalls(choice: Choice, first: seq<Numbered>) returns (events: seq<Numbered>, thrown: Option<string>)
      requires Coherent(St())
      modifies this`output, this`tools, this`sequence, this`finishReason
      ensures Coherent(St())
      ensures var r := AddFragments(Work(old(St()), yielded + first), choice.toolCalls);
              (if r.Err? then r else Ok(SetFinish(r.w, choice.finishReason))) ==
              if thrown.None? then Ok(Work(St(), yielded + events)) else Err(Work(St(), yielded + events), thrown.value)
    {
      var more;
      more, thrown := TakeFragments(choice.toolCalls, yielded + first);
      assert yielded + first + more == yielded + (first + more);
      events := first + more;
      if thrown.None? && choice.finishReason.Some? { finishReason := choice.finishReason; }
    }

    method TakeChoice(choice: Choice) returns (events: seq<Numbered>, thrown: Option<string>)
      requires Coherent(St())
      modifies this`output, this`tools, this`textIndex, this`fullText, this`sequence, this`finishReason
      ensures Coherent(St())
      ensures AddChoice(Work(old(St()), yielded), choice) ==
                if thrown.None? then Ok(Work(St(), yielded + events)) else Err(Work(St(), yielded + events), thrown.value)
    {
      var first := TakeContent(choice.content);
      events, thrown := TakeCalls(choice, first);
    }

    /** `consume`: the events of one provider chunk, or the error it throws; events numbered before
        an error are lost, what they recorded is not. */
    method Take(raw: string) returns (events: seq<Numbered>, thrown: Option<string>)
      requires Coherent(St())
      modifies this`output, this`tools, this`textIndex, this`fullText, this`sequence, this`finishReason, this`usage
      ensures Coherent(St())
      ensures Consume(Work(old(St()), yielded), raw, codec) ==
                if thrown.None? then Ok(Work(St(), yielded + events)) else Err(Work(St(), yielded + events), thrown.value)
    {
      events, thrown := [], None;
      assert yielded + events == yielded;
      if raw == "[DONE]" {
        if Empty(finishReason) { thrown := Some(TERMINATION_MISSING); }
        return;
      }
      var parsed := codec.parse(raw);
      if parsed.Malformed? { return events, Some(FAILED); }
      if parsed.chunk.error { return events, Some(PROVIDER_ERROR); }
      if parsed.chunk.usage.Some? {
        var value := parsed.chunk.usage.value;
        usage := Some(Usage(value.prompt.Or(0), value.completion.Or(0), value.total.Or(0)));
      }
      if parsed.chunk.choice.None? { return; }
      events, thrown := TakeChoice(parsed.chunk.choice.value);
    }

    method DispatchData()
      requires Coherent(St()) && failure.None?
      modifies this`eventData, this`yielded, this`failure
      modifies this`output, this`tools, this`textIndex, this`fullText, this`sequence, this`finishReason, this`usage
      ensures Coherent(St()) && AsReader() == Dispatch(old(AsReader()), codec)
    {
      var events, thrown := Take(JoinLines(eventData));
      if thrown.Some? {
        failure := thrown;
      } else {
        yielded := yielded + events;
        eventData := [];
      }
    }

    method CollectData(data: string)
      modifies this`eventData
      ensures AsReader() == old(AsReader()).(eventData := old(eventData) + [data])
    {
      eventData := eventData + [data];
    }

    method TakeLine(raw: string)
      requires Coherent(St()) && failure.None?
      modifies this`eventData, this`yielded, this`failure
      modifies this`output, this`tools, this`textIndex, this`fullText, this`sequence, this`finishReason, this`usage
      ensures Coherent(St()) && AsReader() == ReadLine(old(AsReader()), raw, codec)
    {
      var line := StripReturn(raw);
      if "data:" <= line {
        CollectData(TrimStart(line[5..]));
      } else if line == "" && eventData != [] {
        DispatchData();
      }
    }

    /** The inner read loop: every terminated line of the buffer, until one throws. */
    method DrainBuffer(ghost start: Reader)
      requires Coherent(St()) && failure.None? && start == AsReader()
      modifies this`buffer, this`eventData, this`yielded, this`failure
      modifies this`output, this`tools, this`textIndex, this`fullText, this`sequence, this`finishReason, this`usage
      ensures Coherent(St()) && AsReader() == ReadLines(start, CutLines(old(buffer)).lines, codec)
      ensures failure.None? ==> buffer == CutLines(old(buffer)).rest
    {
      ghost var whole, done := CutLines(buffer), [];
      assert Peeled(whole, done, buffer);
      var newline := NewlineAt(buffer);
      while newline >= 0
        invariant newline == NewlineAt(buffer) && failure.None?
        invariant Coherent(St()) && Peeled(whole, done, buffer)
        invariant AsReader() == ReadLines(start, done, codec)
        decreases |buffer|
      {
        PeelOne(whole, done, buffer);
        var line := buffer[..newline];
        ReadInTwo(start, done, [line], codec);
        done := done + [line];
        buffer := buffer[newline + 1..];
        ReadOne(AsReader(), line, codec);
        TakeLine(line);
        newline := NewlineAt(buffer);
        if failure.Some? {
          ghost var later := CutLines(buffer).lines;
          ReadInTwo(start, done, later, codec);
          FailedIgnores(AsReader(), later, codec);
          return;
        }
      }
      PeeledOut(whole, done, buffer);
    }

    /** One read of the body; `last` is the read that reports its end. */
    method Feed(piece: string, last: bool)
      requires Valid() && failure.None?
      modifies this
      ensures Valid()
      ensures received == old(received) + piece + if last && Unterminated(old(received) + piece) then "\n" else ""
    {
      ghost var before := received;
      BufferTells(received, piece);
      buffer := buffer + piece;
      ghost var fed := piece;
      if last && Unterminated(buffer) {
        buffer := buffer + "\n";
        fed := piece + "\n";
      }
      assert buffer == CutLines(before).rest + fed;
      CutResumes(before, fed);
      received := before + fed;
      ReadInTwo(OPENED, CutLines(before).lines, CutLines(buffer).lines, codec);
      DrainBuffer(AsReader());
    }

    method CloseTextItem(status: Status) returns (events: seq<Numbered>)
      requires Coherent(St())
      modifies this`output, this`sequence
      ensures Coherent(St())
      ensures Work(St(), yielded + events) == CloseText(Work(old(St()), yielded), status)
    {
      events := [];
      assert yielded + events == yielded;
      if textIndex.Some? {
        output := output[textIndex.value := Message(fullText, status)];
        var text := NewEvent(TextDone(textIndex.value, fullText));
        var part := NewEvent(PartDone(textIndex.value, fullText));
        events := [text, part];
      }
    }

    method CloseToolItem(k: nat, status: Status, ghost log: seq<Numbered>) returns (done: Numbered)
      requires Coherent(St()) && k < |tools|
      modifies this`output, this`sequence
      ensures Coherent(St()) && Work(St(), log + [done]) == CloseTool(Work(old(St()), log), k, status)
    {
      assert tools[k] in tools;
      var at := tools[k].index;
      var item := output[at];
      output := output[at := Call(item.callId, item.name, item.arguments, status)];
      done := NewEvent(ArgumentsDone(at, item.arguments));
    }

    method CloseToolItems(status: Status, ghost log: seq<Numbered>) returns (events: seq<Numbered>)
      requires Coherent(St())
      modifies this`output, this`sequence
      ensures Coherent(St())
      ensures Work(St(), log + events) == CloseTools(Work(old(St()), log), 0, status)
    {
      events := [];
      assert log + events == log;
      for k := 0 to |tools|
        invariant Coherent(St())
        invariant CloseTools(Work(old(St()), log), 0, status) == CloseTools(Work(St(), log + events), k, status)
      {
        var done := CloseToolItem(k, status, log + events);
        assert log + (events + [done]) == log + events + [done];
        events := events + [done];
      }
    }

    method CloseAllItems(ghost log: seq<Numbered>) returns (events: seq<Numbered>)
      modifies this`sequence
      ensures Work(St(), log + events) == CloseItems(Work(old(St()), log), 0)
    {
      events := [];
      assert log + events == log;
      for k := 0 to |output|
        invariant output == old(output)
        invariant CloseItems(Work(old(St()), log), 0) == CloseItems(Work(St(), log + events), k)
      {
        ghost var next := Push(Work(St(), log + events), ItemDone(k, output[k]));
        var done := NewEvent(ItemDone(k, output[k]));
        assert log + (events + [done]) == log + events + [done];
        events := events + [done];
        assert Work(St(), log + events) == next;
      }
    }

    method CloseRun() returns (events: seq<Numbered>)
      requires Coherent(St())
      modifies this`output, this`sequence
      ensures Work(St(), yielded + events) == Close(Work(old(St()), yielded))
    {
      ghost var w := Work(St(), yielded);
      var status := if finishReason == Some("length") || finishReason == Some("content_filter") then CutShort else Done;
      var text := CloseTextItem(status);
      ghost var w1 := CloseText(w, status);
      var calls := CloseToolItems(status, w1.log);
      ghost var w2 := CloseTools(w1, 0, status);
      var items := CloseAllItems(w2.log);
      ghost var w3 := CloseItems(w2, 0);
      assert Work(St(), w2.log + items) == w3;
      var ending := if finishReason == Some("length") then Incomplete("max_output_tokens")
                    else if finishReason == Some("content_filter") then Incomplete("content_filter")
                    else Completed;
      var end := NewEvent(Ended(ending, output, usage));
      assert Close(w) == Work(St(), w3.log + [end]);
      FourParts(yielded, text, calls, items, [end]);
      events := text + calls + items + [end];
    }

    /** The checks after the last line. */
    method Judge() returns (verdict: Option<string>)
      requires Coherent(St())
      ensures verdict == Verdict(St(), codec)
    {
      if Empty(finishReason) { return Some(TERMINATION_MISSING); }
      if finishReason.value !in ["stop", "tool_calls", "length", "content_filter"] { return Some(FINISH_UNSUPPORTED); }
      if finishReason.value == "tool_calls" && tools == [] { return Some(TOOL_CALL_MISSING); }
      if finishReason.value != "length" && finishReason.value != "content_filter" {
        for k := 0 to |tools|
          invariant forall j :: 0 <= j < k ==> codec.validJson(output[tools[j].index].arguments)
        {
          if !codec.validJson(output[tools[k].index].arguments) {
            assert tools[k] in tools;
            return Some(ARGUMENTS_INVALID);
          }
        }
      }
      verdict := None;
    }

    /** Everything after the reading: the report, the closing events, the failure path. */
    method Settle(answers: nat -> Answer) returns (actions: seq<Action>)
      requires Coherent(St())
      modifies this`output, this`sequence
      ensures actions == Conclude(old(AsReader()), codec, answers)
    {
      var thrown := failure;
      if thrown.None? { thrown := Judge(); }
      if thrown.Some? {
        actions := Fail(St(), thrown.value, answers(0));
        return;
      }
      var report := if finishReason == Some("length") then ReportFailed("MODEL_STREAM_LENGTH")
                    else if finishReason == Some("content_filter") then ReportFailed("MODEL_STREAM_CONTENT_FILTER")
                    else ReportCompleted;
      match answers(0) {
        case Throws(message) =>
          actions := [Finish(report, false)] + Fail(St(), Code(message), answers(1));
        case Returns =>
          var events := CloseRun();
          actions := [Finish(report, true)] + Yields(events);
          assert (yielded + events)[|yielded|..] == events;
      }
    }
  }

  lemma FourParts(log: seq<Numbered>, a: seq<Numbered>, b: seq<Numbered>, c: seq<Numbered>, d: seq<Numbered>)
    ensures log + (a + b + c + d) == log + a + b + c + d
  {
  }

  /** The reads before the last: all of them, unless one throws. */
  method ReadPieces(pieces: seq<string>, codec: Codec) returns (s: ChatStream)
    ensures fresh(s) && s.Valid() && s.codec == codec && s.received <= Concat(pieces)
    ensures s.failure.None? ==> s.received == Concat(pieces)
  {
    s := new ChatStream(codec);
    var i := 0;
    assert pieces[..0] == [];
    while i < |pieces| && s.failure.None?
      invariant 0 <= i <= |pieces| && fresh(s) && s.Valid() && s.codec == codec
      invariant s.received == Concat(pieces[..i])
    {
      assert pieces[..i + 1][..i] == pieces[..i];
      s.Feed(pieces[i], false);
      assert s.received == Concat(pieces[..i]) + pieces[i];
      i := i + 1;
    }
    ConcatSplits(pieces, i);
    assert i == |pieces| ==> pieces[..i] == pieces;
  }

  /** The read loop over the body. */
  method ReadBody(pieces: seq<string>, flush: string, end: End, codec: Codec) returns (s: ChatStream)
    ensures fresh(s) && s.codec == codec && Coherent(s.St())
    ensures s.AsReader() == ReadAll(if end.Closed? then Concat(pieces) + flush else Concat(pieces), end, codec)
  {
    s := ReadPieces(pieces, codec);
    ghost var text := if end.Closed? then Concat(pieces) + flush else Concat(pieces);
    if s.failure.Some? {
      Prefix(s.received, text, end, codec);
    } else if end.Broken? {
      s.failure := Some(Code(end.message));
    } else {
      s.Feed(flush, true);
      assert text + "" == text;
      if s.failure.None? && s.eventData != [] { s.DispatchData(); }
    }
  }

  /** The generator, drained. `pieces` are the decoded reads, `flush` what the decoder still held
      at the end of a closed body. What it does depends on the text alone, not on its pieces. */
  method ChatStreamToResponses(pieces: seq<string>, flush: string, end: End, codec: Codec, answers: nat -> Answer)
    returns (actions: seq<Action>)
    ensures actions == Trace(if end.Closed? then Concat(pieces) + flush else Concat(pieces), end, codec, answers)
  {
    var s := ReadBody(pieces, flush, end, codec);
    var handed := Yields(s.yielded);
    var rest := s.Settle(answers);
    actions := handed + rest;
  }

  lemma {:induction false} ConcatSplits(pieces: seq<string>, i: nat)
    requires i <= |pieces|
    ensures Concat(pieces[..i]) <= Concat(pieces)
  {
    if i < |pieces| {
      var init := pieces[..|pieces| - 1];
      assert init[..i] == pieces[..i];
      ConcatSplits(init, i);
    } else {
      assert pieces[..i] == pieces;
    }
  }

  /** A reader that fails within a part of the text fails the same way on the whole. */
  lemma Prefix(received: string, text: string, end: End, codec: Codec)
    requires received <= text
    requires ReadLines(OPENED, CutLines(received).lines, codec).failure.Some?
    ensures ReadAll(text, end, codec) == ReadLines(OPENED, CutLines(received).lines, codec)
  {
    var all := if end.Closed? && Unterminated(text) then text + "\n" else text;
    var rest := all[|received|..];
    assert all == received + rest;
    CutResumes(received, rest);
    var later := CutLines(CutLines(received).rest + rest).lines;
    ReadInTwo(OPENED, CutLines(received).lines, later, codec);
    FailedIgnores(ReadLines(OPENED, CutLines(received).lines, codec), later, codec);
  }

  lemma ReadOne(r: Reader, line: string, codec: Codec)
    requires Coherent(r.w.st) && r.failure.None?
    ensures ReadLines(r, [line], codec) == ReadLine(r, line, codec)
  {
    assert [line][1..] == [];
  }
}
