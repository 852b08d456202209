/** The content parts of a stream: a message's part is added once and done once, with the message's text. */
module StreamParts {
  import opened Options
  import opened Text
  import opened ResponseStream
  import opened StreamShape
  import opened StreamTheorems

  /** How often a part was added to one item. */
  function PartsAdded(log: seq<Numbered>, i: nat): nat {
    if log == [] then 0
    else
      var e := log[|log| - 1].event;
      PartsAdded(log[..|log| - 1], i) + if e.PartAdded? && e.index == i then 1 else 0
  }

  /** The texts with which one item's part is declared done. */
  function PartTexts(log: seq<Numbered>, i: nat): seq<string> {
    if log == [] then []
    else
      var e := log[|log| - 1].event;
      PartTexts(log[..|log| - 1], i) + if e.PartDone? && e.index == i then [e.text] else []
  }

  lemma PushParts(w: Work, e: Event, i: nat)
    ensures PartsAdded(Push(w, e).log, i) == PartsAdded(w.log, i) + if e.PartAdded? && e.index == i then 1 else 0
    ensures PartTexts(Push(w, e).log, i) == PartTexts(w.log, i) + if e.PartDone? && e.index == i then [e.text] else []
  {
    var log := Push(w, e).log;
    assert log[..|log| - 1] == w.log;
  }

  /** The one part is the open message's, and it is not done. */
  predicate Parted(w: Work, i: nat) {
    PartsAdded(w.log, i) == (if w.st.textIndex == Some(i) then 1 else 0) && PartTexts(w.log, i) == []
  }

  lemma OtherParted(w: Work, st: State, e: Event, i: nat)
    requires Parted(w, i) && st.textIndex == w.st.textIndex && !e.PartAdded? && !e.PartDone?
    ensures Parted(Push(Work(st, w.log), e), i)
  {
    PushParts(Work(st, w.log), e, i);
    assert PartTexts(w.log, i) + [] == PartTexts(w.log, i);
  }

  lemma NothingAfter(texts: seq<string>)
    ensures texts + [] == texts && [] + texts == texts
  {
  }

  lemma OpenTextParted(w: Work, i: nat)
    requires Coherent(w.st) && Parted(w, i)
    ensures Parted(OpenText(w), i)
  {
    if w.st.textIndex.None? {
      var at, item := |w.st.output|, Message("", InProgress);
      var v := Work(w.st.(textIndex := Some(at), output := w.st.output + [item]), w.log);
      PushParts(v, ItemAdded(at, item), i);
      PushParts(Push(v, ItemAdded(at, item)), PartAdded(at), i);
      NothingAfter([]);
    }
  }

  lemma AddTextParted(w: Work, text: string, i: nat)
    requires Coherent(w.st) && Parted(w, i)
    ensures Parted(AddText(w, text), i)
  {
    OpenTextParted(w, i);
    var v := OpenText(w);
    OtherParted(v, v.st.(fullText := v.st.fullText + text), TextDelta(v.st.textIndex.value, text), i);
  }

  lemma OpenToolParted(w: Work, key: nat, callId: string, name: string, i: nat)
    requires Coherent(w.st) && Parted(w, i)
    ensures Parted(OpenTool(w, key, callId, name), i)
  {
    OtherParted(w, WithTool(w.st, key, callId, name), ItemAdded(|w.st.output|, Call(callId, name, "", InProgress)), i);
  }

  lemma AddFragmentParted(w: Work, f: Fragment, i: nat)
    requires Coherent(w.st) && Parted(w, i)
    ensures Parted(AddFragment(w, f).w, i)
  {
    if AddFragment(w, f).Ok? {
      var found := FindTool(w.st.tools, f.index.value);
      var v := if found.None? then OpenTool(w, f.index.value, f.id.value, f.name.value) else w;
      if found.None? { OpenToolParted(w, f.index.value, f.id.value, f.name.value, i); }
      if !Empty(f.arguments) {
        var at := if found.None? then |w.st.output| else found.value;
        OtherParted(v, WithArguments(v.st, at, f.arguments.value), ArgumentsDelta(at, f.arguments.value), i);
      }
    }
  }

  lemma {:induction false} AddFragmentsParted(w: Work, fragments: seq<Fragment>, i: nat)
    requires Coherent(w.st) && Parted(w, i)
    ensures Parted(AddFragments(w, fragments).w, i)
    decreases |fragments|
  {
    if fragments != [] {
      AddFragmentParted(w, fragments[0], i);
      if AddFragment(w, fragments[0]).Ok? {
        AddFragmentsParted(AddFragment(w, fragments[0]).w, fragments[1..], i);
      }
    }
  }

  lemma ChoiceParted(w: Work, choice: Choice, i: nat)
    requires Coherent(w.st) && Parted(w, i)
    ensures Parted(AddChoice(w, choice).w, i)
  {
    ChoiceIs(w, choice);
    if !Empty(choice.content) { AddTextParted(w, choice.content.value, i); }
    AddFragmentsParted(Worded(w, choice.content), choice.toolCalls, i);
  }

  lemma ConsumeParted(w: Work, raw: string, codec: Codec, i: nat)
    requires Coherent(w.st) && Parted(w, i)
    ensures Parted(Consume(w, raw, codec).w, i)
  {
    if raw != "[DONE]" && codec.parse(raw).Parsed? && codec.parse(raw).chunk.choice.Some? {
      ChoiceParted(SetUsage(w, codec.parse(raw).chunk.usage), codec.parse(raw).chunk.choice.value, i);
    }
  }

  predicate ReaderParted(r: Reader, i: nat) {
    r.failure.None? ==> Parted(r.w, i)
  }

  lemma {:induction false} ReadLinesParted(r: Reader, lines: seq<string>, codec: Codec, i: nat)
    requires Coherent(r.w.st) && ReaderParted(r, i)
    ensures ReaderParted(ReadLines(r, lines, codec), i)
    decreases |lines|
  {
    if r.failure.None? && lines != [] {
      ConsumeParted(r.w, JoinLines(r.eventData), codec, i);
      ReadLinesParted(ReadLine(r, lines[0], codec), lines[1..], codec, i);
    }
  }

  lemma OpenedParted(i: nat)
    ensures Parted(OPENED.w, i)
  {
    var w := Work(INITIAL, []);
    OtherParted(w, INITIAL, Created, i);
    OtherParted(Push(w, Created), Push(w, Created).st, Started, i);
  }

  lemma ReadAllParted(text: string, end: End, codec: Codec, i: nat)
    ensures ReaderParted(ReadAll(text, end, codec), i)
  {
    OpenedParted(i);
    var lines := if end.Closed? then AllLines(text) else CutLines(text).lines;
    ReadLinesParted(OPENED, lines, codec, i);
    var r := ReadLines(OPENED, lines, codec);
    if r.failure.None? {
      ConsumeParted(r.w, JoinLines(r.eventData), codec, i);
    }
  }

  // ---------- closing ----------

  /** `r` tells of the same parts as `w`. */
  predicate SameParts(w: Work, r: Work, i: nat) {
    PartsAdded(r.log, i) == PartsAdded(w.log, i) && PartTexts(r.log, i) == PartTexts(w.log, i)
  }

  lemma OtherParts(w: Work, st: State, e: Event, i: nat)
    requires !e.PartAdded? && !e.PartDone?
    ensures SameParts(w, Push(Work(st, w.log), e), i)
  {
    PushParts(Work(st, w.log), e, i);
    assert PartTexts(w.log, i) + [] == PartTexts(w.log, i);
  }

  lemma {:induction false} CloseToolsParts(w: Work, k: nat, status: Status, i: nat)
    requires Coherent(w.st) && k <= |w.st.tools|
    ensures SameParts(w, CloseTools(w, k, status), i)
    decreases |w.st.tools| - k
  {
    if k < |w.st.tools| {
      var at := w.st.tools[k].index;
      assert w.st.tools[k] in w.st.tools;
      var item := w.st.output[at];
      OtherParts(w, w.st.(output := w.st.output[at := Call(item.callId, item.name, item.arguments, status)]), ArgumentsDone(at, item.arguments), i);
      CloseToolsParts(CloseTool(w, k, status), k + 1, status, i);
    }
  }

  lemma {:induction false} CloseItemsParts(w: Work, k: nat, i: nat)
    requires k <= |w.st.output|
    ensures SameParts(w, CloseItems(w, k), i)
    decreases |w.st.output| - k
  {
    if k < |w.st.output| {
      OtherParts(w, w.st, ItemDone(k, w.st.output[k]), i);
      CloseItemsParts(Push(w, ItemDone(k, w.st.output[k])), k + 1, i);
    }
  }

  lemma CloseTextParts(w: Work, status: Status, i: nat)
    requires Coherent(w.st) && Parted(w, i)
    ensures var log := CloseText(w, status).log;
            && PartsAdded(log, i) == (if w.st.textIndex == Some(i) then 1 else 0)
            && PartTexts(log, i) == if w.st.textIndex == Some(i) then [w.st.fullText] else []
  {
    if w.st.textIndex.Some? {
      var at := w.st.textIndex.value;
      var v := Work(w.st.(output := w.st.output[at := Message(w.st.fullText, status)]), w.log);
      PushParts(v, TextDone(at, w.st.fullText), i);
      PushParts(Push(v, TextDone(at, w.st.fullText)), PartDone(at, w.st.fullText), i);
      NothingAfter([]);
      NothingAfter([w.st.fullText]);
    }
  }

  lemma CloseParts(w: Work, i: nat)
    requires Coherent(w.st) && Parted(w, i)
    ensures var log := Close(w).log;
            && PartsAdded(log, i) == (if w.st.textIndex == Some(i) then 1 else 0)
            && PartTexts(log, i) == if w.st.textIndex == Some(i) then [w.st.fullText] else []
  {
    var status := if Short(w.st) then CutShort else Done;
    var closed := ClosedTools(w);
    CloseTextParts(w, status, i);
    CloseToolsParts(CloseText(w, status), 0, status, i);
    CloseItemsParts(closed, 0, i);
    var w3 := CloseItems(closed, 0);
    OtherParts(w3, w3.st, Ended(EndingOf(w.st), w3.st.output, w3.st.usage), i);
  }

  /** An item's part, in a log that ends with this output. */
  predicate PartRight(log: seq<Numbered>, output: seq<Item>, i: nat) {
    if i < |output| && output[i].Message? then PartsAdded(log, i) == 1 && PartTexts(log, i) == [output[i].text]
    else PartsAdded(log, i) == 0 && PartTexts(log, i) == []
  }

  lemma ClosedPartRight(w: Work, i: nat)
    requires Faithful(w) && Parted(w, i)
    ensures var log := Close(w).log; |log| > 0 && log[|log| - 1].event.Ended? && PartRight(log, log[|log| - 1].event.output, i)
  {
    CloseReads(w);
    CloseParts(w, i);
    if i < |w.st.output| {
      CloseReadsItem(w, i);
    }
  }

  /** On every run that ends well, each message's part is added once and done once, with the text of the message in the
      final output, and no other item has one. */
  lemma PartsMatchMessages(text: string, end: End, codec: Codec, answers: nat -> Answer, i: nat)
    requires Accepted(text, end, codec) && answers(0).Returns?
    ensures var log := Yielded(Trace(text, end, codec, answers));
            |log| > 0 && log[|log| - 1].event.Ended? && PartRight(log, log[|log| - 1].event.output, i)
  {
    var r := ReadAll(text, end, codec);
    ReadAllSound(text, end, codec);
    ReadAllParted(text, end, codec, i);
    CloseYields(r.w, ReportOf(r.w.st));
    ClosedPartRight(r.w, i);
  }
}
