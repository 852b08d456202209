/** What a client may rely on when it reads the numbered events of one stream. */
module StreamShape {
  import opened Options
  import opened Text
  import opened ResponseStream

  // ---------- reading a log ----------

  function Upto(n: nat): (s: seq<nat>)
    ensures |s| == n && forall i :: 0 <= i < n ==> s[i] == i
  {
    seq(n, i => i)
  }

  /** Output indices of the added items, in order. */
  function Added(log: seq<Numbered>): seq<nat> {
    if log == [] then []
    else
      var e := log[|log| - 1].event;
      Added(log[..|log| - 1]) + if e.ItemAdded? then [e.index] else []
  }

  /** The items added, in order. */
  function AddedItems(log: seq<Numbered>): seq<Item> {
    if log == [] then []
    else
      var e := log[|log| - 1].event;
      AddedItems(log[..|log| - 1]) + if e.ItemAdded? then [e.item] else []
  }

  /** All text or argument deltas of one item, concatenated. */
  function Delta(log: seq<Numbered>, i: nat): string {
    if log == [] then ""
    else
      var e := log[|log| - 1].event;
      Delta(log[..|log| - 1], i) + if (e.TextDelta? || e.ArgumentsDelta?) && e.index == i then e.delta else ""
  }

  /** The texts with which one item's text or arguments are declared done. */
  function DoneTexts(log: seq<Numbered>, i: nat): seq<string> {
    if log == [] then []
    else
      var e := log[|log| - 1].event;
      DoneTexts(log[..|log| - 1], i) + if (e.TextDone? || e.ArgumentsDone?) && e.index == i then [e.text] else []
  }

  function DoneIndices(log: seq<Numbered>): seq<nat> {
    if log == [] then []
    else
      var e := log[|log| - 1].event;
      DoneIndices(log[..|log| - 1]) + if e.ItemDone? then [e.index] else []
  }

  function DoneItems(log: seq<Numbered>): seq<Item> {
    if log == [] then []
    else
      var e := log[|log| - 1].event;
      DoneItems(log[..|log| - 1]) + if e.ItemDone? then [e.item] else []
  }

  /** Every delta speaks of an item that was added before it. */
  predicate Opened(log: seq<Numbered>) {
    log == [] ||
    var e := log[|log| - 1].event;
    && Opened(log[..|log| - 1])
    && ((e.TextDelta? || e.ArgumentsDelta?) ==> e.index in Added(log[..|log| - 1]))
  }

  predicate Gapless(log: seq<Numbered>) {
    forall k :: 0 <= k < |log| ==> log[k].number == k
  }

  predicate Unended(log: seq<Numbered>) {
    forall k :: 0 <= k < |log| ==> !log[k].event.Ended?
  }

  /** The text an item has collected so far. */
  function Body(st: State, i: nat): string {
    if i >= |st.output| then ""
    else match st.output[i] case Message(_, _) => st.fullText case Call(_, _, arguments, _) => arguments
  }

  /** What identifies an item: its kind, call id and name. */
  function Blank(item: Item): Item {
    match item case Message(_, _) => Message("", InProgress) case Call(id, name, _, _) => Call(id, name, "", InProgress)
  }

  /** Output indices of the tool map, in insertion order, are those of the call items, in order. */
  predicate Tidy(st: State) {
    && Coherent(st)
    && (forall j, k :: 0 <= j < k < |st.tools| ==> st.tools[j].index < st.tools[k].index && st.tools[j].key != st.tools[k].key)
    && (forall i :: 0 <= i < |st.output| && st.output[i].Call? ==> exists k :: 0 <= k < |st.tools| && st.tools[k].index == i)
    && (forall i :: 0 <= i < |st.output| && st.output[i].Message? ==> st.textIndex == Some(i))
    && (st.textIndex.None? ==> st.fullText == "")
  }

  /** The items the log tells of are those of the state. */
  ghost predicate Listed(w: Work) {
    && w.st.sequence == |w.log| && Gapless(w.log) && Opened(w.log) && Unended(w.log)
    && Added(w.log) == Upto(|w.st.output|)
    && |AddedItems(w.log)| == |w.st.output|
    && (forall i :: 0 <= i < |w.st.output| ==> AddedItems(w.log)[i] == Blank(w.st.output[i]))
    && DoneIndices(w.log) == [] && DoneItems(w.log) == []
  }

  /** And so are their texts. */
  ghost predicate Texted(w: Work) {
    && (forall i: nat :: Delta(w.log, i) == Body(w.st, i))
    && (forall i: nat :: DoneTexts(w.log, i) == [])
  }

  /** The log tells exactly what the state holds. */
  ghost predicate Faithful(w: Work) {
    Tidy(w.st) && Listed(w) && Texted(w)
  }

  /** One more event, read by each of the functions above. */
  lemma PushLists(w: Work, e: Event)
    ensures var log := Push(w, e).log;
            && Added(log) == Added(w.log) + (if e.ItemAdded? then [e.index] else [])
            && AddedItems(log) == AddedItems(w.log) + (if e.ItemAdded? then [e.item] else [])
            && DoneIndices(log) == DoneIndices(w.log) + (if e.ItemDone? then [e.index] else [])
            && DoneItems(log) == DoneItems(w.log) + (if e.ItemDone? then [e.item] else [])
            && (Opened(log) <==> Opened(w.log) && ((e.TextDelta? || e.ArgumentsDelta?) ==> e.index in Added(w.log)))
            && (w.st.sequence == |w.log| && Gapless(w.log) ==> Gapless(log))
  {
    var log := Push(w, e).log;
    assert log[..|log| - 1] == w.log;
  }

  lemma PushTexts(w: Work, e: Event, i: nat)
    ensures Delta(Push(w, e).log, i) == Delta(w.log, i) + if (e.TextDelta? || e.ArgumentsDelta?) && e.index == i then e.delta else ""
    ensures DoneTexts(Push(w, e).log, i) == DoneTexts(w.log, i) + if (e.TextDone? || e.ArgumentsDone?) && e.index == i then [e.text] else []
  {
    var log := Push(w, e).log;
    assert log[..|log| - 1] == w.log;
  }

  lemma PushAllTexts(w: Work, e: Event)
    ensures forall i: nat :: Delta(Push(w, e).log, i) ==
              Delta(w.log, i) + if (e.TextDelta? || e.ArgumentsDelta?) && e.index == i then e.delta else ""
    ensures forall i: nat :: DoneTexts(Push(w, e).log, i) ==
              DoneTexts(w.log, i) + if (e.TextDone? || e.ArgumentsDone?) && e.index == i then [e.text] else []
  {
    forall i: nat
      ensures Delta(Push(w, e).log, i) == Delta(w.log, i) + if (e.TextDelta? || e.ArgumentsDelta?) && e.index == i then e.delta else ""
      ensures DoneTexts(Push(w, e).log, i) == DoneTexts(w.log, i) + if (e.TextDone? || e.ArgumentsDone?) && e.index == i then [e.text] else []
    {
      PushTexts(w, e, i);
    }
  }

  /** An event that is no done event leaves every item's done texts alone. */
  lemma NotDone(w: Work, e: Event, i: nat)
    requires !e.TextDone? && !e.ArgumentsDone?
    ensures DoneTexts(Push(w, e).log, i) == DoneTexts(w.log, i)
  {
    assert Push(w, e).log[..|w.log|] == w.log;
    assert DoneTexts(w.log, i) + [] == DoneTexts(w.log, i);
  }

  /** And one that is no delta leaves every item's text alone. */
  lemma NoDelta(w: Work, e: Event, i: nat)
    requires !e.TextDelta? && !e.ArgumentsDelta?
    ensures Delta(Push(w, e).log, i) == Delta(w.log, i)
  {
    assert Push(w, e).log[..|w.log|] == w.log;
    assert Delta(w.log, i) + "" == Delta(w.log, i);
  }

  /** A new item has no text yet, the others keep theirs. */
  lemma AddItemBody(st: State, after: State, item: Item, i: nat)
    requires after.output == st.output + [item] && item == Blank(item) && after.fullText == st.fullText
    requires Tidy(st) && Tidy(after)
    ensures Body(after, i) == Body(st, i)
  {
    if i < |st.output| {
      assert after.output[i] == st.output[i];
    } else if i == |st.output| {
      NewMessageIsFirst(st, after, item);
    }
  }

  lemma NewMessageIsFirst(st: State, after: State, item: Item)
    requires after.output == st.output + [item] && after.fullText == st.fullText && Tidy(st) && Tidy(after)
    ensures item.Message? ==> st.fullText == ""
  {
    if item.Message? {
      assert after.output[|st.output|].Message?;
    }
  }

  lemma BlankAppends(output: seq<Item>, added: seq<Item>, item: Item)
    requires |added| == |output| && forall i :: 0 <= i < |output| ==> added[i] == Blank(output[i])
    requires item == Blank(item)
    ensures forall i :: 0 <= i < |output + [item]| ==> (added + [item])[i] == Blank((output + [item])[i])
  {
  }

  lemma UptoNext(n: nat)
    ensures Upto(n) + [n] == Upto(n + 1)
  {
  }

  lemma AddItemFaithful(w: Work, st: State, item: Item)
    requires Faithful(w)
    requires st.output == w.st.output + [item] && item == Blank(item) && Tidy(st)
    requires st.sequence == w.st.sequence && st.fullText == w.st.fullText
    ensures Faithful(Push(Work(st, w.log), ItemAdded(|w.st.output|, item)))
  {
    var w', e := Work(st, w.log), ItemAdded(|w.st.output|, item);
    PushLists(w', e);
    UptoNext(|w.st.output|);
    BlankAppends(w.st.output, AddedItems(w.log), item);
    var log := Push(w', e).log;
    forall i: nat ensures Delta(log, i) == Body(st, i) {
      AddItemBody(w.st, st, item, i);
      NoDelta(w', e, i);
    }
    forall i: nat ensures DoneTexts(log, i) == [] {
      NotDone(w', e, i);
    }
  }

  lemma NeutralListed(w: Work, e: Event)
    requires Listed(w) && (e.Created? || e.Started? || e.PartAdded?)
    ensures Listed(Push(w, e))
  {
    PushLists(w, e);
    assert AddedItems(w.log) + [] == AddedItems(w.log) && Added(w.log) + [] == Added(w.log);
  }

  lemma NeutralTexted(w: Work, e: Event)
    requires Texted(w) && (e.Created? || e.Started? || e.PartAdded?)
    ensures Texted(Push(w, e))
  {
    forall i: nat ensures Delta(Push(w, e).log, i) == Body(w.st, i) && DoneTexts(Push(w, e).log, i) == [] {
      NoDelta(w, e, i);
      NotDone(w, e, i);
    }
  }

  lemma NeutralFaithful(w: Work, e: Event)
    requires Faithful(w) && (e.Created? || e.Started? || e.PartAdded?)
    ensures Faithful(Push(w, e))
  {
    NeutralListed(w, e);
    NeutralTexted(w, e);
    TidyKept(w.st, w.st.(sequence := w.st.sequence + 1));
  }

  lemma DeltaListed(w: Work, st: State, e: Event)
    requires Listed(w) && st.sequence == w.st.sequence && |w.st.output| == |st.output|
    requires (e.TextDelta? || e.ArgumentsDelta?) && e.index < |st.output|
    requires forall i :: 0 <= i < |st.output| ==> Blank(st.output[i]) == Blank(w.st.output[i])
    ensures Listed(Push(Work(st, w.log), e))
  {
    PushLists(Work(st, w.log), e);
    assert e.index == Upto(|w.st.output|)[e.index];
    assert AddedItems(w.log) + [] == AddedItems(w.log);
  }

  lemma DeltaTexted(w: Work, st: State, at: nat, text: string, e: Event)
    requires Texted(w) && (e == TextDelta(at, text) || e == ArgumentsDelta(at, text))
    requires forall i: nat :: Body(st, i) == Body(w.st, i) + if i == at then text else ""
    ensures Texted(Push(Work(st, w.log), e))
  {
    var w' := Work(st, w.log);
    forall i: nat ensures Delta(Push(w', e).log, i) == Body(st, i) && DoneTexts(Push(w', e).log, i) == [] {
      PushTexts(w', e, i);
      NotDone(w', e, i);
    }
  }

  /** A delta event is faithful when the state took the same text into the same item. */
  lemma DeltaFaithful(w: Work, st: State, at: nat, text: string, e: Event)
    requires Faithful(w) && Tidy(st) && st.sequence == w.st.sequence && at < |w.st.output| == |st.output|
    requires e == TextDelta(at, text) || e == ArgumentsDelta(at, text)
    requires forall i :: 0 <= i < |st.output| ==> Blank(st.output[i]) == Blank(w.st.output[i])
    requires forall i: nat :: Body(st, i) == Body(w.st, i) + if i == at then text else ""
    ensures Faithful(Push(Work(st, w.log), e))
  {
    DeltaListed(w, st, e);
    DeltaTexted(w, st, at, text, e);
    TidyKept(st, st.(sequence := st.sequence + 1));
  }

  lemma TidyKept(st: State, after: State)
    requires Tidy(st) && after.output == st.output && after.tools == st.tools && after.textIndex == st.textIndex && after.fullText == st.fullText
    ensures Tidy(after) && forall i: nat :: Body(after, i) == Body(st, i)
  {
  }

  lemma TextTidy(st: State, text: string)
    requires Tidy(st) && st.textIndex.Some?
    ensures Tidy(st.(fullText := st.fullText + text))
  {
  }

  lemma TextBody(st: State, text: string, i: nat)
    requires Tidy(st) && st.textIndex.Some?
    ensures Body(st.(fullText := st.fullText + text), i) == Body(st, i) + if i == st.textIndex.value then text else ""
  {
    assert Body(st, i) + "" == Body(st, i);
  }

  lemma TextFaithful(w: Work, text: string)
    requires Faithful(w) && w.st.textIndex.Some?
    ensures Faithful(Push(Work(w.st.(fullText := w.st.fullText + text), w.log), TextDelta(w.st.textIndex.value, text)))
  {
    var st := w.st.(fullText := w.st.fullText + text);
    TextTidy(w.st, text);
    forall i: nat ensures Body(st, i) == Body(w.st, i) + if i == w.st.textIndex.value then text else "" {
      TextBody(w.st, text, i);
    }
    DeltaFaithful(w, st, w.st.textIndex.value, text, TextDelta(w.st.textIndex.value, text));
  }

  function WithArguments(st: State, at: nat, text: string): State
    requires at < |st.output| && st.output[at].Call?
  {
    st.(output := st.output[at := st.output[at].(arguments := st.output[at].arguments + text)])
  }

  lemma ArgumentsTidy(st: State, at: nat, text: string)
    requires Tidy(st) && at < |st.output| && st.output[at].Call?
    ensures Tidy(WithArguments(st, at, text))
  {
    var st' := WithArguments(st, at, text);
    assert forall i :: 0 <= i < |st.output| ==> st'.output[i].Call? == st.output[i].Call?;
  }

  lemma ArgumentsBody(st: State, at: nat, text: string, i: nat)
    requires at < |st.output| && st.output[at].Call?
    ensures Body(WithArguments(st, at, text), i) == Body(st, i) + if i == at then text else ""
  {
    assert Body(st, i) + "" == Body(st, i);
  }

  lemma ArgumentsFaithful(w: Work, at: nat, text: string)
    requires Faithful(w) && at < |w.st.output| && w.st.output[at].Call?
    ensures Faithful(AddArguments(w, at, text))
  {
    var st := WithArguments(w.st, at, text);
    ArgumentsTidy(w.st, at, text);
    forall i: nat ensures Body(st, i) == Body(w.st, i) + if i == at then text else "" {
      ArgumentsBody(w.st, at, text, i);
    }
    DeltaFaithful(w, st, at, text, ArgumentsDelta(at, text));
  }

  lemma AddTextFaithful(w: Work, text: string)
    requires Faithful(w)
    ensures Faithful(AddText(w, text))
  {
    if w.st.textIndex.None? {
      var i, item := |w.st.output|, Message("", InProgress);
      var st := w.st.(textIndex := Some(i), output := w.st.output + [item]);
      assert Tidy(st) by {
        assert forall j :: 0 <= j < |w.st.output| ==> st.output[j] == w.st.output[j];
      }
      AddItemFaithful(w, st, item);
      NeutralFaithful(Push(Work(st, w.log), ItemAdded(i, item)), PartAdded(i));
    }
    TextFaithful(OpenText(w), text);
  }

  function WithTool(st: State, key: nat, callId: string, name: string): State {
    st.(tools := st.tools + [Tool(key, |st.output|)], output := st.output + [Call(callId, name, "", InProgress)])
  }

  lemma OpenToolCoherent(st: State, key: nat, callId: string, name: string)
    requires Coherent(st)
    ensures Coherent(WithTool(st, key, callId, name))
  {
    var st' := WithTool(st, key, callId, name);
    assert forall t :: t in st'.tools ==> t in st.tools || t == Tool(key, |st.output|);
  }

  lemma OpenToolOrdered(st: State, key: nat, callId: string, name: string, j: nat, k: nat)
    requires Tidy(st) && FindTool(st.tools, key).None? && j < k <= |st.tools|
    ensures var tools := WithTool(st, key, callId, name).tools; tools[j].index < tools[k].index && tools[j].key != tools[k].key
  {
    assert st.tools[j] in st.tools;
  }

  lemma ToolOfCall(st: State, key: nat, callId: string, name: string, i: nat)
    requires Tidy(st) && i <= |st.output|
    ensures var st' := WithTool(st, key, callId, name);
            st'.output[i].Call? ==> exists k :: 0 <= k < |st'.tools| && st'.tools[k].index == i
  {
    var st' := WithTool(st, key, callId, name);
    if i < |st.output| && st.output[i].Call? {
      var k :| 0 <= k < |st.tools| && st.tools[k].index == i;
      assert st'.tools[k].index == i;
    } else if i == |st.output| {
      assert st'.tools[|st.tools|].index == i;
    }
  }

  lemma OpenToolTidy(st: State, key: nat, callId: string, name: string)
    requires Tidy(st) && FindTool(st.tools, key).None?
    ensures Tidy(WithTool(st, key, callId, name))
  {
    var st' := WithTool(st, key, callId, name);
    OpenToolCoherent(st, key, callId, name);
    forall j, k | 0 <= j < k < |st'.tools| ensures st'.tools[j].index < st'.tools[k].index && st'.tools[j].key != st'.tools[k].key {
      OpenToolOrdered(st, key, callId, name, j, k);
    }
    forall i | 0 <= i < |st'.output| && st'.output[i].Call? ensures exists k :: 0 <= k < |st'.tools| && st'.tools[k].index == i {
      ToolOfCall(st, key, callId, name, i);
    }
  }

  lemma OpenToolFaithful(w: Work, key: nat, callId: string, name: string)
    requires Faithful(w) && FindTool(w.st.tools, key).None?
    ensures Faithful(OpenTool(w, key, callId, name))
  {
    OpenToolTidy(w.st, key, callId, name);
    AddItemFaithful(w, WithTool(w.st, key, callId, name), Call(callId, name, "", InProgress));
  }

  lemma AddFragmentFaithful(w: Work, f: Fragment)
    requires Faithful(w) && AddFragment(w, f).Ok?
    ensures Faithful(AddFragment(w, f).w)
  {
    var found := FindTool(w.st.tools, f.index.value);
    if found.None? {
      OpenToolFaithful(w, f.index.value, f.id.value, f.name.value);
    }
    if !Empty(f.arguments) {
      var w' := if found.None? then OpenTool(w, f.index.value, f.id.value, f.name.value) else w;
      ArgumentsFaithful(w', if found.None? then |w.st.output| else found.value, f.arguments.value);
    }
  }

  lemma {:induction false} AddFragmentsFaithful(w: Work, fragments: seq<Fragment>)
    requires Faithful(w) && AddFragments(w, fragments).Ok?
    ensures Faithful(AddFragments(w, fragments).w)
    decreases |fragments|
  {
    if fragments != [] {
      AddFragmentFaithful(w, fragments[0]);
      AddFragmentsFaithful(AddFragment(w, fragments[0]).w, fragments[1..]);
    }
  }

  lemma UsageFaithful(w: Work, usage: Option<UsageReport>)
    requires Faithful(w)
    ensures Faithful(SetUsage(w, usage))
  {
    var st := SetUsage(w, usage).st;
    assert Tidy(st) && forall i: nat :: Body(st, i) == Body(w.st, i);
  }

  lemma FinishFaithful(w: Work, reason: Option<string>)
    requires Faithful(w)
    ensures Faithful(SetFinish(w, reason))
  {
    var st := SetFinish(w, reason).st;
    assert Tidy(st) && forall i: nat :: Body(st, i) == Body(w.st, i);
  }

  /** The text of a choice taken. */
  function Worded(w: Work, content: Option<string>): (r: Work)
    requires Coherent(w.st)
    ensures Coherent(r.st)
  {
    if Empty(content) then w else AddText(w, content.value)
  }

  lemma ChoiceIs(w: Work, choice: Choice)
    requires Coherent(w.st)
    ensures var r := AddFragments(Worded(w, choice.content), choice.toolCalls);
            AddChoice(w, choice) == if r.Err? then r else Ok(SetFinish(r.w, choice.finishReason))
  {
  }

  lemma ChoiceFaithful(w: Work, choice: Choice)
    requires Faithful(w) && AddChoice(w, choice).Ok?
    ensures Faithful(AddChoice(w, choice).w)
  {
    var w' := if Empty(choice.content) then w else AddText(w, choice.content.value);
    if !Empty(choice.content) { AddTextFaithful(w, choice.content.value); }
    AddFragmentsFaithful(w', choice.toolCalls);
    FinishFaithful(AddFragments(w', choice.toolCalls).w, choice.finishReason);
  }

  lemma ConsumeFaithful(w: Work, raw: string, codec: Codec)
    requires Faithful(w) && Consume(w, raw, codec).Ok?
    ensures Faithful(Consume(w, raw, codec).w)
  {
    if raw != "[DONE]" {
      var chunk := codec.parse(raw).chunk;
      UsageFaithful(w, chunk.usage);
      if chunk.choice.Some? {
        ChoiceFaithful(SetUsage(w, chunk.usage), chunk.choice.value);
      }
    }
  }

  // ---------- reading ----------

  /** Sequence numbers never go back, not even when an event is refused half way. */
  lemma {:induction false} FragmentsAdvance(w: Work, fragments: seq<Fragment>)
    requires Coherent(w.st)
    ensures AddFragments(w, fragments).w.st.sequence >= w.st.sequence
    decreases |fragments|
  {
    if fragments != [] {
      FragmentsAdvance(AddFragment(w, fragments[0]).w, fragments[1..]);
    }
  }

  lemma ConsumeAdvances(w: Work, raw: string, codec: Codec)
    requires Coherent(w.st)
    ensures Consume(w, raw, codec).w.st.sequence >= w.st.sequence
  {
    if raw != "[DONE]" && codec.parse(raw).Parsed? && !codec.parse(raw).chunk.error && codec.parse(raw).chunk.choice.Some? {
      var chunk := codec.parse(raw).chunk;
      var w1 := SetUsage(w, chunk.usage);
      var choice := chunk.choice.value;
      FragmentsAdvance(if Empty(choice.content) then w1 else AddText(w1, choice.content.value), choice.toolCalls);
    }
  }

  ghost predicate Sound(r: Reader) {
    if r.failure.None? then Faithful(r.w)
    else Coherent(r.w.st) && Gapless(r.w.log) && Unended(r.w.log) && Opened(r.w.log) && |r.w.log| <= r.w.st.sequence
  }

  lemma DispatchSound(r: Reader, codec: Codec)
    requires r.failure.None? && Sound(r)
    ensures Sound(Dispatch(r, codec))
  {
    var raw := JoinLines(r.eventData);
    if Consume(r.w, raw, codec).Ok? {
      ConsumeFaithful(r.w, raw, codec);
    } else {
      ConsumeAdvances(r.w, raw, codec);
    }
  }

  lemma {:induction false} ReadLinesSound(r: Reader, lines: seq<string>, codec: Codec)
    requires Sound(r)
    ensures Sound(ReadLines(r, lines, codec))
    decreases |lines|
  {
    if r.failure.None? && lines != [] {
      var line := StripReturn(lines[0]);
      if !("data:" <= line) && line == "" && r.eventData != [] {
        DispatchSound(r, codec);
      }
      ReadLinesSound(ReadLine(r, lines[0], codec), lines[1..], codec);
    }
  }

  lemma OpenedFaithful()
    ensures Faithful(OPENED.w)
  {
    var w := Work(INITIAL, []);
    assert Faithful(w);
    NeutralFaithful(w, Created);
    NeutralFaithful(Push(w, Created), Started);
  }

  lemma ReadAllSound(text: string, end: End, codec: Codec)
    ensures Sound(ReadAll(text, end, codec))
  {
    OpenedFaithful();
    var lines := if end.Closed? then AllLines(text) else CutLines(text).lines;
    ReadLinesSound(OPENED, lines, codec);
    var r := ReadLines(OPENED, lines, codec);
    if r.failure.None? && end.Closed? && r.eventData != [] {
      DispatchSound(r, codec);
    }
  }

  // ---------- closing ----------

  /** `r` goes on from `w` with done events only. */
  ghost predicate Closes(w: Work, r: Work) {
    && r.st.sequence == |r.log| && Gapless(r.log) && Opened(r.log) && Unended(r.log)
    && Added(r.log) == Added(w.log) && AddedItems(r.log) == AddedItems(w.log)
    && (forall i: nat :: Delta(r.log, i) == Delta(w.log, i))
  }

  lemma CloseOne(w: Work, v: Work, e: Event)
    requires Closes(w, v) && (e.TextDone? || e.PartDone? || e.ArgumentsDone? || e.ItemDone?)
    ensures Closes(w, Push(v, e))
  {
    PushLists(v, e);
    PushAllTexts(v, e);
    forall i: nat ensures Delta(Push(v, e).log, i) == Delta(w.log, i) {
      assert Delta(v.log, i) + "" == Delta(v.log, i);
    }
  }

  ghost predicate IsTool(tools: seq<Tool>, k: nat, i: nat) {
    exists j :: k <= j < |tools| && tools[j].index == i
  }

  ghost predicate Distinct(tools: seq<Tool>) {
    forall j, k :: 0 <= j < k < |tools| ==> tools[j].index != tools[k].index
  }

  /** One tool closed: its own item gets the status and one done event, no other item any. */
  lemma CloseToolReads(w0: Work, w: Work, k: nat, status: Status, i: nat)
    requires Coherent(w.st) && k < |w.st.tools| && i < |w.st.output|
    ensures var r, item := CloseTool(w, k, status), w.st.output[i];
            && (Closes(w0, w) ==> Closes(w0, r))
            && DoneIndices(r.log) == DoneIndices(w.log) && DoneItems(r.log) == DoneItems(w.log)
            && if w.st.tools[k].index == i then
                 && item.Call? && r.st.output[i] == Call(item.callId, item.name, item.arguments, status)
                 && DoneTexts(r.log, i) == DoneTexts(w.log, i) + [item.arguments]
               else r.st.output[i] == item && DoneTexts(r.log, i) == DoneTexts(w.log, i)
  {
    var at := w.st.tools[k].index;
    assert w.st.tools[k] in w.st.tools;
    var item := w.st.output[at];
    var v := Work(w.st.(output := w.st.output[at := Call(item.callId, item.name, item.arguments, status)]), w.log);
    if Closes(w0, w) {
      CloseOne(w0, v, ArgumentsDone(at, item.arguments));
    }
    PushLists(v, ArgumentsDone(at, item.arguments));
    PushAllTexts(v, ArgumentsDone(at, item.arguments));
  }

  lemma {:induction false} CloseToolsCloses(w0: Work, w: Work, k: nat, status: Status)
    requires Coherent(w.st) && k <= |w.st.tools| && Closes(w0, w)
    ensures var r := CloseTools(w, k, status);
            Closes(w0, r) && DoneIndices(r.log) == DoneIndices(w.log) && DoneItems(r.log) == DoneItems(w.log)
    decreases |w.st.tools| - k
  {
    if k < |w.st.tools| {
      assert w.st.tools[k] in w.st.tools;
      CloseToolReads(w0, w, k, status, w.st.tools[k].index);
      CloseToolsCloses(w0, CloseTool(w, k, status), k + 1, status);
    }
  }

  /** Each tool's item is closed once, with its own arguments; the other items are left alone. */
  lemma {:induction false} CloseToolsReads(w: Work, k: nat, status: Status, i: nat)
    requires Coherent(w.st) && k <= |w.st.tools| && Distinct(w.st.tools) && i < |w.st.output|
    ensures var r, item := CloseTools(w, k, status), w.st.output[i];
            if IsTool(w.st.tools, k, i) then
              && item.Call? && r.st.output[i] == Call(item.callId, item.name, item.arguments, status)
              && DoneTexts(r.log, i) == DoneTexts(w.log, i) + [item.arguments]
            else r.st.output[i] == item && DoneTexts(r.log, i) == DoneTexts(w.log, i)
    decreases |w.st.tools| - k
  {
    if k < |w.st.tools| {
      FirstTool(w.st.tools, k, i);
      CloseToolReads(w, w, k, status, i);
      CloseToolsReads(CloseTool(w, k, status), k + 1, status, i);
    }
  }

  lemma FirstTool(tools: seq<Tool>, k: nat, i: nat)
    requires Distinct(tools) && k < |tools|
    ensures IsTool(tools, k, i) <==> tools[k].index == i || IsTool(tools, k + 1, i)
    ensures tools[k].index == i ==> !IsTool(tools, k + 1, i)
  {
  }

  lemma {:induction false} CloseItemsReads(w0: Work, w: Work, k: nat)
    requires k <= |w.st.output| && Closes(w0, w)
    requires DoneIndices(w.log) == Upto(k) && DoneItems(w.log) == w.st.output[..k]
    ensures var r := CloseItems(w, k);
            && Closes(w0, r)
            && DoneIndices(r.log) == Upto(|w.st.output|) && DoneItems(r.log) == w.st.output
            && forall i: nat :: DoneTexts(r.log, i) == DoneTexts(w.log, i)
    decreases |w.st.output| - k
  {
    if k < |w.st.output| {
      var e := ItemDone(k, w.st.output[k]);
      CloseOne(w0, w, e);
      PushLists(w, e);
      PushAllTexts(w, e);
      assert forall i: nat :: DoneTexts(w.log, i) + [] == DoneTexts(w.log, i);
      CloseItemsReads(w0, Push(w, e), k + 1);
    }
  }

  lemma CloseTextReads(w: Work, status: Status)
    requires Faithful(w)
    ensures var r := CloseText(w, status);
            && Closes(w, r) && DoneIndices(r.log) == [] && DoneItems(r.log) == []
            && (forall i: nat :: i < |w.st.output| ==>
                  if w.st.textIndex == Some(i) then
                    r.st.output[i] == Message(w.st.fullText, status) && DoneTexts(r.log, i) == [w.st.fullText]
                  else r.st.output[i] == w.st.output[i] && DoneTexts(r.log, i) == [])
  {
    if w.st.textIndex.Some? {
      var i := w.st.textIndex.value;
      var v := Work(w.st.(output := w.st.output[i := Message(w.st.fullText, status)]), w.log);
      TextDoneReads(w, v, i, w.st.fullText);
    }
  }

  lemma TextDoneReads(w: Work, v: Work, i: nat, text: string)
    requires Closes(w, v) && DoneIndices(v.log) == [] && DoneItems(v.log) == [] && forall j: nat :: DoneTexts(v.log, j) == []
    ensures var r := Push(Push(v, TextDone(i, text)), PartDone(i, text));
            && Closes(w, r) && DoneIndices(r.log) == [] && DoneItems(r.log) == []
            && forall j: nat :: DoneTexts(r.log, j) == if j == i then [text] else []
  {
    var e, e' := TextDone(i, text), PartDone(i, text);
    CloseOne(w, v, e);
    CloseOne(w, Push(v, e), e');
    PushLists(v, e);
    PushAllTexts(v, e);
    PushLists(Push(v, e), e');
    PushAllTexts(Push(v, e), e');
  }

  /** The final form of an item: its collected text, and the status of the run. */
  function Final(st: State, i: nat, status: Status): Item
    requires i < |st.output|
  {
    match st.output[i]
    case Message(_, _) => Message(st.fullText, status)
    case Call(id, name, arguments, _) => Call(id, name, arguments, status)
  }

  lemma ToolsAreCalls(st: State, i: nat)
    requires Tidy(st) && i < |st.output|
    ensures IsTool(st.tools, 0, i) <==> st.output[i].Call?
  {
    if IsTool(st.tools, 0, i) {
      var j :| 0 <= j < |st.tools| && st.tools[j].index == i;
      assert st.tools[j] in st.tools;
    }
  }

  function ClosedTools(w: Work): Work
    requires Coherent(w.st)
  {
    var status := if Short(w.st) then CutShort else Done;
    CloseTools(CloseText(w, status), 0, status)
  }

  /** Everything before the terminal event. */
  lemma CloseStages(w: Work)
    requires Faithful(w)
    ensures var w2, n := ClosedTools(w), |w.st.output|;
            var w3 := CloseItems(w2, 0);
            && Closes(w, w3) && |w2.st.output| == n && w3.st.output == w2.st.output
            && DoneIndices(w3.log) == Upto(n) && DoneItems(w3.log) == w2.st.output
            && (forall i: nat :: DoneTexts(w3.log, i) == DoneTexts(w2.log, i))
  {
    var status := if Short(w.st) then CutShort else Done;
    CloseTextReads(w, status);
    CloseToolsCloses(w, CloseText(w, status), 0, status);
    CloseItemsReads(w, ClosedTools(w), 0);
  }

  /** The terminal event adds nothing but itself. */
  lemma EndReads(w0: Work, w: Work, e: Event)
    requires Closes(w0, w) && e.Ended?
    ensures var log := Push(w, e).log;
            && log[|log| - 1].event == e && log[..|log| - 1] == w.log && Gapless(log) && Opened(log)
            && Added(log) == Added(w0.log) && AddedItems(log) == AddedItems(w0.log)
            && DoneIndices(log) == DoneIndices(w.log) && DoneItems(log) == DoneItems(w.log)
    ensures forall i: nat :: Delta(Push(w, e).log, i) == Delta(w0.log, i)
    ensures forall i: nat :: DoneTexts(Push(w, e).log, i) == DoneTexts(w.log, i)
  {
    PushLists(w, e);
    PushAllTexts(w, e);
    forall i: nat ensures Delta(w.log, i) + "" == Delta(w.log, i) && DoneTexts(w.log, i) + [] == DoneTexts(w.log, i) {}
  }

  /** The log of a run that ends well. */
  lemma CloseReads(w: Work)
    requires Faithful(w)
    ensures var log, n := Close(w).log, |w.st.output|;
            && |log| > 0 && Gapless(log) && Opened(log) && Unended(log[..|log| - 1])
            && (var last := log[|log| - 1].event;
                last.Ended? && last.ending == EndingOf(w.st) && |last.output| == n
                && last.output == ClosedTools(w).st.output && DoneItems(log) == last.output)
            && Added(log) == Upto(n) && DoneIndices(log) == Upto(n) && AddedItems(log) == AddedItems(w.log)
    ensures forall i: nat :: Delta(Close(w).log, i) == Body(w.st, i)
                          && DoneTexts(Close(w).log, i) == DoneTexts(ClosedTools(w).log, i)
  {
    CloseStages(w);
    var w3 := CloseItems(ClosedTools(w), 0);
    EndReads(w, w3, Ended(EndingOf(w.st), w3.st.output, w3.st.usage));
  }

  /** What closing says about one item. */
  lemma CloseReadsItem(w: Work, i: nat)
    requires Faithful(w) && i < |w.st.output|
    ensures var r, status := ClosedTools(w), if Short(w.st) then CutShort else Done;
            r.st.output[i] == Final(w.st, i, status) && DoneTexts(r.log, i) == [Body(w.st, i)]
  {
    var status := if Short(w.st) then CutShort else Done;
    CloseTextReads(w, status);
    CloseToolsReads(CloseText(w, status), 0, status, i);
    ToolsAreCalls(w.st, i);
  }
}
