/** Chat-completion stream to Responses stream: what each provider event does to the output
    items and to the numbered events, as functions on values. The item's output index stands
    for its random id. */
module ResponseStream {
  import opened Options
  import opened Text

  // ---------- the provider's side ----------

  datatype Fragment =
    | NullFragment
    | Fragment(index: Option<nat>, id: Option<string>, name: Option<string>, arguments: Option<string>)
  datatype Choice = Choice(content: Option<string>, toolCalls: seq<Fragment>, finishReason: Option<string>)
  datatype UsageReport = UsageReport(prompt: Option<int>, completion: Option<int>, total: Option<int>)
  datatype Chunk = Chunk(error: bool, usage: Option<UsageReport>, choice: Option<Choice>)
  datatype Parsed = Malformed | Parsed(chunk: Chunk)

  /** JSON is a parameter: how event data reads as a chunk, and which argument texts parse. */
  datatype Codec = Codec(parse: string -> Parsed, validJson: string -> bool)

  // ---------- the client's side ----------

  datatype Status = InProgress | Done | CutShort
  datatype Item =
    | Message(text: string, status: Status)
    | Call(callId: string, name: string, arguments: string, status: Status)
  datatype Usage = Usage(input: int, output: int, total: int)
  datatype Ending = Completed | Incomplete(reason: string) | Failed(code: string)
  datatype Event =
    | Created
    | Started
    | ItemAdded(index: nat, item: Item)
    | PartAdded(index: nat)
    | TextDelta(index: nat, delta: string)
    | ArgumentsDelta(index: nat, delta: string)
    | TextDone(index: nat, text: string)
    | PartDone(index: nat, text: string)
    | ArgumentsDone(index: nat, text: string)
    | ItemDone(index: nat, item: Item)
    | Ended(ending: Ending, output: seq<Item>, usage: Option<Usage>)
  datatype Numbered = Numbered(number: nat, event: Event)

  datatype Tool = Tool(key: nat, index: nat)
  datatype State = State(
    output: seq<Item>, tools: seq<Tool>, textIndex: Option<nat>, fullText: string,
    sequence: nat, finishReason: Option<string>, usage: Option<Usage>)
  datatype Work = Work(st: State, log: seq<Numbered>)
  datatype Outcome = Ok(w: Work) | Err(w: Work, code: string)

  const FAILED := "MODEL_STREAM_FAILED"
  const TERMINATION_MISSING := "MODEL_STREAM_TERMINATION_MISSING"
  const PROVIDER_ERROR := "MODEL_PROVIDER_STREAM_ERROR"
  const TOOL_CALL_INVALID := "MODEL_TOOL_CALL_INVALID"
  const FINISH_UNSUPPORTED := "MODEL_STREAM_FINISH_UNSUPPORTED"
  const TOOL_CALL_MISSING := "MODEL_TOOL_CALL_MISSING"
  const ARGUMENTS_INVALID := "MODEL_TOOL_ARGUMENTS_INVALID"
  const CANCELLED := "MODEL_STREAM_CANCELLED"
  const REPORT_UNAVAILABLE := "RUNTIME_POLICY_REPORT_UNAVAILABLE"

  const INITIAL := State([], [], None, "", 0, None, None)

  /** Tools point at call items and the text index at a message. */
  predicate Coherent(st: State) {
    && (forall t :: t in st.tools ==> t.index < |st.output| && st.output[t.index].Call?)
    && (st.textIndex.Some? ==> st.textIndex.value < |st.output| && st.output[st.textIndex.value].Message?)
  }

  predicate Empty(s: Option<string>) {
    s.None? || s.value == ""
  }

  function FindTool(tools: seq<Tool>, key: nat): (index: Option<nat>)
    ensures index.Some? ==> exists t :: t in tools && t.key == key && t.index == index.value
    ensures index.None? ==> forall t :: t in tools ==> t.key != key
  {
    if tools == [] then None
    else if tools[0].key == key then
      assert tools[0] in tools;
      Some(tools[0].index)
    else FindTool(tools[1..], key)
  }

  /** `event`: take the next number. */
  function Push(w: Work, e: Event): Work {
    Work(w.st.(sequence := w.st.sequence + 1), w.log + [Numbered(w.st.sequence, e)])
  }

  function OpenText(w: Work): (r: Work)
    requires Coherent(w.st)
    ensures Coherent(r.st) && r.st.textIndex.Some?
  {
    if w.st.textIndex.Some? then w
    else
      var i, item := |w.st.output|, Message("", InProgress);
      var w' := Work(w.st.(textIndex := Some(i), output := w.st.output + [item]), w.log);
      Push(Push(w', ItemAdded(i, item)), PartAdded(i))
  }

  function AddText(w: Work, text: string): (r: Work)
    requires Coherent(w.st)
    ensures Coherent(r.st)
  {
    var w' := OpenText(w);
    Push(Work(w'.st.(fullText := w'.st.fullText + text), w'.log), TextDelta(w'.st.textIndex.value, text))
  }

  function OpenTool(w: Work, key: nat, callId: string, name: string): (r: Work)
    requires Coherent(w.st)
    ensures Coherent(r.st) && |r.st.output| == |w.st.output| + 1 && r.st.output[|w.st.output|].Call?
  {
    var i, item := |w.st.output|, Call(callId, name, "", InProgress);
    Push(Work(w.st.(tools := w.st.tools + [Tool(key, i)], output := w.st.output + [item]), w.log), ItemAdded(i, item))
  }

  function AddArguments(w: Work, i: nat, text: string): (r: Work)
    requires Coherent(w.st) && i < |w.st.output| && w.st.output[i].Call?
    ensures Coherent(r.st)
  {
    var item := w.st.output[i];
    Push(Work(w.st.(output := w.st.output[i := item.(arguments := item.arguments + text)]), w.log), ArgumentsDelta(i, text))
  }

  function AddFragment(w: Work, f: Fragment): (r: Outcome)
    requires Coherent(w.st)
    ensures Coherent(r.w.st)
  {
    if f.NullFragment? then Err(w, FAILED)
    else if f.index.None? then Err(w, TOOL_CALL_INVALID)
    else
      var found := FindTool(w.st.tools, f.index.value);
      if found.None? && (Empty(f.id) || Empty(f.name)) then Err(w, TOOL_CALL_INVALID)
      else
        var w' := if found.None? then OpenTool(w, f.index.value, f.id.value, f.name.value) else w;
        var i := if found.None? then |w.st.output| else found.value;
        if Empty(f.arguments) then Ok(w') else Ok(AddArguments(w', i, f.arguments.value))
  }

  function AddFragments(w: Work, fragments: seq<Fragment>): (r: Outcome)
    requires Coherent(w.st)
    ensures Coherent(r.w.st)
    decreases |fragments|
  {
    if fragments == [] then Ok(w)
    else
      var r := AddFragment(w, fragments[0]);
      if r.Err? then r else AddFragments(r.w, fragments[1..])
  }

  function SetUsage(w: Work, usage: Option<UsageReport>): Work {
    if usage.None? then w
    else Work(w.st.(usage := Some(Usage(usage.value.prompt.Or(0), usage.value.completion.Or(0), usage.value.total.Or(0)))), w.log)
  }

  function SetFinish(w: Work, reason: Option<string>): Work {
    if reason.None? then w else Work(w.st.(finishReason := reason), w.log)
  }

  function AddChoice(w: Work, choice: Choice): (r: Outcome)
    requires Coherent(w.st)
    ensures Coherent(r.w.st)
  {
    var w' := if Empty(choice.content) then w else AddText(w, choice.content.value);
    var r := AddFragments(w', choice.toolCalls);
    if r.Err? then r else Ok(SetFinish(r.w, choice.finishReason))
  }

  /** `consume`: one provider event. An error keeps what the state took before it. */
  function Consume(w: Work, raw: string, codec: Codec): (r: Outcome)
    requires Coherent(w.st)
    ensures Coherent(r.w.st)
  {
    if raw == "[DONE]" then
      if Empty(w.st.finishReason) then Err(w, TERMINATION_MISSING) else Ok(w)
    else match codec.parse(raw)
      case Malformed => Err(w, FAILED)
      case Parsed(chunk) =>
        if chunk.error then Err(w, PROVIDER_ERROR)
        else
          var w1 := SetUsage(w, chunk.usage);
          if chunk.choice.None? then Ok(w1) else AddChoice(w1, chunk.choice.value)
  }

  // ---------- the line reader ----------

  /** `failure` is the code of the error that ended the reading. */
  datatype Reader = Reader(eventData: seq<string>, w: Work, failure: Option<string>)

  /** `consume` the collected data; when it throws, the events it numbered are not yielded. */
  function Dispatch(r: Reader, codec: Codec): (r': Reader)
    requires Coherent(r.w.st)
    ensures Coherent(r'.w.st)
  {
    match Consume(r.w, JoinLines(r.eventData), codec)
    case Ok(w) => Reader([], w, None)
    case Err(w, code) => Reader(r.eventData, Work(w.st, r.w.log), Some(code))
  }

  function StripReturn(line: string): string {
    if line != "" && line[|line| - 1] == '\r' then line[..|line| - 1] else line
  }

  function ReadLine(r: Reader, raw: string, codec: Codec): (r': Reader)
    requires Coherent(r.w.st)
    ensures Coherent(r'.w.st)
  {
    var line := StripReturn(raw);
    if "data:" <= line then r.(eventData := r.eventData + [TrimStart(line[5..])])
    else if line == "" && r.eventData != [] then Dispatch(r, codec)
    else r
  }

  function ReadLines(r: Reader, lines: seq<string>, codec: Codec): (r': Reader)
    requires Coherent(r.w.st)
    ensures Coherent(r'.w.st)
    decreases |lines|
  {
    if r.failure.Some? || lines == [] then r
    else ReadLines(ReadLine(r, lines[0], codec), lines[1..], codec)
  }

  /** How the upstream body ends: closed, or broken with an error message. */
  datatype End = Closed | Broken(message: string)

  /** The code a thrown error is reported under. */
  function Code(message: string): string {
    if "MODEL_" <= message then message else FAILED
  }

  /** All lines of a closed body: a missing final newline is supplied. */
  function AllLines(text: string): seq<string> {
    if text != "" && text[|text| - 1] != '\n' then CutLines(text + "\n").lines else CutLines(text).lines
  }

  const OPENED := Reader([], Push(Push(Work(INITIAL, []), Created), Started), None)

  /** The batch reading of a whole decoded body. */
  function ReadAll(text: string, end: End, codec: Codec): (r: Reader)
    ensures Coherent(r.w.st)
  {
    var r := ReadLines(OPENED, if end.Closed? then AllLines(text) else CutLines(text).lines, codec);
    if r.failure.Some? then r
    else if end.Broken? then r.(failure := Some(Code(end.message)))
    else if r.eventData != [] then Dispatch(r, codec)
    else r
  }

  // ---------- the end of the run ----------

  predicate Short(st: State) {
    st.finishReason == Some("length") || st.finishReason == Some("content_filter")
  }

  predicate ArgumentsParse(st: State, codec: Codec)
    requires Coherent(st)
  {
    forall t :: t in st.tools ==> codec.validJson(st.output[t.index].arguments)
  }

  /** The error found after the last line, if any. */
  function Verdict(st: State, codec: Codec): Option<string>
    requires Coherent(st)
  {
    if Empty(st.finishReason) then Some(TERMINATION_MISSING)
    else if st.finishReason.value !in ["stop", "tool_calls", "length", "content_filter"] then Some(FINISH_UNSUPPORTED)
    else if st.finishReason.value == "tool_calls" && st.tools == [] then Some(TOOL_CALL_MISSING)
    else if !Short(st) && !ArgumentsParse(st, codec) then Some(ARGUMENTS_INVALID)
    else None
  }

  function CloseText(w: Work, status: Status): (r: Work)
    requires Coherent(w.st)
    ensures Coherent(r.st) && |r.st.output| == |w.st.output| && r.st.tools == w.st.tools
    ensures w.log <= r.log
  {
    if w.st.textIndex.None? then w
    else
      var i := w.st.textIndex.value;
      var w' := Work(w.st.(output := w.st.output[i := Message(w.st.fullText, status)]), w.log);
      Push(Push(w', TextDone(i, w.st.fullText)), PartDone(i, w.st.fullText))
  }

  function CloseTool(w: Work, k: nat, status: Status): (r: Work)
    requires Coherent(w.st) && k < |w.st.tools|
    ensures Coherent(r.st) && |r.st.output| == |w.st.output| && r.st.tools == w.st.tools
    ensures w.log <= r.log
  {
    var i := w.st.tools[k].index;
    assert w.st.tools[k] in w.st.tools;
    var item := w.st.output[i];
    var closed := Call(item.callId, item.name, item.arguments, status);
    Push(Work(w.st.(output := w.st.output[i := closed]), w.log), ArgumentsDone(i, item.arguments))
  }

  /** Close the tools from position `k` of the tool map on. */
  function CloseTools(w: Work, k: nat, status: Status): (r: Work)
    requires Coherent(w.st) && k <= |w.st.tools|
    ensures Coherent(r.st) && |r.st.output| == |w.st.output|
    ensures w.log <= r.log
    decreases |w.st.tools| - k
  {
    if k == |w.st.tools| then w else CloseTools(CloseTool(w, k, status), k + 1, status)
  }

  function CloseItems(w: Work, k: nat): (r: Work)
    requires k <= |w.st.output|
    ensures w.log <= r.log && r.st.output == w.st.output
    decreases |w.st.output| - k
  {
    if k == |w.st.output| then w else CloseItems(Push(w, ItemDone(k, w.st.output[k])), k + 1)
  }

  function EndingOf(st: State): Ending {
    if st.finishReason == Some("length") then Incomplete("max_output_tokens")
    else if st.finishReason == Some("content_filter") then Incomplete("content_filter")
    else Completed
  }

  function Close(w: Work): (r: Work)
    requires Coherent(w.st)
    ensures w.log <= r.log
  {
    var status := if Short(w.st) then CutShort else Done;
    var w' := CloseItems(CloseTools(CloseText(w, status), 0, status), 0);
    Push(w', Ended(EndingOf(w.st), w'.st.output, w'.st.usage))
  }

  /** What the generator does, in order: yield an event, or call onFinish. */
  datatype Report = ReportCompleted | ReportFailed(reason: string)
  datatype Action = Yield(numbered: Numbered) | Finish(report: Report, returned: bool)

  /** How the n-th call of onFinish ends. */
  datatype Answer = Returns | Throws(message: string)

  function Yields(log: seq<Numbered>): seq<Action> {
    seq(|log|, i requires 0 <= i < |log| => Yield(log[i]))
  }

  function ReportOf(st: State): Report {
    if st.finishReason == Some("length") then ReportFailed("MODEL_STREAM_LENGTH")
    else if st.finishReason == Some("content_filter") then ReportFailed("MODEL_STREAM_CONTENT_FILTER")
    else ReportCompleted
  }

  function Fail(st: State, code: string, answer: Answer): seq<Action> {
    [ Finish(ReportFailed(code), answer.Returns?),
      Yield(Numbered(st.sequence, Ended(Failed(if answer.Returns? then code else REPORT_UNAVAILABLE), st.output, st.usage))) ]
  }

  /** Everything after the reading. */
  function Conclude(r: Reader, codec: Codec, answers: nat -> Answer): seq<Action>
    requires Coherent(r.w.st)
  {
    var failure := if r.failure.Some? then r.failure else Verdict(r.w.st, codec);
    if failure.Some? then Fail(r.w.st, failure.value, answers(0))
    else
      match answers(0)
      case Returns => [Finish(ReportOf(r.w.st), true)] + Yields(Close(r.w).log[|r.w.log|..])
      case Throws(message) => [Finish(ReportOf(r.w.st), false)] + Fail(r.w.st, Code(message), answers(1))
  }

  /** The whole run for a decoded body, when the consumer drains it. */
  function Trace(text: string, end: End, codec: Codec, answers: nat -> Answer): seq<Action> {
    var r := ReadAll(text, end, codec);
    Yields(r.w.log) + Conclude(r, codec, answers)
  }
}
