/** What a provider's stream means, read as a whole: the lines of its body, the chunks they carry, and the items the
    chunks spell. A reference for the event-by-event translation. */
module StreamMeaning {
  import opened Options
  import opened Text
  import opened ResponseStream
  import opened StreamShape
  import opened StreamTheorems

  // ---------- what chunks say ----------

  /** A piece of text, or of a tool call. */
  datatype Atom = Words(text: string) | Piece(fragment: Fragment)

  /** An output item: the message, or the call with a provider's index. */
  datatype Name = TheMessage | TheCall(key: nat)

  function Pieces(fragments: seq<Fragment>): seq<Atom> {
    seq(|fragments|, i requires 0 <= i < |fragments| => Piece(fragments[i]))
  }

  function WordsOf(content: Option<string>): seq<Atom> {
    if content == None || content == Some("") then [] else [Words(content.value)]
  }

  function Atoms(chunks: seq<Chunk>): seq<Atom> {
    if chunks == [] then []
    else
      var last := chunks[|chunks| - 1].choice;
      Atoms(chunks[..|chunks| - 1]) + if last.None? then [] else WordsOf(last.value.content) + Pieces(last.value.toolCalls)
  }

  function NameOf(a: Atom): Name {
    match a
    case Words(_) => TheMessage
    case Piece(f) => if f.Fragment? && f.index.Some? then TheCall(f.index.value) else TheCall(0)
  }

  /** The items, in the order in which they are first spoken of. */
  function Names(atoms: seq<Atom>): seq<Name> {
    if atoms == [] then []
    else
      var before, name := Names(atoms[..|atoms| - 1]), NameOf(atoms[|atoms| - 1]);
      if name in before then before else before + [name]
  }

  function Spoken(atoms: seq<Atom>): string {
    if atoms == [] then ""
    else
      var last := atoms[|atoms| - 1];
      Spoken(atoms[..|atoms| - 1]) + if last.Words? then last.text else ""
  }

  /** All argument text of one call. */
  function Arguments(atoms: seq<Atom>, key: nat): string {
    if atoms == [] then ""
    else
      var last := atoms[|atoms| - 1];
      Arguments(atoms[..|atoms| - 1], key) +
        if last.Piece? && NameOf(last) == TheCall(key) && last.fragment.Fragment? then last.fragment.arguments.Or("") else ""
  }

  /** The fragment that opens a call. */
  function Opening(atoms: seq<Atom>, key: nat): Option<Fragment> {
    if atoms == [] then None
    else
      var before, last := Opening(atoms[..|atoms| - 1], key), atoms[|atoms| - 1];
      if before.Some? then before else if last.Piece? && NameOf(last) == TheCall(key) then Some(last.fragment) else None
  }

  /** A fragment names its call, and one that opens a call names it fully. */
  predicate Allowed(atoms: seq<Atom>, a: Atom) {
    a.Piece? ==>
      && a.fragment.Fragment? && a.fragment.index.Some?
      && (NameOf(a) in Names(atoms) || (a.fragment.id.Or("") != "" && a.fragment.name.Or("") != ""))
  }

  predicate Legal(atoms: seq<Atom>) {
    atoms != [] ==> Legal(atoms[..|atoms| - 1]) && Allowed(atoms[..|atoms| - 1], atoms[|atoms| - 1])
  }

  function ItemFor(atoms: seq<Atom>, name: Name, status: Status): Item {
    match name
    case TheMessage => Message(Spoken(atoms), status)
    case TheCall(key) =>
      var opening := Opening(atoms, key);
      if opening.Some? && opening.value.Fragment?
      then Call(opening.value.id.Or(""), opening.value.name.Or(""), Arguments(atoms, key), status) else Call("", "", "", status)
  }

  function UsageOf(chunks: seq<Chunk>): Option<Usage> {
    if chunks == [] then None
    else
      var last := chunks[|chunks| - 1].usage;
      if last.Some? then Some(Usage(last.value.prompt.Or(0), last.value.completion.Or(0), last.value.total.Or(0)))
      else UsageOf(chunks[..|chunks| - 1])
  }

  function FinishOf(chunks: seq<Chunk>): Option<string> {
    if chunks == [] then None
    else
      var last := chunks[|chunks| - 1].choice;
      if last.Some? && last.value.finishReason.Some? then last.value.finishReason else FinishOf(chunks[..|chunks| - 1])
  }

  // ---------- the state says what the chunks say ----------

  lemma AtomLast(atoms: seq<Atom>, a: Atom)
    ensures Names(atoms + [a]) == if NameOf(a) in Names(atoms) then Names(atoms) else Names(atoms) + [NameOf(a)]
    ensures Spoken(atoms + [a]) == Spoken(atoms) + if a.Words? then a.text else ""
    ensures Legal(atoms + [a]) <==> Legal(atoms) && Allowed(atoms, a)
  {
    assert (atoms + [a])[..|atoms|] == atoms;
  }

  lemma CallLast(atoms: seq<Atom>, a: Atom, key: nat)
    ensures Arguments(atoms + [a], key) ==
            Arguments(atoms, key) + if a.Piece? && NameOf(a) == TheCall(key) && a.fragment.Fragment? then a.fragment.arguments.Or("") else ""
    ensures Opening(atoms + [a], key) ==
            if Opening(atoms, key).Some? then Opening(atoms, key)
            else if a.Piece? && NameOf(a) == TheCall(key) then Some(a.fragment) else None
  {
    assert (atoms + [a])[..|atoms|] == atoms;
  }

  lemma {:induction false} NamesDistinct(atoms: seq<Atom>, i: nat, j: nat)
    requires i < j < |Names(atoms)|
    ensures Names(atoms)[i] != Names(atoms)[j]
    decreases |atoms|
  {
    var init := atoms[..|atoms| - 1];
    if j < |Names(init)| {
      NamesDistinct(init, i, j);
    }
  }

  lemma {:induction false} OpenedIsNamed(atoms: seq<Atom>, key: nat)
    requires Legal(atoms)
    ensures Opening(atoms, key).Some? <==> TheCall(key) in Names(atoms)
    ensures Opening(atoms, key).Some? ==>
              var f := Opening(atoms, key).value; f.Fragment? && f.index == Some(key) && f.id.Or("") != "" && f.name.Or("") != ""
    ensures TheCall(key) !in Names(atoms) ==> Arguments(atoms, key) == ""
    decreases |atoms|
  {
    if atoms != [] {
      OpenedIsNamed(atoms[..|atoms| - 1], key);
    }
  }

  /** The item at a position is the one of its name. */
  predicate Right(st: State, atoms: seq<Atom>, i: nat)
    requires i < |Names(atoms)| && i < |st.output|
  {
    match Names(atoms)[i]
    case TheMessage => st.output[i].Message? && st.textIndex == Some(i)
    case TheCall(key) => st.output[i] == ItemFor(atoms, TheCall(key), InProgress) && Tool(key, i) in st.tools
  }

  predicate Means(st: State, atoms: seq<Atom>) {
    && Coherent(st) && Legal(atoms) && |st.output| == |Names(atoms)|
    && (forall i :: 0 <= i < |Names(atoms)| ==> Right(st, atoms, i))
    && (forall t :: t in st.tools ==> Names(atoms)[t.index] == TheCall(t.key))
    && (st.textIndex.Some? ==> Names(atoms)[st.textIndex.value] == TheMessage)
    && st.fullText == Spoken(atoms)
  }

  lemma FoundIsNamed(st: State, atoms: seq<Atom>, key: nat)
    requires Means(st, atoms)
    ensures FindTool(st.tools, key).None? <==> TheCall(key) !in Names(atoms)
    ensures FindTool(st.tools, key).Some? ==> FindTool(st.tools, key).value < |Names(atoms)| && Names(atoms)[FindTool(st.tools, key).value] == TheCall(key)
  {
    if TheCall(key) in Names(atoms) {
      var i :| 0 <= i < |Names(atoms)| && Names(atoms)[i] == TheCall(key);
      assert Right(st, atoms, i);
    }
  }

  lemma TextIsNamed(st: State, atoms: seq<Atom>)
    requires Means(st, atoms)
    ensures st.textIndex.None? <==> TheMessage !in Names(atoms)
  {
    if TheMessage in Names(atoms) {
      var i :| 0 <= i < |Names(atoms)| && Names(atoms)[i] == TheMessage;
      assert Right(st, atoms, i);
    }
  }

  /** An atom of another item leaves an item as it was. */
  lemma OtherRight(st: State, after: State, atoms: seq<Atom>, a: Atom, i: nat)
    requires i < |Names(atoms)| == |st.output| <= |after.output| && Right(st, atoms, i) && NameOf(a) != Names(atoms)[i]
    requires after.output[i] == st.output[i] && after.textIndex == (if Names(atoms)[i].TheMessage? then st.textIndex else after.textIndex)
    requires forall t :: t in st.tools ==> t in after.tools
    ensures i < |Names(atoms + [a])| && Right(after, atoms + [a], i)
  {
    AtomLast(atoms, a);
    if Names(atoms)[i].TheCall? {
      CallLast(atoms, a, Names(atoms)[i].key);
    }
  }

  lemma WordsMean(w: Work, atoms: seq<Atom>, text: string)
    requires Means(w.st, atoms)
    ensures Means(AddText(w, text).st, atoms + [Words(text)])
  {
    var st, a := AddText(w, text).st, Words(text);
    AtomLast(atoms, a);
    TextIsNamed(w.st, atoms);
    forall i | 0 <= i < |Names(atoms + [a])| ensures Right(st, atoms + [a], i) {
      if i < |Names(atoms)| && Names(atoms)[i] != TheMessage {
        OtherRight(w.st, st, atoms, a, i);
      } else if i < |Names(atoms)| {
        assert Right(w.st, atoms, i);
      }
    }
  }

  /** A fragment that opens its call. */
  lemma OpeningMeans(w: Work, atoms: seq<Atom>, f: Fragment)
    requires Means(w.st, atoms) && Allowed(atoms, Piece(f)) && f.Fragment? && f.index.Some? && TheCall(f.index.value) !in Names(atoms)
    ensures Means(AddFragment(w, f).w.st, atoms + [Piece(f)])
  {
    var key, a := f.index.value, Piece(f);
    AtomLast(atoms, a);
    CallLast(atoms, a, key);
    FoundIsNamed(w.st, atoms, key);
    OpenedIsNamed(atoms, key);
    var st := AddFragment(w, f).w.st;
    OpeningAdds(w, f);
    forall i | 0 <= i < |Names(atoms + [a])| ensures Right(st, atoms + [a], i) {
      if i < |Names(atoms)| {
        assert Right(w.st, atoms, i);
        OtherRight(w.st, st, atoms, a, i);
      }
    }
    ToolsNamed(w.st, st, atoms, a);
  }

  lemma OpeningAdds(w: Work, f: Fragment)
    requires Coherent(w.st) && f.Fragment? && f.index.Some? && FindTool(w.st.tools, f.index.value).None? && !Empty(f.id) && !Empty(f.name)
    ensures var r := AddFragment(w, f);
            && r.Ok? && r.w.st.output == w.st.output + [Call(f.id.value, f.name.value, f.arguments.Or(""), InProgress)]
            && r.w.st.tools == w.st.tools + [Tool(f.index.value, |w.st.output|)]
            && r.w.st.textIndex == w.st.textIndex && r.w.st.fullText == w.st.fullText
  {
    assert "" + f.arguments.Or("") == f.arguments.Or("");
  }

  lemma ToolsNamed(st: State, after: State, atoms: seq<Atom>, a: Atom)
    requires Means(st, atoms) && a.Piece? && NameOf(a) !in Names(atoms)
    requires after.tools == st.tools + [Tool(NameOf(a).key, |st.output|)]
    ensures forall t :: t in after.tools ==> t.index < |Names(atoms + [a])| && Names(atoms + [a])[t.index] == TheCall(t.key)
  {
    AtomLast(atoms, a);
  }

  /** A fragment that goes on with its call. */
  lemma GoingOnMeans(w: Work, atoms: seq<Atom>, f: Fragment)
    requires Means(w.st, atoms) && f.Fragment? && f.index.Some? && TheCall(f.index.value) in Names(atoms)
    ensures AddFragment(w, f).Ok? && Means(AddFragment(w, f).w.st, atoms + [Piece(f)])
  {
    var key, a := f.index.value, Piece(f);
    AtomLast(atoms, a);
    CallLast(atoms, a, key);
    FoundIsNamed(w.st, atoms, key);
    OpenedIsNamed(atoms, key);
    var at, st := FindTool(w.st.tools, key).value, AddFragment(w, f).w.st;
    assert Right(w.st, atoms, at);
    assert Arguments(atoms, key) + "" == Arguments(atoms, key);
    forall i | 0 <= i < |Names(atoms + [a])| ensures Right(st, atoms + [a], i) {
      assert Right(w.st, atoms, i);
      if i != at {
        if i < at { NamesDistinct(atoms, i, at); } else { NamesDistinct(atoms, at, i); }
        OtherRight(w.st, st, atoms, a, i);
      }
    }
  }

  /** A fragment is taken exactly when it is allowed. */
  lemma PieceMeans(w: Work, atoms: seq<Atom>, f: Fragment)
    requires Means(w.st, atoms)
    ensures AddFragment(w, f).Ok? <==> Allowed(atoms, Piece(f))
    ensures AddFragment(w, f).Ok? ==> Means(AddFragment(w, f).w.st, atoms + [Piece(f)])
    ensures AddFragment(w, f).Err? ==> AddFragment(w, f).code == if f.NullFragment? then FAILED else TOOL_CALL_INVALID
  {
    if f.Fragment? && f.index.Some? {
      FoundIsNamed(w.st, atoms, f.index.value);
      if TheCall(f.index.value) in Names(atoms) {
        GoingOnMeans(w, atoms, f);
      } else if Allowed(atoms, Piece(f)) {
        OpeningMeans(w, atoms, f);
      }
    }
  }

  /** The code of the first fragment that is not allowed. */
  function PieceFailure(atoms: seq<Atom>, fragments: seq<Fragment>): Option<string>
    decreases |fragments|
  {
    if fragments == [] then None
    else if !Allowed(atoms, Piece(fragments[0])) then Some(if fragments[0].NullFragment? then FAILED else TOOL_CALL_INVALID)
    else PieceFailure(atoms + [Piece(fragments[0])], fragments[1..])
  }

  lemma PiecesFront(atoms: seq<Atom>, first: Fragment, rest: seq<Fragment>)
    ensures atoms + [Piece(first)] + Pieces(rest) == atoms + Pieces([first] + rest)
  {
  }

  lemma AddFront(w: Work, fragments: seq<Fragment>)
    requires Coherent(w.st) && fragments != []
    ensures var r := AddFragment(w, fragments[0]);
            AddFragments(w, fragments) == if r.Err? then r else AddFragments(r.w, fragments[1..])
  {
  }

  lemma {:induction false} PiecesMean(w: Work, atoms: seq<Atom>, fragments: seq<Fragment>)
    requires Means(w.st, atoms)
    ensures var r, failure := AddFragments(w, fragments), PieceFailure(atoms, fragments);
            if failure.None? then r.Ok? && Means(r.w.st, atoms + Pieces(fragments)) else r.Err? && r.code == failure.value
    decreases |fragments|
  {
    if fragments == [] {
      assert atoms + Pieces([]) == atoms;
    } else {
      var first, rest := fragments[0], fragments[1..];
      PieceMeans(w, atoms, first);
      AddFront(w, fragments);
      if AddFragment(w, first).Ok? {
        PiecesMean(AddFragment(w, first).w, atoms + [Piece(first)], rest);
        PiecesFront(atoms, first, rest);
        assert [first] + rest == fragments;
      }
    }
  }

  /** The whole state after some chunks. */
  predicate Says(st: State, chunks: seq<Chunk>) {
    Means(st, Atoms(chunks)) && st.usage == UsageOf(chunks) && st.finishReason == FinishOf(chunks)
  }

  lemma ChunkLast(chunks: seq<Chunk>, chunk: Chunk)
    ensures Atoms(chunks + [chunk]) ==
            Atoms(chunks) + if chunk.choice.None? then [] else WordsOf(chunk.choice.value.content) + Pieces(chunk.choice.value.toolCalls)
    ensures UsageOf(chunks + [chunk]) ==
            if chunk.usage.Some? then Some(Usage(chunk.usage.value.prompt.Or(0), chunk.usage.value.completion.Or(0), chunk.usage.value.total.Or(0)))
            else UsageOf(chunks)
    ensures FinishOf(chunks + [chunk]) ==
            if chunk.choice.Some? && chunk.choice.value.finishReason.Some? then chunk.choice.value.finishReason else FinishOf(chunks)
  {
    assert (chunks + [chunk])[..|chunks|] == chunks;
  }

  /** Neither text nor fragments change what was reported beside them. */
  lemma AddKeeps(w: Work, text: string)
    requires Coherent(w.st)
    ensures AddText(w, text).st.usage == w.st.usage && AddText(w, text).st.finishReason == w.st.finishReason
  {
  }

  lemma {:induction false} FragmentsKeep(w: Work, fragments: seq<Fragment>)
    requires Coherent(w.st)
    ensures AddFragments(w, fragments).w.st.usage == w.st.usage && AddFragments(w, fragments).w.st.finishReason == w.st.finishReason
    decreases |fragments|
  {
    if fragments != [] {
      FragmentsKeep(AddFragment(w, fragments[0]).w, fragments[1..]);
    }
  }

  lemma SameMeaning(st: State, after: State, atoms: seq<Atom>)
    requires Means(st, atoms) && after.output == st.output && after.tools == st.tools && after.textIndex == st.textIndex && after.fullText == st.fullText
    ensures Means(after, atoms)
  {
    forall i | 0 <= i < |Names(atoms)| ensures Right(after, atoms, i) {
      assert Right(st, atoms, i);
    }
  }

  function ChoiceFailure(atoms: seq<Atom>, choice: Choice): Option<string> {
    PieceFailure(atoms + WordsOf(choice.content), choice.toolCalls)
  }

  lemma WordedMeans(w: Work, atoms: seq<Atom>, content: Option<string>)
    requires Means(w.st, atoms)
    ensures var r := Worded(w, content);
            Means(r.st, atoms + WordsOf(content)) && r.st.usage == w.st.usage && r.st.finishReason == w.st.finishReason
  {
    if Empty(content) {
      assert atoms + [] == atoms;
    } else {
      WordsMean(w, atoms, content.value);
      AddKeeps(w, content.value);
    }
  }

  lemma ThreeAtoms(a: seq<Atom>, b: seq<Atom>, c: seq<Atom>)
    ensures a + b + c == a + (b + c)
  {
  }

  lemma FinishMeans(w: Work, atoms: seq<Atom>, reason: Option<string>)
    requires Means(w.st, atoms)
    ensures var st := SetFinish(w, reason).st;
            Means(st, atoms) && st.usage == w.st.usage && st.finishReason == if reason.Some? then reason else w.st.finishReason
  {
    SameMeaning(w.st, SetFinish(w, reason).st, atoms);
  }

  lemma ChoiceMeans(w: Work, atoms: seq<Atom>, choice: Choice)
    requires Means(w.st, atoms)
    ensures var r, failure := AddChoice(w, choice), ChoiceFailure(atoms, choice);
            if failure.None? then
              && r.Ok? && Means(r.w.st, atoms + (WordsOf(choice.content) + Pieces(choice.toolCalls))) && r.w.st.usage == w.st.usage
              && r.w.st.finishReason == if choice.finishReason.Some? then choice.finishReason else w.st.finishReason
            else r.Err? && r.code == failure.value
  {
    var words, w1 := WordsOf(choice.content), Worded(w, choice.content);
    ChoiceIs(w, choice);
    WordedMeans(w, atoms, choice.content);
    PiecesMean(w1, atoms + words, choice.toolCalls);
    FragmentsKeep(w1, choice.toolCalls);
    ThreeAtoms(atoms, words, Pieces(choice.toolCalls));
    var r := AddFragments(w1, choice.toolCalls);
    if r.Ok? {
      FinishMeans(r.w, atoms + (words + Pieces(choice.toolCalls)), choice.finishReason);
    }
  }

  // ---------- a stream of events ----------

  /** The chunks of some event data; the end marker carries none. */
  function ChunksOf(raws: seq<string>, codec: Codec): seq<Chunk> {
    if raws == [] then []
    else
      var last := raws[|raws| - 1];
      ChunksOf(raws[..|raws| - 1], codec) + if last == "[DONE]" || codec.parse(last).Malformed? then [] else [codec.parse(last).chunk]
  }

  /** Why event data is refused after some chunks, if it is. */
  function Refusal(chunks: seq<Chunk>, raw: string, codec: Codec): Option<string> {
    if raw == "[DONE]" then if FinishOf(chunks).Or("") == "" then Some(TERMINATION_MISSING) else None
    else if codec.parse(raw).Malformed? then Some(FAILED)
    else if codec.parse(raw).chunk.error then Some(PROVIDER_ERROR)
    else if codec.parse(raw).chunk.choice.None? then None
    else ChoiceFailure(Atoms(chunks), codec.parse(raw).chunk.choice.value)
  }

  lemma ConsumeMeans(w: Work, chunks: seq<Chunk>, raw: string, codec: Codec)
    requires Says(w.st, chunks)
    ensures var r, failure := Consume(w, raw, codec), Refusal(chunks, raw, codec);
            if failure.None? then r.Ok? && Says(r.w.st, if raw == "[DONE]" then chunks else chunks + [codec.parse(raw).chunk])
            else r.Err? && r.code == failure.value
  {
    if raw != "[DONE]" && codec.parse(raw).Parsed? && !codec.parse(raw).chunk.error {
      var chunk := codec.parse(raw).chunk;
      ChunkLast(chunks, chunk);
      var w1 := SetUsage(w, chunk.usage);
      SameMeaning(w.st, w1.st, Atoms(chunks));
      assert Atoms(chunks) + [] == Atoms(chunks);
      if chunk.choice.Some? {
        ChoiceMeans(w1, Atoms(chunks), chunk.choice.value);
      }
    }
  }

  /** The reason of the first event that is refused. */
  function Failure(raws: seq<string>, codec: Codec): Option<string> {
    if raws == [] then None
    else
      var init := raws[..|raws| - 1];
      if Failure(init, codec).Some? then Failure(init, codec) else Refusal(ChunksOf(init, codec), raws[|raws| - 1], codec)
  }

  lemma RawLast(raws: seq<string>, raw: string, codec: Codec)
    ensures Failure(raws + [raw], codec) ==
            if Failure(raws, codec).Some? then Failure(raws, codec) else Refusal(ChunksOf(raws, codec), raw, codec)
    ensures ChunksOf(raws + [raw], codec) ==
            ChunksOf(raws, codec) + if raw == "[DONE]" || codec.parse(raw).Malformed? then [] else [codec.parse(raw).chunk]
  {
    assert (raws + [raw])[..|raws|] == raws;
  }

  // ---------- the lines of a body ----------

  /** A line of an event stream: data after some white space, a blank line, or a line of another field. */
  datatype Line = Data(pad: string, data: string, cr: bool) | Blank(cr: bool) | OtherLine(text: string)

  predicate AllSpace(s: string) {
    forall c :: c in s ==> IsSpace(c)
  }

  predicate ValidLine(l: Line) {
    match l
    case Data(pad, data, cr) =>
      && AllSpace(pad) && '\n' !in pad && '\n' !in data
      && (data != "" ==> !IsSpace(data[0]) && (cr || data[|data| - 1] != '\r'))
    case Blank(_) => true
    case OtherLine(text) => '\n' !in text && text != "" && text != "\r" && !("data:" <= text)
  }

  function Spelled(l: Line): string {
    match l
    case Data(pad, data, cr) => "data:" + (pad + (data + if cr then "\r" else ""))
    case Blank(cr) => if cr then "\r" else ""
    case OtherLine(text) => text
  }

  function SpelledAll(lines: seq<Line>): seq<string> {
    seq(|lines|, i requires 0 <= i < |lines| => Spelled(lines[i]))
  }

  /** The event data that is complete, and the data lines of the event that is not. */
  datatype Framed = Framed(raws: seq<string>, open: seq<string>)

  function FrameOne(f: Framed, l: Line): Framed {
    match l
    case Data(_, data, _) => f.(open := f.open + [data])
    case Blank(_) => if f.open == [] then f else Framed(f.raws + [JoinLines(f.open)], [])
    case OtherLine(_) => f
  }

  function Frame(f: Framed, lines: seq<Line>): Framed
    decreases |lines|
  {
    if lines == [] then f else Frame(FrameOne(f, lines[0]), lines[1..])
  }

  /** The event data of a closed body. */
  function RawsOf(lines: seq<Line>): seq<string> {
    var f := Frame(Framed([], []), lines);
    if f.open == [] then f.raws else f.raws + [JoinLines(f.open)]
  }

  lemma {:induction false} TrimPad(pad: string, data: string)
    requires AllSpace(pad) && (data != "" ==> !IsSpace(data[0]))
    ensures TrimStart(pad + data) == data
    decreases |pad|
  {
    if pad == "" {
      assert pad + data == data;
    } else {
      assert (pad + data)[1..] == pad[1..] + data;
      TrimPad(pad[1..], data);
    }
  }

  lemma StripSpelled(pad: string, data: string, cr: bool)
    requires ValidLine(Data(pad, data, cr))
    ensures var line := StripReturn(Spelled(Data(pad, data, cr))); "data:" <= line && TrimStart(line[5..]) == data
  {
    if cr {
      StripsReturn(pad, data);
    } else {
      KeepsLine(pad, data);
    }
  }

  lemma StripsReturn(pad: string, data: string)
    requires AllSpace(pad) && (data != "" ==> !IsSpace(data[0]))
    ensures var line := StripReturn("data:" + (pad + (data + "\r"))); "data:" <= line && TrimStart(line[5..]) == data
  {
    FourParts("data:", pad, data, "\r");
    StripOne("data:" + (pad + data));
    TrimPad(pad, data);
  }

  lemma FourParts(a: string, b: string, c: string, d: string)
    ensures a + (b + (c + d)) == a + (b + c) + d
  {
  }

  lemma StripOne(line: string)
    ensures StripReturn(line + "\r") == line
  {
  }

  lemma KeepsLine(pad: string, data: string)
    requires AllSpace(pad) && (data != "" ==> !IsSpace(data[0]) && data[|data| - 1] != '\r')
    ensures var line := StripReturn("data:" + (pad + (data + ""))); "data:" <= line && TrimStart(line[5..]) == data
  {
    assert data + "" == data;
    if data == "" && pad != "" && pad[|pad| - 1] == '\r' {
      SpacesOnly(pad);
    } else {
      LastKept(pad, data);
      TrimPad(pad, data);
    }
  }

  lemma SpacesOnly(pad: string)
    requires AllSpace(pad) && pad != "" && pad[|pad| - 1] == '\r'
    ensures var line := StripReturn("data:" + (pad + "")); "data:" <= line && TrimStart(line[5..]) == ""
  {
    var raw, shorter := "data:" + (pad + ""), pad[..|pad| - 1];
    assert raw[|raw| - 1] == pad[|pad| - 1] && raw[..|raw| - 1] == "data:" + (shorter + "");
    TrimPad(shorter, "");
  }

  lemma LastKept(pad: string, data: string)
    requires (data != "" ==> data[|data| - 1] != '\r') && (data == "" && pad != "" ==> pad[|pad| - 1] != '\r')
    ensures StripReturn("data:" + (pad + data)) == "data:" + (pad + data)
  {
    var line := "data:" + (pad + data);
    if data != "" {
      assert line[|line| - 1] == data[|data| - 1];
    } else if pad != "" {
      assert line[|line| - 1] == pad[|pad| - 1];
    } else {
      assert line == "data:";
    }
  }

  lemma StripOther(text: string)
    requires ValidLine(OtherLine(text))
    ensures StripReturn(text) != "" && !("data:" <= StripReturn(text))
  {
    if text[|text| - 1] == '\r' {
      assert text == text[..|text| - 1] + "\r";
    }
  }

  /** The reader stands at the framed data, and its state says what the chunks say. */
  predicate Stands(r: Reader, f: Framed, codec: Codec) {
    && Coherent(r.w.st) && r.failure == Failure(f.raws, codec)
    && (r.failure.None? ==> r.eventData == f.open && Says(r.w.st, ChunksOf(f.raws, codec)))
  }

  lemma DispatchStands(r: Reader, f: Framed, codec: Codec)
    requires Stands(r, f, codec) && r.failure.None?
    ensures Stands(Dispatch(r, codec), Framed(f.raws + [JoinLines(f.open)], []), codec)
  {
    RawLast(f.raws, JoinLines(f.open), codec);
    ConsumeMeans(r.w, ChunksOf(f.raws, codec), JoinLines(f.open), codec);
    assert ChunksOf(f.raws, codec) + [] == ChunksOf(f.raws, codec);
  }

  lemma LineStands(r: Reader, f: Framed, l: Line, codec: Codec)
    requires Stands(r, f, codec) && r.failure.None? && ValidLine(l)
    ensures Stands(ReadLine(r, Spelled(l), codec), FrameOne(f, l), codec)
  {
    match l
    case Data(pad, data, cr) => StripSpelled(pad, data, cr);
    case Blank(cr) =>
      assert StripReturn(Spelled(l)) == "" && !("data:" <= "");
      if f.open != [] {
        DispatchStands(r, f, codec);
      }
    case OtherLine(text) => StripOther(text);
  }

  /** A failure stays the failure of the whole. */
  lemma {:induction false} FailureStays(f: Framed, lines: seq<Line>, codec: Codec)
    requires Failure(f.raws, codec).Some?
    ensures Failure(Frame(f, lines).raws, codec) == Failure(f.raws, codec)
    decreases |lines|
  {
    if lines != [] {
      RawLast(f.raws, JoinLines(f.open), codec);
      FailureStays(FrameOne(f, lines[0]), lines[1..], codec);
    }
  }

  lemma {:induction false} LinesStand(r: Reader, f: Framed, lines: seq<Line>, codec: Codec)
    requires Stands(r, f, codec) && forall l :: l in lines ==> ValidLine(l)
    ensures Stands(ReadLines(r, SpelledAll(lines), codec), Frame(f, lines), codec)
    decreases |lines|
  {
    if r.failure.Some? {
      FailureStays(f, lines, codec);
    } else if lines != [] {
      assert lines[0] in lines && SpelledAll(lines)[0] == Spelled(lines[0]) && SpelledAll(lines)[1..] == SpelledAll(lines[1..]);
      LineStands(r, f, lines[0], codec);
      LinesStand(ReadLine(r, Spelled(lines[0]), codec), FrameOne(f, lines[0]), lines[1..], codec);
    }
  }

  /** The text of a body. */
  function BodyOf(lines: seq<Line>): string {
    Terminate(SpelledAll(lines))
  }

  lemma SpelledNewlineFree(l: Line)
    requires ValidLine(l)
    ensures '\n' !in Spelled(l)
  {
  }

  lemma {:induction false} BodyEnds(lines: seq<string>)
    ensures Terminate(lines) == "" || Terminate(lines)[|Terminate(lines)| - 1] == '\n'
    decreases |lines|
  {
    if lines != [] {
      TerminateLast(lines);
    }
  }

  lemma BodyLines(lines: seq<Line>)
    requires forall l :: l in lines ==> ValidLine(l)
    ensures AllLines(BodyOf(lines)) == SpelledAll(lines)
  {
    forall i | 0 <= i < |lines| ensures '\n' !in SpelledAll(lines)[i] {
      assert lines[i] in lines;
      SpelledNewlineFree(lines[i]);
    }
    TerminatedCut(SpelledAll(lines));
    BodyEnds(SpelledAll(lines));
  }

  lemma OpenedSays()
    ensures Says(OPENED.w.st, []) && OPENED.failure.None? && OPENED.eventData == []
  {
  }

  /** A closed body is read as its event data says: refused for the first refused event's reason, or the state says
      what all its chunks say. */
  lemma BodyRead(lines: seq<Line>, codec: Codec)
    requires forall l :: l in lines ==> ValidLine(l)
    ensures var r, raws := ReadAll(BodyOf(lines), Closed, codec), RawsOf(lines);
            r.failure == Failure(raws, codec) && (r.failure.None? ==> Says(r.w.st, ChunksOf(raws, codec)))
  {
    OpenedSays();
    BodyLines(lines);
    LinesStand(OPENED, Framed([], []), lines, codec);
    var r, f := ReadLines(OPENED, SpelledAll(lines), codec), Frame(Framed([], []), lines);
    if f.open != [] {
      RawLast(f.raws, JoinLines(f.open), codec);
      if r.failure.None? {
        DispatchStands(r, f, codec);
      }
    }
  }

  // ---------- how a body ends ----------

  /** Why fully read chunks are no good end, if they are not. */
  ghost function Judged(chunks: seq<Chunk>, codec: Codec): Option<string> {
    var finish, atoms := FinishOf(chunks).Or(""), Atoms(chunks);
    if finish == "" then Some(TERMINATION_MISSING)
    else if finish != "stop" && finish != "tool_calls" && finish != "length" && finish != "content_filter" then Some(FINISH_UNSUPPORTED)
    else if finish == "tool_calls" && (forall key: nat :: TheCall(key) !in Names(atoms)) then Some(TOOL_CALL_MISSING)
    else if (finish == "stop" || finish == "tool_calls") && (exists key: nat :: TheCall(key) in Names(atoms) && !codec.validJson(Arguments(atoms, key)))
    then Some(ARGUMENTS_INVALID) else None
  }

  lemma NoTools(st: State, atoms: seq<Atom>)
    requires Means(st, atoms)
    ensures st.tools == [] <==> forall key: nat :: TheCall(key) !in Names(atoms)
  {
    if st.tools != [] {
      assert st.tools[0] in st.tools;
      assert TheCall(st.tools[0].key) in Names(atoms);
    }
    forall key: nat | TheCall(key) in Names(atoms) ensures st.tools != [] {
      var i :| 0 <= i < |Names(atoms)| && Names(atoms)[i] == TheCall(key);
      assert Right(st, atoms, i);
    }
  }

  lemma ToolArguments(st: State, atoms: seq<Atom>, key: nat, i: nat)
    requires Means(st, atoms) && i < |Names(atoms)| && Names(atoms)[i] == TheCall(key)
    ensures Tool(key, i) in st.tools && st.output[i].Call? && st.output[i].arguments == Arguments(atoms, key)
  {
    assert Right(st, atoms, i);
    OpenedIsNamed(atoms, key);
  }

  lemma ArgumentsJudged(st: State, atoms: seq<Atom>, codec: Codec)
    requires Means(st, atoms)
    ensures ArgumentsParse(st, codec) <==> forall key: nat :: TheCall(key) in Names(atoms) ==> codec.validJson(Arguments(atoms, key))
  {
    forall key: nat | TheCall(key) in Names(atoms) && ArgumentsParse(st, codec) ensures codec.validJson(Arguments(atoms, key)) {
      var i :| 0 <= i < |Names(atoms)| && Names(atoms)[i] == TheCall(key);
      ToolArguments(st, atoms, key, i);
    }
    forall t | t in st.tools ensures codec.validJson(st.output[t.index].arguments) <==> codec.validJson(Arguments(atoms, t.key)) {
      ToolArguments(st, atoms, t.key, t.index);
    }
  }

  lemma VerdictJudges(st: State, chunks: seq<Chunk>, codec: Codec)
    requires Says(st, chunks)
    ensures Verdict(st, codec) == Judged(chunks, codec)
  {
    NoTools(st, Atoms(chunks));
    ArgumentsJudged(st, Atoms(chunks), codec);
  }

  // ---------- the final response ----------

  function EndingFor(finish: string): Ending {
    if finish == "length" then Incomplete("max_output_tokens") else if finish == "content_filter" then Incomplete("content_filter") else Completed
  }

  function OutputFor(atoms: seq<Atom>, status: Status): seq<Item> {
    seq(|Names(atoms)|, i requires 0 <= i < |Names(atoms)| => ItemFor(atoms, Names(atoms)[i], status))
  }

  /** The response the chunks spell. */
  function ResponseFor(chunks: seq<Chunk>): Event {
    var finish := FinishOf(chunks).Or("");
    Ended(EndingFor(finish), OutputFor(Atoms(chunks), if EndingFor(finish).Completed? then Done else CutShort), UsageOf(chunks))
  }

  lemma {:induction false} CloseToolsUsage(w: Work, k: nat, status: Status)
    requires Coherent(w.st) && k <= |w.st.tools|
    ensures CloseTools(w, k, status).st.usage == w.st.usage
    decreases |w.st.tools| - k
  {
    if k < |w.st.tools| {
      CloseToolsUsage(CloseTool(w, k, status), k + 1, status);
    }
  }

  lemma {:induction false} CloseItemsUsage(w: Work, k: nat)
    requires k <= |w.st.output|
    ensures CloseItems(w, k).st.usage == w.st.usage
    decreases |w.st.output| - k
  {
    if k < |w.st.output| {
      CloseItemsUsage(Push(w, ItemDone(k, w.st.output[k])), k + 1);
    }
  }

  lemma CloseUsage(w: Work)
    requires Coherent(w.st)
    ensures var log := Close(w).log; |log| > 0 && log[|log| - 1].event.Ended? && log[|log| - 1].event.usage == w.st.usage
  {
    var status := if Short(w.st) then CutShort else Done;
    CloseToolsUsage(CloseText(w, status), 0, status);
    CloseItemsUsage(CloseTools(CloseText(w, status), 0, status), 0);
  }

  lemma FinalFor(st: State, atoms: seq<Atom>, i: nat, status: Status)
    requires Means(st, atoms) && i < |Names(atoms)|
    ensures Final(st, i, status) == ItemFor(atoms, Names(atoms)[i], status)
  {
    assert Right(st, atoms, i);
    if Names(atoms)[i].TheCall? {
      OpenedIsNamed(atoms, Names(atoms)[i].key);
    }
  }

  lemma ClosedItem(w: Work, chunks: seq<Chunk>, i: nat)
    requires Faithful(w) && Says(w.st, chunks) && i < |w.st.output|
    ensures i < |ClosedTools(w).st.output| && ClosedTools(w).st.output[i] == ItemFor(Atoms(chunks), Names(Atoms(chunks))[i], if Short(w.st) then CutShort else Done)
  {
    CloseReadsItem(w, i);
    FinalFor(w.st, Atoms(chunks), i, if Short(w.st) then CutShort else Done);
  }

  lemma SameOutput(output: seq<Item>, atoms: seq<Atom>, status: Status)
    requires |output| == |Names(atoms)| && forall i :: 0 <= i < |output| ==> output[i] == ItemFor(atoms, Names(atoms)[i], status)
    ensures output == OutputFor(atoms, status)
  {
  }

  lemma EndingSays(st: State, chunks: seq<Chunk>)
    requires st.finishReason == FinishOf(chunks) && FinishOf(chunks).Some?
    ensures EndingOf(st) == EndingFor(FinishOf(chunks).value) && (Short(st) <==> !EndingOf(st).Completed?)
  {
  }

  lemma CloseSays(w: Work, chunks: seq<Chunk>)
    requires Faithful(w) && Says(w.st, chunks) && FinishOf(chunks).Some?
    ensures var log := Close(w).log; |log| > 0 && log[|log| - 1].event == ResponseFor(chunks)
  {
    CloseReads(w);
    CloseUsage(w);
    EndingSays(w.st, chunks);
    var status, output := if Short(w.st) then CutShort else Done, ClosedTools(w).st.output;
    forall i | 0 <= i < |output| ensures output[i] == ItemFor(Atoms(chunks), Names(Atoms(chunks))[i], status) {
      ClosedItem(w, chunks, i);
    }
    SameOutput(output, Atoms(chunks), status);
  }

  /** What the failed event says. */
  function FailedFor(code: string, answer: Answer): Ending {
    Failed(if answer.Returns? then code else REPORT_UNAVAILABLE)
  }

  /** The last event is a failure with this code, as the report of it went. */
  predicate FailsWith(log: seq<Numbered>, code: string, answer: Answer) {
    |log| > 0 && log[|log| - 1].event.Ended? && log[|log| - 1].event.ending == FailedFor(code, answer)
  }

  lemma FailEnds(head: seq<Numbered>, st: State, code: string, answer: Answer, report: seq<Action>)
    requires Yielded(report) == []
    ensures FailsWith(Yielded(Yields(head) + (report + Fail(st, code, answer))), code, answer)
  {
    var fail := Fail(st, code, answer);
    YieldedAppends(Yields(head), report + fail);
    YieldedAppends(report, fail);
    YieldedYields(head);
    assert fail[1..] == [fail[1]];
    assert Yielded([fail[1]]) == [fail[1].numbered];
    assert Yielded(fail) == [fail[1].numbered];
  }

  lemma ConcludeEnds(r: Reader, chunks: seq<Chunk>, failure: Option<string>, codec: Codec, answers: nat -> Answer)
    requires Sound(r) && failure == (if r.failure.Some? then r.failure else Verdict(r.w.st, codec))
    requires r.failure.None? ==> Says(r.w.st, chunks)
    ensures var log := Yielded(Yields(r.w.log) + Conclude(r, codec, answers));
            if failure.Some? then FailsWith(log, failure.value, answers(0))
            else if answers(0).Throws? then FailsWith(log, Code(answers(0).message), answers(1))
            else |log| > 0 && log[|log| - 1].event == ResponseFor(chunks)
  {
    if failure.Some? {
      assert [] + Fail(r.w.st, failure.value, answers(0)) == Fail(r.w.st, failure.value, answers(0));
      FailEnds(r.w.log, r.w.st, failure.value, answers(0), []);
    } else if answers(0).Throws? {
      var report := [Finish(ReportOf(r.w.st), false)];
      assert report[1..] == [];
      FailEnds(r.w.log, r.w.st, Code(answers(0).message), answers(1), report);
    } else {
      CloseYields(r.w, ReportOf(r.w.st));
      CloseSays(r.w, chunks);
    }
  }

  /** The last event of a drained run, for every body of an event stream: the response that the chunks spell, with the
      message's text all of the content, each call's arguments all of its fragments', its id and name those of the
      fragment that opened it, the items in the order they are first spoken of, and the usage last reported; or the
      failure of the first refused event, of the end, or of the report. */
  lemma StreamSays(lines: seq<Line>, codec: Codec, answers: nat -> Answer)
    requires forall l :: l in lines ==> ValidLine(l)
    ensures var log, raws := Yielded(Trace(BodyOf(lines), Closed, codec, answers)), RawsOf(lines);
            var chunks := ChunksOf(raws, codec);
            var failure := if Failure(raws, codec).Some? then Failure(raws, codec) else Judged(chunks, codec);
            if failure.Some? then FailsWith(log, failure.value, answers(0))
            else if answers(0).Throws? then FailsWith(log, Code(answers(0).message), answers(1))
            else |log| > 0 && log[|log| - 1].event == ResponseFor(chunks)
  {
    var r, chunks := ReadAll(BodyOf(lines), Closed, codec), ChunksOf(RawsOf(lines), codec);
    BodyRead(lines, codec);
    ReadAllSound(BodyOf(lines), Closed, codec);
    if r.failure.None? {
      VerdictJudges(r.w.st, chunks, codec);
    }
    ConcludeEnds(r, chunks, if r.failure.Some? then r.failure else Verdict(r.w.st, codec), codec, answers);
  }

  // ---------- how every stream begins ----------

  lemma {:induction false} FragmentsExtend(w: Work, fragments: seq<Fragment>)
    requires Coherent(w.st)
    ensures w.log <= AddFragments(w, fragments).w.log
    decreases |fragments|
  {
    if fragments != [] {
      FragmentsExtend(AddFragment(w, fragments[0]).w, fragments[1..]);
    }
  }

  lemma WordedExtends(w: Work, content: Option<string>)
    requires Coherent(w.st)
    ensures w.log <= Worded(w, content).log
  {
  }

  lemma ChoiceExtends(w: Work, choice: Choice)
    requires Coherent(w.st)
    ensures w.log <= AddChoice(w, choice).w.log
  {
    ChoiceIs(w, choice);
    WordedExtends(w, choice.content);
    FragmentsExtend(Worded(w, choice.content), choice.toolCalls);
  }

  lemma ConsumeExtends(w: Work, raw: string, codec: Codec)
    requires Coherent(w.st)
    ensures w.log <= Consume(w, raw, codec).w.log
  {
    if raw != "[DONE]" && codec.parse(raw).Parsed? && codec.parse(raw).chunk.choice.Some? {
      ChoiceExtends(SetUsage(w, codec.parse(raw).chunk.usage), codec.parse(raw).chunk.choice.value);
    }
  }

  lemma {:induction false} LinesExtend(r: Reader, lines: seq<string>, codec: Codec)
    requires Coherent(r.w.st)
    ensures r.w.log <= ReadLines(r, lines, codec).w.log
    decreases |lines|
  {
    if r.failure.None? && lines != [] {
      ConsumeExtends(r.w, JoinLines(r.eventData), codec);
      LinesExtend(ReadLine(r, lines[0], codec), lines[1..], codec);
    }
  }

  lemma ReadAllExtends(text: string, end: End, codec: Codec)
    ensures OPENED.w.log <= ReadAll(text, end, codec).w.log
  {
    var lines := if end.Closed? then AllLines(text) else CutLines(text).lines;
    LinesExtend(OPENED, lines, codec);
    var r := ReadLines(OPENED, lines, codec);
    if r.failure.None? {
      ConsumeExtends(r.w, JoinLines(r.eventData), codec);
    }
  }

  /** Whatever the body, the first two events say that the response is created and in progress. */
  lemma Begins(text: string, end: End, codec: Codec, answers: nat -> Answer)
    ensures var log := Yielded(Trace(text, end, codec, answers)); |log| >= 2 && log[0] == Numbered(0, Created) && log[1] == Numbered(1, Started)
  {
    ReadAllExtends(text, end, codec);
    var r := ReadAll(text, end, codec);
    YieldedAppends(Yields(r.w.log), Conclude(r, codec, answers));
    YieldedYields(r.w.log);
    assert OPENED.w.log == [Numbered(0, Created), Numbered(1, Started)];
  }
}
