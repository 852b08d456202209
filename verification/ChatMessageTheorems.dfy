/** What the translated messages promise the chat provider. */
module ChatMessageTheorems {
  import opened Options
  import opened ChatMessages

  /** Every call asked for, in order. */
  function CallsIn(messages: seq<Message>): seq<ToolCall> {
    if messages == [] then []
    else
      var last := messages[|messages| - 1];
      CallsIn(messages[..|messages| - 1]) + if last.Asked? then last.calls else []
  }

  /** Every tool result, in order. */
  function AnswersIn(messages: seq<Message>): seq<(string, string)> {
    if messages == [] then []
    else
      var last := messages[|messages| - 1];
      AnswersIn(messages[..|messages| - 1]) + if last.Answered? then [(last.callId, last.text)] else []
  }

  function AnswersOf(steps: seq<Step>): seq<(string, string)> {
    if steps == [] then []
    else
      var last := steps[|steps| - 1];
      AnswersOf(steps[..|steps| - 1]) +
        if last.OutputStep? && last.answer.Some? then [(last.answer.value.callId, last.answer.value.output.text)] else []
  }

  function Flatten(runs: seq<seq<Step>>): seq<Step> {
    if runs == [] then [] else Flatten(runs[..|runs| - 1]) + runs[|runs| - 1]
  }

  lemma {:induction false} InAppends(a: seq<Message>, b: seq<Message>)
    ensures CallsIn(a + b) == CallsIn(a) + CallsIn(b)
    ensures AnswersIn(a + b) == AnswersIn(a) + AnswersIn(b)
  {
    if b == [] {
      assert a + b == a;
    } else {
      assert (a + b)[..|a + b| - 1] == a + b[..|b| - 1];
      InAppends(a, b[..|b| - 1]);
    }
  }

  lemma {:induction false} OfAppends(a: seq<Step>, b: seq<Step>)
    ensures CallsOf(a + b) == CallsOf(a) + CallsOf(b)
    ensures AnswersOf(a + b) == AnswersOf(a) + AnswersOf(b)
  {
    if b == [] {
      assert a + b == a;
    } else {
      assert (a + b)[..|a + b| - 1] == a + b[..|b| - 1];
      OfAppends(a, b[..|b| - 1]);
    }
  }

  lemma {:induction false} FlattenCons(run: seq<Step>, runs: seq<seq<Step>>)
    ensures Flatten([run] + runs) == run + Flatten(runs)
  {
    if runs == [] {
      assert [run] + runs == [run];
      assert [run][..0] == [];
    } else {
      var init, last := runs[..|runs| - 1], runs[|runs| - 1];
      FlattenCons(run, init);
      assert ([run] + runs)[..|runs|] == [run] + init;
      assert run + Flatten(init) + last == run + (Flatten(init) + last);
    }
  }

  /** The runs spell the input. */
  lemma {:induction false} SegmentFlattens(steps: seq<Step>)
    ensures Flatten(Segment(steps)) == steps
    decreases |steps|
  {
    if steps != [] {
      var n := RunLength(steps);
      SegmentFlattens(steps[n..]);
      FlattenCons(steps[..n], Segment(steps[n..]));
    }
  }

  lemma {:induction false} ImagesSayNothing(pending: seq<ToolImages>)
    ensures CallsIn(ImageMessages(pending)) == [] && AnswersIn(ImageMessages(pending)) == []
  {
    if pending != [] {
      var init := pending[..|pending| - 1];
      ImagesSayNothing(init);
      var all := ImageMessages(pending);
      assert all[..|all| - 1] == ImageMessages(init);
    }
  }

  lemma {:induction false} ShownSays(run: seq<Step>)
    ensures CallsIn(ShownOf(run)) == [] && AnswersIn(ShownOf(run)) == AnswersOf(run)
  {
    if run != [] {
      var init, last := run[..|run| - 1], run[|run| - 1];
      ShownSays(init);
      InAppends(ShownOf(init), ShownOf(run)[|ShownOf(init)|..]);
      assert ShownOf(run) == ShownOf(init) + ShownOf(run)[|ShownOf(init)|..];
    }
  }

  lemma InFour(a: seq<Message>, b: seq<Message>, c: seq<Message>, d: seq<Message>)
    ensures CallsIn(a + b + c + d) == CallsIn(a) + CallsIn(b) + CallsIn(c) + CallsIn(d)
    ensures AnswersIn(a + b + c + d) == AnswersIn(a) + AnswersIn(b) + AnswersIn(c) + AnswersIn(d)
  {
    InAppends(a + b + c, d);
    InAppends(a + b, c);
    InAppends(a, b);
  }

  lemma FlushSays(parts: seq<Part>, calls: seq<ToolCall>)
    ensures CallsIn(UserMessages(parts)) == [] && AnswersIn(UserMessages(parts)) == []
    ensures CallsIn(CallMessages(calls)) == calls && AnswersIn(CallMessages(calls)) == []
  {
    var m := Said("user", ChatContent(parts));
    assert [m][..0] == [] && [Asked(calls)][..0] == [];
    assert CallsIn([m]) == [] + [] && AnswersIn([m]) == [] + [];
    assert CallsIn([Asked(calls)]) == [] + calls && AnswersIn([Asked(calls)]) == [] + [];
  }

  lemma RenderSays(run: seq<Step>)
    ensures CallsIn(Render(run)) == CallsOf(run) && AnswersIn(Render(run)) == AnswersOf(run)
  {
    InFour(ShownOf(run), UserMessages(UserPartsOf(run)), CallMessages(CallsOf(run)), ImageMessages(ToolImagesOf(run)));
    ShownSays(run);
    FlushSays(UserPartsOf(run), CallsOf(run));
    ImagesSayNothing(ToolImagesOf(run));
  }

  lemma {:induction false} RenderAllSays(runs: seq<seq<Step>>)
    ensures CallsIn(RenderAll(runs)) == CallsOf(Flatten(runs)) && AnswersIn(RenderAll(runs)) == AnswersOf(Flatten(runs))
  {
    if runs != [] {
      var init, last := runs[..|runs| - 1], runs[|runs| - 1];
      RenderAllSays(init);
      RenderSays(last);
      OfAppends(Flatten(init), last);
      InAppends(RenderAll(init), Render(last));
    }
  }

  /** Nothing is lost, repeated or reordered: the messages ask for exactly the input's valid calls
      and carry exactly its valid outputs, each in input order. */
  lemma CallsAndAnswersKept(items: seq<Json>, instructions: Json)
    ensures var messages := MessagesOf(Arr(items), instructions);
            CallsIn(messages) == CallsOf(Steps(items)) && AnswersIn(messages) == AnswersOf(Steps(items))
  {
    var steps := Steps(items);
    RenderAllSays(Segment(steps));
    SegmentFlattens(steps);
    SystemSaysNothing(if instructions.Str? then instructions.s else "", RenderAll(Segment(steps)));
  }

  lemma SystemSaysNothing(text: string, all: seq<Message>)
    ensures CallsIn([Said("system", Plain(text))] + all) == CallsIn(all) && AnswersIn([Said("system", Plain(text))] + all) == AnswersIn(all)
    ensures [] + all == all
  {
    var system := [Said("system", Plain(text))];
    InAppends(system, all);
    assert CallsIn(system) == [] && AnswersIn(system) == [];
    assert [] + CallsIn(all) == CallsIn(all) && [] + AnswersIn(all) == AnswersIn(all);
  }

  // ---------- calls and their results ----------

  function CallIds(calls: seq<ToolCall>): seq<string> {
    if calls == [] then [] else CallIds(calls[..|calls| - 1]) + [calls[|calls| - 1].id]
  }

  function AnswerIds(answers: seq<(string, string)>): seq<string> {
    if answers == [] then [] else AnswerIds(answers[..|answers| - 1]) + [answers[|answers| - 1].0]
  }

  /** Call ids of the results at the very front of some messages. */
  function LeadingIds(messages: seq<Message>): seq<string> {
    if messages == [] || !messages[0].Answered? then [] else [messages[0].callId] + LeadingIds(messages[1..])
  }

  /** The chat protocol: an assistant message with calls is followed, with no gap, by their results. */
  ghost predicate NoGaps(messages: seq<Message>) {
    messages != [] ==>
      && NoGaps(messages[1..])
      && (messages[0].Asked? ==>
            var n, ids := |messages[0].calls|, LeadingIds(messages[1..]);
            n <= |ids| && multiset(ids[..n]) == multiset(CallIds(messages[0].calls)))
  }

  predicate IsOutputRun(run: seq<Step>) {
    forall s :: s in run ==> s.OutputStep?
  }

  /** A run shows something other than tool results, so what follows it no longer follows the calls before it. */
  predicate Interrupts(run: seq<Step>) {
    CallsOf(run) != [] || UserPartsOf(run) != [] || ToolImagesOf(run) != [] || exists s :: s in run && s.SayStep?
  }

  /** The call ids of the valid outputs at the front of some runs, up to the first interruption. */
  function FrontIds(runs: seq<seq<Step>>): seq<string> {
    if runs == [] then []
    else AnswerIds(AnswersOf(runs[0])) + if Interrupts(runs[0]) then [] else FrontIds(runs[1..])
  }

  predicate AnsweredBy(calls: seq<ToolCall>, ids: seq<string>) {
    |calls| <= |ids| && multiset(ids[..|calls|]) == multiset(CallIds(calls))
  }

  /** Every run of n calls is answered, with no interruption, by the next n valid outputs. */
  predicate AnsweredRuns(runs: seq<seq<Step>>) {
    forall k :: 0 <= k < |runs| && CallsOf(runs[k]) != [] ==> AnsweredBy(CallsOf(runs[k]), FrontIds(runs[k + 1..]))
  }

  /** Every run of calls is directly followed by a run of outputs that answers exactly those calls. */
  predicate MatchedRuns(runs: seq<seq<Step>>) {
    forall k :: 0 <= k < |runs| && CallsOf(runs[k]) != [] ==>
      && k + 1 < |runs| && IsOutputRun(runs[k + 1])
      && multiset(AnswerIds(AnswersOf(runs[k + 1]))) == multiset(CallIds(CallsOf(runs[k])))
  }

  lemma {:induction false} SegmentUniform(steps: seq<Step>, k: nat)
    requires forall j :: 0 <= j < |steps| ==> !steps[j].Nothing?
    requires k < |Segment(steps)|
    ensures Uniform(Segment(steps)[k])
    decreases |steps|
  {
    var n := RunLength(steps);
    if k > 0 { SegmentUniform(steps[n..], k - 1); }
  }

  /** No two neighbouring runs could have been one. */
  lemma {:induction false} SegmentMaximal(steps: seq<Step>, k: nat)
    requires k + 1 < |Segment(steps)|
    ensures var runs := Segment(steps);
            runs[k] != [] && runs[k + 1] != [] && !SameRun(runs[k][0], runs[k + 1][0])
    decreases |steps|
  {
    var n := RunLength(steps);
    if k > 0 {
      SegmentMaximal(steps[n..], k - 1);
    } else {
      assert Segment(steps)[1] == Segment(steps[n..])[0] == steps[n..][..RunLength(steps[n..])];
    }
  }

  lemma {:induction false} StepsAsk(items: seq<Json>)
    ensures forall j :: 0 <= j < |Steps(items)| ==> !Steps(items)[j].Nothing?
  {
    if items != [] { StepsAsk(items[1..]); }
  }

  /** Messages without calls change nothing. */
  lemma {:induction false} NoGapsBehind(a: seq<Message>, b: seq<Message>)
    requires forall i :: 0 <= i < |a| ==> !a[i].Asked?
    ensures NoGaps(a + b) <==> NoGaps(b)
  {
    if a == [] {
      assert a + b == b;
    } else {
      assert (a + b)[1..] == a[1..] + b;
      NoGapsBehind(a[1..], b);
    }
  }

  lemma {:induction false} ImagesAreSaid(pending: seq<ToolImages>)
    ensures forall i :: 0 <= i < |ImageMessages(pending)| ==> ImageMessages(pending)[i].Said?
  {
    if pending != [] { ImagesAreSaid(pending[..|pending| - 1]); }
  }

  lemma {:induction false} ShownAsksNothing(run: seq<Step>)
    ensures forall i :: 0 <= i < |ShownOf(run)| ==> !ShownOf(run)[i].Asked?
  {
    if run != [] { ShownAsksNothing(run[..|run| - 1]); }
  }

  lemma CallFreeRender(run: seq<Step>)
    requires CallsOf(run) == []
    ensures forall i :: 0 <= i < |Render(run)| ==> !Render(run)[i].Asked?
  {
    ShownAsksNothing(run);
    ImagesAreSaid(ToolImagesOf(run));
  }

  lemma CallRunRender(run: seq<Step>)
    requires Uniform(run) && CallsOf(run) != []
    ensures Render(run) == [Asked(CallsOf(run))]
  {
    UniformReads(run);
  }

  lemma {:induction false} LeadingOfShown(run: seq<Step>, rest: seq<Message>)
    requires IsOutputRun(run)
    ensures LeadingIds(ShownOf(run) + rest) == AnswerIds(AnswersOf(run)) + LeadingIds(rest)
    decreases 2 * |run|
  {
    if run == [] {
      assert ShownOf(run) + rest == rest;
      assert AnswerIds([]) + LeadingIds(rest) == LeadingIds(rest);
    } else {
      var init, last := run[..|run| - 1], run[|run| - 1];
      assert last in run;
      if last.answer.None? {
        assert ShownOf(run) == ShownOf(init) && AnswersOf(run) == AnswersOf(init);
        LeadingOfShown(init, rest);
      } else {
        LeadingOfOne(init, rest, last.answer.value);
      }
    }
  }

  lemma {:induction false} LeadingOfOne(init: seq<Step>, rest: seq<Message>, answer: Answer)
    requires IsOutputRun(init)
    ensures var run := init + [OutputStep(Some(answer))];
            LeadingIds(ShownOf(run) + rest) == AnswerIds(AnswersOf(run)) + LeadingIds(rest)
    decreases 2 * |init| + 1
  {
    var run := init + [OutputStep(Some(answer))];
    assert run[..|run| - 1] == init;
    var m := Answered(answer.callId, answer.output.text);
    LeadingOfShown(init, [m] + rest);
    assert ShownOf(run) + rest == ShownOf(init) + ([m] + rest);
    assert ([m] + rest)[1..] == rest;
    var before, pair := AnswersOf(init), (answer.callId, answer.output.text);
    assert AnswersOf(run) == before + [pair];
    assert (before + [pair])[..|before|] == before;
    assert AnswerIds(before) + ([answer.callId] + LeadingIds(rest)) == AnswerIds(before) + [answer.callId] + LeadingIds(rest);
  }

  lemma {:induction false} IdsLength(calls: seq<ToolCall>)
    ensures |CallIds(calls)| == |calls|
  {
    if calls != [] { IdsLength(calls[..|calls| - 1]); }
  }

  lemma {:induction false} ImagesEndLeading(pending: seq<ToolImages>, rest: seq<Message>)
    requires pending != []
    ensures LeadingIds(ImageMessages(pending) + rest) == []
  {
    ImagesAreSaid(pending);
    var all := ImageMessages(pending);
    assert (all + rest)[0] == all[0];
  }

  lemma OutputRender(run: seq<Step>)
    requires Uniform(run) && IsOutputRun(run) && run != []
    ensures Render(run) == ShownOf(run) + ImageMessages(ToolImagesOf(run))
    ensures Interrupts(run) <==> ToolImagesOf(run) != []
  {
    assert run[0] in run;
    UniformReads(run);
    OutputInterrupts(run);
    RenderWithout(ShownOf(run), ImageMessages(ToolImagesOf(run)));
  }

  lemma OutputInterrupts(run: seq<Step>)
    requires IsOutputRun(run) && UserPartsOf(run) == [] && CallsOf(run) == []
    ensures Interrupts(run) <==> ToolImagesOf(run) != []
  {
  }

  lemma RenderWithout(shown: seq<Message>, images: seq<Message>)
    ensures shown + UserMessages([]) + CallMessages([]) + images == shown + images
  {
    assert UserMessages([]) == [] && CallMessages([]) == [];
  }

  lemma LeadingOfOutputs(run: seq<Step>, rest: seq<Message>)
    requires IsOutputRun(run)
    ensures LeadingIds(ShownOf(run) + ImageMessages(ToolImagesOf(run)) + rest) ==
            AnswerIds(AnswersOf(run)) + if ToolImagesOf(run) != [] then [] else LeadingIds(rest)
  {
    var images := ImageMessages(ToolImagesOf(run));
    assert ShownOf(run) + images + rest == ShownOf(run) + (images + rest);
    LeadingOfShown(run, images + rest);
    if ToolImagesOf(run) != [] {
      ImagesEndLeading(ToolImagesOf(run), rest);
    } else {
      assert [] + rest == rest;
    }
  }

  lemma {:induction false} OthersAnswerNothing(run: seq<Step>)
    requires forall s :: s in run ==> !s.OutputStep?
    ensures AnswersOf(run) == [] && ToolImagesOf(run) == []
  {
    if run != [] {
      OthersAnswerNothing(run[..|run| - 1]);
      assert run[|run| - 1] in run;
    }
  }

  lemma OtherRender(run: seq<Step>)
    requires Uniform(run) && run != [] && !run[0].OutputStep?
    ensures AnswersOf(run) == []
    ensures if Interrupts(run) then |Render(run)| == 1 && !Render(run)[0].Answered? else Render(run) == []
  {
    OthersAnswerNothing(run);
    UniformReads(run);
    if run[0].SayStep? {
      var n := |run|;
      assert n == 1 || SameRun(run[0], run[n - 1]);
      assert run[..0] == [] && run[0] in run;
      assert ShownOf(run) == [Said(run[0].role, run[0].content)];
    }
  }

  lemma LeadingOfOther(run: seq<Step>, rest: seq<Message>)
    requires Uniform(run) && run != [] && !run[0].OutputStep?
    ensures LeadingIds(Render(run) + rest) == AnswerIds(AnswersOf(run)) + if Interrupts(run) then [] else LeadingIds(rest)
  {
    OtherRender(run);
    NothingLeads(Render(run), rest);
    assert [] + LeadingIds(rest) == LeadingIds(rest);
  }

  lemma NothingLeads(messages: seq<Message>, rest: seq<Message>)
    ensures messages == [] ==> LeadingIds(messages + rest) == LeadingIds(rest)
    ensures messages != [] && !messages[0].Answered? ==> LeadingIds(messages + rest) == []
  {
    if messages == [] {
      assert messages + rest == rest;
    }
  }

  /** What the chat messages of a run lead with. */
  lemma LeadingOfRun(run: seq<Step>, rest: seq<Message>)
    requires Uniform(run) && run != []
    ensures LeadingIds(Render(run) + rest) == AnswerIds(AnswersOf(run)) + if Interrupts(run) then [] else LeadingIds(rest)
  {
    if run[0].OutputStep? {
      OutputRender(run);
      LeadingOfOutputs(run, rest);
    } else {
      LeadingOfOther(run, rest);
    }
  }

  lemma {:induction false} FlatMapFront(render: seq<Step> -> seq<Message>, runs: seq<seq<Step>>)
    requires runs != []
    ensures FlatMap(render, runs) == render(runs[0]) + FlatMap(render, runs[1..])
    decreases |runs|
  {
    if |runs| == 1 {
      assert runs[..0] == [] && runs[1..] == [];
    } else {
      var init, last := runs[..|runs| - 1], runs[|runs| - 1];
      FlatMapFront(render, init);
      assert runs[1..][..|runs| - 2] == init[1..];
      FrontStep(render(runs[0]), FlatMap(render, init[1..]), render(last), FlatMap(render, runs), FlatMap(render, runs[1..]));
    }
  }

  lemma FrontStep(a: seq<Message>, b: seq<Message>, c: seq<Message>, whole: seq<Message>, tail: seq<Message>)
    requires whole == (a + b) + c && tail == b + c
    ensures whole == a + tail
  {
  }

  lemma RenderAllFront(runs: seq<seq<Step>>)
    requires runs != []
    ensures RenderAll(runs) == Render(runs[0]) + RenderAll(runs[1..])
  {
    FlatMapFront(Render, runs);
  }

  ghost predicate Runs(runs: seq<seq<Step>>) {
    forall k :: 0 <= k < |runs| ==> runs[k] != [] && Uniform(runs[k])
  }

  lemma {:induction false} LeadingAreFront(runs: seq<seq<Step>>)
    requires Runs(runs)
    ensures LeadingIds(RenderAll(runs)) == FrontIds(runs)
    decreases |runs|
  {
    if runs != [] {
      LeadingAreFront(runs[1..]);
      RenderAllFront(runs);
      LeadingOfRun(runs[0], RenderAll(runs[1..]));
    }
  }

  lemma AnsweredTail(runs: seq<seq<Step>>)
    requires runs != []
    ensures AnsweredRuns(runs) <==>
            AnsweredRuns(runs[1..]) && (CallsOf(runs[0]) != [] ==> AnsweredBy(CallsOf(runs[0]), FrontIds(runs[1..])))
  {
    var rest := runs[1..];
    assert forall k :: 0 <= k < |rest| ==> rest[k] == runs[k + 1] && rest[k + 1..] == runs[k + 2..];
    if AnsweredRuns(runs) {
      forall k | 0 <= k < |rest| && CallsOf(rest[k]) != [] ensures AnsweredBy(CallsOf(rest[k]), FrontIds(rest[k + 1..])) {
        assert CallsOf(runs[k + 1]) != [];
      }
    }
    if AnsweredRuns(rest) && (CallsOf(runs[0]) != [] ==> AnsweredBy(CallsOf(runs[0]), FrontIds(rest))) {
      forall k | 0 <= k < |runs| && CallsOf(runs[k]) != [] ensures AnsweredBy(CallsOf(runs[k]), FrontIds(runs[k + 1..])) {
        if k > 0 {
          assert CallsOf(rest[k - 1]) != [];
        }
      }
    }
  }

  lemma AskThen(calls: seq<ToolCall>, after: seq<Message>)
    ensures NoGaps([Asked(calls)] + after) <==> NoGaps(after) && AnsweredBy(calls, LeadingIds(after))
  {
    assert ([Asked(calls)] + after)[1..] == after;
  }

  lemma {:induction false} RunsWithoutGaps(runs: seq<seq<Step>>)
    requires Runs(runs)
    ensures NoGaps(RenderAll(runs)) <==> AnsweredRuns(runs)
    decreases |runs|
  {
    if runs != [] {
      var rest := runs[1..];
      RunsWithoutGaps(rest);
      RenderAllFront(runs);
      AnsweredTail(runs);
      if CallsOf(runs[0]) == [] {
        CallFreeRender(runs[0]);
        NoGapsBehind(Render(runs[0]), RenderAll(rest));
      } else {
        CallRunRender(runs[0]);
        LeadingAreFront(rest);
        AskThen(CallsOf(runs[0]), RenderAll(rest));
      }
    }
  }

  lemma {:induction false} SegmentNonEmpty(steps: seq<Step>, k: nat)
    requires k < |Segment(steps)|
    ensures Segment(steps)[k] != []
    decreases |steps|
  {
    var n := RunLength(steps);
    if k > 0 { SegmentNonEmpty(steps[n..], k - 1); }
  }

  lemma SegmentRuns(items: seq<Json>)
    ensures Runs(Segment(Steps(items)))
  {
    var steps := Steps(items);
    StepsAsk(items);
    forall k | 0 <= k < |Segment(steps)| ensures Segment(steps)[k] != [] && Uniform(Segment(steps)[k]) {
      SegmentUniform(steps, k);
      SegmentNonEmpty(steps, k);
    }
  }

  lemma ListGaps(items: seq<Json>, instructions: Json, all: seq<Message>)
    requires all == RenderAll(Segment(Steps(items)))
    ensures NoGaps(MessagesOf(Arr(items), instructions)) <==> NoGaps(all)
  {
    SystemNoGaps(SystemOf(instructions), all);
    assert MessagesOf(Arr(items), instructions) == SystemOf(instructions) + all;
  }

  /** The chat messages have no gap between calls and results if and only if every run of n calls in the input is
      answered by the next n valid outputs, before any message, image or further call. */
  lemma NoGapsIffAnswered(items: seq<Json>, instructions: Json)
    ensures NoGaps(MessagesOf(Arr(items), instructions)) <==> AnsweredRuns(Segment(Steps(items)))
  {
    SegmentRuns(items);
    ListGaps(items, instructions, RenderAll(Segment(Steps(items))));
    RunsWithoutGaps(Segment(Steps(items)));
  }

  lemma MatchedIsAnswered(calls: seq<ToolCall>, runs: seq<seq<Step>>)
    requires runs != [] && multiset(AnswerIds(AnswersOf(runs[0]))) == multiset(CallIds(calls))
    ensures AnsweredBy(calls, FrontIds(runs))
  {
    var ids := AnswerIds(AnswersOf(runs[0]));
    IdsLength(calls);
    assert |multiset(ids)| == |ids| && |multiset(CallIds(calls))| == |calls|;
    assert FrontIds(runs)[..|calls|] == ids;
  }

  lemma MatchedAreAnswered(runs: seq<seq<Step>>)
    requires MatchedRuns(runs)
    ensures AnsweredRuns(runs)
  {
    forall k | 0 <= k < |runs| && CallsOf(runs[k]) != [] ensures AnsweredBy(CallsOf(runs[k]), FrontIds(runs[k + 1..])) {
      MatchedIsAnswered(CallsOf(runs[k]), runs[k + 1..]);
    }
  }

  /** So input whose call runs are each followed by the run of their outputs gives messages with no gap. */
  lemma MatchedInputHasNoGaps(items: seq<Json>, instructions: Json)
    requires MatchedRuns(Segment(Steps(items)))
    ensures NoGaps(MessagesOf(Arr(items), instructions))
  {
    MatchedAreAnswered(Segment(Steps(items)));
    NoGapsIffAnswered(items, instructions);
  }

  lemma SystemNoGaps(system: seq<Message>, all: seq<Message>)
    requires forall i :: 0 <= i < |system| ==> system[i].Said?
    ensures NoGaps(system + all) <==> NoGaps(all)
  {
    NoGapsBehind(system, all);
  }
}
