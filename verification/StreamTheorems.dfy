/** The promises of a drained or cancelled stream run. */
module StreamTheorems {
  import opened Options
  import opened Text
  import opened ResponseStream
  import opened StreamShape

  function YieldOf(a: Action): seq<Numbered> {
    match a case Yield(n) => [n] case Finish(_, _) => []
  }

  function Yielded(trace: seq<Action>): seq<Numbered> {
    if trace == [] then [] else YieldOf(trace[0]) + Yielded(trace[1..])
  }

  lemma {:induction false} YieldedAppends(a: seq<Action>, b: seq<Action>)
    ensures Yielded(a + b) == Yielded(a) + Yielded(b)
  {
    if a == [] {
      assert a + b == b;
    } else {
      assert (a + b)[1..] == a[1..] + b;
      YieldedAppends(a[1..], b);
      Regroup(YieldOf(a[0]), Yielded(a[1..]), Yielded(b));
    }
  }

  lemma Regroup(a: seq<Numbered>, b: seq<Numbered>, c: seq<Numbered>)
    ensures a + (b + c) == a + b + c
  {
  }

  lemma {:induction false} YieldedYields(log: seq<Numbered>)
    ensures Yielded(Yields(log)) == log
  {
    if log != [] {
      assert Yields(log)[1..] == Yields(log[1..]);
      YieldedYields(log[1..]);
    }
  }

  function TextOf(item: Item): string {
    match item case Message(text, _) => text case Call(_, _, arguments, _) => arguments
  }

  /** What a completed or incomplete run looks like from outside. */
  ghost predicate WellFormedRun(log: seq<Numbered>) {
    && |log| > 0 && Gapless(log) && Opened(log) && Unended(log[..|log| - 1])
    && var last := log[|log| - 1].event;
       && last.Ended? && !last.ending.Failed?
       && var output := last.output;
          && Added(log) == Upto(|output|) && DoneIndices(log) == Upto(|output|)
          && DoneItems(log) == output && |AddedItems(log)| == |output|
          && forall i: nat :: i < |output| ==>
               && AddedItems(log)[i] == Blank(output[i])
               && DoneTexts(log, i) == [Delta(log, i)] && TextOf(output[i]) == Delta(log, i)
               && output[i].status == (if last.ending.Completed? then Done else CutShort)
  }

  /** A failed run is numbered by position up to its one terminal event, which may leave a gap. */
  ghost predicate FailedRun(log: seq<Numbered>, number: nat) {
    && |log| > 0 && Gapless(log[..|log| - 1]) && Opened(log[..|log| - 1]) && Unended(log[..|log| - 1])
    && log[|log| - 1].number == number >= |log| - 1
    && log[|log| - 1].event.Ended? && log[|log| - 1].event.ending.Failed?
  }

  lemma CloseWellFormed(w: Work)
    requires Faithful(w)
    ensures WellFormedRun(Close(w).log)
  {
    CloseReads(w);
    var log := Close(w).log;
    var output := log[|log| - 1].event.output;
    forall i: nat | i < |output|
      ensures && AddedItems(log)[i] == Blank(output[i])
              && DoneTexts(log, i) == [Delta(log, i)] && TextOf(output[i]) == Delta(log, i)
              && output[i].status == (if EndingOf(w.st).Completed? then Done else CutShort)
    {
      CloseReadsItem(w, i);
    }
  }

  /** The state after the last line was read. */
  function FinalState(text: string, end: End, codec: Codec): (st: State)
    ensures Coherent(st)
  {
    ReadAll(text, end, codec).w.st
  }

  /** Exactly when the run is not refused: it was read to the end and its finish is accepted. */
  predicate Accepted(text: string, end: End, codec: Codec) {
    ReadAll(text, end, codec).failure.None? && Verdict(FinalState(text, end, codec), codec).None?
  }

  lemma FailYields(head: seq<Numbered>, st: State, code: string, answer: Answer, report: seq<Action>)
    requires Gapless(head) && Opened(head) && Unended(head) && |head| <= st.sequence && Yielded(report) == []
    ensures var log := Yielded(Yields(head) + (report + Fail(st, code, answer))); FailedRun(log, st.sequence) && |log| == |head| + 1
  {
    var fail := Fail(st, code, answer);
    YieldedAppends(Yields(head), report + fail);
    YieldedAppends(report, fail);
    YieldedYields(head);
    assert fail[1..] == [fail[1]];
    assert Yielded([fail[1]]) == [fail[1].numbered];
    assert Yielded(fail) == [fail[1].numbered];
    var log := Yielded(Yields(head) + (report + fail));
    assert log[..|log| - 1] == head;
  }

  /** A report among the yields hides none of them. */
  lemma ReportYields(log: seq<Numbered>, tail: seq<Numbered>, report: Report)
    ensures Yielded(Yields(log) + ([Finish(report, true)] + Yields(tail))) == log + tail
  {
    var finish := [Finish(report, true)];
    YieldedAppends(Yields(log), finish + Yields(tail));
    YieldedAppends(finish, Yields(tail));
    YieldedYields(log);
    YieldedYields(tail);
    assert Yielded(finish) == [] by {
      assert finish[1..] == [] && Yielded(finish) == YieldOf(finish[0]) + Yielded(finish[1..]);
    }
    assert [] + tail == tail;
  }

  lemma Halves(log: seq<Numbered>, whole: seq<Numbered>)
    requires log <= whole
    ensures log + whole[|log|..] == whole
  {
  }

  lemma CloseYields(w: Work, report: Report)
    requires Faithful(w)
    ensures Yielded(Yields(w.log) + ([Finish(report, true)] + Yields(Close(w).log[|w.log|..]))) == Close(w).log
  {
    ReportYields(w.log, Close(w).log[|w.log|..], report);
    Halves(w.log, Close(w).log);
  }

  lemma ConcludeSound(r: Reader, codec: Codec, answers: nat -> Answer)
    requires Sound(r)
    ensures var log := Yielded(Yields(r.w.log) + Conclude(r, codec, answers));
            if r.failure.None? && Verdict(r.w.st, codec).None? && answers(0).Returns? then WellFormedRun(log)
            else FailedRun(log, r.w.st.sequence) && |log| == |r.w.log| + 1
  {
    var failure := if r.failure.Some? then r.failure else Verdict(r.w.st, codec);
    if failure.Some? {
      var fail := Fail(r.w.st, failure.value, answers(0));
      assert [] + fail == fail;
      FailYields(r.w.log, r.w.st, failure.value, answers(0), []);
    } else if answers(0).Throws? {
      var report := [Finish(ReportOf(r.w.st), false)];
      assert report[1..] == [];
      FailYields(r.w.log, r.w.st, Code(answers(0).message), answers(1), report);
    } else {
      CloseYields(r.w, ReportOf(r.w.st));
      CloseWellFormed(r.w);
    }
  }

  /** Every drained run ends with its only terminal event, and it is a failure exactly when the
      body was refused or the report of its end was. */
  lemma DrainedRun(text: string, end: End, codec: Codec, answers: nat -> Answer)
    ensures var log, r := Yielded(Trace(text, end, codec, answers)), ReadAll(text, end, codec);
            if Accepted(text, end, codec) && answers(0).Returns? then WellFormedRun(log)
            else FailedRun(log, r.w.st.sequence) && |log| == |r.w.log| + 1 && (r.failure.None? ==> r.w.st.sequence == |r.w.log|)
  {
    ReadAllSound(text, end, codec);
    ConcludeSound(ReadAll(text, end, codec), codec, answers);
  }

  // ---------- gaps in the numbers ----------

  /** Some fragment before the refused one opens a tool or carries arguments. */
  predicate FragmentNumbered(w: Work, fragments: seq<Fragment>)
    requires Coherent(w.st)
    decreases |fragments|
  {
    && fragments != [] && AddFragment(w, fragments[0]).Ok?
    && (FindTool(w.st.tools, fragments[0].index.value).None? || !Empty(fragments[0].arguments) || FragmentNumbered(w, fragments[1..]))
  }

  /** The provider event carries text, or such a fragment. */
  predicate EventNumbered(w: Work, raw: string, codec: Codec)
    requires Coherent(w.st)
  {
    && raw != "[DONE]" && codec.parse(raw).Parsed? && !codec.parse(raw).chunk.error && codec.parse(raw).chunk.choice.Some?
    && var choice := codec.parse(raw).chunk.choice.value;
       !Empty(choice.content) || FragmentNumbered(w, choice.toolCalls)
  }

  lemma {:induction false} FragmentsNumber(w: Work, fragments: seq<Fragment>)
    requires Coherent(w.st)
    ensures AddFragments(w, fragments).w.st.sequence > w.st.sequence <==> FragmentNumbered(w, fragments)
    decreases |fragments|
  {
    if fragments != [] && AddFragment(w, fragments[0]).Ok? {
      if FindTool(w.st.tools, fragments[0].index.value).None? || !Empty(fragments[0].arguments) {
        FragmentsAdvance(AddFragment(w, fragments[0]).w, fragments[1..]);
      } else {
        FragmentsNumber(w, fragments[1..]);
      }
    }
  }

  lemma {:induction false} SameTools(w: Work, v: Work, fragments: seq<Fragment>)
    requires Coherent(w.st) && Coherent(v.st) && w.st.tools == v.st.tools
    ensures FragmentNumbered(w, fragments) == FragmentNumbered(v, fragments)
    decreases |fragments|
  {
    if fragments != [] {
      SameTools(w, v, fragments[1..]);
    }
  }

  /** A refused provider event has taken a number just when it carries text or a numbered fragment. */
  lemma ConsumeNumbers(w: Work, raw: string, codec: Codec)
    requires Coherent(w.st) && Consume(w, raw, codec).Err?
    ensures Consume(w, raw, codec).w.st.sequence > w.st.sequence <==> EventNumbered(w, raw, codec)
  {
    if raw != "[DONE]" && codec.parse(raw).Parsed? && !codec.parse(raw).chunk.error && codec.parse(raw).chunk.choice.Some? {
      var chunk := codec.parse(raw).chunk;
      var w1, choice := SetUsage(w, chunk.usage), chunk.choice.value;
      if Empty(choice.content) {
        FragmentsNumber(w1, choice.toolCalls);
        SameTools(w, w1, choice.toolCalls);
      } else {
        FragmentsAdvance(AddText(w1, choice.content.value), choice.toolCalls);
      }
    }
  }

  /** The reader before the line at which the reading failed, else after all. */
  function Standing(r: Reader, lines: seq<string>, codec: Codec): (b: Reader)
    requires Coherent(r.w.st)
    ensures Coherent(b.w.st)
    decreases |lines|
  {
    if lines == [] || ReadLine(r, lines[0], codec).failure.Some? then r
    else Standing(ReadLine(r, lines[0], codec), lines[1..], codec)
  }

  lemma {:induction false} StandingReads(r: Reader, lines: seq<string>, codec: Codec)
    requires Sound(r) && r.failure.None?
    ensures var b, after := Standing(r, lines, codec), ReadLines(r, lines, codec);
            && Sound(b) && b.failure.None?
            && after == if after.failure.Some? then Dispatch(b, codec) else b
    decreases |lines|
  {
    if lines != [] {
      var next := ReadLine(r, lines[0], codec);
      ReadLinesSound(r, [lines[0]], codec);
      assert ReadLines(next, [lines[0]][1..], codec) == next;
      if next.failure.None? {
        StandingReads(next, lines[1..], codec);
      }
    }
  }

  /** The reader before the provider event that was refused, if one was. */
  function Refused(text: string, end: End, codec: Codec): (b: Option<Reader>)
    ensures b.Some? ==> Coherent(b.value.w.st)
  {
    var lines := if end.Closed? then AllLines(text) else CutLines(text).lines;
    var r := ReadLines(OPENED, lines, codec);
    if r.failure.Some? then Some(Standing(OPENED, lines, codec))
    else if end.Closed? && r.eventData != [] && Dispatch(r, codec).failure.Some? then Some(r)
    else None
  }

  lemma RefusedReads(text: string, end: End, codec: Codec)
    ensures var b, r := Refused(text, end, codec), ReadAll(text, end, codec);
            if b.Some? then Sound(b.value) && b.value.failure.None? && r == Dispatch(b.value, codec) && r.failure.Some?
            else r.w.st.sequence == |r.w.log|
  {
    OpenedFaithful();
    var lines := if end.Closed? then AllLines(text) else CutLines(text).lines;
    StandingReads(OPENED, lines, codec);
    ReadLinesSound(OPENED, lines, codec);
    ReadAllSound(text, end, codec);
  }

  lemma RefusedNumbers(b: Reader, codec: Codec)
    requires Sound(b) && b.failure.None? && Dispatch(b, codec).failure.Some?
    ensures var r := Dispatch(b, codec); r.w.st.sequence > |r.w.log| <==> EventNumbered(b.w, JoinLines(b.eventData), codec)
  {
    ConsumeNumbers(b.w, JoinLines(b.eventData), codec);
  }

  /** The last event's number skips some if and only if a provider event was refused that carries text, or a fragment
      before the refused one that opens a tool or carries arguments. */
  lemma GapIffRefusedMidway(text: string, end: End, codec: Codec, answers: nat -> Answer)
    ensures var log, b := Yielded(Trace(text, end, codec, answers)), Refused(text, end, codec);
            && |log| > 0
            && (log[|log| - 1].number > |log| - 1 <==> b.Some? && EventNumbered(b.value.w, JoinLines(b.value.eventData), codec))
  {
    DrainedRun(text, end, codec, answers);
    RefusedReads(text, end, codec);
    var b := Refused(text, end, codec);
    if b.Some? {
      RefusedNumbers(b.value, codec);
    }
  }

  /** Text, and in the same provider event a null fragment. */
  const HALF := Parsed(Chunk(false, None, Some(Choice(Some("hi"), [NullFragment], None))))
  const HALF_CODEC := Codec(_ => HALF, _ => true)

  lemma ReadHalf()
    ensures AllLines("data:") == ["data:"]
  {
    OneLine([], "data:");
  }

  lemma HalfRefused()
    ensures var r := ReadAll("data:", Closed, HALF_CODEC); r.failure.Some? && r.w.st.sequence == 5 && |r.w.log| == 2
  {
    ReadHalf();
    var collected := OPENED.(eventData := [""]);
    assert StripReturn("data:") == "data:" && "data:"[5..] == "" && TrimStart("") == "";
    assert ReadLine(OPENED, "data:", HALF_CODEC) == collected by { assert [] + [""] == [""]; }
    assert ["data:"][1..] == [];
    assert ReadLines(OPENED, ["data:"], HALF_CODEC) == collected;
    assert JoinLines([""]) == "";
    assert AddFragments(AddText(OPENED.w, "hi"), [NullFragment]).Err?;
  }

  /** It happens: three events are yielded, numbered 0, 1 and 5. */
  lemma GapHappens()
    ensures var log := Yielded(Trace("data:", Closed, HALF_CODEC, _ => Returns));
            |log| == 3 && log[0].number == 0 && log[1].number == 1 && log[2].number == 5
  {
    HalfRefused();
    DrainedRun("data:", Closed, HALF_CODEC, _ => Returns);
    var log := Yielded(Trace("data:", Closed, HALF_CODEC, _ => Returns));
    assert log[..2][0] == log[0] && log[..2][1] == log[1];
  }

  // ---------- onFinish ----------

  /** onFinish was called; at most one call returned, and none came after it. */
  ghost predicate Reported(trace: seq<Action>) {
    && (exists k :: 0 <= k < |trace| && trace[k].Finish?)
    && (forall j, k :: 0 <= j < k < |trace| && trace[j].Finish? && trace[k].Finish? ==> !trace[j].returned)
  }

  predicate CompletedAt(trace: seq<Action>, k: nat) {
    k < |trace| && trace[k].Yield? && trace[k].numbered.event.Ended? && trace[k].numbered.event.ending == Completed
  }

  /** `response.completed` comes only after a COMPLETED call that returned. */
  ghost predicate Earned(trace: seq<Action>) {
    forall k: nat :: CompletedAt(trace, k) ==> exists j :: 0 <= j < k && trace[j] == Finish(ReportCompleted, true)
  }

  /** The consumer returns at the k-th action, a yield: the finally block runs. */
  function Cancelled(trace: seq<Action>, k: nat, answers: nat -> Answer): seq<Action>
    requires k < |trace| && trace[k].Yield?
  {
    trace[..k + 1] +
      if exists j :: 0 <= j <= k && trace[j].Finish? then [] else [Finish(ReportFailed(CANCELLED), answers(0).Returns?)]
  }

  /** Where the calls of onFinish and the terminal event sit: `n` yields come before the first call. */
  ghost predicate Split(trace: seq<Action>, n: nat, accepted: bool, report: Report, returned: bool) {
    && n < |trace|
    && (forall k :: 0 <= k < n ==> trace[k].Yield? && !trace[k].numbered.event.Ended?)
    && trace[n].Finish? && trace[n].returned == returned
    && (accepted ==> trace[n].report == report)
    && if accepted && returned then
         && (forall k :: n < k < |trace| ==> trace[k].Yield?)
         && (forall k :: n < k < |trace| - 1 ==> !trace[k].numbered.event.Ended?)
         && n + 1 < |trace| && (CompletedAt(trace, |trace| - 1) <==> report == ReportCompleted)
       else if accepted then
         |trace| == n + 3 && trace[n + 1].Finish? && trace[n + 2].Yield? && !CompletedAt(trace, n + 2)
       else |trace| == n + 2 && trace[n + 1].Yield? && !CompletedAt(trace, n + 1)
  }

  lemma TraceSplit(text: string, end: End, codec: Codec, answers: nat -> Answer)
    ensures Split(Trace(text, end, codec, answers), |ReadAll(text, end, codec).w.log|,
                  Accepted(text, end, codec), ReportOf(FinalState(text, end, codec)), answers(0).Returns?)
  {
    ReadAllSound(text, end, codec);
    ConcludeSplit(ReadAll(text, end, codec), codec, answers);
  }

  lemma ConcludeSplit(r: Reader, codec: Codec, answers: nat -> Answer)
    requires Sound(r)
    ensures Split(Yields(r.w.log) + Conclude(r, codec, answers), |r.w.log|,
                  r.failure.None? && Verdict(r.w.st, codec).None?, ReportOf(r.w.st), answers(0).Returns?)
  {
    var failure := if r.failure.Some? then r.failure else Verdict(r.w.st, codec);
    if failure.Some? {
      FailSplit(r.w.log, r.w.st, failure.value, answers(0), ReportOf(r.w.st));
    } else if answers(0).Throws? {
      ThrowSplit(r.w.log, r.w.st, Code(answers(0).message), answers(1), ReportOf(r.w.st));
    } else {
      AcceptedSplit(r.w);
    }
  }

  lemma AcceptedSplit(w: Work)
    requires Faithful(w)
    ensures Split(Yields(w.log) + ([Finish(ReportOf(w.st), true)] + Yields(Close(w).log[|w.log|..])), |w.log|, true, ReportOf(w.st), true)
  {
    CloseReads(w);
    CloseSplit(w.log, Close(w).log, ReportOf(w.st));
  }

  lemma FailSplit(head: seq<Numbered>, st: State, code: string, answer: Answer, report: Report)
    requires Unended(head)
    ensures Split(Yields(head) + Fail(st, code, answer), |head|, false, report, answer.Returns?)
  {
  }

  lemma ThrowSplit(head: seq<Numbered>, st: State, code: string, answer: Answer, report: Report)
    requires Unended(head)
    ensures Split(Yields(head) + ([Finish(report, false)] + Fail(st, code, answer)), |head|, true, report, false)
  {
  }

  lemma CloseSplit(head: seq<Numbered>, log: seq<Numbered>, report: Report)
    requires Unended(head) && |head| < |log| && head <= log && Unended(log[..|log| - 1])
    requires log[|log| - 1].event.Ended? && (log[|log| - 1].event.ending == Completed <==> report == ReportCompleted)
    ensures Split(Yields(head) + ([Finish(report, true)] + Yields(log[|head|..])), |head|, true, report, true)
  {
    var trace := Yields(head) + ([Finish(report, true)] + Yields(log[|head|..]));
    forall k | |head| < k < |trace| ensures trace[k] == Yield(log[k - 1]) {}
    forall k | |head| < k < |trace| - 1 ensures !trace[k].numbered.event.Ended? {
      assert log[..|log| - 1][k - 1] == log[k - 1];
    }
  }

  /** Once started, a run that is drained or cancelled has reported its end, once. */
  lemma ReportsOnce(text: string, end: End, codec: Codec, answers: nat -> Answer, k: nat)
    ensures var trace := Trace(text, end, codec, answers);
            && Reported(trace)
            && (k < |trace| && trace[k].Yield? ==> Reported(Cancelled(trace, k, answers)))
  {
    TraceSplit(text, end, codec, answers);
    SplitReports(Trace(text, end, codec, answers), |ReadAll(text, end, codec).w.log|, Accepted(text, end, codec),
                 ReportOf(FinalState(text, end, codec)), answers(0).Returns?, k, answers);
  }

  lemma SplitReports(trace: seq<Action>, n: nat, accepted: bool, report: Report, returned: bool, k: nat, answers: nat -> Answer)
    requires Split(trace, n, accepted, report, returned)
    ensures Reported(trace)
    ensures k < |trace| && trace[k].Yield? ==> Reported(Cancelled(trace, k, answers))
  {
    assert trace[n].Finish?;
    if k < |trace| && trace[k].Yield? {
      var cut := Cancelled(trace, k, answers);
      if k < n { assert cut[k + 1].Finish?; } else { assert cut[n].Finish?; }
    }
  }

  /** `response.completed` is yielded exactly on accepted runs that finish by stop or tool_calls,
      whose tool arguments all parse, and whose COMPLETED report returned. */
  lemma CompletedIff(text: string, end: End, codec: Codec, answers: nat -> Answer)
    ensures var trace, st := Trace(text, end, codec, answers), FinalState(text, end, codec);
            && Earned(trace)
            && ((exists k: nat :: CompletedAt(trace, k)) <==>
                && ReadAll(text, end, codec).failure.None? && answers(0).Returns?
                && (st.finishReason == Some("stop") || (st.finishReason == Some("tool_calls") && st.tools != []))
                && ArgumentsParse(st, codec))
  {
    TraceSplit(text, end, codec, answers);
    var st, accepted := FinalState(text, end, codec), Accepted(text, end, codec);
    SplitCompletes(Trace(text, end, codec, answers), |ReadAll(text, end, codec).w.log|, accepted,
                   ReportOf(st), answers(0).Returns?);
  }

  lemma SplitCompletes(trace: seq<Action>, n: nat, accepted: bool, report: Report, returned: bool)
    requires Split(trace, n, accepted, report, returned)
    ensures Earned(trace)
    ensures (exists k: nat :: CompletedAt(trace, k)) <==> accepted && returned && report == ReportCompleted
  {
    if accepted && returned && report == ReportCompleted {
      assert trace[n] == Finish(ReportCompleted, true);
      assert CompletedAt(trace, |trace| - 1);
    }
  }
}
