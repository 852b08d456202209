/** What the desktop's SDK is asked to do, over every interleaving of calls, failures and close. */
module DesktopTheorems {
  import opened Options
  import opened DesktopDriver

  // ---------- the log ----------

  predicate IsMark(e: Entry) {
    e.Shot? || e.Act?
  }

  /** The last successful screenshot or attempted action. */
  function LastMark(log: seq<Entry>): Option<Entry> {
    if log == [] then None
    else if IsMark(log[|log| - 1]) then Some(log[|log| - 1])
    else LastMark(log[..|log| - 1])
  }

  predicate QuietBetween(log: seq<Entry>, i: int, j: int)
    requires 0 <= i <= j <= |log|
  {
    forall k :: i < k < j ==> !IsMark(log[k])
  }

  lemma {:induction false} LastMarkAt(log: seq<Entry>) returns (i: nat)
    requires LastMark(log).Some?
    ensures i < |log| && log[i] == LastMark(log).value && QuietBetween(log, i, |log|)
    decreases |log|
  {
    if IsMark(log[|log| - 1]) {
      i := |log| - 1;
    } else {
      i := LastMarkAt(log[..|log| - 1]);
    }
  }

  /** The action at j quotes the revision of a screenshot by the same bot, with no attempted action and no
      other successful screenshot in between. */
  predicate Licensed(log: seq<Entry>, j: nat)
    requires j < |log|
  {
    log[j].Act? ==> exists i :: 0 <= i < j && log[i] == Shot(log[j].bot, log[j].quoted) && QuietBetween(log, i, j)
  }

  predicate AllLicensed(log: seq<Entry>) {
    forall j :: 0 <= j < |log| ==> Licensed(log, j)
  }

  /** No revision is quoted by two attempted actions, and no two screenshots return the same one. */
  predicate QuotesIncrease(log: seq<Entry>) {
    forall i, j :: 0 <= i < j < |log| ==>
      (log[i].Act? && log[j].Act? ==> log[i].quoted < log[j].quoted) &&
      (log[i].Shot? && log[j].Shot? ==> log[i].revision < log[j].revision)
  }

  predicate FinishIn(log: seq<Entry>, i: int, j: int)
    requires 0 <= i <= j <= |log|
  {
    exists k :: i < k < j && log[k].Finish?
  }

  predicate NoOverlap(log: seq<Entry>) {
    forall i, j :: 0 <= i < j < |log| && log[i].Start? && log[j].Start? ==> FinishIn(log, i, j)
  }

  predicate AllFinished(log: seq<Entry>) {
    forall i :: 0 <= i < |log| && log[i].Start? ==> FinishIn(log, i, |log|)
  }

  predicate NothingAfterClose(log: seq<Entry>) {
    forall i, j :: 0 <= i < j < |log| && log[i].CloseResolved? ==> !log[j].Start? && !log[j].Act?
  }

  // ---------- states ----------

  predicate Operating(phase: Phase) {
    phase.Sizing? || phase.Shooting? || phase.Acting?
  }

  /** The running call passed its checks; they still hold until it is attempted. */
  predicate RunningChecked(s: State) {
    && s.released <= |s.requests|
    && (!s.phase.Idle? ==>
        && s.released < |s.requests|
        && var r := s.requests[s.released];
        && (Mutating(r) ==> r.expected.Some?)
        && (s.phase.Asserting? || s.phase.Sizing? ==> Mutating(r) ==> r.expected.value == s.revision && s.observer == Some(r.actor))
        && (s.phase.Sizing? ==> r.operation.Click?))
  }

  /** Unless an action is in progress, a bot that may act is the one whose screenshot is the last mark. */
  predicate ObserverRight(s: State) {
    s.observer.Some? && !s.phase.Acting? ==> LastMark(s.log) == Some(Shot(s.observer.value, s.revision))
  }

  predicate MarksBelow(s: State) {
    forall i :: 0 <= i < |s.log| ==>
      && (s.log[i].Shot? ==> s.log[i].revision <= s.revision)
      && (s.log[i].Act? ==> s.log[i].quoted < s.revision || (s.phase.Acting? && s.log[i].quoted == s.revision))
  }

  predicate CloseRight(s: State) {
    && (forall c :: c in s.closing ==> s.closed && (!s.phase.Idle? ==> s.released < c))
    && (forall i :: 0 <= i < |s.log| && s.log[i].CloseResolved? ==> s.closed && s.phase.Idle?)
  }

  predicate LogRight(log: seq<Entry>) {
    AllLicensed(log) && QuotesIncrease(log) && NoOverlap(log) && NothingAfterClose(log)
  }

  predicate Good(s: State) {
    && RunningChecked(s) && ObserverRight(s) && MarksBelow(s) && CloseRight(s) && LogRight(s.log)
    && (!Operating(s.phase) ==> AllFinished(s.log))
  }

  // ---------- one more entry ----------

  lemma StillLicensed(log: seq<Entry>, e: Entry)
    requires AllLicensed(log) && !e.Act?
    ensures AllLicensed(log + [e])
  {
    forall j | 0 <= j < |log + [e]| ensures Licensed(log + [e], j) {
      if j < |log| && log[j].Act? {
        assert Licensed(log, j);
        var i :| 0 <= i < j && log[i] == Shot(log[j].bot, log[j].quoted) && QuietBetween(log, i, j);
        assert QuietBetween(log + [e], i, j);
      }
    }
  }

  lemma ActLicensed(log: seq<Entry>, bot: Bot, quoted: nat)
    requires AllLicensed(log) && LastMark(log) == Some(Shot(bot, quoted))
    ensures AllLicensed(log + [Act(bot, quoted)])
  {
    var after := log + [Act(bot, quoted)];
    var shot := LastMarkAt(log);
    forall j | 0 <= j < |after| ensures Licensed(after, j) {
      if j < |log| && log[j].Act? {
        assert Licensed(log, j);
        var i :| 0 <= i < j && log[i] == Shot(log[j].bot, log[j].quoted) && QuietBetween(log, i, j);
        assert QuietBetween(after, i, j);
      } else if j == |log| {
        assert QuietBetween(after, shot, j);
      }
    }
  }

  lemma FinishStays(log: seq<Entry>, e: Entry, i: int, j: int)
    requires 0 <= i <= j <= |log| && FinishIn(log, i, j)
    ensures FinishIn(log + [e], i, j)
  {
    var k :| i < k < j && log[k].Finish?;
    assert (log + [e])[k].Finish?;
  }

  lemma OverlapStep(log: seq<Entry>, e: Entry)
    requires NoOverlap(log) && (e.Start? ==> AllFinished(log))
    ensures NoOverlap(log + [e])
  {
    var after := log + [e];
    forall i, j | 0 <= i < j < |after| && after[i].Start? && after[j].Start? ensures FinishIn(after, i, j) {
      assert FinishIn(log, i, j);
      FinishStays(log, e, i, j);
    }
  }

  lemma FinishedStep(log: seq<Entry>, e: Entry)
    requires AllFinished(log) && !e.Start?
    ensures AllFinished(log + [e])
  {
    forall i | 0 <= i < |log + [e]| && (log + [e])[i].Start? ensures FinishIn(log + [e], i, |log + [e]|) {
      assert FinishIn(log, i, |log|);
      FinishStays(log, e, i, |log|);
      var k :| i < k < |log| && (log + [e])[k].Finish?;
    }
  }

  lemma FinishEnds(log: seq<Entry>)
    ensures AllFinished(log + [Finish])
  {
    var after := log + [Finish];
    forall i | 0 <= i < |after| && after[i].Start? ensures FinishIn(after, i, |after|) {
      assert after[|log|].Finish?;
    }
  }

  lemma LastMarkStep(log: seq<Entry>, e: Entry)
    ensures LastMark(log + [e]) == if IsMark(e) then Some(e) else LastMark(log)
  {
    assert (log + [e])[..|log|] == log;
  }

  predicate NotResolved(log: seq<Entry>) {
    forall i :: 0 <= i < |log| ==> !log[i].CloseResolved?
  }

  lemma AppendQuiet(log: seq<Entry>, e: Entry)
    requires LogRight(log) && (e.Finish? || e.CloseResolved?)
    ensures LogRight(log + [e])
  {
    StillLicensed(log, e);
    OverlapStep(log, e);
  }

  lemma AppendStart(log: seq<Entry>, operation: Operation)
    requires LogRight(log) && AllFinished(log) && NotResolved(log)
    ensures LogRight(log + [Start(operation)])
  {
    StillLicensed(log, Start(operation));
    OverlapStep(log, Start(operation));
  }

  lemma AppendShot(log: seq<Entry>, bot: Bot, revision: nat)
    requires LogRight(log) && AllFinished(log)
    requires forall i :: 0 <= i < |log| && log[i].Shot? ==> log[i].revision < revision
    ensures LogRight(log + [Shot(bot, revision)]) && AllFinished(log + [Shot(bot, revision)])
  {
    StillLicensed(log, Shot(bot, revision));
    OverlapStep(log, Shot(bot, revision));
    FinishedStep(log, Shot(bot, revision));
  }

  lemma AppendAct(log: seq<Entry>, bot: Bot, quoted: nat)
    requires LogRight(log) && AllFinished(log) && NotResolved(log) && LastMark(log) == Some(Shot(bot, quoted))
    requires forall i :: 0 <= i < |log| && log[i].Act? ==> log[i].quoted < quoted
    ensures LogRight(log + [Act(bot, quoted)]) && AllFinished(log + [Act(bot, quoted)])
  {
    ActLicensed(log, bot, quoted);
    OverlapStep(log, Act(bot, quoted));
    FinishedStep(log, Act(bot, quoted));
  }

  // ---------- one step ----------

  lemma AttemptGood(s: State, r: Request)
    requires RunningChecked(s) && ObserverRight(s) && MarksBelow(s) && CloseRight(s) && LogRight(s.log) && AllFinished(s.log)
    requires s.phase.Asserting? || s.phase.Sizing?
    requires r == s.requests[s.released] && Mutating(r)
    ensures Good(Attempt(s, r))
  {
    var log := s.log + [Act(r.actor, r.expected.value)];
    AppendAct(s.log, r.actor, r.expected.value);
    AppendStart(log, r.operation);
    assert s.log + [Act(r.actor, r.expected.value), Start(r.operation)] == log + [Start(r.operation)];
  }

  lemma AssertedGood(s: State, ok: bool)
    requires Good(s)
    ensures Good(OnAsserted(s, ok))
  {
    if s.phase == Asserting {
      var r := s.requests[s.released];
      AppendStart(s.log, r.operation);
      LastMarkStep(s.log, Start(r.operation));
      if ok && Mutating(r) && !r.operation.Click? {
        AttemptGood(s, r);
      }
    }
  }

  lemma SizedGood(s: State, ok: bool, width: int, height: int)
    requires Good(s)
    ensures Good(OnSized(s, ok, width, height))
  {
    if s.phase == Sizing {
      var r, measured := s.requests[s.released], s.(log := s.log + [Finish]);
      AppendQuiet(s.log, Finish);
      FinishEnds(s.log);
      LastMarkStep(s.log, Finish);
      if ok && OnScreen(r.operation, width, height) {
        AttemptGood(measured, r);
      }
    }
  }

  lemma ScreenshottedGood(s: State, ok: bool)
    requires Good(s)
    ensures Good(OnScreenshotted(s, ok))
  {
    if s.phase == Shooting {
      var r := s.requests[s.released];
      AppendQuiet(s.log, Finish);
      FinishEnds(s.log);
      LastMarkStep(s.log, Finish);
      AppendShot(s.log + [Finish], r.actor, s.revision + 1);
      LastMarkStep(s.log + [Finish], Shot(r.actor, s.revision + 1));
    }
  }

  lemma ActedGood(s: State, ok: bool)
    requires Good(s)
    ensures Good(OnActed(s, ok))
  {
    if s.phase == Acting {
      AppendQuiet(s.log, Finish);
      FinishEnds(s.log);
    }
  }

  lemma ResolveGood(s: State, calls: nat)
    requires Good(s)
    ensures Good(Step(s, ResolveClose(calls)))
  {
    if calls in s.closing && s.released >= calls {
      AppendQuiet(s.log, CloseResolved);
      LastMarkStep(s.log, CloseResolved);
      FinishedStep(s.log, CloseResolved);
    }
  }

  lemma StepGood(s: State, e: Event)
    requires Good(s)
    ensures Good(Step(s, e))
  {
    match e
    case Execute(request) =>
    case Granted =>
    case Asserted(ok) => AssertedGood(s, ok);
    case Sized(ok, width, height) => SizedGood(s, ok, width, height);
    case Screenshotted(ok) => ScreenshottedGood(s, ok);
    case Acted(ok) => ActedGood(s, ok);
    case Close =>
    case ResolveClose(calls) => ResolveGood(s, calls);
  }

  function Run(events: seq<Event>): State {
    if events == [] then START else Step(Run(events[..|events| - 1]), events[|events| - 1])
  }

  /** Over every run: each attempted action is licensed by its own screenshot, operations of the SDK never
      overlap, and none starts after a close has resolved. */
  lemma {:induction false} EveryRunGood(events: seq<Event>)
    ensures Good(Run(events))
    ensures AllLicensed(Run(events).log) && QuotesIncrease(Run(events).log) && NoOverlap(Run(events).log) && NothingAfterClose(Run(events).log)
    decreases |events|
  {
    if events != [] {
      EveryRunGood(events[..|events| - 1]);
      StepGood(Run(events[..|events| - 1]), events[|events| - 1]);
    }
  }

  /** One screenshot licenses one action: two actions at j < k have different screenshots. */
  lemma OneActionPerScreenshot(events: seq<Event>, i: nat, j: nat, k: nat)
    requires var log := Run(events).log;
             && i < j < k < |log| && log[j].Act? && log[k].Act? && log[i].Shot?
             && log[i].bot == log[j].bot && log[i].revision == log[j].quoted
    ensures Run(events).log[i].revision != Run(events).log[k].quoted
  {
    EveryRunGood(events);
  }

  // ---------- what the operations do ----------

  /** Screenshots taken and actions attempted so far. */
  function Marks(log: seq<Entry>): nat {
    if log == [] then 0 else Marks(log[..|log| - 1]) + if IsMark(log[|log| - 1]) then 1 else 0
  }

  lemma MarksLast(log: seq<Entry>, e: Entry)
    ensures Marks(log + [e]) == Marks(log) + if IsMark(e) then 1 else 0
  {
    assert (log + [e])[..|log|] == log;
  }

  lemma MarksTwo(log: seq<Entry>, a: Entry, b: Entry)
    ensures Marks(log + [a, b]) == Marks(log) + (if IsMark(a) then 1 else 0) + if IsMark(b) then 1 else 0
    ensures LastMark(log + [a, b]) == if IsMark(b) then Some(b) else if IsMark(a) then Some(a) else LastMark(log)
  {
    assert log + [a, b] == log + [a] + [b];
    MarksLast(log, a);
    MarksLast(log + [a], b);
    LastMarkStep(log, a);
    LastMarkStep(log + [a], b);
  }

  /** The revision counts the marks, an action counting once it has returned; and the observer is who took the last
      mark, if that was a screenshot. */
  predicate Counted(s: State) {
    if s.phase.Acting? then Marks(s.log) == s.revision + 1
    else
      && Marks(s.log) == s.revision
      && (LastMark(s.log).Some? && LastMark(s.log).value.Shot? ==>
            s.observer == Some(LastMark(s.log).value.bot) && LastMark(s.log).value.revision == s.revision)
      && (s.observer.Some? ==> LastMark(s.log) == Some(Shot(s.observer.value, s.revision)))
  }

  lemma QuietCounted(s: State, after: State, e: Entry)
    requires Counted(s) && !s.phase.Acting? && !after.phase.Acting? && !IsMark(e)
    requires after.log == s.log + [e] && after.revision == s.revision && after.observer == s.observer
    ensures Counted(after)
  {
    MarksLast(s.log, e);
    LastMarkStep(s.log, e);
  }

  lemma AttemptCounted(s: State, r: Request)
    requires Marks(s.log) == s.revision && r.expected.Some?
    ensures Counted(Attempt(s, r))
  {
    MarksTwo(s.log, Act(r.actor, r.expected.value), Start(r.operation));
  }

  lemma AssertedCounted(s: State, ok: bool)
    requires Counted(s)
    ensures Counted(OnAsserted(s, ok))
  {
    if s.phase == Asserting && s.released < |s.requests| {
      var r := s.requests[s.released];
      QuietCounted(s, s.(phase := Shooting, log := s.log + [Start(r.operation)]), Start(r.operation));
      if r.expected.Some? {
        AttemptCounted(s, r);
      }
    }
  }

  lemma SizedCounted(s: State, ok: bool, width: int, height: int)
    requires Counted(s)
    ensures Counted(OnSized(s, ok, width, height))
  {
    if s.phase == Sizing && s.released < |s.requests| {
      var r, measured := s.requests[s.released], s.(log := s.log + [Finish]);
      QuietCounted(s, measured, Finish);
      if r.expected.Some? {
        AttemptCounted(measured, r);
      }
    }
  }

  lemma ShotCounted(s: State, ok: bool)
    requires Counted(s)
    ensures Counted(OnScreenshotted(s, ok))
  {
    if s.phase == Shooting && s.released < |s.requests| {
      var shot := Shot(s.requests[s.released].actor, s.revision + 1);
      QuietCounted(s, s.(log := s.log + [Finish]), Finish);
      MarksLast(s.log + [Finish], shot);
      LastMarkStep(s.log + [Finish], shot);
    }
  }

  /** While an action runs, it is the last mark. */
  predicate ActingLast(s: State) {
    s.phase.Acting? ==> LastMark(s.log).Some? && LastMark(s.log).value.Act?
  }

  lemma ActedCounted(s: State, ok: bool)
    requires Counted(s) && ActingLast(s)
    ensures Counted(OnActed(s, ok))
  {
    MarksLast(s.log, Finish);
    LastMarkStep(s.log, Finish);
  }

  lemma AttemptLast(s: State, r: Request)
    requires r.expected.Some?
    ensures ActingLast(Attempt(s, r))
  {
    MarksTwo(s.log, Act(r.actor, r.expected.value), Start(r.operation));
  }

  lemma StepActingLast(s: State, e: Event)
    requires ActingLast(s)
    ensures ActingLast(Step(s, e))
  {
    match e
    case Asserted(ok) =>
      if s.phase == Asserting && s.released < |s.requests| && s.requests[s.released].expected.Some? {
        AttemptLast(s, s.requests[s.released]);
      }
    case Sized(ok, width, height) =>
      if s.phase == Sizing && s.released < |s.requests| && s.requests[s.released].expected.Some? {
        AttemptLast(s.(log := s.log + [Finish]), s.requests[s.released]);
      }
    case ResolveClose(calls) => LastMarkStep(s.log, CloseResolved);
    case _ =>
  }

  lemma StepCounted(s: State, e: Event)
    requires Counted(s) && ActingLast(s)
    ensures Counted(Step(s, e))
  {
    match e
    case Asserted(ok) => AssertedCounted(s, ok);
    case Sized(ok, width, height) => SizedCounted(s, ok, width, height);
    case Screenshotted(ok) => ShotCounted(s, ok);
    case Acted(ok) => ActedCounted(s, ok);
    case ResolveClose(calls) =>
      MarksLast(s.log, CloseResolved);
      LastMarkStep(s.log, CloseResolved);
    case _ =>
  }

  lemma {:induction false} RunCounted(events: seq<Event>)
    ensures Counted(Run(events)) && ActingLast(Run(events))
    decreases |events|
  {
    if events != [] {
      RunCounted(events[..|events| - 1]);
      StepCounted(Run(events[..|events| - 1]), events[|events| - 1]);
      StepActingLast(Run(events[..|events| - 1]), events[|events| - 1]);
    }
  }

  /** In every run the next call is looked at, and not refused, exactly when the driver is open, its bot is named, what
      it quotes is the number of screenshots and actions so far, and, if it is to act, the last of these is a screenshot
      by the same bot that it quotes. */
  lemma LetThroughIff(events: seq<Event>)
    requires var s := Run(events); s.phase == Idle && s.released < |s.requests|
    ensures var s, after := Run(events), Run(events + [Granted]); var r := s.requests[s.released];
            && (after.phase == Asserting <==>
                && !s.closed && !r.blank && (r.expected.Some? ==> r.expected.value == Marks(s.log))
                && (Mutating(r) ==> r.expected.Some? && LastMark(s.log) == Some(Shot(r.actor, r.expected.value))))
            && (after.phase != Asserting ==> after == s.(released := s.released + 1))
  {
    RunCounted(events);
    assert (events + [Granted])[..|events|] == events;
  }

  /** What the arguments of an operation that is no click must be. */
  predicate Permitted(operation: Operation) {
    match operation
    case Screenshot => true
    case Click(_, _) => true
    case Type(text) => 1 <= |text| <= 4000
    case Key(keys, valid) => valid && (|keys| == 1 || |keys| == 2 || |keys| == 3)
    case Scroll(known, amount) => known && 1 <= amount <= 10
  }

  /** A checked call goes to the SDK as it is asked, an action only with permitted arguments and marked as an attempt; a
      click first has the screen measured. */
  lemma GoesToTheSdk(s: State, ok: bool)
    requires Good(s) && s.phase == Asserting
    ensures var r, after := s.requests[s.released], Step(s, Asserted(ok));
            after.log ==
              if !ok || !Permitted(r.operation) then s.log
              else if r.operation.Screenshot? || r.operation.Click? then s.log + [Start(r.operation)]
              else s.log + [Act(r.actor, s.revision), Start(r.operation)]
  {
  }

  /** A measured click is attempted exactly when it lies on a screen of a sane size. */
  lemma ClickGoesToTheSdk(s: State, ok: bool, width: int, height: int)
    requires Good(s) && s.phase == Sizing
    ensures var r, after := s.requests[s.released], Step(s, Sized(ok, width, height)); var op := r.operation;
            after.log ==
              if ok && 1 <= width <= 4096 && 1 <= height <= 4096 && 0 <= op.x < width && 0 <= op.y < height
              then s.log + [Finish] + [Act(r.actor, s.revision), Start(op)] else s.log + [Finish]
  {
  }

  /** A screenshot that succeeds is given a new revision, which is its bot's to act on; an action uses it up. */
  lemma ReturnsMove(s: State, ok: bool)
    requires Good(s)
    ensures s.phase == Shooting ==>
              var r, after := s.requests[s.released], Step(s, Screenshotted(ok));
              && after.phase == Idle && after.released == s.released + 1
              && (if ok then after.revision == s.revision + 1 && after.observer == Some(r.actor)
                  else after.revision == s.revision && after.observer == s.observer)
    ensures s.phase == Acting ==>
              var after := Step(s, Acted(ok)); after.phase == Idle && after.released == s.released + 1 && after.revision == s.revision + 1 && after.observer.None?
  {
  }
}
