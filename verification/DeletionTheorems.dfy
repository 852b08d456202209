/** Every run of deletions, refusals, crashes and retries of one bot. */
module DeletionTheorems {
  import opened Options
  import opened PendingDeletion

  function Run(events: seq<Event>): State {
    if events == [] then CREATED else Step(Run(events[..|events| - 1]), events[|events| - 1])
  }

  lemma RunStep(events: seq<Event>, k: nat)
    requires k < |events|
    ensures Run(events[..k + 1]) == Step(Run(events[..k]), events[k])
  {
    assert events[..k + 1][..k] == events[..k];
  }

  // ---------- states ----------

  /** The pending row exists exactly while the bot is archived; the batch is exactly the attempts
      in flight and names the row's latest generation. */
  predicate Consistent(s: State) {
    && (s.row.Some? <==> s.archived == Some(true))
    && (s.batch.Some? <==> s.inFlight != {})
    && (s.batch.Some? ==> s.batch.value.pending == s.inFlight)
    && (s.batch.Some? && s.row.Some? ==> s.batch.value.latestGeneration == s.row.value.generation)
    && (s.batch.Some? && s.row.None? ==> s.archived.None?)
  }

  lemma FinishConsistent(s: State, token: Token)
    requires Consistent(s) && token in s.inFlight
    ensures Consistent(Finish(s, token)) && Finish(s, token).inFlight == s.inFlight - {token}
    ensures s.archived.None? ==> Finish(s, token).archived.None?
  {
  }

  lemma SettleConsistent(s: State, token: Token, result: Result)
    requires Consistent(s) && token in s.inFlight
    ensures Consistent(Settle(s, token, result)) && Settle(s, token, result).inFlight == s.inFlight
    ensures s.archived.None? ==> Settle(s, token, result).archived.None?
  {
  }

  lemma ClaimConsistent(s: State, token: Token)
    requires Consistent(s) && Claims(s, token)
    ensures Consistent(Claimed(s, token)) && Consistent(Marked(Claimed(s, token), false, true))
  {
  }

  lemma StepConsistent(s: State, e: Event)
    requires Consistent(s)
    ensures Consistent(Step(s, e))
  {
    match e
    case Begin =>
    case Attempt(token, idle) => AttemptConsistent(s, token, idle);
    case Sweep(token, idle) => AttemptConsistent(s, token, idle);
    case Outcome(token, result) =>
      if token in s.inFlight {
        SettleConsistent(s, token, result);
        FinishConsistent(Settle(s, token, result), token);
      }
    case Delete =>
    case Crash =>
  }

  lemma AttemptConsistent(s: State, token: Token, idle: bool)
    requires Consistent(s)
    ensures Consistent(OnAttempt(s, token, idle))
  {
    if Claims(s, token) {
      ClaimConsistent(s, token);
      if !idle {
        FinishConsistent(Marked(Claimed(s, token), false, true), token);
      }
    }
  }

  /** So BOT_DELETE_FENCE_MISSING is thrown in no run. */
  lemma {:induction false} RunConsistent(events: seq<Event>)
    ensures Consistent(Run(events)) && !FenceMissing(Run(events))
    decreases |events|
  {
    if events != [] {
      RunConsistent(events[..|events| - 1]);
      StepConsistent(Run(events[..|events| - 1]), events[|events| - 1]);
    }
  }

  lemma StepGone(s: State, e: Event)
    requires Consistent(s) && s.archived.None?
    ensures Step(s, e).archived.None? && Step(s, e).row.None?
  {
    match e
    case Outcome(token, result) =>
      if token in s.inFlight {
        SettleConsistent(s, token, result);
        FinishConsistent(Settle(s, token, result), token);
      }
    case _ =>
  }

  /** A deleted bot never comes back, and no pending row is ever written for it again. */
  lemma {:induction false} GoneForever(events: seq<Event>, k: nat)
    requires k <= |events| && Run(events[..k]).archived.None?
    ensures Run(events).archived.None? && Run(events).row.None?
    decreases |events|
  {
    RunConsistent(events);
    if k == |events| {
      assert events[..k] == events;
    } else {
      var init := events[..|events| - 1];
      assert init[..k] == events[..k];
      GoneForever(init, k);
      RunConsistent(init);
      StepGone(Run(init), events[|events| - 1]);
    }
  }

  // ---------- what the history says about one attempt ----------

  /** Step i claimed an attempt. */
  predicate ClaimedAt(events: seq<Event>, i: nat) {
    i < |events| && (events[i].Attempt? || events[i].Sweep?) && Claims(Run(events[..i]), events[i].token)
    && (events[i].Sweep? ==> events[i].token !in Run(events[..i]).rejected)
  }

  /** The attempt claimed at step i still waits for the platform at step k. */
  predicate WaitingAt(events: seq<Event>, i: nat, k: nat) {
    && k <= |events| && i < k && ClaimedAt(events, i) && events[i].idle
    && forall j :: i < j < k ==> !events[j].Crash? && !(events[j].Outcome? && events[j].token == events[i].token)
  }

  /** The platform refused that attempt with a 401 or 403 at step k, and that was recorded. */
  predicate RefusedAt(events: seq<Event>, i: nat, k: nat) {
    WaitingAt(events, i, k) && k < |events| && events[k] == Outcome(events[i].token, Refused(true))
  }

  predicate EverRefused(events: seq<Event>, i: nat) {
    exists k :: i < k < |events| && RefusedAt(events, i, k)
  }

  /** The deletion pending at step i is pending ever since. */
  predicate PendingSince(events: seq<Event>, i: nat) {
    forall k :: i <= k <= |events| ==> Run(events[..k]).row.Some?
  }

  predicate UnderFence(events: seq<Event>, i: nat) {
    ClaimedAt(events, i) && PendingSince(events, i)
  }

  predicate Unresolved(events: seq<Event>, i: nat) {
    UnderFence(events, i) && !EverRefused(events, i)
  }

  function ClaimSet(events: seq<Event>): set<nat> {
    set i | 0 <= i < |events| && UnderFence(events, i)
  }

  function UnresolvedSet(events: seq<Event>): set<nat> {
    set i | 0 <= i < |events| && Unresolved(events, i)
  }

  // ---------- one more event ----------

  lemma ClaimedPrefix(events: seq<Event>, i: nat, n: nat)
    requires i < n <= |events|
    ensures ClaimedAt(events[..n], i) == ClaimedAt(events, i)
  {
    assert events[..n][..i] == events[..i];
  }

  lemma WaitingPrefix(events: seq<Event>, i: nat, k: nat, n: nat)
    requires i < k <= n <= |events|
    ensures WaitingAt(events[..n], i, k) == WaitingAt(events, i, k)
  {
    ClaimedPrefix(events, i, n);
    if WaitingAt(events[..n], i, k) {
      assert forall j :: i < j < k ==> events[j] == events[..n][j];
    }
    if WaitingAt(events, i, k) {
      assert forall j :: i < j < k ==> events[j] == events[..n][j];
    }
  }

  lemma RefusedExtends(events: seq<Event>, i: nat)
    requires events != [] && i < |events| - 1
    ensures EverRefused(events, i) <==> EverRefused(events[..|events| - 1], i) || RefusedAt(events, i, |events| - 1)
  {
    var init := events[..|events| - 1];
    if EverRefused(init, i) {
      var k :| i < k < |init| && RefusedAt(init, i, k);
      WaitingPrefix(events, i, k, |init|);
      assert RefusedAt(events, i, k);
    }
    if EverRefused(events, i) {
      var k :| i < k < |events| && RefusedAt(events, i, k);
      if k < |init| {
        WaitingPrefix(events, i, k, |init|);
        assert RefusedAt(init, i, k);
      }
    }
  }

  lemma PendingExtends(events: seq<Event>, i: nat)
    requires events != [] && i < |events|
    ensures PendingSince(events, i) <==> PendingSince(events[..|events| - 1], i) && Run(events).row.Some?
  {
    var n := |events| - 1;
    assert events[..n + 1] == events;
    if PendingSince(events, i) {
      assert Run(events[..n + 1]).row.Some?;
      PendingShortens(events, i, n);
    }
    if PendingSince(events[..n], i) && Run(events[..n + 1]).row.Some? {
      PendingLengthens(events, i, n);
    }
  }

  lemma PendingShortens(events: seq<Event>, i: nat, n: nat)
    requires i <= n <= |events| && PendingSince(events, i)
    ensures PendingSince(events[..n], i)
  {
    forall k | i <= k <= n ensures Run(events[..n][..k]).row.Some? {
      assert events[..n][..k] == events[..k];
    }
  }

  lemma PendingLengthens(events: seq<Event>, i: nat, n: nat)
    requires i <= n && n + 1 == |events| && PendingSince(events[..n], i) && Run(events[..n + 1]).row.Some?
    ensures PendingSince(events, i)
  {
    forall k | i <= k <= n + 1 ensures Run(events[..k]).row.Some? {
      if k <= n {
        assert events[..n][..k] == events[..k];
      }
    }
  }

  /** An attempt waits at the end just when its token is in flight. */
  lemma {:induction false} WaitingInFlight(events: seq<Event>, i: nat)
    requires WaitingAt(events, i, |events|)
    ensures events[i].token in Run(events).inFlight
    ensures forall j :: i < j < |events| && ClaimedAt(events, j) ==> events[j].token != events[i].token
    decreases |events|
  {
    var init, e := events[..|events| - 1], events[|events| - 1];
    RunConsistent(init);
    if i < |init| {
      WaitingPrefix(events, i, |init|, |init|);
      assert forall j :: i < j < |init| ==> events[j] == init[j];
      WaitingInFlight(init, i);
      ClaimedPrefix(events, i, |init|);
      InFlightStays(Run(init), e, events[i].token);
      forall j | i < j < |events| && ClaimedAt(events, j) ensures events[j].token != events[i].token {
        if j < |init| {
          ClaimedPrefix(events, j, |init|);
          assert init[j] == events[j];
        }
      }
    }
  }

  lemma InFlightStays(s: State, e: Event, token: Token)
    requires Consistent(s) && token in s.inFlight && !e.Crash? && !(e.Outcome? && e.token == token)
    ensures token in Step(s, e).inFlight
  {
    match e
    case Outcome(other, result) =>
      if other in s.inFlight {
        SettleConsistent(s, other, result);
      }
    case _ =>
  }

  lemma {:induction false} InFlightWaits(events: seq<Event>, token: Token) returns (i: nat)
    requires token in Run(events).inFlight
    ensures WaitingAt(events, i, |events|) && events[i].token == token
    decreases |events|
  {
    var init, e := events[..|events| - 1], events[|events| - 1];
    RunConsistent(init);
    if token in Run(init).inFlight {
      i := InFlightWaits(init, token);
      StillInFlight(Run(init), e, token);
      WaitingPrefix(events, i, |init|, |init|);
      assert forall j :: i < j < |init| ==> events[j] == init[j];
    } else {
      NewInFlight(Run(init), e, token);
      i := |init|;
    }
  }

  lemma StillInFlight(s: State, e: Event, token: Token)
    requires Consistent(s) && token in s.inFlight && token in Step(s, e).inFlight
    ensures !e.Crash? && !(e.Outcome? && e.token == token)
  {
    if e.Outcome? && e.token == token {
      SettleConsistent(s, token, e.result);
      FinishConsistent(Settle(s, token, e.result), token);
    }
  }

  lemma NewInFlight(s: State, e: Event, token: Token)
    requires Consistent(s) && token !in s.inFlight && token in Step(s, e).inFlight
    ensures (e.Attempt? || e.Sweep?) && e.token == token && e.idle && Claims(s, token) && (e.Sweep? ==> token !in s.rejected)
  {
    match e
    case Outcome(other, result) =>
      if other in s.inFlight {
        SettleConsistent(s, other, result);
        FinishConsistent(Settle(s, other, result), other);
      }
    case _ =>
  }

  /** While an attempt waits, the deletion it belongs to stays pending or the bot is gone for good. */
  lemma {:induction false} WaitingPending(events: seq<Event>, i: nat)
    requires WaitingAt(events, i, |events|) && Run(events).row.Some?
    ensures PendingSince(events, i)
    decreases |events|
  {
    var init, e := events[..|events| - 1], events[|events| - 1];
    RunConsistent(init);
    assert events[..|events|] == events && events[..|init|] == init;
    if i < |init| {
      WaitingPrefix(events, i, |init|, |init|);
      WaitingInFlight(init, i);
      if Run(init).row.None? {
        StepGone(Run(init), e);
      }
      WaitingPending(init, i);
      PendingExtends(events, i);
    }
  }

  // ---------- the counters ----------

  predicate Refusing(s: State, e: Event) {
    e.Outcome? && e.token in s.inFlight && e.result == Refused(true)
  }

  predicate Claiming(s: State, e: Event) {
    (e.Attempt? || e.Sweep?) && Claims(s, e.token) && (e.Sweep? ==> e.token !in s.rejected)
  }

  lemma RowStep(s: State, e: Event)
    requires Consistent(s) && s.row.Some? && Step(s, e).row.Some?
    ensures var row, after := s.row.value, Step(s, e).row.value;
            after == if Claiming(s, e) then Row(row.generation + 1, row.unresolved + 1)
                     else if Refusing(s, e) && row.unresolved > 0 then Row(row.generation, row.unresolved - 1)
                     else row
  {
  }

  lemma FencedStep(events: seq<Event>, i: nat)
    requires events != [] && i < |events| - 1
    requires Run(events[..|events| - 1]).row.Some? && Run(events).row.Some?
    ensures var init := events[..|events| - 1];
            && (UnderFence(events, i) <==> UnderFence(init, i))
            && (Unresolved(events, i) <==> Unresolved(init, i) && !RefusedAt(events, i, |init|))
  {
    ClaimedPrefix(events, i, |events| - 1);
    PendingExtends(events, i);
    RefusedExtends(events, i);
  }

  lemma PendingAtEnd(events: seq<Event>, n: nat)
    requires n + 1 == |events| && Run(events[..n]).row.Some? && Run(events[..n + 1]).row.Some?
    ensures PendingSince(events, n)
  {
    forall k | n <= k <= |events| ensures Run(events[..k]).row.Some? {
      assert k == n || k == n + 1;
    }
  }

  lemma NeverRefusedYet(events: seq<Event>, n: nat)
    requires n + 1 == |events|
    ensures !EverRefused(events, n)
  {
  }

  lemma NewestClaimed(events: seq<Event>, n: nat)
    requires n + 1 == |events|
    ensures ClaimedAt(events, n) <==> Claiming(Run(events[..n]), events[n])
  {
  }

  lemma NewestClaim(events: seq<Event>)
    requires events != [] && Run(events[..|events| - 1]).row.Some? && Run(events).row.Some?
    ensures var n := |events| - 1;
            && (UnderFence(events, n) <==> Claiming(Run(events[..n]), events[n]))
            && (Unresolved(events, n) <==> Claiming(Run(events[..n]), events[n]))
  {
    var n := |events| - 1;
    assert events[..n + 1] == events;
    PendingAtEnd(events, n);
    NeverRefusedYet(events, n);
    NewestClaimed(events, n);
  }

  lemma ClaimSetStep(events: seq<Event>)
    requires events != [] && Run(events[..|events| - 1]).row.Some? && Run(events).row.Some?
    ensures var init := events[..|events| - 1];
            ClaimSet(events) == ClaimSet(init) + if Claiming(Run(init), events[|init|]) then {|init|} else {}
  {
    NewestClaim(events);
    forall i | 0 <= i < |events| - 1 ensures UnderFence(events, i) <==> UnderFence(events[..|events| - 1], i) {
      FencedStep(events, i);
    }
  }

  /** A recorded refusal resolves exactly one unresolved attempt. */
  lemma RefusalResolves(events: seq<Event>) returns (r: nat)
    requires events != [] && Run(events[..|events| - 1]).row.Some?
    requires Refusing(Run(events[..|events| - 1]), events[|events| - 1])
    ensures var init := events[..|events| - 1];
            Unresolved(init, r) && forall i :: 0 <= i < |init| ==> (RefusedAt(events, i, |init|) <==> i == r)
  {
    var init, e := events[..|events| - 1], events[|events| - 1];
    r := InFlightWaits(init, e.token);
    WaitingPending(init, r);
    WaitingPrefix(events, r, |init|, |init|);
    NotYetRefused(init, r);
    forall i | 0 <= i < |init| ensures RefusedAt(events, i, |init|) <==> i == r {
      if RefusedAt(events, i, |init|) {
        WaitingPrefix(events, i, |init|, |init|);
        WaitingInFlight(init, i);
        WaitingInFlight(init, r);
      }
    }
  }

  lemma NotYetRefused(events: seq<Event>, i: nat)
    requires WaitingAt(events, i, |events|)
    ensures !EverRefused(events, i)
  {
  }

  /** The attempts refused by the last event: one, or none. */
  lemma RefusedNow(events: seq<Event>) returns (gone: set<nat>)
    requires events != [] && Run(events[..|events| - 1]).row.Some?
    ensures var init := events[..|events| - 1];
            && gone <= UnresolvedSet(init) && |gone| == (if Refusing(Run(init), events[|init|]) then 1 else 0)
            && forall i :: 0 <= i < |init| ==> (RefusedAt(events, i, |init|) <==> i in gone)
  {
    var init := events[..|events| - 1];
    if Refusing(Run(init), events[|init|]) {
      var r := RefusalResolves(events);
      gone := {r};
    } else {
      gone := {};
      forall i | 0 <= i < |init| ensures !RefusedAt(events, i, |init|) {
        if RefusedAt(events, i, |init|) {
          WaitingPrefix(events, i, |init|, |init|);
          WaitingInFlight(init, i);
        }
      }
    }
  }

  lemma UnresolvedSetStep(events: seq<Event>, gone: set<nat>)
    requires events != [] && Run(events[..|events| - 1]).row.Some? && Run(events).row.Some?
    requires forall i :: 0 <= i < |events| - 1 ==> (RefusedAt(events, i, |events| - 1) <==> i in gone)
    ensures var init := events[..|events| - 1];
            UnresolvedSet(events) == UnresolvedSet(init) - gone + if Claiming(Run(init), events[|init|]) then {|init|} else {}
  {
    var init := events[..|events| - 1];
    NewestClaim(events);
    forall i | 0 <= i < |init| ensures Unresolved(events, i) <==> Unresolved(init, i) && i !in gone {
      FencedStep(events, i);
    }
  }

  predicate CountersMatch(events: seq<Event>) {
    Run(events).row.Some? ==>
      && Run(events).row.value.generation == |ClaimSet(events)|
      && Run(events).row.value.unresolved == |UnresolvedSet(events)|
  }

  /** Taking some away, and adding a new one. */
  lemma SetSizes(before: set<nat>, gone: set<nat>, n: nat)
    requires gone <= before && n !in before
    ensures |before - gone| == |before| - |gone| && |before - gone + {n}| == |before| - |gone| + 1
  {
  }

  lemma ClaimCounted(events: seq<Event>)
    requires events != [] && Run(events[..|events| - 1]).row.Some? && Run(events).row.Some?
    ensures var init := events[..|events| - 1];
            |ClaimSet(events)| == |ClaimSet(init)| + if Claiming(Run(init), events[|init|]) then 1 else 0
  {
    ClaimSetStep(events);
    SetSizes(ClaimSet(events[..|events| - 1]), {}, |events| - 1);
    assert ClaimSet(events[..|events| - 1]) - {} == ClaimSet(events[..|events| - 1]);
  }

  lemma UnresolvedCounted(events: seq<Event>)
    requires events != [] && Run(events[..|events| - 1]).row.Some? && Run(events).row.Some?
    ensures var init := events[..|events| - 1];
            |UnresolvedSet(events)| == |UnresolvedSet(init)| - (if Refusing(Run(init), events[|init|]) then 1 else 0) +
                                       (if Claiming(Run(init), events[|init|]) then 1 else 0)
  {
    var gone := RefusedNow(events);
    UnresolvedSetStep(events, gone);
    SetSizes(UnresolvedSet(events[..|events| - 1]), gone, |events| - 1);
    assert UnresolvedSet(events[..|events| - 1]) - gone + {} == UnresolvedSet(events[..|events| - 1]) - gone;
  }

  lemma RefusingCounts(events: seq<Event>)
    requires events != [] && Run(events[..|events| - 1]).row.Some?
    ensures var init := events[..|events| - 1]; Refusing(Run(init), events[|init|]) ==> |UnresolvedSet(init)| > 0
  {
    var gone := RefusedNow(events);
    if gone != {} {
      SetSizes(UnresolvedSet(events[..|events| - 1]), gone, |events| - 1);
    }
  }

  lemma CountersStep(events: seq<Event>)
    requires events != [] && Run(events[..|events| - 1]).row.Some? && Run(events).row.Some?
    requires CountersMatch(events[..|events| - 1])
    ensures CountersMatch(events)
  {
    var init := events[..|events| - 1];
    RunConsistent(init);
    RowStep(Run(init), events[|init|]);
    ClaimCounted(events);
    UnresolvedCounted(events);
    RefusingCounts(events);
  }

  lemma CountersStart(events: seq<Event>)
    requires events != [] && Run(events[..|events| - 1]).row.None?
    ensures CountersMatch(events)
  {
    forall i | 0 <= i < |events| ensures !UnderFence(events, i) {
      NothingFenced(events, i);
    }
    assert ClaimSet(events) == {} && UnresolvedSet(events) == {};
    FreshRow(Run(events[..|events| - 1]), events[|events| - 1]);
  }

  lemma FreshRow(s: State, e: Event)
    requires s.row.None?
    ensures Step(s, e).row.None? || Step(s, e).row == Some(Row(0, 0))
  {
  }

  /** The generation is the number of attempts claimed under this fence, and the unresolved counter is the
      number of those never refused. */
  lemma {:induction false} CountersExact(events: seq<Event>)
    ensures CountersMatch(events)
    decreases |events|
  {
    if events != [] {
      if Run(events[..|events| - 1]).row.None? {
        CountersStart(events);
      } else if Run(events).row.Some? {
        CountersExact(events[..|events| - 1]);
        CountersStep(events);
      }
    }
  }

  lemma NothingFenced(events: seq<Event>, i: nat)
    requires i < |events| && Run(events[..|events| - 1]).row.None?
    ensures !UnderFence(events, i)
  {
  }

  // ---------- restored exactly when everything was refused ----------

  /** Step j gives the bot back. */
  predicate Restored(events: seq<Event>, j: nat) {
    j < |events| && Run(events[..j]).row.Some? && Run(events[..j + 1]).archived == Some(false)
  }

  lemma RestoreNeeds(s: State, e: Event)
    requires Consistent(s) && s.row.Some? && Step(s, e).archived == Some(false)
    ensures Refusing(s, e) && s.row.value.unresolved <= 1
  {
  }

  lemma RestoreCounts(events: seq<Event>, j: nat)
    requires Restored(events, j)
    ensures Refusing(Run(events[..j]), events[j]) && |UnresolvedSet(events[..j])| <= 1
  {
    RunStep(events, j);
    RunConsistent(events[..j]);
    RestoreNeeds(Run(events[..j]), events[j]);
    CountersExact(events[..j]);
  }

  /** The one unresolved attempt is the one being refused. */
  lemma OnlyOne(waiting: set<nat>, r: nat, i: nat)
    requires r in waiting && i in waiting && |waiting| <= 1
    ensures i == r
  {
    assert |waiting - {r}| == |waiting| - 1;
  }

  /** A fenced bot is restored only if every attempt claimed under that fence, in this process or before
      a crash, was refused with a 401 or 403. */
  lemma RestoredOnlyIfAllRefused(events: seq<Event>, j: nat, i: nat)
    requires Restored(events, j) && UnderFence(events[..j], i)
    ensures EverRefused(events[..j + 1], i)
  {
    var before, after := events[..j], events[..j + 1];
    RestoreCounts(events, j);
    assert after[..|after| - 1] == before;
    var r := RefusalResolves(after);
    if !EverRefused(before, i) {
      OnlyOne(UnresolvedSet(before), r, i);
    }
    RefusedExtends(after, i);
  }

  /** The counter covers every attempt in flight, and one more once the batch is ambiguous. */
  predicate Covers(s: State) {
    s.row.Some? && s.batch.Some? ==> s.row.value.unresolved >= |s.inFlight| + if s.batch.value.ambiguous then 1 else 0
  }

  lemma FinishCovers(s: State, token: Token)
    requires Consistent(s) && token in s.inFlight
    requires s.row.Some? ==> s.row.value.unresolved >= |s.inFlight| - 1 + if s.batch.value.ambiguous then 1 else 0
    ensures Covers(Finish(s, token))
  {
    assert |s.inFlight - {token}| == |s.inFlight| - 1;
  }

  lemma AttemptCovers(s: State, token: Token, idle: bool)
    requires Consistent(s) && Covers(s)
    ensures Covers(OnAttempt(s, token, idle))
  {
    if Claims(s, token) {
      ClaimConsistent(s, token);
      assert |s.inFlight + {token}| == |s.inFlight| + 1;
      if !idle {
        FinishCovers(Marked(Claimed(s, token), false, true), token);
      }
    }
  }

  lemma OutcomeCovers(s: State, token: Token, result: Result)
    requires Consistent(s) && Covers(s)
    ensures Covers(OnOutcome(s, token, result))
  {
    if token in s.inFlight {
      SettleConsistent(s, token, result);
      assert |s.inFlight| >= 1 by {
        assert s.inFlight != {};
      }
      FinishCovers(Settle(s, token, result), token);
    }
  }

  lemma {:induction false} RunCovers(events: seq<Event>)
    ensures Covers(Run(events))
    decreases |events|
  {
    if events != [] {
      var s, e := Run(events[..|events| - 1]), events[|events| - 1];
      RunCovers(events[..|events| - 1]);
      RunConsistent(events[..|events| - 1]);
      match e
      case Attempt(token, idle) => AttemptCovers(s, token, idle);
      case Sweep(token, idle) => AttemptCovers(s, token, idle);
      case Outcome(token, result) => OutcomeCovers(s, token, result);
      case _ =>
    }
  }

  /** The last attempt of a batch ends at step j without finalizing. */
  predicate Drains(events: seq<Event>, j: nat) {
    && j < |events| && events[j].Outcome? && Run(events[..j]).row.Some?
    && Run(events[..j]).inFlight == {events[j].token} && Run(events[..j + 1]).archived.Some?
  }

  lemma LastRefusalRestores(s: State, token: Token)
    requires Consistent(s) && Covers(s) && s.inFlight == {token} && s.row.Some? && s.row.value.unresolved == 1
    ensures OnOutcome(s, token, Refused(true)).archived == Some(false)
  {
    assert |s.inFlight| == 1;
    assert s.inFlight - {token} == {};
  }

  /** When the last attempt in flight ends without the platform's confirmation, the bot is restored if and
      only if every attempt under the fence was refused: the batch's flags never say otherwise. */
  lemma RestoredIffAllRefused(events: seq<Event>, j: nat)
    requires Drains(events, j)
    ensures Restored(events, j) <==> forall i :: 0 <= i < j && UnderFence(events[..j], i) ==> EverRefused(events[..j + 1], i)
  {
    if Restored(events, j) {
      forall i | 0 <= i < j && UnderFence(events[..j], i) ensures EverRefused(events[..j + 1], i) {
        RestoredOnlyIfAllRefused(events, j, i);
      }
    } else if forall i :: 0 <= i < j && UnderFence(events[..j], i) ==> EverRefused(events[..j + 1], i) {
      AllRefusedRestores(events, j);
    }
  }

  lemma AllRefusedRestores(events: seq<Event>, j: nat)
    requires Drains(events, j)
    requires forall i :: 0 <= i < j && UnderFence(events[..j], i) ==> EverRefused(events[..j + 1], i)
    ensures Restored(events, j)
  {
    var before, after := events[..j], events[..j + 1];
    assert after[..|after| - 1] == before;
    RunStep(events, j);
    RunConsistent(before);
    RunCovers(before);
    var r := InFlightWaits(before, events[j].token);
    WaitingPending(before, r);
    NotYetRefused(before, r);
    RefusedExtends(after, r);
    assert Unresolved(before, r);
    forall i | i in UnresolvedSet(before) ensures i == r {
      RefusedExtends(after, i);
      WaitingPrefix(after, i, j, j);
      WaitingInFlight(before, i);
      WaitingInFlight(before, r);
    }
    assert UnresolvedSet(before) == {r};
    CountersExact(before);
    LastRefusalRestores(Run(before), events[j].token);
  }

  /** An attempt that ended without a recorded refusal, or was lost in a crash, blocks the rollback forever:
      the bot is never live again. */
  lemma {:induction false} LostAttemptBlocks(events: seq<Event>, n: nat, i: nat)
    requires n <= |events| && UnderFence(events[..n], i) && !EverRefused(events[..n], i) && !WaitingAt(events[..n], i, n)
    ensures Run(events).archived != Some(false)
    ensures Run(events).row.Some? ==> Blocked(events, i)
    decreases |events|
  {
    if n == |events| {
      assert events[..n] == events;
      BlockedNotLive(events, i);
    } else {
      var m := |events| - 1;
      assert events[..m][..n] == events[..n] && events[..m + 1] == events;
      LostAttemptBlocks(events[..m], n, i);
      if Run(events[..m]).row.None? {
        GoneNow(events, m);
      } else {
        BlockedStep(events, i, m);
      }
    }
  }

  lemma GoneNow(events: seq<Event>, m: nat)
    requires m < |events| && Run(events[..m]).row.None? && Run(events[..m]).archived != Some(false)
    ensures Run(events[..m + 1]).archived.None? && Run(events[..m + 1]).row.None?
  {
    RunConsistent(events[..m]);
    RunStep(events, m);
    if Run(events[..m]).archived.Some? {
      TwoValues(Run(events[..m]).archived);
    }
    StepGone(Run(events[..m]), events[m]);
  }

  /** Attempt i was claimed under the present fence, has ended or was lost, and was never refused. */
  predicate Blocked(events: seq<Event>, i: nat) {
    UnderFence(events, i) && !EverRefused(events, i) && !WaitingAt(events, i, |events|)
  }

  lemma BlockedNotLive(events: seq<Event>, i: nat)
    requires Blocked(events, i)
    ensures Run(events).archived != Some(false)
  {
    RunConsistent(events);
    assert events[..|events|] == events;
    assert Run(events[..|events|]).row.Some?;
  }

  lemma BlockedStep(events: seq<Event>, i: nat, n: nat)
    requires n + 1 == |events| && Blocked(events[..n], i) && Run(events[..n]).row.Some?
    ensures Run(events[..n + 1]).archived != Some(false)
    ensures Run(events[..n + 1]).row.Some? ==> Blocked(events, i)
  {
    StillNotRefused(events, i, n);
    NotRestoredBy(events, i, n);
    NotRestoredMeans(events, n);
    if Run(events[..n + 1]).row.Some? {
      StillUnderFence(events, i, n);
    }
    StillNotWaiting(events, i, n);
  }

  lemma StillNotWaiting(events: seq<Event>, i: nat, n: nat)
    requires n + 1 == |events| && i < n && !WaitingAt(events[..n], i, n)
    ensures !WaitingAt(events, i, n + 1)
  {
    WaitingPrefix(events, i, n, n);
  }

  lemma StillNotRefused(events: seq<Event>, i: nat, n: nat)
    requires n + 1 == |events| && i < n && !EverRefused(events[..n], i) && !WaitingAt(events[..n], i, n)
    ensures !EverRefused(events, i)
  {
    WaitingPrefix(events, i, n, n);
    RefusedExtends(events, i);
  }

  lemma StillUnderFence(events: seq<Event>, i: nat, n: nat)
    requires n + 1 == |events| && UnderFence(events[..n], i) && Run(events[..n + 1]).row.Some?
    ensures UnderFence(events, i)
  {
    assert events[..n + 1] == events;
    ClaimedPrefix(events, i, n);
    PendingExtends(events, i);
  }

  lemma NotRestoredBy(events: seq<Event>, i: nat, n: nat)
    requires n + 1 == |events| && UnderFence(events[..n], i) && !EverRefused(events, i)
    ensures !Restored(events, n)
  {
    assert events[..n + 1] == events;
    if Restored(events, n) {
      RestoredOnlyIfAllRefused(events, n, i);
    }
  }

  lemma NotRestoredMeans(events: seq<Event>, j: nat)
    requires j < |events| && Run(events[..j]).row.Some? && !Restored(events, j)
    ensures Run(events[..j + 1]).archived != Some(false)
  {
  }

  /** From the fence until a restore, and after a finalization forever, the bot is not live. */
  lemma {:induction false} FencedUntilRestored(events: seq<Event>, k: nat)
    requires k <= |events| && Run(events[..k]).archived != Some(false)
    requires forall j :: k <= j < |events| ==> !Restored(events, j)
    ensures Run(events).archived != Some(false)
    decreases |events|
  {
    if k == |events| {
      assert events[..k] == events;
    } else {
      var init := events[..|events| - 1];
      assert init[..k] == events[..k] && events[..|events|] == events;
      forall j | k <= j < |init| ensures !Restored(init, j) {
        assert init[..j] == events[..j] && init[..j + 1] == events[..j + 1];
        assert !Restored(events, j);
      }
      FencedUntilRestored(init, k);
      assert !Restored(events, |init|);
      RunConsistent(init);
      var before := Run(init);
      if before.archived.Some? {
        TwoValues(before.archived);
      }
      if Run(init).row.None? {
        StepGone(Run(init), events[|init|]);
      }
    }
  }

  lemma TwoValues(archived: Option<bool>)
    requires archived.Some?
    ensures archived == Some(true) || archived == Some(false)
  {
    assert archived == Some(archived.value);
    if archived.value {
      assert archived == Some(true);
    } else {
      assert archived.value == false;
    }
  }

  // ---------- finalized exactly when confirmed ----------

  /** The platform confirms attempt i at step j, the workspace is still idle and the transaction commits. */
  predicate ConfirmedAt(events: seq<Event>, i: nat, j: nat) {
    WaitingAt(events, i, j) && j < |events| && events[j] == Outcome(events[i].token, Cancelled(true, true))
  }

  predicate Confirmed(events: seq<Event>, j: nat) {
    exists i :: 0 <= i < j && ConfirmedAt(events, i, j)
  }

  lemma ConfirmationDeletes(s: State, token: Token)
    requires Consistent(s) && token in s.inFlight && s.row.Some?
    ensures var after := Step(s, Outcome(token, Cancelled(true, true))); after.archived.None? && after.row.None?
  {
  }

  lemma OnlyConfirmationDeletes(s: State, e: Event)
    requires Consistent(s) && s.row.Some? && Step(s, e).archived.None?
    ensures e.Outcome? && e.token in s.inFlight && e.result == Cancelled(true, true)
  {
  }

  /** A fenced bot and its pending row are gone after a step if and only if that step confirms one of its attempts. */
  lemma GoneIffConfirmed(events: seq<Event>, j: nat)
    requires j < |events| && Run(events[..j]).row.Some?
    ensures Run(events[..j + 1]).archived.None? <==> Confirmed(events, j)
    ensures Confirmed(events, j) ==> Run(events[..j + 1]).row.None?
  {
    RunStep(events, j);
    RunConsistent(events[..j]);
    if i :| 0 <= i < j && ConfirmedAt(events, i, j) {
      WaitingPrefix(events, i, j, j);
      WaitingInFlight(events[..j], i);
      ConfirmationDeletes(Run(events[..j]), events[i].token);
    }
    if Run(events[..j + 1]).archived.None? {
      OnlyConfirmationDeletes(Run(events[..j]), events[j]);
      var i := InFlightWaits(events[..j], events[j].token);
      WaitingPrefix(events, i, j, j);
      assert ConfirmedAt(events, i, j);
    }
  }

  // ---------- what the operations do ----------

  /** Beginning a deletion fences a live bot with a fresh row, and changes nothing else. */
  lemma BeginFences(events: seq<Event>, j: nat)
    requires j < |events| && events[j].Begin?
    ensures var s, after := Run(events[..j]), Run(events[..j + 1]);
            after == if s.archived == Some(false) then s.(archived := Some(true), row := Some(Row(0, 0))) else s
  {
    RunStep(events, j);
    RunConsistent(events[..j]);
    if Run(events[..j]).archived.Some? {
      TwoValues(Run(events[..j]).archived);
    }
  }

  /** The step tries a token: on demand, or by the sweep unless the token was refused before. */
  predicate Tries(s: State, e: Event) {
    e.Attempt? || (e.Sweep? && e.token !in s.rejected)
  }

  /** Trying a token claims one more attempt exactly when the bot is fenced and the token has none in flight; it is
      then in flight unless the workspace was busy. */
  lemma TryingClaims(events: seq<Event>, j: nat)
    requires j < |events| && (events[j].Attempt? || events[j].Sweep?)
    ensures var s, after, e := Run(events[..j]), Run(events[..j + 1]), events[j];
            if Tries(s, e) && s.row.Some? && e.token !in s.inFlight then
              && after.row == Some(Row(s.row.value.generation + 1, s.row.value.unresolved + 1)) && after.archived == s.archived
              && after.inFlight == s.inFlight + (if e.idle then {e.token} else {})
            else after == s
  {
    RunStep(events, j);
    RunConsistent(events[..j]);
    TryClaims(Run(events[..j]), events[j]);
  }

  lemma TryClaims(s: State, e: Event)
    requires Consistent(s) && (e.Attempt? || e.Sweep?)
    ensures var after := Step(s, e);
            if Tries(s, e) && s.row.Some? && e.token !in s.inFlight then
              && after.row == Some(Row(s.row.value.generation + 1, s.row.value.unresolved + 1)) && after.archived == s.archived
              && after.inFlight == s.inFlight + (if e.idle then {e.token} else {})
            else after == s
  {
    if Tries(s, e) && Claims(s, e.token) {
      ClaimConsistent(s, e.token);
      if !e.idle {
        BusyClaim(s, e.token);
      }
    }
  }

  lemma BusyClaim(s: State, token: Token)
    requires Consistent(s) && Claims(s, token)
    ensures var claimed, after := Claimed(s, token), Finish(Marked(Claimed(s, token), false, true), token);
            after.row == claimed.row && after.archived == s.archived && after.inFlight == s.inFlight
  {
    assert s.inFlight + {token} - {token} == s.inFlight;
  }

  /** Deleting outright removes a live bot only. */
  lemma DeleteRemovesLive(events: seq<Event>, j: nat)
    requires j < |events| && events[j] == Delete
    ensures var s, after := Run(events[..j]), Run(events[..j + 1]);
            after == if s.archived == Some(false) then s.(archived := None) else s
  {
    RunStep(events, j);
  }

  // ---------- refused tokens ----------

  lemma RejectedStays(s: State, e: Event, token: Token)
    requires token in s.rejected && !e.Crash?
    ensures token in Step(s, e).rejected
  {
  }

  lemma {:induction false} RefusedTokenKept(events: seq<Event>, i: nat, k: nat, j: nat)
    requires RefusedAt(events, i, k) && k < j <= |events| && forall m :: k < m < j ==> !events[m].Crash?
    ensures events[i].token in Run(events[..j]).rejected
    decreases j
  {
    RunStep(events, j - 1);
    if j == k + 1 {
      WaitingPrefix(events, i, k, k);
      WaitingInFlight(events[..k], i);
    } else {
      RefusedTokenKept(events, i, k, j - 1);
      RejectedStays(Run(events[..j - 1]), events[j - 1], events[i].token);
    }
  }

  /** Until a crash, the periodic sweep does not try a token again that was refused for this bot. */
  lemma RefusedTokenNotSwept(events: seq<Event>, i: nat, k: nat, j: nat, idle: bool)
    requires RefusedAt(events, i, k) && k < j < |events| && events[j] == Sweep(events[i].token, idle)
    requires forall m :: k < m < j ==> !events[m].Crash?
    ensures Run(events[..j + 1]) == Run(events[..j])
  {
    RefusedTokenKept(events, i, k, j);
    RunStep(events, j);
  }
}
