/** Every interleaving of completions, cancels, timers and staleness of connection requests. */
module ConnectionTheorems {
  import opened Options
  import opened ConnectionInteractions

  /** The call is inside the retry or the callback after it. */
  ghost predicate Resuming(s: State, call: nat, token: Token) {
    call in s.calls && s.calls[call].token == token && !s.calls[call].phase.Checking?
  }

  /** An entry is pending exactly while it waits or resumes; its timer is set exactly while it waits; its promise
      is settled exactly once, when it leaves, and with what it left as. */
  ghost predicate EntryRight(s: State, token: Token)
    requires token in s.entries
  {
    var entry := s.entries[token];
    && (token in s.pending <==> entry.state == WAITING_CONNECTION || entry.state == RESUMING)
    && (entry.armed <==> entry.state == WAITING_CONNECTION)
    && entry.settlements == (match entry.state
                             case COMPLETED => [Resolved]
                             case EXPIRED => [RejectedExpired]
                             case CANCELLED => if entry.settlements == [RejectedCancelled] then [RejectedCancelled] else [RejectedStale]
                             case _ => [])
  }

  ghost predicate OneAtATime(s: State, token: Token) {
    forall a, b :: Resuming(s, a, token) && Resuming(s, b, token) ==> a == b
  }

  /** Some call resumes the request. */
  ghost predicate Resumed(s: State, token: Token) {
    exists call :: call in s.calls && Resuming(s, call, token)
  }

  ghost predicate TokenRight(s: State, token: Token)
    requires token in s.entries
  {
    && EntryRight(s, token)
    && OneAtATime(s, token)
    && (Resumed(s, token) <==> s.entries[token].state == RESUMING)
  }

  ghost predicate Good(s: State) {
    && s.pending <= s.entries.Keys
    && (forall call :: call in s.calls ==> s.calls[call].token in s.entries)
    && forall token :: token in s.entries ==> TokenRight(s, token)
  }

  // ---------- one step ----------

  /** The calls that resume the other requests are the same, and so are their entries. */
  ghost predicate Elsewhere(s: State, after: State, token: Token) {
    && after.entries.Keys == s.entries.Keys
    && (forall t :: t in s.entries && t != token ==> after.entries[t] == s.entries[t] && (t in after.pending <==> t in s.pending))
    && forall t, call :: t != token ==> (Resuming(after, call, t) <==> Resuming(s, call, t))
  }

  lemma ElsewhereRight(s: State, after: State, token: Token, t: Token)
    requires Good(s) && Elsewhere(s, after, token) && t in s.entries && t != token
    ensures TokenRight(after, t)
  {
    assert TokenRight(s, t);
    if Resumed(s, t) {
      var call :| call in s.calls && Resuming(s, call, t);
      assert Resuming(after, call, t);
    }
    if Resumed(after, t) {
      var call :| call in after.calls && Resuming(after, call, t);
      assert Resuming(s, call, t);
    }
    forall a, b | Resuming(after, a, t) && Resuming(after, b, t) ensures a == b {
      assert Resuming(s, a, t) && Resuming(s, b, t);
    }
  }

  lemma GoodAfter(s: State, after: State, token: Token)
    requires Good(s) && Elsewhere(s, after, token) && token in s.entries && TokenRight(after, token)
    requires after.pending <= s.pending && forall call :: call in after.calls ==> after.calls[call].token in s.entries
    ensures Good(after)
  {
    forall t | t in after.entries ensures TokenRight(after, t) {
      if t != token {
        ElsewhereRight(s, after, token, t);
      }
    }
  }

  /** Nothing resumes the request: its entry may change freely as long as it stays right. */
  lemma EntryChange(s: State, after: State, token: Token)
    requires Good(s) && token in s.entries && s.entries[token].state != RESUMING && after.calls == s.calls
    requires Elsewhere(s, after, token) && after.pending <= s.pending && EntryRight(after, token) && after.entries[token].state != RESUMING
    ensures Good(after)
  {
    assert TokenRight(s, token);
    assert forall call :: Resuming(after, call, token) <==> Resuming(s, call, token);
    GoodAfter(s, after, token);
  }

  lemma LeaveGood(s: State, token: Token, state: ConnectionState, settlement: Settlement)
    requires Good(s) && token in s.pending && s.entries[token].state == WAITING_CONNECTION
    requires (state == CANCELLED && (settlement == RejectedCancelled || settlement == RejectedStale)) || (state == EXPIRED && settlement == RejectedExpired)
    ensures Good(Leave(s, token, state, settlement))
  {
    assert TokenRight(s, token);
    EntryChange(s, Leave(s, token, state, settlement), token);
  }

  lemma CheckingCalls(s: State, after: State)
    requires Good(s) && after.entries == s.entries && after.pending == s.pending
    requires forall call :: call in after.calls ==> after.calls[call].token in s.entries
    requires forall token, call :: Resuming(after, call, token) <==> Resuming(s, call, token)
    ensures Good(after)
  {
    forall t | t in after.entries ensures TokenRight(after, t) {
      assert TokenRight(s, t);
      if Resumed(s, t) {
        var call :| call in s.calls && Resuming(s, call, t);
        assert Resuming(after, call, t);
      }
      if Resumed(after, t) {
        var call :| call in after.calls && Resuming(after, call, t);
        assert Resuming(s, call, t);
      }
      forall a, b | Resuming(after, a, t) && Resuming(after, b, t) ensures a == b {
        assert Resuming(s, a, t) && Resuming(s, b, t);
      }
    }
  }

  lemma EndChecking(s: State, call: nat)
    requires Good(s) && call in s.calls && s.calls[call].phase.Checking?
    ensures Good(EndCall(s, call))
  {
    CheckingCalls(s, EndCall(s, call));
  }

  lemma BeginGood(s: State, token: Token)
    requires Good(s)
    ensures Good(Step(s, Begin(token)))
  {
    var after := Step(s, Begin(token));
    if token !in s.entries {
      forall t | t in after.entries ensures TokenRight(after, t) {
        assert t in s.entries ==> TokenRight(s, t);
        assert forall call :: Resuming(after, call, t) <==> Resuming(s, call, t);
        assert t in s.entries ==> (Resumed(after, t) <==> Resumed(s, t));
      }
    }
  }

  lemma CompleteGood(s: State, call: nat, token: Token, allowed: bool, current: bool, valid: bool)
    requires Good(s)
    ensures Good(OnComplete(s, call, token, allowed, current, valid))
  {
    if call !in s.calls && token in s.pending && s.entries[token].state == WAITING_CONNECTION && allowed {
      if !current {
        LeaveGood(s, token, CANCELLED, RejectedStale);
      } else {
        CheckingCalls(s, s.(calls := s.calls[call := Call(token, Checking)]));
      }
    }
  }

  lemma ResumeGood(s: State, call: nat)
    requires Good(s) && call in s.calls && s.calls[call].phase.Checking?
    requires s.calls[call].token in s.pending && s.entries[s.calls[call].token].state == WAITING_CONNECTION
    ensures var token := s.calls[call].token;
            Good(s.(entries := s.entries[token := s.entries[token].(state := RESUMING, armed := false)], calls := s.calls[call := Call(token, Retrying)]))
  {
    var token := s.calls[call].token;
    var after := s.(entries := s.entries[token := s.entries[token].(state := RESUMING, armed := false)], calls := s.calls[call := Call(token, Retrying)]);
    assert TokenRight(s, token);
    assert Resuming(after, call, token);
    forall a | Resuming(after, a, token) ensures a == call {
      assert a != call ==> Resuming(s, a, token);
      assert Resuming(s, a, token) ==> Resumed(s, token);
    }
    GoodAfter(s, after, token);
  }

  lemma CheckedGood(s: State, call: nat, connected: bool, current: bool)
    requires Good(s)
    ensures Good(OnChecked(s, call, connected, current))
  {
    if call in s.calls && s.calls[call].phase.Checking? {
      var token := s.calls[call].token;
      EndChecking(s, call);
      if connected && token in s.pending && s.entries[token].state == WAITING_CONNECTION {
        if current {
          ResumeGood(s, call);
        } else {
          LeaveGood(s, token, CANCELLED, RejectedStale);
          EndChecking(Leave(s, token, CANCELLED, RejectedStale), call);
        }
      }
    }
  }

  /** The one resuming call ends, and the entry leaves or waits again. */
  lemma ResumptionEnds(s: State, call: nat, after: State)
    requires Good(s) && call in s.calls && !s.calls[call].phase.Checking?
    requires after.calls == s.calls - {call} && Elsewhere(s, after.(calls := s.calls), s.calls[call].token) && after.pending <= s.pending
    requires EntryRight(after, s.calls[call].token) && after.entries[s.calls[call].token].state != RESUMING
    ensures Good(after)
  {
    var token := s.calls[call].token;
    assert TokenRight(s, token);
    assert Resuming(s, call, token);
    forall a | Resuming(after, a, token) ensures false {
      assert Resuming(s, a, token);
    }
    forall t, a | t != token ensures Resuming(after, a, t) <==> Resuming(s, a, t) {
      assert Resuming(after.(calls := s.calls), a, t) <==> Resuming(s, a, t);
    }
    GoodAfter(s, after, token);
  }

  lemma ResumedIsResuming(s: State, call: nat)
    requires Good(s) && call in s.calls && !s.calls[call].phase.Checking?
    ensures s.entries[s.calls[call].token].state == RESUMING && s.calls[call].token in s.pending
    ensures s.entries[s.calls[call].token].settlements == []
  {
    assert TokenRight(s, s.calls[call].token);
    assert Resuming(s, call, s.calls[call].token);
  }

  lemma ResultGood(s: State, call: nat, result: Result, more: bool)
    requires Good(s) && call in s.calls && !s.calls[call].phase.Checking?
    ensures Good(OnResult(s, call, result, more))
  {
    var token := s.calls[call].token;
    ResumedIsResuming(s, call);
    if result.Returned? && result.current && more {
      CheckingCalls(s, OnResult(s, call, result, more));
    } else {
      ResultEntry(s, call, result);
      ResultCalls(s, call, result);
      ResumptionEnds(s, call, OnResult(s, call, result, more));
    }
  }

  /** What a result without a callback to await leaves of its own entry. */
  lemma ResultEntry(s: State, call: nat, result: Result)
    requires call in s.calls && s.calls[call].token in s.pending && s.calls[call].token in s.entries
    requires s.entries[s.calls[call].token].state == RESUMING && s.entries[s.calls[call].token].settlements == []
    ensures var after, token := OnResult(s, call, result, false), s.calls[call].token;
            token in after.entries && EntryRight(after, token) && after.entries[token].state != RESUMING
  {
  }

  lemma ResultCalls(s: State, call: nat, result: Result)
    requires call in s.calls && s.calls[call].token in s.pending && s.calls[call].token in s.entries
    requires s.entries[s.calls[call].token].state == RESUMING
    ensures var after := OnResult(s, call, result, false);
            && after.calls == s.calls - {call} && Elsewhere(s, after.(calls := s.calls), s.calls[call].token) && after.pending <= s.pending
  {
  }

  lemma TimerGood(s: State, token: Token)
    requires Good(s)
    ensures Good(Step(s, Timer(token)))
  {
    if token in s.entries && s.entries[token].armed {
      assert TokenRight(s, token);
      LeaveGood(s, token, EXPIRED, RejectedExpired);
      assert Step(s, Timer(token)).entries == Leave(s, token, EXPIRED, RejectedExpired).entries;
    }
  }

  lemma StepGood(s: State, e: Event)
    requires Good(s)
    ensures Good(Step(s, e))
  {
    match e
    case Begin(token) => BeginGood(s, token);
    case Complete(call, token, allowed, current, valid) => CompleteGood(s, call, token, allowed, current, valid);
    case Checked(call, connected, current) => CheckedGood(s, call, connected, current);
    case Retried(call, result, callback) => if Awaits(s, call, Retrying) { ResultGood(s, call, result, callback); }
    case Finished(call, result) => if Awaits(s, call, Finishing) { ResultGood(s, call, result, false); }
    case Cancel(token, allowed) =>
      if token in s.pending && allowed && s.entries[token].state == WAITING_CONNECTION {
        LeaveGood(s, token, CANCELLED, RejectedCancelled);
      }
    case Timer(token) => TimerGood(s, token);
  }

  // ---------- whole runs ----------

  function Run(events: seq<Event>): State {
    if events == [] then START else Step(Run(events[..|events| - 1]), events[|events| - 1])
  }

  /** In every run, at most one retry of a request is under way, the request is pending exactly while it waits or
      resumes, and its promise is settled once, when it leaves. */
  lemma {:induction false} EveryRunGood(events: seq<Event>)
    ensures Good(Run(events))
    decreases |events|
  {
    if events != [] {
      EveryRunGood(events[..|events| - 1]);
      StepGood(Run(events[..|events| - 1]), events[|events| - 1]);
    }
  }

  lemma ResultElsewhere(s: State, call: nat, result: Result, more: bool, token: Token)
    requires call in s.calls && s.calls[call].token in s.entries && token in s.entries && token != s.calls[call].token
    ensures var after := OnResult(s, call, result, more); token in after.entries && after.entries[token] == s.entries[token]
  {
  }

  lemma LeftStays(s: State, e: Event, token: Token)
    requires Good(s) && token in s.entries && Left(s.entries[token].state)
    ensures token in Step(s, e).entries && Step(s, e).entries[token] == s.entries[token]
  {
    assert TokenRight(s, token);
    match e
    case Retried(call, result, callback) =>
      if Awaits(s, call, Retrying) {
        ResumedIsResuming(s, call);
        ResultElsewhere(s, call, result, callback, token);
      }
    case Finished(call, result) =>
      if Awaits(s, call, Finishing) {
        ResumedIsResuming(s, call);
        ResultElsewhere(s, call, result, false, token);
      }
    case _ =>
  }

  /** Once it has left, nothing changes it: no second settlement, no way back. */
  lemma {:induction false} LeftForGood(events: seq<Event>, k: nat, token: Token)
    requires k <= |events| && token in Run(events[..k]).entries && Left(Run(events[..k]).entries[token].state)
    ensures token in Run(events).entries && Run(events).entries[token] == Run(events[..k]).entries[token]
    ensures |Run(events).entries[token].settlements| == 1 && token !in Run(events).pending
    decreases |events|
  {
    EveryRunGood(events);
    if k == |events| {
      assert events[..k] == events;
      assert TokenRight(Run(events), token);
    } else {
      var init := events[..|events| - 1];
      assert init[..k] == events[..k];
      LeftForGood(init, k, token);
      EveryRunGood(init);
      LeftStays(Run(init), events[|events| - 1], token);
      assert TokenRight(Run(events), token);
    }
  }

  /** For one request, in every run: at most one retry is under way, and one is exactly while RESUMING; it is pending
      exactly while it waits or resumes; its timer is set exactly while it waits; it is settled exactly once it has
      left, and only once. */
  lemma EveryRequestRight(events: seq<Event>, token: Token)
    requires token in Run(events).entries
    ensures var s := Run(events); var entry := s.entries[token];
            && OneAtATime(s, token) && (Resumed(s, token) <==> entry.state == RESUMING)
            && (token in s.pending <==> entry.state == WAITING_CONNECTION || entry.state == RESUMING)
            && (entry.armed <==> entry.state == WAITING_CONNECTION)
            && |entry.settlements| == (if Left(entry.state) then 1 else 0)
            && (entry.state == COMPLETED <==> entry.settlements == [Resolved])
  {
    EveryRunGood(events);
    assert TokenRight(Run(events), token);
  }

  // ---------- what becomes of a request ----------

  datatype Fate = Same | Resumes | WaitsAgain | Leaves(state: ConnectionState, settlement: Settlement)

  /** What a result that is not followed by a callback means for its request. */
  function FateOf(result: Result): Fate {
    match result
    case Returned(true) => Leaves(COMPLETED, Resolved)
    case Returned(false) => Leaves(CANCELLED, RejectedStale)
    case Threw(true, _) => Leaves(CANCELLED, RejectedStale)
    case Threw(false, true) => WaitsAgain
    case Threw(false, false) => Leaves(EXPIRED, RejectedExpired)
  }

  /** What an event means for a request that waits. */
  function WaitingFate(s: State, e: Event, token: Token): Fate {
    match e
    case Cancel(t, true) => if t == token then Leaves(CANCELLED, RejectedCancelled) else Same
    case Timer(t) => if t == token then Leaves(EXPIRED, RejectedExpired) else Same
    case Complete(call, t, true, false, _) => if t == token && call !in s.calls then Leaves(CANCELLED, RejectedStale) else Same
    case Checked(call, true, current) =>
      if call in s.calls && s.calls[call] == Call(token, Checking) then if current then Resumes else Leaves(CANCELLED, RejectedStale) else Same
    case _ => Same
  }

  /** And for one that is being resumed. */
  function ResumingFate(s: State, e: Event, token: Token): Fate {
    match e
    case Retried(call, result, callback) =>
      if call in s.calls && s.calls[call] == Call(token, Retrying) && !(callback && result == Returned(true)) then FateOf(result) else Same
    case Finished(call, result) => if call in s.calls && s.calls[call] == Call(token, Finishing) then FateOf(result) else Same
    case _ => Same
  }

  ghost predicate Meets(s: State, after: State, token: Token, fate: Fate)
    requires token in s.entries
  {
    token in after.entries &&
    match fate
    case Same => after.entries[token] == s.entries[token]
    case Resumes => after.entries[token] == Entry(RESUMING, false, s.entries[token].settlements)
    case WaitsAgain => after.entries[token] == Entry(WAITING_CONNECTION, true, s.entries[token].settlements)
    case Leaves(state, settlement) => after.entries[token] == Entry(state, false, s.entries[token].settlements + [settlement]) && token !in after.pending
  }

  lemma CheckFate(s: State, call: nat, connected: bool, current: bool, token: Token)
    requires Good(s) && token in s.entries
    ensures Meets(s, Step(s, Checked(call, connected, current)), token,
                  if s.entries[token].state == WAITING_CONNECTION then WaitingFate(s, Checked(call, connected, current), token) else Same)
  {
    assert TokenRight(s, token);
    if call in s.calls {
      assert TokenRight(s, s.calls[call].token);
    }
  }

  lemma CallersFate(s: State, e: Event, token: Token)
    requires Good(s) && token in s.entries && (e.Begin? || e.Complete? || e.Cancel? || e.Timer?)
    ensures Meets(s, Step(s, e), token, if s.entries[token].state == WAITING_CONNECTION then WaitingFate(s, e, token) else Same)
  {
    assert TokenRight(s, token);
    if e.Complete? && e.token in s.entries {
      assert TokenRight(s, e.token);
    }
  }

  lemma ResultFate(s: State, call: nat, result: Result, more: bool, token: Token)
    requires Good(s) && token in s.entries && call in s.calls && !s.calls[call].phase.Checking?
    ensures Meets(s, OnResult(s, call, result, more), token,
                  if s.calls[call].token == token && !(more && result == Returned(true)) then FateOf(result) else Same)
  {
    ResumedIsResuming(s, call);
    if s.calls[call].token == token {
      OwnFate(s, call, result, more);
    } else {
      ResultElsewhere(s, call, result, more, token);
    }
  }

  lemma OwnFate(s: State, call: nat, result: Result, more: bool)
    requires call in s.calls && s.calls[call].token in s.entries && s.calls[call].token in s.pending
    requires s.entries[s.calls[call].token].state == RESUMING && !s.entries[s.calls[call].token].armed
    ensures Meets(s, OnResult(s, call, result, more), s.calls[call].token, if more && result == Returned(true) then Same else FateOf(result))
  {
  }

  /** In every run each step does to a request exactly what it means for it: while it waits, a cancel, its timer, a stale
      completion or the end of a check that found it connected; while it is resumed, the end of its own retry; and
      nothing once it has left. */
  lemma EveryStepFates(events: seq<Event>, j: nat, token: Token)
    requires j < |events| && token in Run(events[..j]).entries
    ensures var s, e := Run(events[..j]), events[j];
            Meets(s, Run(events[..j + 1]), token,
                  if s.entries[token].state == WAITING_CONNECTION then WaitingFate(s, e, token)
                  else if s.entries[token].state == RESUMING then ResumingFate(s, e, token) else Same)
  {
    assert events[..j + 1][..j] == events[..j];
    EveryRunGood(events[..j]);
    StepFates(Run(events[..j]), events[j], token);
  }

  lemma StepFates(s: State, e: Event, token: Token)
    requires Good(s) && token in s.entries
    ensures Meets(s, Step(s, e), token,
                  if s.entries[token].state == WAITING_CONNECTION then WaitingFate(s, e, token)
                  else if s.entries[token].state == RESUMING then ResumingFate(s, e, token) else Same)
  {
    assert TokenRight(s, token);
    match e
    case Checked(call, connected, current) => CheckFate(s, call, connected, current, token);
    case Retried(call, result, callback) => if Awaits(s, call, Retrying) { RetryFate(s, e, call, result, callback, token); }
    case Finished(call, result) => if Awaits(s, call, Finishing) { RetryFate(s, e, call, result, false, token); }
    case _ => CallersFate(s, e, token);
  }

  lemma RetryFate(s: State, e: Event, call: nat, result: Result, more: bool, token: Token)
    requires Good(s) && token in s.entries && call in s.calls
    requires (e == Retried(call, result, more) && Awaits(s, call, Retrying)) || (e == Finished(call, result) && !more && Awaits(s, call, Finishing))
    ensures Meets(s, OnResult(s, call, result, more), token, if s.entries[token].state == RESUMING then ResumingFate(s, e, token) else Same)
  {
    ResultFate(s, call, result, more, token);
    ResumedIsResuming(s, call);
  }
}
