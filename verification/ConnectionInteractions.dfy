/** Requests to connect a resource: a waiting turn, any number of concurrent completions of it, cancel,
    the timer and staleness. An entry object outlives its place in the pending map. */
module ConnectionInteractions {
  import opened Options

  type Token = string

  datatype ConnectionState = WAITING_CONNECTION | RESUMING | COMPLETED | CANCELLED | EXPIRED

  /** What the wait promise is settled with. */
  datatype Settlement = Resolved | RejectedCancelled | RejectedExpired | RejectedStale

  /** `armed`: its timer is set. `settlements`: every call of resolve or reject. */
  datatype Entry = Entry(state: ConnectionState, armed: bool, settlements: seq<Settlement>)

  /** What a `complete` call awaits: the platform's connection state, the retry, or the callback after it. */
  datatype Phase = Checking | Retrying | Finishing
  datatype Call = Call(token: Token, phase: Phase)

  datatype State = State(entries: map<Token, Entry>, pending: set<Token>, calls: map<nat, Call>)

  const START := State(map[], {}, map[])

  /** `stale`: it threw the staleness error; `remaining`: time is left when the error is caught. */
  datatype Result = Returned(current: bool) | Threw(stale: bool, remaining: bool)

  datatype Event =
    | Begin(token: Token)
    | Complete(call: nat, token: Token, allowed: bool, current: bool, valid: bool)
    | Checked(call: nat, connected: bool, current: bool)
    | Retried(call: nat, result: Result, callback: bool)
    | Finished(call: nat, result: Result)
    | Cancel(token: Token, allowed: bool)
    | Timer(token: Token)

  predicate Left(state: ConnectionState) {
    state == COMPLETED || state == CANCELLED || state == EXPIRED
  }

  /** The entry settles and leaves the pending map. */
  function Leave(s: State, token: Token, state: ConnectionState, settlement: Settlement): State
    requires token in s.entries
  {
    s.(entries := s.entries[token := Entry(state, false, s.entries[token].settlements + [settlement])], pending := s.pending - {token})
  }

  function Expire(s: State, token: Token): State {
    if token !in s.pending || token !in s.entries || s.entries[token].state != WAITING_CONNECTION then s
    else Leave(s, token, EXPIRED, RejectedExpired)
  }

  function Stale(s: State, token: Token): State {
    if token !in s.entries || Left(s.entries[token].state) then s else Leave(s, token, CANCELLED, RejectedStale)
  }

  function EndCall(s: State, call: nat): State {
    s.(calls := s.calls - {call})
  }

  function OnComplete(s: State, call: nat, token: Token, allowed: bool, current: bool, valid: bool): State {
    if call in s.calls || token !in s.pending || token !in s.entries || s.entries[token].state != WAITING_CONNECTION || !allowed then s
    else if !current then Stale(s, token)
    else if !valid then s
    else s.(calls := s.calls[call := Call(token, Checking)])
  }

  function OnChecked(s: State, call: nat, connected: bool, current: bool): State {
    if call !in s.calls || s.calls[call].phase != Checking || s.calls[call].token !in s.entries then s
    else
      var token := s.calls[call].token;
      if !connected || token !in s.pending || s.entries[token].state != WAITING_CONNECTION then EndCall(s, call)
      else if !current then EndCall(Stale(s, token), call)
      else s.(entries := s.entries[token := s.entries[token].(state := RESUMING, armed := false)], calls := s.calls[call := Call(token, Retrying)])
  }

  /** The catch block. */
  function Caught(s: State, token: Token, stale: bool, remaining: bool): State
    requires token in s.entries
  {
    if stale then Stale(s, token)
    else
      var waiting := s.(entries := s.entries[token := s.entries[token].(state := WAITING_CONNECTION)]);
      if remaining then waiting.(entries := waiting.entries[token := waiting.entries[token].(armed := true)])
      else Expire(waiting, token)
  }

  function OnResult(s: State, call: nat, result: Result, more: bool): State
    requires call in s.calls && s.calls[call].token in s.entries
  {
    var token := s.calls[call].token;
    match result
    case Returned(current) =>
      if !current then EndCall(Stale(s, token), call)
      else if more then s.(calls := s.calls[call := Call(token, Finishing)])
      else EndCall(Leave(s, token, COMPLETED, Resolved), call)
    case Threw(stale, remaining) => EndCall(Caught(s, token, stale, remaining), call)
  }

  predicate Awaits(s: State, call: nat, phase: Phase) {
    call in s.calls && s.calls[call].phase == phase && s.calls[call].token in s.entries
  }

  function OnCancel(s: State, token: Token, allowed: bool): State {
    if token !in s.pending || token !in s.entries || !allowed || s.entries[token].state != WAITING_CONNECTION then s
    else Leave(s, token, CANCELLED, RejectedCancelled)
  }

  function Step(s: State, e: Event): State {
    match e
    case Begin(token) =>
      if token in s.entries then s
      else s.(entries := s.entries[token := Entry(WAITING_CONNECTION, true, [])], pending := s.pending + {token})
    case Complete(call, token, allowed, current, valid) => OnComplete(s, call, token, allowed, current, valid)
    case Checked(call, connected, current) => OnChecked(s, call, connected, current)
    case Retried(call, result, callback) => if Awaits(s, call, Retrying) then OnResult(s, call, result, callback) else s
    case Finished(call, result) => if Awaits(s, call, Finishing) then OnResult(s, call, result, false) else s
    case Cancel(token, allowed) => OnCancel(s, token, allowed)
    case Timer(token) =>
      if token in s.entries && s.entries[token].armed then Expire(s.(entries := s.entries[token := s.entries[token].(armed := false)]), token) else s
  }

  // ---------- the class ----------

  class BotConnectionInteractions {
    var entries: map<Token, Entry>
    var pending: set<Token>
    var calls: map<nat, Call>

    function Now(): State
      reads this
    {
      State(entries, pending, calls)
    }

    constructor ()
      ensures Now() == START
    {
      entries, pending, calls := map[], {}, map[];
    }

    /** `token` is the fresh random one. */
    method BeginRequest(token: Token)
      requires token !in entries
      modifies this
      ensures Now() == Step(old(Now()), Begin(token))
    {
      entries := entries[token := Entry(WAITING_CONNECTION, true, [])];
      pending := pending + {token};
    }

    method Settle(token: Token, state: ConnectionState, settlement: Settlement)
      requires token in entries
      modifies this`entries, this`pending
      ensures Now() == Leave(old(Now()), token, state, settlement)
    {
      entries := entries[token := Entry(state, false, entries[token].settlements + [settlement])];
      pending := pending - {token};
    }

    method ExpireRequest(token: Token)
      modifies this`entries, this`pending
      ensures Now() == Expire(old(Now()), token)
    {
      if token !in pending || token !in entries || entries[token].state != WAITING_CONNECTION { return; }
      Settle(token, EXPIRED, RejectedExpired);
    }

    method MakeStale(token: Token)
      modifies this`entries, this`pending
      ensures Now() == Stale(old(Now()), token)
    {
      if token !in entries || Left(entries[token].state) { return; }
      Settle(token, CANCELLED, RejectedStale);
    }

    /** `complete`, up to its first await. */
    method StartCompletion(call: nat, token: Token, allowed: bool, current: bool, valid: bool)
      requires call !in calls
      modifies this
      ensures Now() == Step(old(Now()), Complete(call, token, allowed, current, valid))
    {
      if token !in pending || token !in entries { return; }
      if entries[token].state != WAITING_CONNECTION { return; }
      if !allowed { return; }
      if !current { MakeStale(token); return; }
      if !valid { return; }
      calls := calls[call := Call(token, Checking)];
    }

    method AfterConnectionState(call: nat, connected: bool, current: bool)
      requires Awaits(Now(), call, Checking)
      modifies this
      ensures Now() == Step(old(Now()), Checked(call, connected, current))
    {
      var token := calls[call].token;
      calls := calls - {call};
      if !connected { return; }
      if token !in pending || entries[token].state != WAITING_CONNECTION { return; }
      if !current { MakeStale(token); return; }
      entries := entries[token := entries[token].(state := RESUMING, armed := false)];
      calls := calls[call := Call(token, Retrying)];
      assert calls == old(calls)[call := Call(token, Retrying)];
    }

    method AfterRetry(call: nat, result: Result, callback: bool)
      requires Awaits(Now(), call, Retrying)
      modifies this
      ensures Now() == Step(old(Now()), Retried(call, result, callback))
    {
      Conclude(call, result, callback);
    }

    method AfterCallback(call: nat, result: Result)
      requires Awaits(Now(), call, Finishing)
      modifies this
      ensures Now() == Step(old(Now()), Finished(call, result))
    {
      Conclude(call, result, false);
    }

    method Conclude(call: nat, result: Result, more: bool)
      requires call in calls && calls[call].token in entries
      modifies this
      ensures Now() == OnResult(old(Now()), call, result, more)
    {
      var token := calls[call].token;
      match result {
        case Returned(current) =>
          if !current { MakeStale(token); }
          else if more { calls := calls[call := Call(token, Finishing)]; return; }
          else { Settle(token, COMPLETED, Resolved); }
        case Threw(stale, remaining) =>
          if stale { MakeStale(token); }
          else {
            entries := entries[token := entries[token].(state := WAITING_CONNECTION)];
            if remaining { entries := entries[token := entries[token].(armed := true)]; } else { ExpireRequest(token); }
          }
      }
      calls := calls - {call};
    }

    method CancelRequest(token: Token, allowed: bool)
      modifies this
      ensures Now() == Step(old(Now()), Cancel(token, allowed))
    {
      if token !in pending || token !in entries { return; }
      if !allowed || entries[token].state != WAITING_CONNECTION { return; }
      Settle(token, CANCELLED, RejectedCancelled);
    }

    method TimerFires(token: Token)
      requires token in entries && entries[token].armed
      modifies this
      ensures Now() == Step(old(Now()), Timer(token))
    {
      entries := entries[token := entries[token].(armed := false)];
      ExpireRequest(token);
    }
  }
}
