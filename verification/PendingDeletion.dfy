/** Deleting a bot: a durable fence, attempts that must be confirmed by the platform, and the
    rollback that restores the bot when every attempt was refused. All keys contain the tenant,
    the owner and the bot, so the state below is that of one bot; the class holds every bot's. */
module PendingDeletion {
  import opened Options

  /** A token's fingerprint. */
  type Token = string

  /** The durable row of a pending deletion. */
  datatype Row = Row(generation: nat, unresolved: nat)
  datatype Batch = Batch(pending: set<Token>, latestGeneration: nat, definitive: bool, ambiguous: bool)

  /** `archived`: None when the bot row is gone. `row` and `archived` are durable, the rest is the process's. */
  datatype State = State(archived: Option<bool>, row: Option<Row>, batch: Option<Batch>, inFlight: set<Token>, rejected: set<Token>)

  const CREATED := State(Some(false), None, None, {}, {})

  /** How the awaited platform call and the transaction after it came out. `idle`: the second
      workspace check; `stored`: the transaction committed. */
  datatype Result = Cancelled(idle: bool, stored: bool) | Refused(stored: bool) | Failed

  datatype Event =
    | Begin
    | Attempt(token: Token, idle: bool)
    | Sweep(token: Token, idle: bool)
    | Outcome(token: Token, result: Result)
    | Delete
    | Crash

  function OnBegin(s: State): State {
    if s.archived.None? || (s.archived.value && s.row.None?) then s
    else s.(archived := Some(true), row := if s.row.Some? then s.row else Some(Row(0, 0)))
  }

  function Marked(s: State, definitive: bool, ambiguous: bool): State {
    if s.batch.None? then s
    else s.(batch := Some(s.batch.value.(definitive := s.batch.value.definitive || definitive, ambiguous := s.batch.value.ambiguous || ambiguous)))
  }

  function Rollback(s: State, generation: nat): State {
    if s.row == Some(Row(generation, 0)) then s.(row := None, archived := if s.archived.Some? then Some(false) else None) else s
  }

  /** The finally block. */
  function Finish(s: State, token: Token): State {
    if s.batch.None? then s.(inFlight := s.inFlight - {token})
    else
      var batch := s.batch.value.(pending := s.batch.value.pending - {token});
      var after := if batch.pending != {} then s.(batch := Some(batch))
                   else (if batch.definitive && !batch.ambiguous then Rollback(s, batch.latestGeneration) else s).(batch := None);
      after.(inFlight := s.inFlight - {token})
  }

  function Claimed(s: State, token: Token): State
    requires s.row.Some?
  {
    var generation := s.row.value.generation + 1;
    var batch := s.batch.Or(Batch({}, generation, false, false));
    s.(row := Some(Row(generation, s.row.value.unresolved + 1)), inFlight := s.inFlight + {token},
       batch := Some(batch.(pending := batch.pending + {token},
                            latestGeneration := if batch.latestGeneration < generation then generation else batch.latestGeneration)))
  }

  predicate Claims(s: State, token: Token) {
    token !in s.inFlight && s.row.Some?
  }

  function OnAttempt(s: State, token: Token, idle: bool): State {
    if !Claims(s, token) then s
    else if idle then Claimed(s, token)
    else Finish(Marked(Claimed(s, token), false, true), token)
  }

  predicate FenceMissing(s: State) {
    s.row.Some? && s.archived != Some(true)
  }

  /** The body of the attempt after its platform call, without the finally block. */
  function Settle(s: State, token: Token, result: Result): State {
    match result
    case Cancelled(idle, stored) =>
      if !idle || (s.row.Some? && (FenceMissing(s) || !stored)) then Marked(s, false, true)
      else if s.row.Some? then s.(archived := None, row := None)
      else s
    case Refused(stored) =>
      if !stored then Marked(s, false, true)
      else
        var row := if s.row.Some? && s.row.value.unresolved > 0 then Some(Row(s.row.value.generation, s.row.value.unresolved - 1)) else s.row;
        Marked(s.(row := row), true, false).(rejected := s.rejected + {token})
    case Failed => Marked(s, false, true)
  }

  function OnOutcome(s: State, token: Token, result: Result): State {
    if token in s.inFlight then Finish(Settle(s, token, result), token) else s
  }

  function Step(s: State, e: Event): State {
    match e
    case Begin => OnBegin(s)
    case Attempt(token, idle) => OnAttempt(s, token, idle)
    case Sweep(token, idle) => if s.row.None? || token in s.rejected then s else OnAttempt(s, token, idle)
    case Outcome(token, result) => OnOutcome(s, token, result)
    case Delete => if s.archived == Some(false) then s.(archived := None) else s
    case Crash => s.(batch := None, inFlight := {}, rejected := {})
  }
}
