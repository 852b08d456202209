/** Invocations of other bots, the handoffs that carry them and the continuations that bring their
    results back: three tables changed together by the registry's transactions. A handoff is created
    with its own invocation, so it is keyed by it. */
module Invocations {
  import opened Options

  type Id = nat

  datatype InvocationState = PENDING | APPROVED | DENIED | RUNNING | COMPLETED | FAILED | EXPIRED
  datatype Invocation = Invocation(state: InvocationState, reason: Option<string>, expiresAt: int, summary: Option<string>)

  datatype HandoffState = PENDING_APPROVAL | QUEUED | DELIVERED | Ended(outcome: InvocationState)
  datatype Handoff = Handoff(fyi: bool, state: HandoffState, processed: bool)

  datatype ContinuationState = Waiting | Starting | Running | Completed | Failed
  datatype Continuation = Continuation(outcome: InvocationState, result: string, state: ContinuationState, thread: Option<string>, turn: Option<string>)

  datatype Tables = Tables(invocations: map<Id, Invocation>, handoffs: map<Id, Handoff>, continuations: map<Id, Continuation>)

  const EMPTY := Tables(map[], map[], map[])

  predicate Terminal(state: InvocationState) {
    state == COMPLETED || state == FAILED || state == DENIED || state == EXPIRED
  }

  predicate IsFyi(t: Tables, id: Id) {
    id in t.handoffs && t.handoffs[id].fyi
  }

  // ---------- the invocation store ----------

  predicate Overdue(inv: Invocation, now: int) {
    inv.state == PENDING && inv.expiresAt <= now
  }

  /** `revoked`: the target is gone, archived or no longer shared as it must be. */
  function Decided(inv: Invocation, now: int, revoked: bool, approve: bool, reason: string): Invocation {
    if inv.state != PENDING then inv
    else if inv.expiresAt <= now then inv.(state := EXPIRED)
    else if revoked then inv.(state := DENIED, reason := Some("BOT_SHARE_REVOKED"))
    else inv.(state := if approve then APPROVED else DENIED, reason := if reason == "" then None else Some(reason))
  }

  function Begun(inv: Invocation, now: int, revoked: bool): Invocation {
    if inv.state != APPROVED then inv
    else if inv.expiresAt <= now then inv.(state := EXPIRED)
    else if revoked then inv.(state := DENIED, reason := Some("BOT_SHARE_REVOKED"))
    else inv.(state := RUNNING)
  }

  /** The row `beginInvocation` returns: the started one, or, when the target is revoked, whatever the row is. */
  function BeginReturns(inv: Invocation, now: int, revoked: bool): Option<Invocation> {
    var begun := Begun(inv, now, revoked);
    if revoked then Some(begun)
    else if inv.state == APPROVED && begun.state == RUNNING then Some(begun)
    else None
  }

  function CompletedWith(inv: Invocation, summary: string): Invocation {
    if inv.state == RUNNING then inv.(state := COMPLETED, summary := Some(summary)) else inv
  }

  function FailedWith(inv: Invocation, reason: string, summary: string): Invocation {
    if inv.state == APPROVED || inv.state == RUNNING then inv.(state := FAILED, reason := Some(reason), summary := Some(summary)) else inv
  }

  function DeniedWith(inv: Invocation, reason: string): Invocation {
    if inv.state == RUNNING then inv.(state := DENIED, reason := Some(reason), summary := None) else inv
  }

  // ---------- handoffs and continuations ----------

  function RecordOutcome(t: Tables, id: Id, state: InvocationState): Tables {
    if !Terminal(state) || id !in t.handoffs then t
    else t.(handoffs := t.handoffs[id := t.handoffs[id].(state := Ended(state))])
  }

  predicate NonEmpty(text: Option<string>) {
    text.Some? && text.value != ""
  }

  predicate Continues(inv: Invocation) {
    Terminal(inv.state) && (inv.state == COMPLETED ==> NonEmpty(inv.summary))
  }

  function ResultText(inv: Invocation): string {
    if NonEmpty(inv.summary) then inv.summary.value
    else if NonEmpty(inv.reason) then inv.reason.value
    else "handoff not completed"
  }

  /** Insert or ignore. */
  function Enqueue(t: Tables, id: Id): Tables {
    if id !in t.invocations || IsFyi(t, id) || !Continues(t.invocations[id]) || id in t.continuations then t
    else t.(continuations := t.continuations[id := Continuation(t.invocations[id].state, ResultText(t.invocations[id]), Waiting, None, None)])
  }

  function Process(t: Tables, id: Id): Tables {
    if id !in t.handoffs || t.handoffs[id].processed || t.handoffs[id].state == PENDING_APPROVAL then t
    else t.(handoffs := t.handoffs[id := t.handoffs[id].(processed := true, state := DELIVERED)])
  }

  function Deliver(t: Tables, id: Id): Tables {
    if id !in t.handoffs || t.handoffs[id].processed then t
    else if t.handoffs[id].state == PENDING_APPROVAL then Process(t.(handoffs := t.handoffs[id := t.handoffs[id].(state := QUEUED)]), id)
    else Process(t, id)
  }

  // ---------- the transactions ----------

  function Set(t: Tables, id: Id, inv: Invocation): Tables {
    t.(invocations := t.invocations[id := inv])
  }

  /** The new row, its outcome in the handoff, and its continuation. */
  function Conclude(t: Tables, id: Id, inv: Invocation): Tables {
    Enqueue(RecordOutcome(Set(t, id, inv), id, inv.state), id)
  }

  datatype Op =
    | CreateInvocation(id: Id, approved: bool, expiresAt: int)
    | CreateHandoff(id: Id, fyi: bool, approved: bool, sameOwner: bool, expiresAt: int)
    | Expire(now: int)
    | Decide(id: Id, now: int, revoked: bool, approve: bool, reason: string)
    | Begin(id: Id, now: int, revoked: bool)
    | Complete(id: Id, summary: string)
    | Fail(id: Id, reason: string, summary: string)
    | Deny(id: Id, reason: string)
    | ProcessHandoff(id: Id)
    | Claim(id: Id, thread: string)
    | Started(id: Id, turn: string)
    | Observe(id: Id, turn: string, ended: Option<bool>)
    | Reconcile(id: Id, turn: string, ended: Option<bool>)

  function OverdueSet(t: Tables, now: int): set<Id> {
    set id | id in t.invocations && Overdue(t.invocations[id], now)
  }

  function ExpiredContinuation(inv: Invocation): Continuation {
    Continuation(EXPIRED, ResultText(inv), Waiting, None, None)
  }

  /** The overdue rows expired, and the outcomes and continuations of the `handled` ones written. */
  function ExpireSome(t: Tables, now: int, handled: set<Id>): Tables {
    Tables(
      map id | id in t.invocations :: if Overdue(t.invocations[id], now) then t.invocations[id].(state := EXPIRED) else t.invocations[id],
      map id | id in t.handoffs :: if id in handled then t.handoffs[id].(state := Ended(EXPIRED)) else t.handoffs[id],
      Continued(t, handled))
  }

  function Continued(t: Tables, handled: set<Id>): map<Id, Continuation> {
    map id | id in t.continuations.Keys + handled && (id in t.continuations || (id in t.invocations && !IsFyi(t, id))) ::
      if id in t.continuations then t.continuations[id] else ExpiredContinuation(t.invocations[id])
  }

  function OnExpire(t: Tables, now: int): Tables {
    ExpireSome(t, now, OverdueSet(t, now))
  }

  lemma ContinuedNext(t: Tables, handled: set<Id>, id: Id)
    requires id in t.invocations
    ensures Continued(t, handled + {id}) ==
            if IsFyi(t, id) || id in Continued(t, handled) then Continued(t, handled)
            else Continued(t, handled)[id := ExpiredContinuation(t.invocations[id])]
  {
  }

  lemma ExpireNext(t: Tables, now: int, handled: set<Id>, id: Id)
    requires id in OverdueSet(t, now)
    ensures Enqueue(RecordOutcome(ExpireSome(t, now, handled), id, EXPIRED), id) == ExpireSome(t, now, handled + {id})
  {
    var some := ExpireSome(t, now, handled);
    var recorded := RecordOutcome(some, id, EXPIRED);
    assert recorded.handoffs == ExpireSome(t, now, handled + {id}).handoffs;
    ContinuedNext(t, handled, id);
    EnqueueExpired(recorded, id, t.invocations[id], IsFyi(t, id));
  }

  lemma EnqueueExpired(t: Tables, id: Id, inv: Invocation, fyi: bool)
    requires id in t.invocations && t.invocations[id] == inv.(state := EXPIRED) && fyi == IsFyi(t, id)
    ensures Enqueue(t, id) == t.(continuations := if fyi || id in t.continuations then t.continuations else t.continuations[id := ExpiredContinuation(inv)])
  {
  }

  function AfterBegin(t: Tables, id: Id, running: bool): Tables
    requires id in t.invocations
  {
    var delivered := if running then Deliver(t, id) else t;
    var state := t.invocations[id].state;
    if state == DENIED || state == EXPIRED then Enqueue(RecordOutcome(delivered, id, state), id) else delivered
  }

  function OnBegin(t: Tables, id: Id, now: int, revoked: bool): Tables
    requires id in t.invocations
  {
    var returned := BeginReturns(t.invocations[id], now, revoked);
    AfterBegin(Set(t, id, Begun(t.invocations[id], now, revoked)), id, returned.Some? && returned.value.state == RUNNING)
  }

  /** How a continuation moves on when its turn is seen; `ended`: Some(completed) once the turn has ended. */
  function Seen(c: Continuation, turn: string, ended: Option<bool>): Continuation {
    if c.state == Starting && ended.None? then c.(state := Running, turn := Some(turn))
    else if (c.state == Starting || c.state == Running) && ended.Some? && c.turn == Some(turn) then c.(state := if ended.value then Completed else Failed)
    else c
  }

  /** From the history of its thread; only pending, starting or running ones are looked for. */
  function Found(c: Continuation, turn: string, ended: Option<bool>): Continuation {
    if c.state == Completed || c.state == Failed then c
    else c.(turn := Some(turn), state := if ended.None? then Running else if ended.value then Completed else Failed)
  }

  function UpdateContinuation(t: Tables, id: Id, c: Continuation): Tables {
    t.(continuations := t.continuations[id := c])
  }

  predicate Claimable(t: Tables, id: Id) {
    id in t.continuations && t.continuations[id].state == Waiting
  }

  function Step(t: Tables, op: Op): Tables {
    match op
    case CreateInvocation(id, approved, expiresAt) =>
      if id in t.invocations then t else Set(t, id, Invocation(if approved then APPROVED else PENDING, None, expiresAt, None))
    case CreateHandoff(id, fyi, approved, sameOwner, expiresAt) =>
      if id in t.invocations || id in t.handoffs then t
      else
        var approvedNow := approved || sameOwner;
        Set(t, id, Invocation(if approvedNow then APPROVED else PENDING, if sameOwner then Some("SAME_OWNER_HANDOFF") else None, expiresAt, None))
          .(handoffs := t.handoffs[id := Handoff(fyi, if approvedNow then QUEUED else PENDING_APPROVAL, false)])
    case Expire(now) => OnExpire(t, now)
    case Decide(id, now, revoked, approve, reason) =>
      if id !in t.invocations then t
      else
        var inv := Decided(t.invocations[id], now, revoked, approve, reason);
        if inv.state == DENIED || inv.state == EXPIRED then Conclude(t, id, inv) else Set(t, id, inv)
    case Begin(id, now, revoked) => if id !in t.invocations then t else OnBegin(t, id, now, revoked)
    case Complete(id, summary) => if id !in t.invocations then t else Conclude(t, id, CompletedWith(t.invocations[id], summary))
    case Fail(id, reason, summary) => if id !in t.invocations then t else Conclude(t, id, FailedWith(t.invocations[id], reason, summary))
    case Deny(id, reason) =>
      if id !in t.invocations then t
      else
        var inv := DeniedWith(t.invocations[id], reason);
        if inv.state == DENIED then Conclude(t, id, inv) else Set(t, id, inv)
    case ProcessHandoff(id) => Process(t, id)
    case Claim(id, thread) =>
      if Claimable(t, id) then UpdateContinuation(t, id, t.continuations[id].(state := Starting, thread := Some(thread))) else t
    case Started(id, turn) =>
      if id in t.continuations && t.continuations[id].state == Starting
      then UpdateContinuation(t, id, t.continuations[id].(state := Running, turn := Some(turn))) else t
    case Observe(id, turn, ended) => if id in t.continuations then UpdateContinuation(t, id, Seen(t.continuations[id], turn, ended)) else t
    case Reconcile(id, turn, ended) => if id in t.continuations then UpdateContinuation(t, id, Found(t.continuations[id], turn, ended)) else t
  }

  // ---------- the class ----------

  class BotRegistry {
    var invocations: map<Id, Invocation>
    var handoffs: map<Id, Handoff>
    var continuations: map<Id, Continuation>

    function Now(): Tables
      reads this
    {
      Tables(invocations, handoffs, continuations)
    }

    constructor ()
      ensures Now() == EMPTY
    {
      invocations, handoffs, continuations := map[], map[], map[];
    }

    method RecordInvocationOutcome(id: Id, state: InvocationState)
      modifies this`handoffs
      ensures Now() == RecordOutcome(old(Now()), id, state)
    {
      if !Terminal(state) { return; }
      if id in handoffs { handoffs := handoffs[id := handoffs[id].(state := Ended(state))]; }
    }

    method EnqueueContinuation(id: Id)
      requires id in invocations
      modifies this`continuations
      ensures Now() == Enqueue(old(Now()), id)
    {
      if id in handoffs && handoffs[id].fyi { return; }
      var inv := invocations[id];
      if !Terminal(inv.state) { return; }
      if inv.state == COMPLETED && !NonEmpty(inv.summary) { return; }
      if id in continuations { return; }
      continuations := continuations[id := Continuation(inv.state, ResultText(inv), Waiting, None, None)];
    }

    /** The rows the expiry returned, in any order. */
    method ExpirePendingInvocations(now: int)
      modifies this
      ensures Now() == OnExpire(old(Now()), now)
    {
      ghost var before := Now();
      var todo := ExpireRows(now);
      ConcludeAll(before, now, todo);
    }

    /** The loop over the returned rows. */
    method ConcludeAll(ghost before: Tables, now: int, rows: set<Id>)
      requires rows == OverdueSet(before, now) && Now() == ExpireSome(before, now, {})
      modifies this`handoffs, this`continuations
      ensures Now() == OnExpire(before, now)
    {
      var todo := rows;
      ghost var done := {};
      ghost var overdue := OverdueSet(before, now);
      while todo != {}
        invariant done + todo == overdue
        invariant Now() == ExpireSome(before, now, done)
        decreases todo
      {
        var id: Id :| id in todo;
        ConcludeExpired(before, now, done, id);
        todo, done := todo - {id}, done + {id};
      }
      assert done == overdue;
    }

    /** The update, returning its rows. */
    method ExpireRows(now: int) returns (rows: set<Id>)
      modifies this`invocations
      ensures rows == OverdueSet(old(Now()), now) && Now() == ExpireSome(old(Now()), now, {})
    {
      rows := OverdueSet(Now(), now);
      invocations := map id | id in invocations :: if Overdue(invocations[id], now) then invocations[id].(state := EXPIRED) else invocations[id];
      assert continuations == Continued(old(Now()), {});
      assert handoffs == ExpireSome(old(Now()), now, {}).handoffs;
    }

    method ConcludeExpired(ghost before: Tables, now: int, ghost handled: set<Id>, id: Id)
      requires id in OverdueSet(before, now) && Now() == ExpireSome(before, now, handled)
      modifies this`handoffs, this`continuations
      ensures Now() == ExpireSome(before, now, handled + {id})
    {
      ExpireNext(before, now, handled, id);
      RecordInvocationOutcome(id, EXPIRED);
      EnqueueContinuation(id);
    }

    method DecideInvocation(id: Id, now: int, revoked: bool, approve: bool, reason: string) returns (found: bool)
      modifies this
      ensures Now() == Step(old(Now()), Decide(id, now, revoked, approve, reason))
      ensures found <==> id in old(invocations)
    {
      if id !in invocations { return false; }
      found := true;
      var current := invocations[id];
      var result := current;
      if current.state == PENDING {
        if current.expiresAt <= now { result := current.(state := EXPIRED); }
        else if revoked { result := current.(state := DENIED, reason := Some("BOT_SHARE_REVOKED")); }
        else { result := current.(state := if approve then APPROVED else DENIED, reason := if reason == "" then None else Some(reason)); }
      }
      invocations := invocations[id := result];
      if result.state == DENIED || result.state == EXPIRED {
        RecordInvocationOutcome(id, result.state);
        EnqueueContinuation(id);
      }
    }

    method DeliverInvocation(id: Id)
      modifies this`handoffs
      ensures Now() == Deliver(old(Now()), id)
    {
      if id !in handoffs || handoffs[id].processed { return; }
      if handoffs[id].state == PENDING_APPROVAL { handoffs := handoffs[id := handoffs[id].(state := QUEUED)]; }
      handoffs := handoffs[id := handoffs[id].(processed := true, state := DELIVERED)];
    }

    /** The guarded updates of the store. */
    method StartInvocation(id: Id, now: int, revoked: bool) returns (started: Option<Invocation>)
      requires id in invocations
      modifies this`invocations
      ensures Now() == Set(old(Now()), id, Begun(old(invocations)[id], now, revoked))
      ensures started == BeginReturns(old(invocations)[id], now, revoked)
    {
      var current := invocations[id];
      if current.state == APPROVED && current.expiresAt <= now { current := current.(state := EXPIRED); }
      started := None;
      if revoked {
        if current.state == APPROVED { current := current.(state := DENIED, reason := Some("BOT_SHARE_REVOKED")); }
        started := Some(current);
      } else if current.state == APPROVED {
        current := current.(state := RUNNING);
        started := Some(current);
      }
      invocations := invocations[id := current];
    }

    method BeginInvocation(id: Id, now: int, revoked: bool) returns (started: Option<Invocation>)
      modifies this
      ensures Now() == Step(old(Now()), Begin(id, now, revoked))
      ensures started == if id in old(invocations) then BeginReturns(old(invocations)[id], now, revoked) else None
    {
      if id !in invocations { return None; }
      started := StartInvocation(id, now, revoked);
      BeginOutcome(id, started.Some? && started.value.state == RUNNING);
    }

    /** What the registry adds to the store's transition. */
    method BeginOutcome(id: Id, running: bool)
      requires id in invocations
      modifies this
      ensures Now() == AfterBegin(old(Now()), id, running)
    {
      if running { DeliverInvocation(id); }
      if invocations[id].state == DENIED || invocations[id].state == EXPIRED {
        RecordInvocationOutcome(id, invocations[id].state);
        EnqueueContinuation(id);
      }
    }

    method ConcludeInvocation(id: Id, inv: Invocation)
      modifies this
      ensures Now() == Conclude(old(Now()), id, inv)
    {
      invocations := invocations[id := inv];
      RecordInvocationOutcome(id, inv.state);
      EnqueueContinuation(id);
    }

    method CompleteInvocation(id: Id, summary: string)
      modifies this
      ensures Now() == Step(old(Now()), Complete(id, summary))
    {
      if id !in invocations { return; }
      var inv := invocations[id];
      ConcludeInvocation(id, if inv.state == RUNNING then inv.(state := COMPLETED, summary := Some(summary)) else inv);
    }

    method FailInvocation(id: Id, reason: string, summary: string)
      modifies this
      ensures Now() == Step(old(Now()), Fail(id, reason, summary))
    {
      if id !in invocations { return; }
      var inv := invocations[id];
      ConcludeInvocation(id, if inv.state == APPROVED || inv.state == RUNNING
                             then inv.(state := FAILED, reason := Some(reason), summary := Some(summary)) else inv);
    }

    method ClaimContinuation(id: Id, thread: string) returns (claimed: bool)
      modifies this`continuations
      ensures Now() == Step(old(Now()), Claim(id, thread))
      ensures claimed <==> Claimable(old(Now()), id)
    {
      claimed := id in continuations && continuations[id].state == Waiting;
      if claimed { continuations := continuations[id := continuations[id].(state := Starting, thread := Some(thread))]; }
    }
  }
}
