/** What every sequence of registry transactions keeps about invocations, handoffs and continuations. */
module InvocationTheorems {
  import opened Options
  import opened Invocations

  function Rank(state: InvocationState): nat {
    match state
    case PENDING => 0
    case APPROVED => 1
    case RUNNING => 2
    case _ => 3
  }

  /** The state graph is acyclic, and the four terminal states are absorbing. */
  predicate Forward(before: InvocationState, after: InvocationState) {
    before == after || (!Terminal(before) && Rank(before) < Rank(after))
  }

  // ---------- what every transaction keeps ----------

  /** A continuation exists exactly for the terminal invocations that are not FYIs (the completed ones with a
      summary), and records their outcome. */
  predicate ContinuationRight(t: Tables, id: Id) {
    && (id in t.continuations <==> id in t.invocations && Continues(t.invocations[id]) && !IsFyi(t, id))
    && (id in t.continuations ==> t.continuations[id].outcome == t.invocations[id].state && t.continuations[id].result != "")
  }

  /** A running invocation has been delivered. */
  predicate DeliveredRight(t: Tables, id: Id) {
    id in t.handoffs ==>
      && id in t.invocations
      && (t.invocations[id].state == RUNNING ==> t.handoffs[id].processed)
      && (!Terminal(t.invocations[id].state) && t.handoffs[id].processed ==> t.handoffs[id].state == DELIVERED)
  }

  ghost predicate Right(t: Tables) {
    forall id :: ContinuationRight(t, id) && DeliveredRight(t, id)
  }

  /** The other invocations' rows are as they were. */
  ghost predicate OnlyAt(t: Tables, after: Tables, id: Id) {
    forall other :: other != id ==>
      && (other in after.invocations <==> other in t.invocations) && (other in t.invocations ==> after.invocations[other] == t.invocations[other])
      && (other in after.handoffs <==> other in t.handoffs) && (other in t.handoffs ==> after.handoffs[other] == t.handoffs[other])
      && (other in after.continuations <==> other in t.continuations)
      && (other in t.continuations ==> after.continuations[other] == t.continuations[other])
  }

  lemma RightAfter(t: Tables, after: Tables, id: Id)
    requires Right(t) && OnlyAt(t, after, id) && ContinuationRight(after, id) && DeliveredRight(after, id)
    ensures Right(after)
  {
    forall other ensures ContinuationRight(after, other) && DeliveredRight(after, other) {
      assert ContinuationRight(t, other) && DeliveredRight(t, other);
    }
  }

  lemma ResultNonEmpty(inv: Invocation)
    ensures ResultText(inv) != ""
  {
  }

  /** A transition that never leaves a terminal state, concluded. */
  predicate Sane(before: Invocation, after: Invocation) {
    Forward(before.state, after.state) && (Terminal(before.state) ==> after == before) && (after.state == RUNNING ==> before.state == RUNNING)
  }

  lemma ConcludeRight(t: Tables, id: Id, inv: Invocation)
    requires Right(t) && id in t.invocations && Sane(t.invocations[id], inv)
    ensures Right(Conclude(t, id, inv))
  {
    assert ContinuationRight(t, id) && DeliveredRight(t, id);
    ResultNonEmpty(inv);
    RightAfter(t, Conclude(t, id, inv), id);
  }

  /** Without a conclusion: the row does not become terminal. */
  lemma SetRight(t: Tables, id: Id, inv: Invocation)
    requires Right(t) && id in t.invocations && Sane(t.invocations[id], inv) && (Terminal(inv.state) ==> Terminal(t.invocations[id].state))
    ensures Right(Set(t, id, inv))
  {
    assert ContinuationRight(t, id) && DeliveredRight(t, id);
    RightAfter(t, Set(t, id, inv), id);
  }

  lemma DecidedSane(inv: Invocation, now: int, revoked: bool, approve: bool, reason: string)
    ensures Sane(inv, Decided(inv, now, revoked, approve, reason))
  {
  }

  lemma BegunForward(inv: Invocation, now: int, revoked: bool)
    ensures Forward(inv.state, Begun(inv, now, revoked).state) && (Terminal(inv.state) ==> Begun(inv, now, revoked) == inv)
  {
  }

  lemma BeginRight(t: Tables, id: Id, now: int, revoked: bool)
    requires Right(t) && id in t.invocations
    ensures Right(OnBegin(t, id, now, revoked))
  {
    var before := t.invocations[id];
    var inv := Begun(before, now, revoked);
    assert ContinuationRight(t, id) && DeliveredRight(t, id);
    ResultNonEmpty(inv);
    BegunForward(before, now, revoked);
    if inv.state == RUNNING {
      StartedRight(t, id, inv, OnBegin(t, id, now, revoked));
    } else if inv.state == DENIED || inv.state == EXPIRED {
      ConcludeRight(t, id, inv);
    } else {
      SetRight(t, id, inv);
    }
  }

  lemma StartedRight(t: Tables, id: Id, inv: Invocation, after: Tables)
    requires Right(t) && id in t.invocations && inv.state == RUNNING && !Terminal(t.invocations[id].state)
    requires after == Deliver(Set(t, id, inv), id) || (after == Set(t, id, inv) && t.invocations[id].state == RUNNING)
    ensures Right(after)
  {
    assert ContinuationRight(t, id) && DeliveredRight(t, id);
    DeliveredIs(Set(t, id, inv), id);
    RightAfter(t, after, id);
  }

  lemma DeliveredIs(t: Tables, id: Id)
    ensures Deliver(t, id) == if id in t.handoffs && !t.handoffs[id].processed
                              then t.(handoffs := t.handoffs[id := t.handoffs[id].(state := DELIVERED, processed := true)]) else t
  {
  }

  lemma ExpireRight(t: Tables, now: int)
    requires Right(t)
    ensures Right(OnExpire(t, now))
  {
    var after := OnExpire(t, now);
    forall id ensures ContinuationRight(after, id) && DeliveredRight(after, id) {
      assert ContinuationRight(t, id) && DeliveredRight(t, id);
      if id in t.invocations {
        ResultNonEmpty(t.invocations[id]);
      }
    }
  }

  lemma CreateRight(t: Tables, op: Op)
    requires Right(t) && (op.CreateInvocation? || op.CreateHandoff?)
    ensures Right(Step(t, op))
  {
    if op.id !in t.invocations {
      assert ContinuationRight(t, op.id) && DeliveredRight(t, op.id);
      RightAfter(t, Step(t, op), op.id);
    }
  }

  lemma ContinuationOpRight(t: Tables, id: Id, c: Continuation)
    requires Right(t) && id in t.continuations && c.outcome == t.continuations[id].outcome && c.result == t.continuations[id].result
    ensures Right(UpdateContinuation(t, id, c))
  {
    assert ContinuationRight(t, id) && DeliveredRight(t, id);
    RightAfter(t, UpdateContinuation(t, id, c), id);
  }

  lemma ProcessRight(t: Tables, id: Id)
    requires Right(t)
    ensures Right(Process(t, id))
  {
    assert ContinuationRight(t, id) && DeliveredRight(t, id);
    RightAfter(t, Process(t, id), id);
  }

  lemma DecideRight(t: Tables, id: Id, inv: Invocation)
    requires Right(t) && id in t.invocations && Sane(t.invocations[id], inv)
    requires inv.state == COMPLETED || inv.state == FAILED ==> t.invocations[id].state == inv.state
    ensures Right(if inv.state == DENIED || inv.state == EXPIRED then Conclude(t, id, inv) else Set(t, id, inv))
  {
    if inv.state == DENIED || inv.state == EXPIRED {
      ConcludeRight(t, id, inv);
    } else {
      SetRight(t, id, inv);
    }
  }

  lemma StepRight(t: Tables, op: Op)
    requires Right(t)
    ensures Right(Step(t, op))
  {
    match op
    case CreateInvocation(_, _, _) => CreateRight(t, op);
    case CreateHandoff(_, _, _, _, _) => CreateRight(t, op);
    case Expire(now) => ExpireRight(t, now);
    case Decide(id, now, revoked, approve, reason) =>
      if id in t.invocations {
        DecidedSane(t.invocations[id], now, revoked, approve, reason);
        DecideRight(t, id, Decided(t.invocations[id], now, revoked, approve, reason));
      }
    case Begin(id, now, revoked) => if id in t.invocations { BeginRight(t, id, now, revoked); }
    case Complete(id, summary) => if id in t.invocations { ConcludeRight(t, id, CompletedWith(t.invocations[id], summary)); }
    case Fail(id, reason, summary) => if id in t.invocations { ConcludeRight(t, id, FailedWith(t.invocations[id], reason, summary)); }
    case Deny(id, reason) => if id in t.invocations { DenyRight(t, id, reason); }
    case ProcessHandoff(id) => ProcessRight(t, id);
    case Claim(id, thread) => ContinuationStepRight(t, op);
    case Started(id, turn) => ContinuationStepRight(t, op);
    case Observe(id, turn, ended) => ContinuationStepRight(t, op);
    case Reconcile(id, turn, ended) => ContinuationStepRight(t, op);
  }

  lemma DenyRight(t: Tables, id: Id, reason: string)
    requires Right(t) && id in t.invocations
    ensures Right(Step(t, Deny(id, reason)))
  {
    var inv := DeniedWith(t.invocations[id], reason);
    if inv.state == DENIED {
      ConcludeRight(t, id, inv);
    } else {
      SetRight(t, id, inv);
    }
  }

  lemma ContinuationStepRight(t: Tables, op: Op)
    requires Right(t) && (op.Claim? || op.Started? || op.Observe? || op.Reconcile?)
    ensures Right(Step(t, op))
  {
    if op.id in t.continuations {
      var c := t.continuations[op.id];
      var next := match op
        case Claim(_, thread) => c.(state := Starting, thread := Some(thread))
        case Started(_, turn) => c.(state := Running, turn := Some(turn))
        case Observe(_, turn, ended) => Seen(c, turn, ended)
        case Reconcile(_, turn, ended) => Found(c, turn, ended)
        case _ => c;
      ContinuationOpRight(t, op.id, next);
    }
  }

  // ---------- whole runs ----------

  function Run(ops: seq<Op>): Tables {
    if ops == [] then EMPTY else Step(Run(ops[..|ops| - 1]), ops[|ops| - 1])
  }

  lemma RunStep(ops: seq<Op>, k: nat)
    requires k < |ops|
    ensures Run(ops[..k + 1]) == Step(Run(ops[..k]), ops[k])
  {
    assert ops[..k + 1][..k] == ops[..k];
  }

  lemma {:induction false} EveryRunRight(ops: seq<Op>)
    ensures Right(Run(ops))
    decreases |ops|
  {
    if ops != [] {
      EveryRunRight(ops[..|ops| - 1]);
      StepRight(Run(ops[..|ops| - 1]), ops[|ops| - 1]);
    }
  }

  predicate KeptForward(t: Tables, after: Tables, id: Id) {
    id in t.invocations ==>
      && id in after.invocations && Forward(t.invocations[id].state, after.invocations[id].state)
      && (Terminal(t.invocations[id].state) ==> after.invocations[id] == t.invocations[id])
  }

  lemma StepForward(t: Tables, op: Op, id: Id)
    ensures KeptForward(t, Step(t, op), id)
  {
    match op
    case Decide(i, now, revoked, approve, reason) => if i in t.invocations { DecideForward(t, op, id); }
    case Begin(i, now, revoked) => if i in t.invocations { BeginForward(t, i, now, revoked, id); }
    case Complete(i, summary) => if i in t.invocations { ConcludeForward(t, i, CompletedWith(t.invocations[i], summary), id); }
    case Fail(i, reason, summary) => if i in t.invocations { ConcludeForward(t, i, FailedWith(t.invocations[i], reason, summary), id); }
    case Deny(i, reason) => if i in t.invocations { DenyForward(t, i, reason, id); }
    case _ => OtherForward(t, op, id);
  }

  lemma OtherForward(t: Tables, op: Op, id: Id)
    requires !op.Decide? && !op.Begin? && !op.Complete? && !op.Fail? && !op.Deny?
    ensures KeptForward(t, Step(t, op), id)
  {
  }

  lemma ConcludeForward(t: Tables, i: Id, inv: Invocation, id: Id)
    requires i in t.invocations && Sane(t.invocations[i], inv)
    ensures KeptForward(t, Conclude(t, i, inv), id) && KeptForward(t, Set(t, i, inv), id)
  {
  }

  lemma DenyForward(t: Tables, i: Id, reason: string, id: Id)
    requires i in t.invocations
    ensures KeptForward(t, Step(t, Deny(i, reason)), id)
  {
    ConcludeForward(t, i, DeniedWith(t.invocations[i], reason), id);
  }

  lemma DecideForward(t: Tables, op: Op, id: Id)
    requires op.Decide? && op.id in t.invocations
    ensures KeptForward(t, Step(t, op), id)
  {
    DecidedSane(t.invocations[op.id], op.now, op.revoked, op.approve, op.reason);
    ConcludeForward(t, op.id, Decided(t.invocations[op.id], op.now, op.revoked, op.approve, op.reason), id);
  }

  lemma BeginForward(t: Tables, i: Id, now: int, revoked: bool, id: Id)
    requires i in t.invocations
    ensures KeptForward(t, OnBegin(t, i, now, revoked), id)
  {
    BegunForward(t.invocations[i], now, revoked);
    DeliveredIs(Set(t, i, Begun(t.invocations[i], now, revoked)), i);
  }

  /** Along every run an invocation's state only moves forward, and a terminal row never changes again. */
  lemma {:induction false} RunForward(ops: seq<Op>, k: nat, id: Id)
    requires k <= |ops|
    ensures KeptForward(Run(ops[..k]), Run(ops), id)
    decreases |ops|
  {
    if k == |ops| {
      assert ops[..k] == ops;
    } else {
      var init := ops[..|ops| - 1];
      assert init[..k] == ops[..k];
      RunForward(init, k, id);
      StepForward(Run(init), ops[|ops| - 1], id);
    }
  }

  /** Step j starts the invocation. */
  predicate StartsAt(ops: seq<Op>, j: nat, id: Id) {
    && j < |ops| && id in Run(ops[..j]).invocations && Run(ops[..j]).invocations[id].state == APPROVED
    && id in Run(ops[..j + 1]).invocations && Run(ops[..j + 1]).invocations[id].state == RUNNING
  }

  /** APPROVED becomes RUNNING at most once. */
  lemma StartedOnce(ops: seq<Op>, i: nat, j: nat, id: Id)
    requires i < j && StartsAt(ops, i, id)
    ensures !StartsAt(ops, j, id)
  {
    if j < |ops| {
      assert ops[..j][..i + 1] == ops[..i + 1];
      RunForward(ops[..j], i + 1, id);
    }
  }

  // ---------- what the operations decide ----------

  predicate Only(t: Tables, after: Tables, id: Id, state: InvocationState) {
    id in after.invocations && after.invocations[id].state == state && after.invocations.Keys == t.invocations.Keys
    && forall other :: other in t.invocations && other != id ==> after.invocations[other] == t.invocations[other]
  }

  /** A pending invocation expires when it is overdue, is denied when its target is revoked, and otherwise becomes what
      the decision says; one that is not pending keeps its state. */
  lemma DecisionDecides(t: Tables, id: Id, now: int, revoked: bool, approve: bool, reason: string)
    requires id in t.invocations
    ensures var inv, after := t.invocations[id], Step(t, Decide(id, now, revoked, approve, reason));
            && Only(t, after, id,
                    if inv.state != PENDING then inv.state
                    else if inv.expiresAt <= now then EXPIRED
                    else if revoked || !approve then DENIED else APPROVED)
            && (inv.state == PENDING && inv.expiresAt > now && revoked ==> after.invocations[id].reason == Some("BOT_SHARE_REVOKED"))
            && (inv.state == PENDING && inv.expiresAt > now && !revoked && reason != "" ==> after.invocations[id].reason == Some(reason))
  {
  }

  /** An approved invocation starts exactly when it is not overdue and its target not revoked, and then its handoff is
      delivered. */
  lemma BeginStarts(t: Tables, id: Id, now: int, revoked: bool)
    requires id in t.invocations && t.invocations[id].state == APPROVED
    ensures var inv, after := t.invocations[id], Step(t, Begin(id, now, revoked));
            && Only(t, after, id, if inv.expiresAt <= now then EXPIRED else if revoked then DENIED else RUNNING)
            && (inv.expiresAt > now && !revoked && id in t.handoffs ==> id in after.handoffs && after.handoffs[id].processed)
            && (inv.expiresAt > now && !revoked && id in t.handoffs && !t.handoffs[id].processed ==> after.handoffs[id].state == DELIVERED)
  {
  }

  lemma BeginIgnores(t: Tables, id: Id, now: int, revoked: bool)
    requires id in t.invocations && t.invocations[id].state != APPROVED
    ensures Step(t, Begin(id, now, revoked)).invocations == t.invocations
  {
  }

  /** Exactly a running invocation completes, with its summary. */
  lemma CompletionCompletes(t: Tables, id: Id, summary: string)
    requires id in t.invocations
    ensures var inv, after := t.invocations[id], Step(t, Complete(id, summary));
            && Only(t, after, id, if inv.state == RUNNING then COMPLETED else inv.state)
            && (inv.state == RUNNING ==> after.invocations[id].summary == Some(summary))
  {
  }

  /** Exactly a running or an approved one fails, for the reason given. */
  lemma FailureFails(t: Tables, id: Id, reason: string, summary: string)
    requires id in t.invocations
    ensures var inv, after := t.invocations[id], Step(t, Fail(id, reason, summary)); var fails := inv.state == RUNNING || inv.state == APPROVED;
            && Only(t, after, id, if fails then FAILED else inv.state)
            && (fails ==> after.invocations[id].reason == Some(reason) && after.invocations[id].summary == Some(summary))
  {
  }

  /** Exactly a running one is denied. */
  lemma DenialDenies(t: Tables, id: Id, reason: string)
    requires id in t.invocations
    ensures var inv, after := t.invocations[id], Step(t, Deny(id, reason));
            && Only(t, after, id, if inv.state == RUNNING then DENIED else inv.state)
            && (inv.state == RUNNING ==> after.invocations[id].reason == Some(reason))
  {
  }

  /** Exactly the overdue pending invocations expire. */
  lemma ExpiryExpires(t: Tables, now: int, id: Id)
    requires id in t.invocations
    ensures var inv, after := t.invocations[id], Step(t, Expire(now));
            && id in after.invocations
            && after.invocations[id] == if inv.state == PENDING && inv.expiresAt <= now then inv.(state := EXPIRED) else inv
  {
  }

  /** A new handoff's invocation is approved at once if it is pre-approved or stays with one owner, and waits otherwise. */
  lemma HandoffStarts(t: Tables, id: Id, fyi: bool, approved: bool, sameOwner: bool, expiresAt: int)
    requires id !in t.invocations && id !in t.handoffs
    ensures var after := Step(t, CreateHandoff(id, fyi, approved, sameOwner, expiresAt));
            && id in after.invocations && id in after.handoffs && after.handoffs[id].fyi == fyi && !after.handoffs[id].processed
            && (if approved || sameOwner then after.invocations[id].state == APPROVED && after.handoffs[id].state == HandoffState.QUEUED
                else after.invocations[id].state == PENDING && after.handoffs[id].state == PENDING_APPROVAL)
            && after.invocations[id].expiresAt == expiresAt
  {
  }

  // ---------- continuations ----------

  lemma StepKeepsContinuation(t: Tables, op: Op, id: Id)
    requires id in t.continuations
    ensures id in Step(t, op).continuations
    ensures t.continuations[id].state != Waiting ==> Step(t, op).continuations[id].state != Waiting
  {
  }

  lemma {:induction false} ClaimedForGood(ops: seq<Op>, k: nat, id: Id)
    requires k <= |ops| && id in Run(ops[..k]).continuations && Run(ops[..k]).continuations[id].state != Waiting
    ensures id in Run(ops).continuations && Run(ops).continuations[id].state != Waiting
    decreases |ops|
  {
    if k == |ops| {
      assert ops[..k] == ops;
    } else {
      var init := ops[..|ops| - 1];
      assert init[..k] == ops[..k];
      ClaimedForGood(init, k, id);
      StepKeepsContinuation(Run(init), ops[|ops| - 1], id);
    }
  }

  predicate ClaimsAt(ops: seq<Op>, j: nat, id: Id) {
    j < |ops| && ops[j].Claim? && ops[j].id == id && Claimable(Run(ops[..j]), id)
  }

  /** A result is handed to its caller by at most one claim. */
  lemma ClaimedOnce(ops: seq<Op>, i: nat, j: nat, id: Id)
    requires i < j && ClaimsAt(ops, i, id)
    ensures !ClaimsAt(ops, j, id)
  {
    if j < |ops| {
      assert ops[..i + 1][..i] == ops[..i];
      assert ops[..j][..i + 1] == ops[..i + 1];
      ClaimedForGood(ops[..j], i + 1, id);
    }
  }

  /** A claimed continuation starts in its thread, runs once its turn is known, and ends as that turn ended. */
  lemma ContinuationMoves(t: Tables, id: Id, thread: string, turn: string, completed: bool)
    requires id in t.continuations
    ensures var c := t.continuations[id];
            && Step(t, Claim(id, thread)).continuations ==
                 (if c.state == Waiting then t.continuations[id := c.(state := Starting, thread := Some(thread))] else t.continuations)
            && Step(t, Started(id, turn)).continuations ==
                 (if c.state == Starting then t.continuations[id := c.(state := Running, turn := Some(turn))] else t.continuations)
            && (c.state == Running && c.turn == Some(turn) ==>
                  Step(t, Observe(id, turn, Some(completed))).continuations[id].state == if completed then Completed else Failed)
            && (c.state == Running && c.turn != Some(turn) ==> Step(t, Observe(id, turn, Some(completed))).continuations == t.continuations)
  {
    assert t.continuations[id := t.continuations[id]] == t.continuations;
  }

  // ---------- the handoff's own state ----------

  /** The handoff of a terminal invocation shows its outcome. */
  predicate Shows(t: Tables, id: Id) {
    id in t.handoffs && id in t.invocations && Terminal(t.invocations[id].state) ==> t.handoffs[id].state == Ended(t.invocations[id].state)
  }

  ghost predicate AllShow(t: Tables) {
    forall id :: Shows(t, id)
  }

  /** Processing a handoff whose invocation is terminal and which was never processed. */
  predicate Hides(t: Tables, op: Op) {
    && op.ProcessHandoff? && op.id in t.handoffs && op.id in t.invocations
    && Terminal(t.invocations[op.id].state) && !t.handoffs[op.id].processed
  }

  /** Processing a handoff directly breaks this exactly when its terminal invocation's handoff was never processed. */
  lemma ProcessShows(t: Tables, id: Id)
    requires AllShow(t)
    ensures AllShow(Process(t, id)) <==> !Hides(t, ProcessHandoff(id))
  {
    assert Shows(t, id);
    var after := Process(t, id);
    if Hides(t, ProcessHandoff(id)) {
      assert !Shows(after, id);
    } else {
      forall other ensures Shows(after, other) {
        assert Shows(t, other);
      }
    }
  }

  lemma OtherShows(t: Tables, op: Op)
    requires Right(t) && AllShow(t) && !op.ProcessHandoff?
    ensures AllShow(Step(t, op))
  {
    forall id ensures Shows(Step(t, op), id) {
      if op.Begin? && op.id in t.invocations {
        BeginShows(t, op.id, op.now, op.revoked, id);
      } else {
        assert Shows(t, id) && DeliveredRight(t, id);
        RestShows(t, op, id);
      }
    }
  }

  lemma RestShows(t: Tables, op: Op, id: Id)
    requires DeliveredRight(t, id) && Shows(t, id) && !op.ProcessHandoff? && (op.Begin? ==> op.id !in t.invocations)
    ensures Shows(Step(t, op), id)
  {
    if op.Decide? || op.Complete? || op.Fail? || op.Deny? {
      ConcludingShows(t, op, id);
    } else {
      PlainShows(t, op, id);
    }
  }

  lemma ConcludingShows(t: Tables, op: Op, id: Id)
    requires Shows(t, id) && (op.Decide? || op.Complete? || op.Fail? || op.Deny?)
    ensures Shows(Step(t, op), id)
  {
  }

  lemma PlainShows(t: Tables, op: Op, id: Id)
    requires DeliveredRight(t, id) && Shows(t, id) && !op.ProcessHandoff? && (op.Begin? ==> op.id !in t.invocations)
    requires !op.Decide? && !op.Complete? && !op.Fail? && !op.Deny?
    ensures Shows(Step(t, op), id)
  {
  }

  lemma BeginShows(t: Tables, i: Id, now: int, revoked: bool, id: Id)
    requires Right(t) && AllShow(t) && i in t.invocations
    ensures Shows(OnBegin(t, i, now, revoked), id)
  {
    assert Shows(t, id) && Shows(t, i);
    BegunForward(t.invocations[i], now, revoked);
    DeliveredIs(Set(t, i, Begun(t.invocations[i], now, revoked)), i);
  }

  /** A transaction keeps every terminal outcome on its handoff unless it hides one. */
  lemma StepShows(t: Tables, op: Op)
    requires Right(t) && AllShow(t)
    ensures AllShow(Step(t, op)) <==> !Hides(t, op)
  {
    if op.ProcessHandoff? {
      ProcessShows(t, op.id);
    } else {
      OtherShows(t, op);
    }
  }

  /** The outcomes show all along a run. */
  ghost predicate AlwaysShown(ops: seq<Op>) {
    forall k :: 0 <= k <= |ops| ==> AllShow(Run(ops[..k]))
  }

  predicate NeverHides(ops: seq<Op>) {
    forall k :: 0 <= k < |ops| ==> !Hides(Run(ops[..k]), ops[k])
  }

  lemma {:induction false} ShownUntil(ops: seq<Op>, k: nat)
    requires k <= |ops| && NeverHides(ops)
    ensures AllShow(Run(ops[..k]))
  {
    if k > 0 {
      ShownUntil(ops, k - 1);
      RunStep(ops, k - 1);
      EveryRunRight(ops[..k - 1]);
      StepShows(Run(ops[..k - 1]), ops[k - 1]);
    }
  }

  /** In every run, every terminal invocation's handoff shows its outcome at all times if and only if no step
      processes the unprocessed handoff of a terminal invocation. */
  lemma ShownIffNeverHidden(ops: seq<Op>)
    ensures AlwaysShown(ops) <==> NeverHides(ops)
  {
    if NeverHides(ops) {
      forall k | 0 <= k <= |ops| ensures AllShow(Run(ops[..k])) {
        ShownUntil(ops, k);
      }
    }
    if k :| 0 <= k < |ops| && Hides(Run(ops[..k]), ops[k]) {
      if AllShow(Run(ops[..k])) {
        EveryRunRight(ops[..k]);
        StepShows(Run(ops[..k]), ops[k]);
        RunStep(ops, k);
      }
    }
  }

  /** An approved handoff that expires before it is begun, and is then processed directly. */
  const EXPIRED_THEN_PROCESSED := [CreateHandoff(0, false, true, false, 10), Begin(0, 10, false), ProcessHandoff(0)]

  lemma OutcomeExpired()
    ensures var t := Run(EXPIRED_THEN_PROCESSED[..2]);
            && t.invocations == map[0 := Invocation(EXPIRED, None, 10, None)]
            && t.handoffs == map[0 := Handoff(false, Ended(EXPIRED), false)]
  {
    var ops := EXPIRED_THEN_PROCESSED;
    RunStep(ops, 0);
    RunStep(ops, 1);
    assert ops[..0] == [];
    assert Run(ops[..1]) == Tables(map[0 := Invocation(APPROVED, None, 10, None)], map[0 := Handoff(false, HandoffState.QUEUED, false)], map[]);
  }

  lemma AloneShows(t: Tables)
    requires t.invocations == map[0 := Invocation(EXPIRED, None, 10, None)] && t.handoffs == map[0 := Handoff(false, Ended(EXPIRED), false)]
    ensures AllShow(t) && !AllShow(Step(t, ProcessHandoff(0)))
  {
    ProcessShows(t, 0);
  }

  /** It hides the outcome, from the empty tables. */
  lemma OutcomeHidden()
    ensures AllShow(Run(EXPIRED_THEN_PROCESSED[..2])) && !AllShow(Run(EXPIRED_THEN_PROCESSED))
  {
    OutcomeExpired();
    RunStep(EXPIRED_THEN_PROCESSED, 2);
    assert EXPIRED_THEN_PROCESSED[..3] == EXPIRED_THEN_PROCESSED;
    AloneShows(Run(EXPIRED_THEN_PROCESSED[..2]));
  }
}
