/** Whole runs of the multiplexer, against the history of events alone. */
module RpcTheorems {
  import opened Options
  import opened RpcChannels

  function Run(events: seq<Event>): Mux {
    if events == [] then START
    else Step(Run(events[..|events| - 1]), |events| - 1, events[|events| - 1]).0
  }

  function Actions(events: seq<Event>, j: nat): seq<Action>
    requires j < |events|
  {
    Step(Run(events[..j]), j, events[j]).1
  }

  lemma RunStep(events: seq<Event>, k: nat)
    requires k < |events|
    ensures Run(events[..k + 1]) == Step(Run(events[..k]), k, events[k]).0
  {
    assert events[..k + 1][..k] == events[..k];
  }

  // ---------- what the history says ----------

  predicate Called(events: seq<Event>, n: nat) {
    n < |events| && events[n].Send? && IsCall(events[n].message)
  }

  predicate Asked(events: seq<Event>, n: nat) {
    n < |events| && events[n].Send? && IsInitialize(events[n].message)
  }

  /** What ends a call sent at step n. */
  predicate Closes(e: Event, n: nat, owner: Owner) {
    match e
    case Send(_, _) => false
    case Rejected(write) => write.Call? && write.ticket == n
    case Receive(reply) => Answers(reply, n)
    case Detach(o) => o == owner
    case Exit(_) => true
  }

  /** The call sent at step n is still unanswered, its write was not rejected, its channel is
      attached and the runtime has not exited. */
  predicate Open(events: seq<Event>, n: nat) {
    Called(events, n) && forall j :: n < j < |events| ==> !Closes(events[j], n, events[n].owner)
  }

  predicate DetachedIn(events: seq<Event>, from: nat, owner: Owner) {
    exists j :: from < j < |events| && events[j] == Detach(owner)
  }

  predicate ExitedIn(events: seq<Event>, from: nat) {
    exists j :: from < j < |events| && events[j].Exit?
  }

  /** `initialize` reached the wire at step n. */
  predicate Sent(events: seq<Event>, n: nat) {
    Asked(events, n) && !Run(events[..n]).initialized && Run(events[..n]).initialization.None?
  }

  predicate EndsInitialize(e: Event, n: nat) {
    (e.Receive? && Answers(e.reply, n)) || (e.Rejected? && e.write.Initialize?) || e.Exit?
  }

  /** The `initialize` sent at step n has neither been answered nor rejected. */
  predicate InitOpen(events: seq<Event>, n: nat) {
    Sent(events, n) && forall j :: n < j < |events| ==> !EndsInitialize(events[j], n)
  }

  /** The clients that asked for `initialize` at steps from..upTo and have not detached since, in order. */
  function Waiting(events: seq<Event>, from: nat, upTo: nat): seq<Waiter>
    requires from <= upTo <= |events|
    decreases upTo
  {
    if upTo == from then []
    else
      var before := Waiting(events, from, upTo - 1);
      if Asked(events, upTo - 1) && !DetachedIn(events, upTo - 1, events[upTo - 1].owner)
      then before + [Waiter(events[upTo - 1].owner, events[upTo - 1].message.id.value)] else before
  }

  // ---------- the tables are the history ----------

  predicate TicketsReal(events: seq<Event>, s: Mux) {
    && (forall t :: t in s.requests ==> Called(events, t))
    && (s.initialization.Some? ==> Asked(events, s.initialization.value.ticket))
  }

  lemma {:induction false} Tickets(events: seq<Event>)
    ensures TicketsReal(events, Run(events))
    decreases |events|
  {
    if events != [] {
      var init := events[..|events| - 1];
      Tickets(init);
      forall t | t in Run(events).requests ensures Called(events, t) {
        assert t in Run(init).requests || t == |init|;
      }
    }
  }

  lemma CalledEarlier(events: seq<Event>, k: nat, n: nat)
    requires k <= |events| && n < k
    ensures Called(events[..k], n) == Called(events, n) && Asked(events[..k], n) == Asked(events, n)
  {
  }

  lemma OpenExtends(events: seq<Event>, n: nat)
    requires events != [] && n < |events| - 1
    ensures Open(events, n) <==>
            Open(events[..|events| - 1], n) && !Closes(events[|events| - 1], n, events[n].owner)
  {
    var init := events[..|events| - 1];
    CalledEarlier(events, |init|, n);
    assert forall j :: n < j < |init| ==> init[j] == events[j];
    if Open(init, n) && !Closes(events[|init|], n, events[n].owner) {
      forall j | n < j < |events| ensures !Closes(events[j], n, events[n].owner) {
        assert j < |init| ==> init[j] == events[j];
      }
    }
  }

  /** The request table holds exactly the open calls, each under its own channel and original id. */
  lemma {:induction false} RequestsAreOpenCalls(events: seq<Event>, n: nat)
    ensures n in Run(events).requests <==> Open(events, n)
    ensures Open(events, n) ==>
            Run(events).requests[n] == Request(events[n].owner, events[n].message.id.value, events[n].message.verb.value)
    decreases |events|
  {
    if events != [] {
      var init := events[..|events| - 1];
      RequestsAreOpenCalls(init, n);
      Tickets(init);
      if n < |init| {
        OpenExtends(events, n);
        StepKeepsOpen(Run(init), init, events[|init|], n);
      }
    }
  }

  lemma StepKeepsOpen(s: Mux, init: seq<Event>, e: Event, n: nat)
    requires TicketsReal(init, s) && n < |init|
    requires n in s.requests ==> init[n].Send? && s.requests[n].owner == init[n].owner
    ensures var after := Step(s, |init|, e).0;
            && (n in after.requests <==> n in s.requests && !Closes(e, n, s.requests[n].owner))
            && (n in after.requests ==> after.requests[n] == s.requests[n])
  {
  }

  /** An answer reaches the channel that asked, under its original id, exactly while the call is open. */
  lemma AnswerRouted(events: seq<Event>, j: nat, n: nat)
    requires j < |events| && events[j].Receive? && Answers(events[j].reply, n) && Called(events, n)
    ensures Actions(events, j) ==
            if Open(events[..j], n) then [Deliver(events[n].owner, events[n].message.id.value, Relayed(events[j].reply))] else []
  {
    RequestsAreOpenCalls(events[..j], n);
    Tickets(events[..j]);
  }

  /** At most once. */
  lemma AnsweredOnce(events: seq<Event>, i: nat, j: nat, n: nat)
    requires i < j < |events| && Called(events, n)
    requires events[i].Receive? && Answers(events[i].reply, n) && Open(events[..i], n)
    requires events[j].Receive? && Answers(events[j].reply, n)
    ensures Actions(events, j) == []
  {
    AnswerRouted(events, j, n);
    assert events[..j][i] == events[i] && Closes(events[..j][i], n, events[n].owner);
  }

  // ---------- the coalesced initialize ----------

  lemma DetachedStep(init: seq<Event>, e: Event, from: nat, owner: Owner)
    requires from < |init|
    ensures DetachedIn(init + [e], from, owner) <==> DetachedIn(init, from, owner) || e == Detach(owner)
  {
    var events := init + [e];
    assert events[|init|] == e;
    if DetachedIn(init, from, owner) {
      var j :| from < j < |init| && init[j] == Detach(owner);
      assert events[j] == Detach(owner);
    }
    if DetachedIn(events, from, owner) {
      var j :| from < j < |events| && events[j] == Detach(owner);
      assert j < |init| ==> init[j] == Detach(owner);
    }
  }

  lemma WithoutLast(waiters: seq<Waiter>, w: Waiter, owner: Owner)
    ensures Without(waiters + [w], owner) == if w.owner == owner then Without(waiters, owner) else Without(waiters, owner) + [w]
  {
    assert (waiters + [w])[..|waiters|] == waiters;
  }

  /** One more event only matters to the waiting clients if one of them detaches. */
  lemma {:induction false} WaitingStep(init: seq<Event>, e: Event, from: nat, upTo: nat)
    requires from <= upTo <= |init|
    ensures Waiting(init + [e], from, upTo) == if e.Detach? then Without(Waiting(init, from, upTo), e.owner) else Waiting(init, from, upTo)
    decreases upTo
  {
    if upTo != from {
      WaitingStep(init, e, from, upTo - 1);
      WaitingLaster(init, e, from, upTo);
    }
  }

  lemma WaitingLaster(init: seq<Event>, e: Event, from: nat, upTo: nat)
    requires from < upTo <= |init|
    requires Waiting(init + [e], from, upTo - 1) ==
             if e.Detach? then Without(Waiting(init, from, upTo - 1), e.owner) else Waiting(init, from, upTo - 1)
    ensures Waiting(init + [e], from, upTo) == if e.Detach? then Without(Waiting(init, from, upTo), e.owner) else Waiting(init, from, upTo)
  {
    assert (init + [e])[upTo - 1] == init[upTo - 1];
    if Asked(init, upTo - 1) {
      var owner := init[upTo - 1].owner;
      DetachedStep(init, e, upTo - 1, owner);
      if e.Detach? {
        WithoutLast(Waiting(init, from, upTo - 1), Waiter(owner, init[upTo - 1].message.id.value), e.owner);
      }
    }
  }

  lemma WaitingLast(events: seq<Event>, from: nat)
    requires events != [] && from < |events|
    ensures var before, e := Waiting(events, from, |events| - 1), events[|events| - 1];
            Waiting(events, from, |events|) ==
            if Asked(events, |events| - 1) then before + [Waiter(e.owner, e.message.id.value)] else before
  {
  }

  lemma InitOpenExtends(events: seq<Event>, n: nat)
    requires events != [] && n < |events| - 1
    ensures InitOpen(events, n) <==> InitOpen(events[..|events| - 1], n) && !EndsInitialize(events[|events| - 1], n)
  {
    var init := events[..|events| - 1];
    assert init[..n] == events[..n];
    assert forall j :: n < j < |init| ==> init[j] == events[j];
    if InitOpen(init, n) && !EndsInitialize(events[|init|], n) {
      forall j | n < j < |events| ensures !EndsInitialize(events[j], n) {
        assert j < |init| ==> init[j] == events[j];
      }
    }
  }

  lemma {:induction false} NothingPendingOnceInitialized(events: seq<Event>)
    ensures Run(events).initialized ==> Run(events).initialization.None? && Run(events).initializeResult.Some?
    decreases |events|
  {
    if events != [] {
      NothingPendingOnceInitialized(events[..|events| - 1]);
    }
  }

  predicate Tracks(s: Mux, n: nat) {
    s.initialization.Some? && s.initialization.value.ticket == n
  }

  /** What a step does to a pending `initialize`. */
  lemma PendingStep(s: Mux, now: nat, e: Event, n: nat)
    requires n < now && (s.initialized ==> s.initialization.None?)
    ensures var after := Step(s, now, e).0;
            && (Tracks(after, n) <==> Tracks(s, n) && !EndsInitialize(e, n))
            && (Tracks(after, n) ==>
                var waiters := s.initialization.value.waiters;
                after.initialization.value.waiters ==
                if e.Detach? then Without(waiters, e.owner)
                else if e.Send? && IsInitialize(e.message) then waiters + [Waiter(e.owner, e.message.id.value)] else waiters)
  {
  }

  lemma PendingStart(s: Mux, now: nat, e: Event)
    requires !Tracks(s, now)
    ensures var after := Step(s, now, e).0;
            && (Tracks(after, now) <==> e.Send? && IsInitialize(e.message) && !s.initialized && s.initialization.None?)
            && (Tracks(after, now) ==> after.initialization.value.waiters == [Waiter(e.owner, e.message.id.value)])
  {
  }

  lemma NewlyWaiting(events: seq<Event>, n: nat)
    requires n + 1 == |events| && Asked(events, n)
    ensures Waiting(events, n, |events|) == [Waiter(events[n].owner, events[n].message.id.value)]
  {
    assert !DetachedIn(events, n, events[n].owner);
    assert Waiting(events, n, n) == [];
  }

  lemma StillWaiting(init: seq<Event>, e: Event, n: nat)
    requires n < |init|
    ensures Waiting(init + [e], n, |init| + 1) ==
            if e.Detach? then Without(Waiting(init, n, |init|), e.owner)
            else if e.Send? && IsInitialize(e.message) then Waiting(init, n, |init|) + [Waiter(e.owner, e.message.id.value)]
            else Waiting(init, n, |init|)
  {
    WaitingStep(init, e, n, |init|);
    WaitingLast(init + [e], n);
  }

  /** The pending `initialize` is the open one, and its waiters are the attached clients that asked since it was sent. */
  lemma {:induction false} PendingIsOpen(events: seq<Event>, n: nat)
    ensures InitOpen(events, n) <==> Tracks(Run(events), n)
    ensures InitOpen(events, n) ==> Run(events).initialization.value.waiters == Waiting(events, n, |events|)
    decreases |events|
  {
    if events != [] {
      var init, e := events[..|events| - 1], events[|events| - 1];
      assert init + [e] == events;
      PendingIsOpen(init, n);
      if n < |init| {
        NothingPendingOnceInitialized(init);
        PendingStep(Run(init), |init|, e, n);
        InitOpenExtends(events, n);
        StillWaiting(init, e, n);
      } else if n == |init| {
        PendingStart(Run(init), |init|, e);
        if Sent(events, n) {
          NewlyWaiting(events, n);
        }
      } else {
        NotLater(events, n);
      }
    }
  }

  lemma NotLater(events: seq<Event>, n: nat)
    requires n >= |events|
    ensures !Tracks(Run(events), n)
  {
    Tickets(events);
  }

  /** Every client still waiting gets the one answer, under its own id. */
  lemma InitializeAnswered(events: seq<Event>, j: nat, n: nat)
    requires n < j < |events| && Asked(events, n) && events[j].Receive? && Answers(events[j].reply, n)
    ensures Actions(events, j) ==
            if InitOpen(events[..j], n)
            then Announced(events[j].reply.result) + DeliverAll(Waiting(events[..j], n, j), Relayed(events[j].reply))
            else []
  {
    PendingIsOpen(events[..j], n);
    Tickets(events[..j]);
    CalledEarlier(events, j, n);
  }

  predicate Succeeded(events: seq<Event>, j: nat, n: nat) {
    && n < j < |events| && events[j].Receive? && Answers(events[j].reply, n) && events[j].reply.result.Some?
    && InitOpen(events[..j], n)
  }

  lemma SuccessStep(s: Mux, now: nat, reply: Reply)
    requires ForInitialization(s, reply) && reply.result.Some?
    ensures var after := Step(s, now, Receive(reply)).0;
            after.initialized && after.initialization.None? && after.initializeResult == reply.result
  {
  }

  lemma InitializedStep(s: Mux, now: nat, e: Event)
    requires s.initialized && s.initialization.None?
    ensures var after := Step(s, now, e).0;
            after.initialized && after.initialization.None? && after.initializeResult == s.initializeResult
  {
  }

  lemma {:induction false} StaysInitialized(events: seq<Event>, j: nat, n: nat, k: nat)
    requires Succeeded(events, j, n) && j < k <= |events|
    ensures var s := Run(events[..k]); s.initialized && s.initialization.None? && s.initializeResult == events[j].reply.result
    decreases k
  {
    RunStep(events, k - 1);
    if k == j + 1 {
      PendingIsOpen(events[..j], n);
      SuccessStep(Run(events[..j]), j, events[j].reply);
    } else {
      StaysInitialized(events, j, n, k - 1);
      InitializedStep(Run(events[..k - 1]), k - 1, events[k - 1]);
    }
  }

  /** After one success no `initialize` is sent again, and a client that asks is told that result at once. */
  lemma NoInitializeAfterSuccess(events: seq<Event>, j: nat, n: nat, k: nat)
    requires Succeeded(events, j, n) && j < k < |events|
    ensures !Sent(events, k)
    ensures Asked(events, k) ==>
            Actions(events, k) == [Deliver(events[k].owner, events[k].message.id.value, Known(events[j].reply.result))]
  {
    StaysInitialized(events, j, n, k);
  }

  predicate Happened(events: seq<Event>, k: nat)
    requires k <= |events|
  {
    exists j, n :: 0 <= n < j < k && Succeeded(events, j, n)
  }

  /** The multiplexer believes itself initialized only after a success. */
  lemma {:induction false} InitializedBySuccess(events: seq<Event>, k: nat)
    requires k <= |events| && Run(events[..k]).initialized
    ensures Happened(events, k)
    decreases k
  {
    if k > 0 {
      RunStep(events, k - 1);
      if Run(events[..k - 1]).initialized {
        InitializedBySuccess(events, k - 1);
        var j: nat, n: nat :| n < j < k - 1 && Succeeded(events, j, n);
      } else {
        var n := Run(events[..k - 1]).initialization.value.ticket;
        PendingIsOpen(events[..k - 1], n);
        Tickets(events[..k - 1]);
        assert Succeeded(events, k - 1, n);
      }
    }
  }

  // ---------- at most one initialize outstanding ----------

  /** What the transport may do: a write is rejected at most once, and a rejected one is never answered. */
  predicate Fair(events: seq<Event>) {
    forall j :: 0 <= j < |events| && events[j].Rejected? && events[j].write.Initialize? ==>
      && events[j].write.ticket < j && Sent(events, events[j].write.ticket)
      && !TouchedElsewhere(events, events[j].write.ticket, j)
  }

  predicate TouchedElsewhere(events: seq<Event>, n: nat, j: nat) {
    exists i :: 0 <= i < |events| && i != j && ((events[i].Receive? && Answers(events[i].reply, n)) || RejectsInitialize(events[i], n))
  }

  predicate RejectsInitialize(e: Event, n: nat) {
    e.Rejected? && e.write.Initialize? && e.write.ticket == n
  }

  /** No `initialize` write is rejected after the runtime it was sent to has exited. */
  predicate NoLateRejection(events: seq<Event>) {
    forall j :: 0 <= j < |events| && events[j].Rejected? && events[j].write.Initialize? ==>
      !ExitedIn(events[..j], events[j].write.ticket)
  }

  predicate Ended(events: seq<Event>, n: nat, k: nat)
    requires k <= |events|
  {
    exists j :: n < j < k && ((events[j].Receive? && Answers(events[j].reply, n)) || RejectsInitialize(events[j], n) || events[j].Exit?)
  }

  lemma SentPrefix(events: seq<Event>, n: nat, k: nat)
    requires n < k <= |events|
    ensures Sent(events[..k], n) == Sent(events, n)
  {
    assert events[..k][..n] == events[..n];
  }

  /** Step j rejects the write of one `initialize` while another one, sent at step n, is pending: the case the
      catch block does not tell apart. */
  predicate Clobbers(events: seq<Event>, j: nat, n: nat) {
    j < |events| && events[j].Rejected? && events[j].write.Initialize? && events[j].write.ticket != n && InitOpen(events[..j], n)
  }

  predicate NoClobber(events: seq<Event>, k: nat) {
    forall j, n :: 0 <= j < k && 0 <= n < j ==> !Clobbers(events, j, n)
  }

  /** The `initialize` sent at step n is unanswered, its write was not rejected, and the runtime it went to runs. */
  predicate Outstanding(events: seq<Event>, n: nat, k: nat)
    requires k <= |events|
  {
    n < k && Sent(events, n) && !Ended(events, n, k)
  }

  /** At no point of the history would a client's `initialize` be sent while one is outstanding. */
  ghost predicate OneAtATime(events: seq<Event>) {
    forall k, n, owner :: 0 <= n < k <= |events| && Outstanding(events, n, k) ==> !Sent(events[..k] + [Send(owner, ASK)], k)
  }

  /** An `initialize` stays the pending one until it is answered, its own write is rejected, or the runtime exits. */
  lemma {:induction false} StillOpen(events: seq<Event>, n: nat, k: nat)
    requires k <= |events| && NoClobber(events, k) && Outstanding(events, n, k)
    ensures InitOpen(events[..k], n)
    decreases k
  {
    SentPrefix(events, n, k);
    if k > n + 1 {
      assert !Ended(events, n, k - 1);
      StillOpen(events, n, k - 1);
      assert !Clobbers(events, k - 1, n);
      assert events[..k][..k - 1] == events[..k - 1];
      InitOpenExtends(events[..k], n);
    }
  }

  /** A client that asks now is passed on just when nothing is pending and nothing has succeeded. */
  lemma SentNext(events: seq<Event>, owner: Owner)
    ensures Sent(events + [Send(owner, ASK)], |events|) <==> !Run(events).initialized && Run(events).initialization.None?
  {
    assert (events + [Send(owner, ASK)])[..|events|] == events;
  }

  lemma ClobberedIsOutstanding(events: seq<Event>, j: nat, n: nat)
    requires Clobbers(events, j, n)
    ensures Outstanding(events, n, j + 1)
  {
    SentPrefix(events, n, j);
    forall i | n < i < j ensures !EndsInitialize(events[i], n) {
      assert events[..j][i] == events[i];
    }
  }

  /** After clobbering, the next client's `initialize` goes out. */
  lemma ClobberedIsForgotten(events: seq<Event>, j: nat, n: nat, owner: Owner)
    requires Clobbers(events, j, n)
    ensures Sent(events[..j + 1] + [Send(owner, ASK)], j + 1)
  {
    PendingIsOpen(events[..j], n);
    NothingPendingOnceInitialized(events[..j]);
    RunStep(events, j);
    SentNext(events[..j + 1], owner);
  }

  /** In every history, at most one `initialize` is ever outstanding if and only if no rejected one is
      another than the pending one. */
  lemma OneAtATimeIffNoClobber(events: seq<Event>)
    ensures OneAtATime(events) <==> NoClobber(events, |events|)
  {
    if NoClobber(events, |events|) {
      forall k, n, owner | 0 <= n < k <= |events| && Outstanding(events, n, k) ensures !Sent(events[..k] + [Send(owner, ASK)], k) {
        StillOpen(events, n, k);
        PendingIsOpen(events[..k], n);
        SentNext(events[..k], owner);
      }
    }
    if j, n :| 0 <= n < j < |events| && Clobbers(events, j, n) {
      ClobberedIsOutstanding(events, j, n);
      ClobberedIsForgotten(events, j, n, 0);
    }
  }

  /** A transport that rejects no write after the exit of the runtime it went to never clobbers. */
  lemma {:induction false} PromptRejections(events: seq<Event>, k: nat)
    requires Fair(events) && NoLateRejection(events) && k <= |events|
    ensures NoClobber(events, k)
  {
    if k > 0 {
      PromptRejections(events, k - 1);
      forall j, n | 0 <= n < j < k ensures !Clobbers(events, j, n) {
        if Clobbers(events, j, n) {
          assert j == k - 1;
          RejectedIsPending(events, k - 1);
          PendingIsOpen(events[..k - 1], n);
          PendingIsOpen(events[..k - 1], events[k - 1].write.ticket);
        }
      }
    }
  }

  lemma RejectedIsPending(events: seq<Event>, j: nat)
    requires Fair(events) && NoLateRejection(events) && NoClobber(events, j)
    requires j < |events| && events[j].Rejected? && events[j].write.Initialize?
    ensures InitOpen(events[..j], events[j].write.ticket)
  {
    var n := events[j].write.ticket;
    assert forall i :: n < i < j ==> events[..j][i] == events[i];
    StillOpen(events, n, j);
  }

  /** So with such a transport, two `initialize` lines on the wire: the first was answered without a result or
      rejected, or the runtime has exited, before the second was sent. */
  lemma OneInitializeAtATime(events: seq<Event>, n: nat, m: nat)
    requires Fair(events) && NoLateRejection(events)
    requires n < m && Sent(events, n) && Sent(events, m)
    ensures Ended(events, n, m)
    ensures !Happened(events, m)
  {
    PromptRejections(events, m);
    if !Ended(events, n, m) {
      StillOpen(events, n, m);
      PendingIsOpen(events[..m], n);
    }
    if Happened(events, m) {
      var j: nat, i: nat :| i < j < m && Succeeded(events, j, i);
      NoInitializeAfterSuccess(events, j, i, m);
    }
  }

  /** Whichever `initialize` a rejected write belongs to, the open one is forgotten and its waiters are told of a failure. */
  lemma RejectionForgets(events: seq<Event>, write: Write, m: nat)
    requires write.Initialize? && InitOpen(events, m)
    ensures !InitOpen(events + [Rejected(write)], m)
    ensures Actions(events + [Rejected(write)], |events|) == DeliverAll(Waiting(events, m, |events|), TransportFailed)
  {
    var after := events + [Rejected(write)];
    assert after[..|events|] == events;
    InitOpenExtends(after, m);
    PendingIsOpen(events, m);
  }

  const ASK := Message(Some("initialize"), Some(Number(1)), "")

  /** An initialize whose write is rejected only after the exit, while a second client has already asked again. */
  const LATE := [Send(1, ASK), Exit("gone"), Send(2, ASK), Rejected(Initialize(0, ASK)), Send(3, ASK)]

  /** It clobbers, so two are outstanding: the second line is neither answered, rejected nor
      followed by an exit when the third is sent. */
  lemma LateRejectionBreaksIt()
    ensures Sent(LATE, 2) && Sent(LATE, 4) && !Ended(LATE, 2, 4) && Fair(LATE) && Clobbers(LATE, 3, 2)
  {
    RunStep(LATE, 0);
    RunStep(LATE, 1);
    RunStep(LATE, 2);
    RunStep(LATE, 3);
    assert LATE[..3][..2] == LATE[..2];
  }

  // ---------- every delivery was asked for ----------

  /** Before step j, `owner` sent a request with this id at step w and has not detached since. */
  predicate AskedFor(events: seq<Event>, j: nat, w: nat, owner: Owner, id: RpcId)
    requires j <= |events|
  {
    && w < j && events[w].Send? && events[w].owner == owner && IsRequest(events[w].message) && events[w].message.id == Some(id)
    && !DetachedIn(events[..j], w, owner)
  }

  predicate AskedBefore(events: seq<Event>, j: nat, owner: Owner, id: RpcId)
    requires j <= |events|
  {
    exists w :: 0 <= w < j && AskedFor(events, j, w, owner, id)
  }

  lemma {:induction false} WaitingAsked(events: seq<Event>, from: nat, upTo: nat, i: nat)
    requires from <= upTo <= |events| && i < |Waiting(events, from, upTo)|
    ensures AskedBefore(events, |events|, Waiting(events, from, upTo)[i].owner, Waiting(events, from, upTo)[i].id)
    decreases upTo
  {
    assert events[..|events|] == events;
    if i < |Waiting(events, from, upTo - 1)| {
      WaitingAsked(events, from, upTo - 1, i);
    } else {
      assert AskedFor(events, |events|, upTo - 1, Waiting(events, from, upTo)[i].owner, Waiting(events, from, upTo)[i].id);
    }
  }

  lemma PendingAsked(events: seq<Event>, w: Waiter)
    requires Run(events).initialization.Some? && w in Run(events).initialization.value.waiters
    ensures AskedBefore(events, |events|, w.owner, w.id)
  {
    var n := Run(events).initialization.value.ticket;
    PendingIsOpen(events, n);
    var i :| 0 <= i < |Waiting(events, n, |events|)| && Waiting(events, n, |events|)[i] == w;
    WaitingAsked(events, n, |events|, i);
  }

  lemma RequestAsked(events: seq<Event>, n: nat)
    requires n in Run(events).requests
    ensures AskedBefore(events, |events|, Run(events).requests[n].owner, Run(events).requests[n].id)
  {
    RequestsAreOpenCalls(events, n);
    assert events[..|events|] == events;
    assert AskedFor(events, |events|, n, events[n].owner, events[n].message.id.value);
  }

  /** A step that delivers is no detach, so what was asked before it is asked for after it. */
  lemma AskedStep(events: seq<Event>, j: nat, owner: Owner, id: RpcId)
    requires j < |events| && !events[j].Detach? && AskedBefore(events[..j], j, owner, id)
    ensures AskedBefore(events, j + 1, owner, id)
  {
    var w :| 0 <= w < j && AskedFor(events[..j], j, w, owner, id);
    assert events[..j][..j] == events[..j] && events[..j + 1] == events[..j] + [events[j]];
    DetachedStep(events[..j], events[j], w, owner);
    assert AskedFor(events, j + 1, w, owner, id);
  }

  /** Whatever the runtime sends, every delivery goes to a channel that asked under that id and is still attached. */
  lemma DeliveriesWereAskedFor(events: seq<Event>, j: nat, a: Action)
    requires j < |events| && a in Actions(events, j) && a.Deliver?
    ensures AskedBefore(events, j + 1, a.owner, a.id)
  {
    var s, e := Run(events[..j]), events[j];
    if e.Send? {
      assert events[..j + 1][j] == e;
      assert AskedFor(events, j + 1, j, a.owner, a.id);
    } else {
      if e.Receive? && !ForInitialization(s, e.reply) {
        RequestAsked(events[..j], e.reply.id.n);
      } else {
        var waiters := s.initialization.value.waiters;
        var i :| 0 <= i < |waiters| && a.owner == waiters[i].owner && a.id == waiters[i].id;
        PendingAsked(events[..j], waiters[i]);
      }
      AskedStep(events, j, a.owner, a.id);
    }
  }

  // ---------- the initialized notification ----------

  predicate NoticeSent(events: seq<Event>, j: nat) {
    j < |events| && events[j].Send? && events[j].message.verb == Some("initialized") && !Run(events[..j]).initializedSent
  }

  predicate NoticeRejected(events: seq<Event>, i: nat, j: nat) {
    exists k :: i < k < j && k < |events| && events[k] == Rejected(Notice)
  }

  lemma {:induction false} NoticeStays(events: seq<Event>, i: nat, j: nat)
    requires NoticeSent(events, i) && i < j <= |events| && !NoticeRejected(events, i, j)
    ensures Run(events[..j]).initializedSent
    decreases j
  {
    RunStep(events, j - 1);
    if j > i + 1 {
      assert !NoticeRejected(events, i, j - 1);
      NoticeStays(events, i, j - 1);
    }
  }

  /** The notification is passed on once, unless the write of it failed in between. */
  lemma NoticeOnce(events: seq<Event>, i: nat, j: nat)
    requires i < j && NoticeSent(events, i) && NoticeSent(events, j)
    ensures NoticeRejected(events, i, j)
  {
    if !NoticeRejected(events, i, j) {
      NoticeStays(events, i, j);
    }
  }

  // ---------- what is written ----------

  /** What a step writes to the runtime. */
  function Writes(actions: seq<Action>): seq<Write> {
    if actions == [] then []
    else
      var last := actions[|actions| - 1];
      Writes(actions[..|actions| - 1]) + if last.ToRuntime? then [last.write] else []
  }

  lemma WritesOne(a: Action)
    ensures Writes([a]) == if a.ToRuntime? then [a.write] else []
  {
    assert [a][..0] == [];
  }

  lemma {:induction false} DeliveriesWriteNothing(waiters: seq<Waiter>, answer: Answer)
    ensures Writes(DeliverAll(waiters, answer)) == []
    decreases |waiters|
  {
    if waiters != [] {
      var n := |waiters| - 1;
      DeliveriesWriteNothing(waiters[..n], answer);
      assert DeliverAll(waiters, answer)[..n] == DeliverAll(waiters[..n], answer);
    }
  }

  lemma {:induction false} WritesAppend(a: seq<Action>, b: seq<Action>)
    ensures Writes(a + b) == Writes(a) + Writes(b)
    decreases |b|
  {
    if b == [] {
      assert a + b == a;
    } else {
      WritesAppend(a, b[..|b| - 1]);
      assert (a + b)[..|a + b| - 1] == a + b[..|b| - 1];
    }
  }

  /** A client's line that is neither a request nor the `initialized` notification. */
  predicate Plain(e: Event) {
    e.Send? && !IsRequest(e.message) && e.message.verb != Some("initialized")
  }

  /** Each step writes at most one line: a client's own message, passed on as it is or, for a request, under the step's
      ticket. */
  lemma WrittenAt(events: seq<Event>, n: nat)
    requires n < |events|
    ensures Writes(Actions(events, n)) ==
            if Plain(events[n]) then [Line(events[n].message)]
            else if Called(events, n) then [Call(n, events[n].message)]
            else if Sent(events, n) then [Initialize(n, events[n].message)]
            else if NoticeSent(events, n) then [Notice]
            else []
  {
    var s, e := Run(events[..n]), events[n];
    match e
    case Send(_, _) => if Actions(events, n) != [] { WritesOne(Actions(events, n)[0]); }
    case Rejected(write) => if write.Initialize? && s.initialization.Some? { DeliveriesWriteNothing(s.initialization.value.waiters, TransportFailed); }
    case Receive(reply) => ReplyWritesNothing(s, n, reply);
    case Detach(_) =>
    case Exit(reason) => WritesOne(OnExit(Holders(s), reason));
  }

  lemma ReplyWritesNothing(s: Mux, now: nat, reply: Reply)
    ensures Writes(Step(s, now, Receive(reply)).1) == []
  {
    if ForInitialization(s, reply) {
      DeliveriesWriteNothing(s.initialization.value.waiters, Relayed(reply));
      WritesAppend(Announced(reply.result), DeliverAll(s.initialization.value.waiters, Relayed(reply)));
      if reply.result.Some? { WritesOne(OnInitialize(reply.result.value)); }
    } else if ForRequest(s, reply) {
      var request := s.requests[reply.id.n];
      var told := Deliver(request.owner, request.id, Relayed(reply));
      WritesAppend(if request.verb == "initialize" then Announced(reply.result) else [], [told]);
      WritesOne(told);
      if reply.result.Some? { WritesOne(OnInitialize(reply.result.value)); }
    }
  }

  function AllWrites(events: seq<Event>): seq<Write> {
    if events == [] then [] else AllWrites(events[..|events| - 1]) + Writes(Actions(events, |events| - 1))
  }

  function LinesOf(writes: seq<Write>): seq<Message> {
    if writes == [] then []
    else
      var last := writes[|writes| - 1];
      LinesOf(writes[..|writes| - 1]) + if last.Line? then [last.message] else []
  }

  function PlainLines(events: seq<Event>): seq<Message> {
    if events == [] then []
    else
      var last := events[|events| - 1];
      PlainLines(events[..|events| - 1]) + if Plain(last) then [last.message] else []
  }

  lemma LinesStep(writes: seq<Write>, more: seq<Write>)
    requires |more| <= 1
    ensures LinesOf(writes + more) == LinesOf(writes) + if more != [] && more[0].Line? then [more[0].message] else []
  {
    if more == [] {
      assert writes + more == writes;
    } else {
      assert (writes + more)[..|writes|] == writes;
    }
  }

  /** In every run, the clients' lines that are no requests reach the runtime unchanged, once each, in the order sent. */
  lemma {:induction false} LinesPassedOn(events: seq<Event>)
    ensures LinesOf(AllWrites(events)) == PlainLines(events)
    decreases |events|
  {
    if events != [] {
      var n := |events| - 1;
      LinesPassedOn(events[..n]);
      WrittenAt(events, n);
      LinesStep(AllWrites(events[..n]), Writes(Actions(events, n)));
    }
  }

  // ---------- exit ----------

  predicate StillOwed(events: seq<Event>, owner: Owner) {
    || (exists n :: 0 <= n < |events| && Open(events, n) && events[n].owner == owner)
    || (exists n :: 0 <= n < |events| && InitOpen(events, n) && exists w :: w in Waiting(events, n, |events|) && w.owner == owner)
  }

  /** An exit is told to exactly the channels that still wait for an answer. */
  lemma ExitTellsTheOwed(events: seq<Event>, reason: string, owner: Owner)
    ensures Actions(events + [Exit(reason)], |events|) == [OnExit(Holders(Run(events)), reason)]
    ensures owner in Holders(Run(events)) <==> StillOwed(events, owner)
  {
    ExitAction(events, reason);
    if owner in Holders(Run(events)) {
      HolderIsOwed(events, owner);
    }
    if StillOwed(events, owner) {
      OwedIsHolder(events, owner);
    }
  }

  lemma ExitAction(events: seq<Event>, reason: string)
    ensures Actions(events + [Exit(reason)], |events|) == [OnExit(Holders(Run(events)), reason)]
  {
    assert (events + [Exit(reason)])[..|events|] == events;
    ExitStep(Run(events), |events|, reason);
  }

  lemma ExitStep(s: Mux, now: nat, reason: string)
    ensures Step(s, now, Exit(reason)).1 == [OnExit(Holders(s), reason)]
  {
  }

  lemma HolderIsOwed(events: seq<Event>, owner: Owner)
    requires owner in Holders(Run(events))
    ensures StillOwed(events, owner)
  {
    var s := Run(events);
    if t :| t in s.requests && s.requests[t].owner == owner {
      RequestsAreOpenCalls(events, t);
    } else {
      var n := s.initialization.value.ticket;
      var w :| w in s.initialization.value.waiters && w.owner == owner;
      PendingIsOpen(events, n);
      assert InitOpen(events, n) && w in Waiting(events, n, |events|);
    }
  }

  lemma OwedIsHolder(events: seq<Event>, owner: Owner)
    requires StillOwed(events, owner)
    ensures owner in Holders(Run(events))
  {
    var s := Run(events);
    if n :| 0 <= n < |events| && Open(events, n) && events[n].owner == owner {
      RequestsAreOpenCalls(events, n);
    } else {
      var n :| 0 <= n < |events| && InitOpen(events, n) && exists w :: w in Waiting(events, n, |events|) && w.owner == owner;
      PendingIsOpen(events, n);
    }
  }
}
