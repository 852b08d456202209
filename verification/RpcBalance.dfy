/** No client is told more than it asked: requests, answers and what is still held, counted per channel and id. */
module RpcBalance {
  import opened Options
  import opened RpcChannels
  import opened RpcTheorems

  predicate Requests(e: Event, owner: Owner, id: RpcId) {
    e.Send? && e.owner == owner && IsRequest(e.message) && e.message.id == Some(id)
  }

  /** How many of these deliveries go to a channel under an id. */
  function Told(actions: seq<Action>, owner: Owner, id: RpcId): nat {
    if actions == [] then 0
    else
      var last := actions[|actions| - 1];
      Told(actions[..|actions| - 1], owner, id) + if last.Deliver? && last.owner == owner && last.id == id then 1 else 0
  }

  function WaitingFor(waiters: seq<Waiter>, owner: Owner, id: RpcId): nat {
    if waiters == [] then 0
    else WaitingFor(waiters[..|waiters| - 1], owner, id) + if waiters[|waiters| - 1] == Waiter(owner, id) then 1 else 0
  }

  function CallsFor(requests: map<nat, Request>, owner: Owner, id: RpcId): set<nat> {
    set t | t in requests && requests[t].owner == owner && requests[t].id == id
  }

  /** What the multiplexer still owes a channel under an id. */
  function Held(s: Mux, owner: Owner, id: RpcId): nat {
    |CallsFor(s.requests, owner, id)| + if s.initialization.Some? then WaitingFor(s.initialization.value.waiters, owner, id) else 0
  }

  /** Steps that may drop a request without telling its channel: the caller of a rejected write is told by the
      rejection itself, a detached channel is gone, and an exit is told once to each channel. */
  predicate Drops(e: Event) {
    e.Detach? || e.Exit? || (e.Rejected? && e.write.Call?)
  }

  // ---------- counting ----------

  lemma ToldLast(actions: seq<Action>, a: Action, owner: Owner, id: RpcId)
    ensures Told(actions + [a], owner, id) == Told(actions, owner, id) + if a.Deliver? && a.owner == owner && a.id == id then 1 else 0
  {
    assert (actions + [a])[..|actions|] == actions;
  }

  lemma ToldOne(a: Action, owner: Owner, id: RpcId)
    ensures Told([a], owner, id) == if a.Deliver? && a.owner == owner && a.id == id then 1 else 0
  {
    assert [a][..0] == [];
  }

  lemma {:induction false} ToldAppends(a: seq<Action>, b: seq<Action>, owner: Owner, id: RpcId)
    ensures Told(a + b, owner, id) == Told(a, owner, id) + Told(b, owner, id)
    decreases |b|
  {
    if b == [] {
      assert a + b == a;
    } else {
      ToldAppends(a, b[..|b| - 1], owner, id);
      assert (a + b)[..|a + b| - 1] == a + b[..|b| - 1];
    }
  }

  /** Every waiter is told once. */
  lemma {:induction false} ToldWaiters(waiters: seq<Waiter>, answer: Answer, owner: Owner, id: RpcId)
    ensures Told(DeliverAll(waiters, answer), owner, id) == WaitingFor(waiters, owner, id)
    decreases |waiters|
  {
    if waiters != [] {
      var init := waiters[..|waiters| - 1];
      ToldWaiters(init, answer, owner, id);
      assert DeliverAll(waiters, answer)[..|init|] == DeliverAll(init, answer);
    }
  }

  lemma {:induction false} FewerWithout(waiters: seq<Waiter>, gone: Owner, owner: Owner, id: RpcId)
    ensures WaitingFor(Without(waiters, gone), owner, id) <= WaitingFor(waiters, owner, id)
    decreases |waiters|
  {
    if waiters != [] {
      var init, last := waiters[..|waiters| - 1], waiters[|waiters| - 1];
      FewerWithout(init, gone, owner, id);
      WaitingLast(Without(init, gone), last, owner, id);
    }
  }

  lemma WaitingLast(waiters: seq<Waiter>, w: Waiter, owner: Owner, id: RpcId)
    ensures WaitingFor(waiters + [w], owner, id) == WaitingFor(waiters, owner, id) + if w == Waiter(owner, id) then 1 else 0
  {
    assert (waiters + [w])[..|waiters|] == waiters;
  }

  lemma CallAdded(requests: map<nat, Request>, now: nat, request: Request, owner: Owner, id: RpcId)
    requires now !in requests
    ensures |CallsFor(requests[now := request], owner, id)| ==
            |CallsFor(requests, owner, id)| + if request.owner == owner && request.id == id then 1 else 0
  {
    CallsWith(requests, now, request, owner, id);
  }

  lemma CallsWith(requests: map<nat, Request>, now: nat, request: Request, owner: Owner, id: RpcId)
    requires now !in requests
    ensures now !in CallsFor(requests, owner, id)
    ensures CallsFor(requests[now := request], owner, id) ==
            if request.owner == owner && request.id == id then CallsFor(requests, owner, id) + {now} else CallsFor(requests, owner, id)
  {
    var after := requests[now := request];
    forall t | t != now ensures t in CallsFor(after, owner, id) <==> t in CallsFor(requests, owner, id) {
      assert t in after <==> t in requests;
    }
  }

  lemma CallRemoved(requests: map<nat, Request>, t: nat, owner: Owner, id: RpcId)
    ensures |CallsFor(requests - {t}, owner, id)| ==
            |CallsFor(requests, owner, id)| - if t in requests && requests[t].owner == owner && requests[t].id == id then 1 else 0
  {
    var calls := CallsFor(requests, owner, id);
    assert CallsFor(requests - {t}, owner, id) == calls - {t};
  }

  lemma {:induction false} SubsetSize(a: set<nat>, b: set<nat>)
    requires a <= b
    ensures |a| <= |b|
    decreases |a|
  {
    if a != {} {
      var x :| x in a;
      SubsetSize(a - {x}, b - {x});
    }
  }

  // ---------- one step ----------

  /** What a step tells and what it leaves held is what was held and, if it sends one, the request; or less where
      it may drop some. */
  predicate Balanced(s: Mux, now: nat, e: Event, owner: Owner, id: RpcId) {
    var (after, actions) := Step(s, now, e);
    var have, owed := Told(actions, owner, id) + Held(after, owner, id), Held(s, owner, id) + if Requests(e, owner, id) then 1 else 0;
    have <= owed && (!Drops(e) ==> have == owed)
  }

  lemma SendBalanced(s: Mux, now: nat, e: Event, owner: Owner, id: RpcId)
    requires e.Send? && now !in s.requests
    ensures Balanced(s, now, e, owner, id)
  {
    if !IsRequest(e.message) {
      PassedBalanced(s, now, e, owner, id);
    } else if IsCall(e.message) {
      CallBalanced(s, now, e, owner, id);
    } else if s.initialized || s.initialization.Some? {
      JoinBalanced(s, now, e, owner, id);
    } else {
      FirstBalanced(s, now, e, owner, id);
    }
  }

  lemma PassedBalanced(s: Mux, now: nat, e: Event, owner: Owner, id: RpcId)
    requires e.Send? && !IsRequest(e.message)
    ensures Balanced(s, now, e, owner, id)
  {
    ToldOne(ToRuntime(Notice), owner, id);
    ToldOne(ToRuntime(Line(e.message)), owner, id);
  }

  lemma CallBalanced(s: Mux, now: nat, e: Event, owner: Owner, id: RpcId)
    requires e.Send? && IsCall(e.message) && now !in s.requests
    ensures Balanced(s, now, e, owner, id)
  {
    var m := e.message;
    ToldOne(ToRuntime(Write.Call(now, m)), owner, id);
    CallAdded(s.requests, now, Request(e.owner, m.id.value, m.verb.value), owner, id);
  }

  lemma FirstBalanced(s: Mux, now: nat, e: Event, owner: Owner, id: RpcId)
    requires e.Send? && IsInitialize(e.message) && !s.initialized && s.initialization.None?
    ensures Balanced(s, now, e, owner, id)
  {
    var w := Waiter(e.owner, e.message.id.value);
    ToldOne(ToRuntime(Initialize(now, e.message)), owner, id);
    WaitingLast([], w, owner, id);
    assert [] + [w] == [w];
  }

  lemma JoinBalanced(s: Mux, now: nat, e: Event, owner: Owner, id: RpcId)
    requires e.Send? && IsInitialize(e.message) && (s.initialized || s.initialization.Some?)
    ensures Balanced(s, now, e, owner, id)
  {
    var w := Waiter(e.owner, e.message.id.value);
    if s.initialized {
      ToldOne(Deliver(w.owner, w.id, Known(s.initializeResult)), owner, id);
    } else {
      WaitingLast(s.initialization.value.waiters, w, owner, id);
    }
  }

  lemma ReceiveBalanced(s: Mux, now: nat, e: Event, owner: Owner, id: RpcId)
    requires e.Receive?
    ensures Balanced(s, now, e, owner, id)
  {
    if ForInitialization(s, e.reply) {
      InitializeBalanced(s, now, e, owner, id);
    } else if ForRequest(s, e.reply) {
      AnswerBalanced(s, now, e, owner, id);
    }
  }

  lemma InitializeBalanced(s: Mux, now: nat, e: Event, owner: Owner, id: RpcId)
    requires e.Receive? && ForInitialization(s, e.reply)
    ensures Balanced(s, now, e, owner, id)
  {
    AnnouncedTellsNone(e.reply.result, DeliverAll(s.initialization.value.waiters, Relayed(e.reply)), owner, id);
    ToldWaiters(s.initialization.value.waiters, Relayed(e.reply), owner, id);
  }

  lemma AnswerBalanced(s: Mux, now: nat, e: Event, owner: Owner, id: RpcId)
    requires e.Receive? && !ForInitialization(s, e.reply) && ForRequest(s, e.reply)
    ensures Balanced(s, now, e, owner, id)
  {
    var request := s.requests[e.reply.id.n];
    var told := Deliver(request.owner, request.id, Relayed(e.reply));
    AnnouncedTellsNone(if request.verb == "initialize" then e.reply.result else None, [told], owner, id);
    ToldOne(told, owner, id);
    CallRemoved(s.requests, e.reply.id.n, owner, id);
  }

  lemma AnnouncedTellsNone(result: Option<string>, rest: seq<Action>, owner: Owner, id: RpcId)
    ensures Told(Announced(result) + rest, owner, id) == Told(rest, owner, id)
  {
    ToldAppends(Announced(result), rest, owner, id);
    if result.Some? { ToldOne(OnInitialize(result.value), owner, id); }
  }

  lemma DropBalanced(s: Mux, now: nat, e: Event, owner: Owner, id: RpcId)
    requires Drops(e)
    ensures Balanced(s, now, e, owner, id)
  {
    match e
    case Rejected(Call(t, _)) => CallRemoved(s.requests, t, owner, id);
    case Detach(gone) =>
      SubsetSize(CallsFor(OnDetach(s, gone).requests, owner, id), CallsFor(s.requests, owner, id));
      if s.initialization.Some? { FewerWithout(s.initialization.value.waiters, gone, owner, id); }
    case Exit(reason) =>
      ToldOne(OnExit(Holders(s), reason), owner, id);
      assert CallsFor(map[], owner, id) == {};
  }

  lemma StepBalanced(s: Mux, now: nat, e: Event, owner: Owner, id: RpcId)
    requires now !in s.requests
    ensures Balanced(s, now, e, owner, id)
  {
    if e.Send? {
      SendBalanced(s, now, e, owner, id);
    } else if e.Receive? {
      ReceiveBalanced(s, now, e, owner, id);
    } else if Drops(e) {
      DropBalanced(s, now, e, owner, id);
    } else if e.write.Initialize? && s.initialization.Some? {
      ToldWaiters(s.initialization.value.waiters, TransportFailed, owner, id);
    }
  }

  // ---------- whole runs ----------

  function AllTold(events: seq<Event>, owner: Owner, id: RpcId): nat {
    if events == [] then 0
    else AllTold(events[..|events| - 1], owner, id) + Told(Actions(events, |events| - 1), owner, id)
  }

  function AllRequested(events: seq<Event>, owner: Owner, id: RpcId): nat {
    if events == [] then 0
    else AllRequested(events[..|events| - 1], owner, id) + if Requests(events[|events| - 1], owner, id) then 1 else 0
  }

  /** In every run, the answers a channel gets under an id, to calls and `initialize` alike, and those it is still
      owed are no more than its requests under that id; and exactly as many while nothing is detached, no call's write
      is rejected and the runtime runs. */
  lemma {:induction false} ToldAtMostAsked(events: seq<Event>, owner: Owner, id: RpcId)
    ensures AllTold(events, owner, id) + Held(Run(events), owner, id) <= AllRequested(events, owner, id)
    ensures (forall e :: e in events ==> !Drops(e)) ==>
              AllTold(events, owner, id) + Held(Run(events), owner, id) == AllRequested(events, owner, id)
    decreases |events|
  {
    if events == [] {
      assert CallsFor(START.requests, owner, id) == {};
    } else {
      var n := |events| - 1;
      ToldAtMostAsked(events[..n], owner, id);
      Tickets(events[..n]);
      StepBalanced(Run(events[..n]), n, events[n], owner, id);
    }
  }
}
