/** Many clients share one runtime connection: request ids are rewritten, answers are routed back
    to the channel that asked, and concurrent `initialize` requests become one.
    The fresh random id of a request is the index of the step that sent it. */
module RpcChannels {
  import opened Options

  type Owner = nat
  datatype RpcId = Number(n: int) | Text(s: string)

  /** A client's line; `verb` is its `method`. `id` is None when it is neither a number nor a string. */
  datatype Message = Message(verb: Option<string>, id: Option<RpcId>, rest: string)

  /** An id on the runtime's wire: one of ours, another "genio:" string, another string, or no string at all. */
  datatype WireId = Ticket(n: nat) | OtherGenio(s: string) | Foreign(s: string) | NoString
  datatype Reply = Reply(id: WireId, verb: Option<string>, result: Option<string>, rest: string)

  datatype Request = Request(owner: Owner, id: RpcId, verb: string)
  datatype Waiter = Waiter(owner: Owner, id: RpcId)
  datatype Pending = Pending(ticket: nat, waiters: seq<Waiter>)

  datatype Mux = Mux(
    requests: map<nat, Request>, initialization: Option<Pending>,
    initialized: bool, initializeResult: Option<string>, initializedSent: bool)

  const START := Mux(map[], None, false, None, false)

  /** What `runtime.send` is given. */
  datatype Write = Notice | Line(message: Message) | Initialize(ticket: nat, message: Message) | Call(ticket: nat, message: Message)

  datatype Event =
    | Send(owner: Owner, message: Message)
    | Rejected(write: Write)
    | Receive(reply: Reply)
    | Detach(owner: Owner)
    | Exit(reason: string)

  datatype Answer = Relayed(reply: Reply) | Known(result: Option<string>) | TransportFailed

  datatype Action =
    | ToRuntime(write: Write)
    | Deliver(owner: Owner, id: RpcId, answer: Answer)
    | OnInitialize(result: string)
    | OnExit(owners: set<Owner>, reason: string)

  // ---------- one step ----------

  predicate IsRequest(m: Message) {
    m.verb.Some? && m.verb != Some("initialized") && m.id.Some?
  }

  predicate IsInitialize(m: Message) {
    m.verb == Some("initialize") && m.id.Some?
  }

  predicate IsCall(m: Message) {
    IsRequest(m) && !IsInitialize(m)
  }

  /** A reply that is looked up: it names no method and its id is a string. */
  predicate Answers(reply: Reply, n: nat) {
    !(reply.verb.Some? && reply.verb.value != "") && reply.id == Ticket(n)
  }

  function DeliverAll(waiters: seq<Waiter>, answer: Answer): seq<Action> {
    seq(|waiters|, i requires 0 <= i < |waiters| => Deliver(waiters[i].owner, waiters[i].id, answer))
  }

  function Without(waiters: seq<Waiter>, owner: Owner): seq<Waiter> {
    if waiters == [] then []
    else
      var init, last := Without(waiters[..|waiters| - 1], owner), waiters[|waiters| - 1];
      if last.owner == owner then init else init + [last]
  }

  function OnSend(s: Mux, now: nat, owner: Owner, m: Message): (Mux, seq<Action>) {
    if m.verb == Some("initialized") then
      if s.initializedSent then (s, []) else (s.(initializedSent := true), [ToRuntime(Notice)])
    else if !IsRequest(m) then (s, [ToRuntime(Line(m))])
    else if IsInitialize(m) then
      if s.initialized then (s, [Deliver(owner, m.id.value, Known(s.initializeResult))])
      else if s.initialization.Some? then
        var p := s.initialization.value;
        (s.(initialization := Some(p.(waiters := p.waiters + [Waiter(owner, m.id.value)]))), [])
      else (s.(initialization := Some(Pending(now, [Waiter(owner, m.id.value)]))), [ToRuntime(Initialize(now, m))])
    else (s.(requests := s.requests[now := Request(owner, m.id.value, m.verb.value)]), [ToRuntime(Call(now, m))])
  }

  function OnRejected(s: Mux, write: Write): (Mux, seq<Action>) {
    match write
    case Notice => (s.(initializedSent := false), [])
    case Line(_) => (s, [])
    case Initialize(_, _) =>
      (s.(initialization := None), if s.initialization.Some? then DeliverAll(s.initialization.value.waiters, TransportFailed) else [])
    case Call(t, _) => (s.(requests := s.requests - {t}), [])
  }

  predicate ForInitialization(s: Mux, reply: Reply) {
    s.initialization.Some? && Answers(reply, s.initialization.value.ticket)
  }

  predicate ForRequest(s: Mux, reply: Reply) {
    reply.id.Ticket? && Answers(reply, reply.id.n) && reply.id.n in s.requests
  }

  function Announced(result: Option<string>): seq<Action> {
    if result.Some? then [OnInitialize(result.value)] else []
  }

  function OnReceive(s: Mux, reply: Reply): (Mux, seq<Action>) {
    if ForInitialization(s, reply) then
      var done := s.(initialization := None);
      (if reply.result.Some? then done.(initialized := true, initializeResult := reply.result) else done,
       Announced(reply.result) + DeliverAll(s.initialization.value.waiters, Relayed(reply)))
    else if ForRequest(s, reply) then
      var request := s.requests[reply.id.n];
      (s.(requests := s.requests - {reply.id.n}),
       (if request.verb == "initialize" then Announced(reply.result) else []) + [Deliver(request.owner, request.id, Relayed(reply))])
    else (s, [])
  }

  /** Whether `receive` claims the line, so that the caller does not pass it on to every client. */
  predicate Claims(s: Mux, reply: Reply) {
    !(reply.verb.Some? && reply.verb.value != "") && !reply.id.NoString? &&
    (reply.id.Ticket? || reply.id.OtherGenio?)
  }

  function OnDetach(s: Mux, owner: Owner): Mux {
    s.(requests := map t | t in s.requests && s.requests[t].owner != owner :: s.requests[t],
       initialization := if s.initialization.None? then None
                         else Some(s.initialization.value.(waiters := Without(s.initialization.value.waiters, owner))))
  }

  function Holders(s: Mux): set<Owner> {
    (set t | t in s.requests :: s.requests[t].owner) +
    (if s.initialization.Some? then set w | w in s.initialization.value.waiters :: w.owner else {})
  }

  function Step(s: Mux, now: nat, event: Event): (Mux, seq<Action>) {
    match event
    case Send(owner, m) => OnSend(s, now, owner, m)
    case Rejected(write) => OnRejected(s, write)
    case Receive(reply) => OnReceive(s, reply)
    case Detach(owner) => (OnDetach(s, owner), [])
    case Exit(reason) => (s.(requests := map[], initialization := None), [OnExit(Holders(s), reason)])
  }

  // ---------- the class ----------

  class CodexRpcChannels {
    var requests: map<nat, Request>
    var initialization: Option<Pending>
    var initialized: bool
    var initializeResult: Option<string>
    var initializedSent: bool

    function State(): Mux
      reads this
    {
      Mux(requests, initialization, initialized, initializeResult, initializedSent)
    }

    constructor ()
      ensures State() == START
    {
      requests, initialization, initialized, initializeResult, initializedSent := map[], None, false, None, false;
    }

    /** A channel's `send`, up to the write it awaits. */
    method Send(now: nat, owner: Owner, m: Message) returns (actions: seq<Action>)
      modifies this
      ensures (State(), actions) == Step(old(State()), now, Event.Send(owner, m))
    {
      actions := [];
      if m.verb == Some("initialized") {
        if initializedSent { return; }
        initializedSent := true;
        actions := [ToRuntime(Notice)];
        return;
      }
      if m.verb.None? || m.id.None? {
        actions := [ToRuntime(Line(m))];
        return;
      }
      if m.verb.value == "initialize" {
        if initialized {
          actions := [Deliver(owner, m.id.value, Known(initializeResult))];
          return;
        }
        if initialization.Some? {
          initialization := Some(initialization.value.(waiters := initialization.value.waiters + [Waiter(owner, m.id.value)]));
          return;
        }
        initialization := Some(Pending(now, [Waiter(owner, m.id.value)]));
        actions := [ToRuntime(Initialize(now, m))];
        return;
      }
      requests := requests[now := Request(owner, m.id.value, m.verb.value)];
      actions := [ToRuntime(Call(now, m))];
    }

    /** Tells every waiter, in the order they asked. */
    method TellAll(waiters: seq<Waiter>, answer: Answer) returns (actions: seq<Action>)
      ensures actions == DeliverAll(waiters, answer)
    {
      actions := [];
      for i := 0 to |waiters|
        invariant actions == DeliverAll(waiters[..i], answer)
      {
        actions := actions + [Deliver(waiters[i].owner, waiters[i].id, answer)];
      }
      assert waiters[..|waiters|] == waiters;
    }

    /** The catch blocks of `send`. */
    method SendRejected(now: nat, write: Write) returns (actions: seq<Action>)
      modifies this
      ensures (State(), actions) == Step(old(State()), now, Rejected(write))
    {
      actions := [];
      match write {
        case Notice => initializedSent := false;
        case Line(_) =>
        case Initialize(_, _) =>
          var pending := initialization;
          initialization := None;
          if pending.Some? { actions := TellAll(pending.value.waiters, TransportFailed); }
        case Call(t, _) => requests := requests - {t};
      }
    }

    method Receive(now: nat, reply: Reply) returns (claimed: bool, actions: seq<Action>)
      modifies this
      ensures (State(), actions) == Step(old(State()), now, Event.Receive(reply))
      ensures claimed <==> Claims(old(State()), reply)
    {
      actions := [];
      if (reply.verb.Some? && reply.verb.value != "") || reply.id.NoString? { return false, actions; }
      if initialization.Some? && reply.id == Ticket(initialization.value.ticket) {
        var pending := initialization.value;
        initialization := None;
        if reply.result.Some? {
          initialized := true;
          initializeResult := reply.result;
          actions := [OnInitialize(reply.result.value)];
        }
        var told := TellAll(pending.waiters, Relayed(reply));
        return true, actions + told;
      }
      if !reply.id.Ticket? || reply.id.n !in requests {
        return reply.id.Ticket? || reply.id.OtherGenio?, actions;
      }
      var request := requests[reply.id.n];
      requests := requests - {reply.id.n};
      if request.verb == "initialize" && reply.result.Some? { actions := [OnInitialize(reply.result.value)]; }
      return true, actions + [Deliver(request.owner, request.id, Relayed(reply))];
    }

    method Detach(now: nat, owner: Owner)
      modifies this
      ensures (State(), []) == Step(old(State()), now, Event.Detach(owner))
    {
      if initialization.Some? {
        var kept := [];
        var waiters := initialization.value.waiters;
        for i := 0 to |waiters|
          invariant kept == Without(waiters[..i], owner)
        {
          assert waiters[..i + 1][..i] == waiters[..i];
          if waiters[i].owner != owner { kept := kept + [waiters[i]]; }
        }
        assert waiters[..|waiters|] == waiters;
        initialization := Some(initialization.value.(waiters := kept));
      }
      var todo := requests.Keys;
      ghost var before := requests;
      while todo != {}
        invariant todo <= requests.Keys <= before.Keys
        invariant forall t :: t in requests ==> requests[t] == before[t]
        invariant forall t :: t in requests && t !in todo ==> before[t].owner != owner
        invariant forall t :: t in before && before[t].owner != owner ==> t in requests
        invariant State() == old(State()).(requests := requests, initialization := initialization)
        invariant initialization == OnDetach(old(State()), owner).initialization
        decreases |todo|
      {
        var t :| t in todo;
        todo := todo - {t};
        if requests[t].owner == owner { requests := requests - {t}; }
      }
      assert requests == OnDetach(old(State()), owner).requests;
    }

    method Exit(now: nat, reason: string) returns (actions: seq<Action>)
      modifies this
      ensures (State(), actions) == Step(old(State()), now, Event.Exit(reason))
    {
      actions := [OnExit(Holders(State()), reason)];
      initialization := None;
      requests := map[];
    }
  }
}
