/** Exactly when recovering interrupted runs keeps every run from being dispatched twice. */
module RecoveryTheorems {
  import opened Options
  import opened ScheduleStore
  import opened ScheduleRunner
  import opened RunnerTheorems

  // ---------- undisturbed executions ----------

  function Advances(e: nat, outcomes: seq<Outcome>): seq<Event> {
    seq(|outcomes|, i requires 0 <= i < |outcomes| => Advance(e, outcomes[i]))
  }

  /** The steps of an undisturbed execution on a live runtime, and of one that opens its own. */
  const ON_LIVE: seq<Outcome> := [UseLive, Next, Next, Next, Threaded("t"), Next, Answered(Some("completed"), "s", "u")]
  const LIVE_PHASES: seq<Phase> := [Fresh, Verifying(true), Gating(true), Claiming, Preparing, Composing("t"), Sent("t"), Tail]
  const ON_OWN: seq<Outcome> := [Next, Next, Next, Next, Opened("s"), Next, Next, Threaded("t"), Next, Answered(Some("completed"), "s", "u")]
  const OWN_PHASES: seq<Phase> :=
    [Fresh, Issuing, Verifying(false), Gating(false), Opening, Initializing, Claiming, Preparing, Composing("t"), Sent("t"), Tail]

  lemma {:induction false} FoldAppend(f: (State, Event) -> State, s: State, first: seq<Event>, second: seq<Event>)
    ensures Fold(f, s, first + second) == Fold(f, Fold(f, s, first), second)
    decreases |second|
  {
    if second == [] {
      assert first + second == first;
    } else {
      var n := |second| - 1;
      assert (first + second)[..|first| + n] == first + second[..n];
      FoldAppend(f, s, first, second[..n]);
    }
  }

  lemma StepsAppend(s: State, first: seq<Event>, second: seq<Event>)
    ensures Steps(s, first + second) == Steps(Steps(s, first), second)
  {
    FoldAppend(Step, s, first, second);
  }

  lemma FoldFront(f: (State, Event) -> State, s: State, events: seq<Event>)
    requires events != []
    ensures Fold(f, s, events) == Fold(f, f(s, events[0]), events[1..])
  {
    assert events == [events[0]] + events[1..];
    FoldAppend(f, s, [events[0]], events[1..]);
    assert [events[0]][..0] == [];
  }

  predicate At(s: State, e: nat, id: Id, phase: Phase) {
    e in s.executions && s.executions[e] == Execution(id, phase) && id in s.runs && !s.stopped
  }

  /** Nothing but this execution's phase, its run's row and the wire differ. */
  predicate Beside(before: State, after: State, e: nat) {
    after.executions.Keys == before.executions.Keys && forall f :: f in before.executions && f != e ==> after.executions[f] == before.executions[f]
  }

  lemma OneMove(s: State, e: nat, id: Id, phase: Phase, outcome: Outcome, next: Phase, sends: bool)
    requires At(s, e, id, phase)
    requires var move := MoveOf(phase, outcome, false); move.phase == next && move.sends == sends
    ensures var after := Step(s, Advance(e, outcome));
            At(after, e, id, next) && Beside(s, after, e) && after.wire == if sends then s.wire + [id] else s.wire
  {
  }

  predicate Follows(phases: seq<Phase>, outcomes: seq<Outcome>) {
    |phases| == |outcomes| + 1 && forall i :: 0 <= i < |outcomes| ==> MoveOf(phases[i], outcomes[i], false).phase == phases[i + 1]
  }

  /** What an execution following these phases puts on the wire. */
  function Sending(phases: seq<Phase>, outcomes: seq<Outcome>, id: Id): seq<Id>
    requires |phases| == |outcomes| + 1
    decreases |outcomes|
  {
    if outcomes == [] then []
    else
      var n := |outcomes| - 1;
      Sending(phases[..n + 1], outcomes[..n], id) + if MoveOf(phases[n], outcomes[n], false).sends then [id] else []
  }

  lemma {:induction false} Walk(s: State, e: nat, id: Id, phases: seq<Phase>, outcomes: seq<Outcome>)
    requires Follows(phases, outcomes) && At(s, e, id, phases[0])
    ensures var after := Steps(s, Advances(e, outcomes));
            At(after, e, id, phases[|outcomes|]) && Beside(s, after, e) && after.wire == s.wire + Sending(phases, outcomes, id)
    decreases |outcomes|
  {
    if outcomes == [] {
      assert s.wire + [] == s.wire;
    } else {
      var n := |outcomes| - 1;
      Walk(s, e, id, phases[..n + 1], outcomes[..n]);
      assert Advances(e, outcomes)[..n] == Advances(e, outcomes[..n]);
      var before := Steps(s, Advances(e, outcomes[..n]));
      LastMove(s, before, e, id, phases, outcomes);
    }
  }

  lemma LastMove(s: State, before: State, e: nat, id: Id, phases: seq<Phase>, outcomes: seq<Outcome>)
    requires Follows(phases, outcomes) && outcomes != []
    requires var n := |outcomes| - 1;
             At(before, e, id, phases[n]) && Beside(s, before, e) && before.wire == s.wire + Sending(phases[..n + 1], outcomes[..n], id)
    ensures var after := Step(before, Advance(e, outcomes[|outcomes| - 1]));
            At(after, e, id, phases[|outcomes|]) && Beside(s, after, e) && after.wire == s.wire + Sending(phases, outcomes, id)
  {
    var n := |outcomes| - 1;
    OneMove(before, e, id, phases[n], outcomes[n], phases[n + 1], MoveOf(phases[n], outcomes[n], false).sends);
    Reassociate(s.wire, Sending(phases[..n + 1], outcomes[..n], id), [id]);
    Reassociate(s.wire, Sending(phases[..n + 1], outcomes[..n], id), []);
  }

  lemma Reassociate(a: seq<Id>, b: seq<Id>, c: seq<Id>)
    ensures a + b + c == a + (b + c) && b + [] == b
  {
  }

  lemma EarlyMoves()
    ensures MoveOf(Fresh, UseLive, false) == Stay(Verifying(true)) && MoveOf(Verifying(true), Next, false) == Stay(Gating(true))
    ensures MoveOf(Gating(true), Next, false) == Stay(Claiming)
  {
  }

  lemma OwnMoves()
    ensures MoveOf(Fresh, Next, false) == Stay(Issuing) && MoveOf(Issuing, Next, false) == Stay(Verifying(false))
    ensures MoveOf(Verifying(false), Next, false) == Stay(Gating(false)) && MoveOf(Gating(false), Next, false) == Stay(Opening)
    ensures MoveOf(Opening, Opened("s"), false) == Stay(Initializing) && MoveOf(Initializing, Next, false) == Stay(Claiming)
  {
  }

  lemma LateMoves()
    ensures var prepared, threaded := MoveOf(Claiming, Next, false), MoveOf(Preparing, Threaded("t"), false);
            prepared.phase == Preparing && !prepared.sends && threaded.phase == Composing("t") && !threaded.sends
    ensures MoveOf(Composing("t"), Next, false) == Move(None, Sent("t"), true)
    ensures var answered := MoveOf(Sent("t"), Answered(Some("completed"), "s", "u"), false); answered.phase == Tail && !answered.sends
  {
  }

  predicate SendsOnlyAt(phases: seq<Phase>, outcomes: seq<Outcome>, k: nat)
    requires |phases| == |outcomes| + 1
  {
    forall i :: 0 <= i < |outcomes| ==> MoveOf(phases[i], outcomes[i], false).sends == (i == k)
  }

  lemma LivePath()
    ensures Follows(LIVE_PHASES, ON_LIVE) && SendsOnlyAt(LIVE_PHASES, ON_LIVE, 5)
  {
    EarlyMoves();
    LateMoves();
    forall i | 0 <= i < 7
      ensures MoveOf(LIVE_PHASES[i], ON_LIVE[i], false).phase == LIVE_PHASES[i + 1] && MoveOf(LIVE_PHASES[i], ON_LIVE[i], false).sends == (i == 5)
    {
    }
  }

  lemma OwnPath()
    ensures Follows(OWN_PHASES, ON_OWN) && SendsOnlyAt(OWN_PHASES, ON_OWN, 8)
  {
    OwnMoves();
    LateMoves();
    forall i | 0 <= i < 10
      ensures MoveOf(OWN_PHASES[i], ON_OWN[i], false).phase == OWN_PHASES[i + 1] && MoveOf(OWN_PHASES[i], ON_OWN[i], false).sends == (i == 8)
    {
    }
  }

  /** Only the move at `k` sends. */
  lemma {:induction false} SendsAt(phases: seq<Phase>, outcomes: seq<Outcome>, id: Id, k: nat, n: nat)
    requires n <= |outcomes| && |phases| == |outcomes| + 1
    requires SendsOnlyAt(phases, outcomes, k)
    ensures Sending(phases[..n + 1], outcomes[..n], id) == if n <= k then [] else [id]
    decreases n
  {
    if n > 0 {
      SendsAt(phases, outcomes, id, k, n - 1);
      assert phases[..n + 1][..n] == phases[..n] && outcomes[..n][..n - 1] == outcomes[..n - 1];
    }
  }

  lemma SuffixFollows(phases: seq<Phase>, outcomes: seq<Outcome>, k: nat, at: nat)
    requires Follows(phases, outcomes) && SendsOnlyAt(phases, outcomes, at) && k <= at < |outcomes|
    ensures Follows(phases[k..], outcomes[k..]) && SendsOnlyAt(phases[k..], outcomes[k..], at - k)
  {
    assert forall i :: 0 <= i < |phases[k..]| ==> phases[k..][i] == phases[k + i];
    assert forall i :: 0 <= i < |outcomes[k..]| ==> outcomes[k..][i] == outcomes[k + i];
  }

  /** The rest of a path, from its k-th phase on, sends once when the sending move is still ahead. */
  lemma SuffixDispatches(s: State, e: nat, id: Id, phases: seq<Phase>, outcomes: seq<Outcome>, k: nat, at: nat)
    requires Follows(phases, outcomes) && SendsOnlyAt(phases, outcomes, at) && k <= at < |outcomes|
    requires At(s, e, id, phases[k])
    ensures var after := Steps(s, Advances(e, outcomes[k..])); Beside(s, after, e) && !after.stopped && after.wire == s.wire + [id]
  {
    var phases', outcomes' := phases[k..], outcomes[k..];
    SuffixFollows(phases, outcomes, k, at);
    SendsAt(phases', outcomes', id, at - k, |outcomes'|);
    assert phases'[..|outcomes'| + 1] == phases' && outcomes'[..|outcomes'|] == outcomes';
    Walk(s, e, id, phases', outcomes');
  }

  /** From every early phase the execution can go on to dispatch its run. */
  function Onward(phase: Phase): seq<Outcome>
    requires Early(phase)
  {
    match phase
    case Fresh => ON_LIVE
    case Verifying(live) => if live then ON_LIVE[1..] else ON_OWN[2..]
    case Gating(live) => if live then ON_LIVE[2..] else ON_OWN[3..]
    case Issuing => ON_OWN[1..]
    case Opening => ON_OWN[4..]
    case Initializing => ON_OWN[5..]
    case Claiming => ON_LIVE[3..]
    case Preparing => ON_LIVE[4..]
  }

  lemma OnwardDispatches(s: State, e: nat, id: Id, phase: Phase)
    requires Early(phase) && At(s, e, id, phase)
    ensures var after := Steps(s, Advances(e, Onward(phase))); Beside(s, after, e) && !after.stopped && after.wire == s.wire + [id]
  {
    LivePath();
    OwnPath();
    assert ON_LIVE[0..] == ON_LIVE;
    match phase
    case Fresh => SuffixDispatches(s, e, id, LIVE_PHASES, ON_LIVE, 0, 5);
    case Verifying(live) => if live { SuffixDispatches(s, e, id, LIVE_PHASES, ON_LIVE, 1, 5); } else { SuffixDispatches(s, e, id, OWN_PHASES, ON_OWN, 2, 8); }
    case Gating(live) => if live { SuffixDispatches(s, e, id, LIVE_PHASES, ON_LIVE, 2, 5); } else { SuffixDispatches(s, e, id, OWN_PHASES, ON_OWN, 3, 8); }
    case Issuing => SuffixDispatches(s, e, id, OWN_PHASES, ON_OWN, 1, 8);
    case Opening => SuffixDispatches(s, e, id, OWN_PHASES, ON_OWN, 4, 8);
    case Initializing => SuffixDispatches(s, e, id, OWN_PHASES, ON_OWN, 5, 8);
    case Claiming => SuffixDispatches(s, e, id, LIVE_PHASES, ON_LIVE, 3, 5);
    case Preparing => SuffixDispatches(s, e, id, LIVE_PHASES, ON_LIVE, 4, 5);
  }

  // ---------- recovery is safe exactly when it is calm ----------

  /** The interrupted run is queued again, beside its execution. */
  lemma QueuedAgain(s: State, e: nat, id: Id)
    requires e in s.executions && s.executions[e].runId == id && ExecutionSafe(s.runs, s.executions[e]) && Early(s.executions[e].phase)
    requires id in s.runs && Interrupted(s.runs[id])
    ensures var recovered := Step(Step(s, Recover), Start);
            && recovered.executions == s.executions && recovered.wire == s.wire && !recovered.stopped
            && id in recovered.runs && recovered.runs[id].state == QUEUED
  {
  }

  lemma ClaimOne(s: State, id: Id, first: nat)
    requires id in s.runs && s.runs[id].state == QUEUED && !s.stopped && forall f :: f in s.executions ==> f < first
    ensures var claimed := Step(s, Claim([id], first));
            && At(claimed, first, id, Fresh) && claimed.wire == s.wire && claimed.runs.Keys == s.runs.Keys && !claimed.stopped
            && forall f :: f in s.executions ==> f in claimed.executions && claimed.executions[f] == s.executions[f]
  {
    assert CanClaim(s, [id], first);
    assert Beginning([id], first, first) == Execution(id, Fresh);
  }

  lemma ClaimedAgain(s: State, e: nat, id: Id, first: nat)
    requires Safe(s) && e in s.executions && s.executions[e].runId == id && Early(s.executions[e].phase)
    requires id in s.runs && Interrupted(s.runs[id]) && forall f :: f in s.executions ==> f < first
    ensures var claimed := Step(Step(Step(s, Recover), Start), Claim([id], first));
            At(claimed, first, id, Fresh) && At(claimed, e, id, s.executions[e].phase) && claimed.wire == s.wire
  {
    assert ExecutionSafe(s.runs, s.executions[e]);
    QueuedAgain(s, e, id);
    ClaimOne(Step(Step(s, Recover), Start), id, first);
  }

  /** The old execution goes on and dispatches, and then the one of the second claim. */
  lemma BothDispatch(s: State, e: nat, f: nat, id: Id, phase: Phase)
    requires Early(phase) && At(s, e, id, phase) && At(s, f, id, Fresh) && e != f
    ensures Steps(s, Advances(e, Onward(phase)) + Advances(f, Onward(Fresh))).wire == s.wire + [id] + [id]
  {
    OnwardDispatches(s, e, id, phase);
    var once := Steps(s, Advances(e, Onward(phase)));
    RunsKept(s, Advances(e, Onward(phase)), id);
    OnwardDispatches(once, f, id, Fresh);
    StepsAppend(s, Advances(e, Onward(phase)), Advances(f, Onward(Fresh)));
  }

  lemma RowKept(s: State, e: nat, outcome: Outcome, id: Id)
    requires id in s.runs
    ensures id in Step(s, Advance(e, outcome)).runs
  {
  }

  lemma {:induction false} RunsKept(s: State, events: seq<Event>, id: Id)
    requires id in s.runs && forall event :: event in events ==> event.Advance?
    ensures id in Steps(s, events).runs
    decreases |events|
  {
    if events != [] {
      var n := |events| - 1;
      RunsKept(s, events[..n], id);
      RowKept(Steps(s, events[..n]), events[n].execution, events[n].outcome, id);
    }
  }

  lemma NoRecoveryIsCalm(s: State, events: seq<Event>)
    requires forall event :: event in events ==> !event.Recover?
    ensures CalmRun(s, events)
  {
  }

  lemma {:induction false} FreshNumber(used: set<nat>) returns (first: nat)
    ensures forall e :: e in used ==> e < first
    decreases |used|
  {
    if used == {} {
      first := 0;
    } else {
      var e :| e in used;
      var below := FreshNumber(used - {e});
      first := if below > e then below else e + 1;
      assert forall x :: x in used ==> x == e || x in used - {e};
    }
  }

  /** A recovery that is not calm leads, once the runner is started and without any further recovery, to a run that
      is dispatched twice. */
  lemma RecoveryBesideExecution(s: State) returns (events: seq<Event>)
    requires Safe(s) && !Calm(s, Recover)
    ensures CalmRun(Step(s, Recover), events) && !Distinct(Steps(Step(s, Recover), events).wire)
  {
    var e :| e in s.executions && s.executions[e].runId in s.runs && Early(s.executions[e].phase) && Interrupted(s.runs[s.executions[e].runId]);
    var id, phase := s.executions[e].runId, s.executions[e].phase;
    var first := FreshNumber(s.executions.Keys);
    ClaimedAgain(s, e, id, first);
    var claim, paths := Claim([id], first), Advances(e, Onward(phase)) + Advances(first, Onward(Fresh));
    var started := Step(Step(s, Recover), Start);
    BothDispatch(Step(started, claim), e, first, id, phase);
    events := [Start, claim] + paths;
    TwoFirst(Step(s, Recover), Start, claim, paths);
    NoRecoveryIsCalm(Step(s, Recover), events);
    TwiceIsNotDistinct(s.wire, id);
  }

  lemma TwoFirst(s: State, one: Event, two: Event, rest: seq<Event>)
    ensures Steps(s, [one, two] + rest) == Steps(Step(Step(s, one), two), rest)
  {
    FoldFront(Step, s, [one, two] + rest);
    assert ([one, two] + rest)[1..] == [two] + rest;
    FoldFront(Step, Step(s, one), [two] + rest);
    assert ([two] + rest)[1..] == rest;
  }

  lemma TwiceIsNotDistinct(wire: seq<Id>, id: Id)
    ensures !Distinct(wire + [id] + [id])
  {
    var twice := wire + [id] + [id];
    assert twice[|wire|] == twice[|wire| + 1];
  }

  /** Recovery is safe if and only if it is calm: otherwise some run can be dispatched twice. */
  lemma RecoverySafeIffCalm(s: State)
    requires Safe(s)
    ensures Calm(s, Recover) <==> forall events :: CalmRun(Step(s, Recover), events) ==> Distinct(Steps(Step(s, Recover), events).wire)
  {
    if Calm(s, Recover) {
      RecoverSafe(s);
      forall events | CalmRun(Step(s, Recover), events) ensures Distinct(Steps(Step(s, Recover), events).wire) {
        RunSafe(Step(s, Recover), events);
      }
    } else {
      var events := RecoveryBesideExecution(s);
    }
  }

  // ---------- it does happen ----------

  const WAITING := Run(0, Principal("tenant", "subject", "client"), "bot", 0, QUEUED, 0, None, None, None)

  /** One run is queued and claimed; its execution has not stored a thread yet. */
  const CLAIMED_ONCE := [Queued(map[0 := WAITING]), Event.Claim([0], 0)]

  lemma ClaimedOnceState()
    ensures var s := Steps(EMPTY, CLAIMED_ONCE);
            s.executions == map[0 := Execution(0, Fresh)] && s.runs == map[0 := WAITING.(state := CLAIMED, attempts := 1)]
  {
    var queued := Step(EMPTY, CLAIMED_ONCE[0]);
    TwoFirst(EMPTY, CLAIMED_ONCE[0], CLAIMED_ONCE[1], []);
    assert CLAIMED_ONCE + [] == CLAIMED_ONCE;
    assert queued.runs == map[0 := WAITING];
    assert CanClaim(queued, [0], 0);
    assert Beginning([0], 0, 0) == Execution(0, Fresh);
    assert Started(queued.executions, [0], 0) == map[0 := Execution(0, Fresh)];
    assert Claimed(queued.runs, [0]) == map[0 := WAITING.(state := CLAIMED, attempts := 1)];
  }

  /** From the empty store: recovering then, and only then, leads to a second dispatch. */
  lemma SecondDispatchReachable() returns (events: seq<Event>)
    ensures CalmRun(EMPTY, CLAIMED_ONCE) && !Calm(Steps(EMPTY, CLAIMED_ONCE), Recover)
    ensures CalmRun(Step(Steps(EMPTY, CLAIMED_ONCE), Recover), events)
    ensures !Distinct(Steps(EMPTY, CLAIMED_ONCE + [Recover] + events).wire)
  {
    NoRecoveryIsCalm(EMPTY, CLAIMED_ONCE);
    RunSafe(EMPTY, CLAIMED_ONCE);
    ClaimedOnceState();
    var s := Steps(EMPTY, CLAIMED_ONCE);
    assert 0 in s.executions && Interrupted(s.runs[s.executions[0].runId]);
    events := RecoveryBesideExecution(s);
    StepsAppend(EMPTY, CLAIMED_ONCE + [Recover], events);
    assert (CLAIMED_ONCE + [Recover])[..2] == CLAIMED_ONCE;
  }
}
