/** In no run of the schedule runner is `turn/start` sent twice for one scheduled run. */
module RunnerTheorems {
  import opened Options
  import opened ScheduleStore
  import opened ScheduleRunner
  import opened ScheduleTheorems

  /** The execution has not stored a thread yet. */
  predicate Early(phase: Phase) {
    !phase.Composing? && !phase.Sent? && !phase.Failing? && !phase.Tail?
  }

  predicate Active(phase: Phase) {
    Early(phase) || phase.Composing? || phase.Sent?
  }

  /** A QUEUED, AUTH_REQUIRED or CLAIMED run has no thread. */
  predicate Threadless(run: Run) {
    Pending(run) || run.state == CLAIMED ==> run.threadId.None?
  }

  predicate HasThread(runs: map<Id, Run>, id: Id) {
    id in runs && runs[id].threadId.Some?
  }

  predicate RowsSafe(runs: map<Id, Run>) {
    forall id :: id in runs ==> Threadless(runs[id])
  }

  /** An active execution's run is not pending; it has a thread exactly once the execution has stored one. */
  predicate ExecutionSafe(runs: map<Id, Run>, x: Execution) {
    && x.runId in runs
    && (Active(x.phase) ==> !Pending(runs[x.runId]))
    && (Early(x.phase) ==> runs[x.runId].threadId.None?)
    && (x.phase.Composing? || x.phase.Sent? ==> runs[x.runId].threadId.Some?)
  }

  predicate ExecutionsSafe(runs: map<Id, Run>, executions: map<nat, Execution>) {
    && (forall e :: e in executions ==> ExecutionSafe(runs, executions[e]))
    && forall e, f :: e in executions && f in executions && Rivals(executions[e], executions[f]) ==> e == f
  }

  predicate Rivals(x: Execution, y: Execution) {
    x.runId == y.runId && Active(x.phase) && Active(y.phase)
  }

  predicate Distinct(wire: seq<Id>) {
    forall i, j :: 0 <= i < j < |wire| ==> wire[i] != wire[j]
  }

  predicate WireSafe(s: State) {
    && Distinct(s.wire)
    && (forall id :: id in s.wire ==> HasThread(s.runs, id))
    && forall e :: e in s.executions && s.executions[e].phase.Composing? ==> s.executions[e].runId !in s.wire
  }

  predicate Safe(s: State) {
    && RowsSafe(s.runs) && ExecutionsSafe(s.runs, s.executions) && WireSafe(s)
    && (forall k :: k in s.activeRuns ==> HasThread(s.runs, s.activeRuns[k]))
    && forall id :: id in s.recovering ==> HasThread(s.runs, id)
  }

  // ---------- updates of rows ----------

  /** Rows may change state as long as no thread changes and nothing becomes pending. */
  predicate Gentle(before: map<Id, Run>, after: map<Id, Run>) {
    && before.Keys <= after.Keys
    && (forall id :: id in after ==> Threadless(after[id]))
    && forall id :: id in before ==> after[id].threadId == before[id].threadId && (Pending(after[id]) ==> Pending(before[id]))
  }

  lemma GentleSafe(s: State, after: map<Id, Run>)
    requires Safe(s) && Gentle(s.runs, after)
    ensures Safe(s.(runs := after))
  {
    forall e | e in s.executions ensures ExecutionSafe(after, s.executions[e]) {
      assert ExecutionSafe(s.runs, s.executions[e]);
    }
  }

  lemma ReleaseSafe(s: State, id: Id)
    requires Safe(s)
    ensures Safe(Release(s, id)) && Release(s, id).runs == s.runs && Release(s, id).wire == s.wire
  {
  }

  // ---------- executions ----------

  lemma ClaimedRow(s: State, candidates: seq<Id>, first: nat, e: nat)
    requires Safe(s) && CanClaim(s, candidates, first) && e in Started(s.executions, candidates, first)
    ensures ExecutionSafe(Claimed(s.runs, candidates), Started(s.executions, candidates, first)[e])
  {
    if e in s.executions {
      assert ExecutionSafe(s.runs, s.executions[e]);
    }
  }

  lemma ClaimedRows(runs: map<Id, Run>, candidates: seq<Id>)
    requires RowsSafe(runs) && forall id :: id in candidates ==> id in runs && runs[id].state == QUEUED
    ensures RowsSafe(Claimed(runs, candidates)) && forall id :: HasThread(runs, id) ==> HasThread(Claimed(runs, candidates), id)
  {
  }

  lemma ClaimSafe(s: State, candidates: seq<Id>, first: nat)
    requires Safe(s) && CanClaim(s, candidates, first)
    ensures Safe(s.(runs := Claimed(s.runs, candidates), executions := Started(s.executions, candidates, first)))
  {
    var runs, executions := Claimed(s.runs, candidates), Started(s.executions, candidates, first);
    ClaimedRows(s.runs, candidates);
    forall e | e in executions ensures ExecutionSafe(runs, executions[e]) {
      ClaimedRow(s, candidates, first, e);
    }
    forall e, f | e in executions && f in executions && Rivals(executions[e], executions[f]) ensures e == f {
      OneStarts(s, candidates, first, e, f);
    }
    ClaimedWire(s, runs, executions);
  }

  lemma ClaimedWire(s: State, runs: map<Id, Run>, executions: map<nat, Execution>)
    requires WireSafe(s) && forall id :: HasThread(s.runs, id) ==> HasThread(runs, id)
    requires forall e :: e in executions ==> (e in s.executions && executions[e] == s.executions[e]) || executions[e].phase.Fresh?
    ensures WireSafe(s.(runs := runs, executions := executions))
  {
  }

  lemma OneStarts(s: State, candidates: seq<Id>, first: nat, e: nat, f: nat)
    requires Safe(s) && CanClaim(s, candidates, first)
    requires var executions := Started(s.executions, candidates, first);
             e in executions && f in executions && Rivals(executions[e], executions[f])
    ensures e == f
  {
    assert e in s.executions ==> ExecutionSafe(s.runs, s.executions[e]);
    assert f in s.executions ==> ExecutionSafe(s.runs, s.executions[f]);
    if e !in s.executions && f !in s.executions {
      assert candidates[e - first] == candidates[f - first];
    }
  }

  /** What moves look like: a run becomes pending again only from an early phase that ends, a thread is
      stored on entering `Composing` or after sending, and sending is leaving `Composing` for `Sent`. */
  predicate Fits(phase: Phase, move: Move) {
    && (Active(move.phase) ==> Active(phase))
    && (move.update.Some? ==>
        var u := move.update.value;
        && u.state != CLAIMED
        && (u.state == QUEUED || u.state == AUTH_REQUIRED ==> Early(phase) && move.phase.Tail? && u.thread.None?)
        && (u.thread.Some? ==> (phase.Preparing? && move.phase.Composing?) || (phase.Sent? && move.phase.Tail?)))
    && (Early(move.phase) ==> Early(phase))
    && (move.phase.Composing? ==> phase == move.phase || (phase.Preparing? && move.update.Some? && move.update.value.thread.Some?))
    && (move.phase.Sent? ==> phase.Sent? || phase.Composing?)
    && (move.sends <==> phase.Composing? && move.phase.Sent?)
  }

  lemma MovesFit(phase: Phase, outcome: Outcome, stopped: bool)
    ensures Fits(phase, MoveOf(phase, outcome, stopped))
  {
    if phase.Fresh? || phase.Issuing? || phase.Verifying? || phase.Gating? || phase.Opening? || phase.Initializing? {
      ExecuteFits(phase, outcome, stopped);
    } else {
      StartTurnFits(phase, outcome, stopped);
    }
  }

  lemma ExecuteFits(phase: Phase, outcome: Outcome, stopped: bool)
    requires phase.Fresh? || phase.Issuing? || phase.Verifying? || phase.Gating? || phase.Opening? || phase.Initializing?
    ensures Fits(phase, ExecuteMove(phase, outcome, stopped))
  {
  }

  lemma StartTurnFits(phase: Phase, outcome: Outcome, stopped: bool)
    requires phase.Claiming? || phase.Preparing? || phase.Composing? || phase.Sent? || phase.Failing? || phase.Tail?
    ensures Fits(phase, StartTurnMove(phase, outcome, stopped))
  {
  }

  lemma MoveSafe(runs: map<Id, Run>, x: Execution, move: Move)
    requires RowsSafe(runs) && ExecutionSafe(runs, x) && Fits(x.phase, move)
    ensures var after := Updated(runs, x.runId, move.update);
            && RowsSafe(after) && ExecutionSafe(after, Execution(x.runId, move.phase))
            && (Pending(after[x.runId]) ==> Pending(runs[x.runId]) || Active(x.phase))
            && (runs[x.runId].threadId.Some? ==> after[x.runId].threadId.Some?)
            && (runs[x.runId].threadId.None? && after[x.runId].threadId.Some? ==> Active(x.phase))
  {
  }

  lemma MovedRows(s: State, e: nat, move: Move)
    requires Safe(s) && e in s.executions && Fits(s.executions[e].phase, move)
    ensures var after := Moved(s, e, move); RowsSafe(after.runs) && ExecutionsSafe(after.runs, after.executions)
  {
    var x, after := s.executions[e], Moved(s, e, move);
    MoveSafe(s.runs, x, move);
    forall f | f in after.executions ensures ExecutionSafe(after.runs, after.executions[f]) {
      if f != e {
        OtherSafe(s, e, move, f);
      }
    }
  }

  lemma OtherSafe(s: State, e: nat, move: Move, f: nat)
    requires Safe(s) && e in s.executions && f in s.executions && e != f && Fits(s.executions[e].phase, move)
    ensures ExecutionSafe(Moved(s, e, move).runs, s.executions[f])
  {
    MoveSafe(s.runs, s.executions[e], move);
    assert ExecutionSafe(s.runs, s.executions[f]);
    assert !Rivals(s.executions[e], s.executions[f]);
  }

  lemma MovedWire(s: State, e: nat, move: Move)
    requires Safe(s) && e in s.executions && Fits(s.executions[e].phase, move)
    ensures WireSafe(Moved(s, e, move))
    ensures forall id :: HasThread(s.runs, id) ==> HasThread(Moved(s, e, move).runs, id)
  {
    var x, after := s.executions[e], Moved(s, e, move);
    MoveSafe(s.runs, x, move);
    assert ExecutionSafe(s.runs, x);
    forall f | f in after.executions && after.executions[f].phase.Composing? ensures after.executions[f].runId !in after.wire {
      if f != e {
        assert !Rivals(x, s.executions[f]);
      }
    }
  }

  /** With the runtime opened or the key added that the step also records. */
  lemma MovedSafe(s: State, e: nat, move: Move, runtimes: map<Id, Runtime>, key: TurnKey)
    requires Safe(s) && e in s.executions && Fits(s.executions[e].phase, move)
    ensures Safe(Moved(s, e, move)) && Safe(Moved(s, e, move).(runtimes := runtimes))
    ensures s.executions[e].phase.Sent? ==> Safe(Moved(s, e, move).(activeRuns := s.activeRuns[key := s.executions[e].runId]))
  {
    MovedRows(s, e, move);
    MovedWire(s, e, move);
    assert ExecutionSafe(s.runs, s.executions[e]);
  }

  lemma AdvanceSafe(s: State, e: nat, outcome: Outcome)
    requires Safe(s)
    ensures Safe(AdvanceExecution(s, e, outcome))
  {
    if e in s.executions {
      var x := s.executions[e];
      MovesFit(x.phase, outcome, s.stopped);
      MovedSafe(s, e, MoveOf(x.phase, outcome, s.stopped),
                if outcome.Opened? then s.runtimes[x.runId := Runtime(outcome.session, false)] else s.runtimes,
                if outcome.Answered? then (outcome.session, outcome.turn) else ("", ""));
    }
  }

  // ---------- every other step ----------

  lemma QueuedSafe(s: State, queued: map<Id, Run>)
    requires Safe(s) && CanQueue(s.runs, queued)
    ensures Safe(s.(runs := s.runs + queued))
  {
    GentleSafe(s, s.runs + queued);
  }

  lemma PendingRowsSafe(s: State, event: Event)
    requires Safe(s) && (event.Coalesce? || event.Resume?)
    ensures Safe(Step(s, event))
  {
    GentleSafe(s, if event.Coalesce? then Coalesced(s.runs) else Resumed(s.runs, event.who));
  }

  lemma CancelSafe(s: State, who: Principal, botId: string)
    requires Safe(s)
    ensures Safe(Step(s, Cancel(who, botId)))
  {
    GentleSafe(s, map id | id in s.runs :: if OfBot(s.runs[id], who, botId) then Cancelled(s.runs[id]) else s.runs[id]);
  }

  lemma MarkSafe(s: State, id: Id, update: Update)
    requires Safe(s) && HasThread(s.runs, id) && update.state != QUEUED && update.state != AUTH_REQUIRED && update.state != CLAIMED
    ensures Safe(s.(runs := Updated(s.runs, id, Some(update))))
  {
    var after := Updated(s.runs, id, Some(update));
    forall e | e in s.executions ensures ExecutionSafe(after, s.executions[e]) {
      assert ExecutionSafe(s.runs, s.executions[e]);
    }
  }

  lemma TurnCompletedSafe(s: State, key: TurnKey, scheduleRun: Option<Id>, status: Option<string>, thread: Option<string>)
    requires Safe(s)
    ensures Safe(OnTurnCompleted(s, key, scheduleRun, status, thread))
  {
    if key in s.activeRuns {
      var state := if status == Some("completed") then COMPLETED else if status == Some("failed") then FAILED else BLOCKED;
      MarkSafe(s, s.activeRuns[key], Update(state, thread, Some(key.1), if state == COMPLETED then None else Some(NativeTurnError(status))));
    }
  }

  lemma ExitedSafe(s: State, session: Session, owned: Option<Id>)
    requires Safe(s)
    ensures Safe(Exited(s, session, owned))
  {
    GentleSafe(s, Exited(s, session, owned).runs);
    KeysDropped(s.(runs := Exited(s, session, owned).runs), Exited(s, session, owned).activeRuns);
  }

  lemma KeysDropped(s: State, kept: map<TurnKey, Id>)
    requires Safe(s) && forall k :: k in kept ==> k in s.activeRuns && kept[k] == s.activeRuns[k]
    ensures Safe(s.(activeRuns := kept))
  {
  }

  lemma ExitSafe(s: State, session: Session, scheduleRun: Option<Id>)
    requires Safe(s)
    ensures Safe(OnExit(s, session, scheduleRun))
  {
    ExitedSafe(s, session, scheduleRun);
    ExitedSafe(s, session, None);
    if scheduleRun.Some? {
      ReleaseSafe(Exited(s, session, scheduleRun), scheduleRun.value);
    }
  }

  lemma StopSafe(s: State)
    requires Safe(s)
    ensures Safe(OnStop(s))
  {
    GentleSafe(s, OnStop(s).runs);
  }

  lemma GiveUpSafe(s: State, id: Id, error: Option<string>)
    requires Safe(s)
    ensures Safe(s.(runs := Updated(s.runs, id, Some(Update(BLOCKED, None, None, error)))))
  {
    GentleSafe(s, Updated(s.runs, id, Some(Update(BLOCKED, None, None, error))));
  }

  lemma PickSafe(s: State, id: Id)
    requires Safe(s)
    ensures Safe(OnPick(s, id))
  {
    GiveUpSafe(s, id, Some("SCHEDULE_RECOVERY_THREAD_MISSING"));
  }

  lemma ReconciledSafe(s: State, id: Id, state: RunState, turn: Option<string>, key: Option<TurnKey>, error: Option<string>)
    requires Safe(s)
    ensures Safe(OnReconciled(s, id, state, turn, key, error))
  {
    if id in s.recovering && RecoveredTo(state) {
      MarkSafe(s, id, Update(state, None, turn, error));
    }
  }

  /** The run is one that recovery would queue again, or doubt. */
  predicate Interrupted(run: Run) {
    run.state == CLAIMED || run.state == STARTING
  }

  /** Recovery runs while no claimed or starting run has an execution still before its thread: so it is when a
      process starts. */
  predicate Calm(s: State, event: Event) {
    event.Recover? ==> forall e :: e in s.executions && s.executions[e].runId in s.runs && Early(s.executions[e].phase) ==>
      !Interrupted(s.runs[s.executions[e].runId])
  }

  lemma RecoveredRow(runs: map<Id, Run>, x: Execution)
    requires ExecutionSafe(runs, x) && (Early(x.phase) ==> !Interrupted(runs[x.runId]))
    ensures ExecutionSafe(MapRuns(Recovered, runs), x)
  {
  }

  lemma RecoveredRows(runs: map<Id, Run>)
    requires RowsSafe(runs)
    ensures RowsSafe(MapRuns(Recovered, runs))
    ensures forall id :: HasThread(MapRuns(Recovered, runs), id) <==> HasThread(runs, id)
  {
  }

  lemma RecoverSafe(s: State)
    requires Safe(s) && Calm(s, Recover)
    ensures Safe(Step(s, Recover))
  {
    RecoveredRows(s.runs);
    forall e | e in s.executions ensures ExecutionSafe(MapRuns(Recovered, s.runs), s.executions[e]) {
      assert ExecutionSafe(s.runs, s.executions[e]);
      RecoveredRow(s.runs, s.executions[e]);
    }
  }

  lemma StepSafe(s: State, event: Event)
    requires Safe(s) && Calm(s, event)
    ensures Safe(Step(s, event))
  {
    match event
    case Queued(queued) =>
      if CanQueue(s.runs, queued) {
        QueuedSafe(s, queued);
      }
    case Coalesce => PendingRowsSafe(s, event);
    case Resume(_) => PendingRowsSafe(s, event);
    case Cancel(who, botId) => CancelSafe(s, who, botId);
    case Claim(candidates, first) =>
      if CanClaim(s, candidates, first) {
        ClaimSafe(s, candidates, first);
      }
    case Advance(e, outcome) => AdvanceSafe(s, e, outcome);
    case TurnCompleted(session, turn, scheduleRun, status, thread) => TurnCompletedSafe(s, (session, turn), scheduleRun, status, thread);
    case RuntimeExited(session, scheduleRun) => ExitSafe(s, session, scheduleRun);
    case ReleaseRuntime(id) => ReleaseSafe(s, id);
    case Released(_) =>
    case Start =>
    case Stop => StopSafe(s);
    case PickUncertain(id) => PickSafe(s, id);
    case Reconciled(id, state, turn, key, error) => ReconciledSafe(s, id, state, turn, key, error);
    case Crash =>
    case Recover => RecoverSafe(s);
  }

  // ---------- whole runs ----------

  const EMPTY := State(map[], map[], map[], map[], {}, false, [])

  function Fold(f: (State, Event) -> State, s: State, events: seq<Event>): State
    decreases |events|
  {
    if events == [] then s else f(Fold(f, s, events[..|events| - 1]), events[|events| - 1])
  }

  function Steps(s: State, events: seq<Event>): State {
    Fold(Step, s, events)
  }

  predicate CalmRun(s: State, events: seq<Event>) {
    forall k :: 0 <= k < |events| ==> Calm(Steps(s, events[..k]), events[k])
  }

  lemma {:induction false} RunSafe(s: State, events: seq<Event>)
    requires Safe(s) && CalmRun(s, events)
    ensures Safe(Steps(s, events))
    decreases |events|
  {
    if events != [] {
      var init := events[..|events| - 1];
      forall k | 0 <= k < |init| ensures Calm(Steps(s, init[..k]), init[k]) {
        assert init[..k] == events[..k];
        assert Calm(Steps(s, events[..k]), events[k]);
      }
      RunSafe(s, init);
      StepSafe(Steps(s, init), events[|events| - 1]);
    }
  }

  /** Over every interleaving of ticks, executions, callbacks, stops, crashes and restarts, `turn/start` is sent at
      most once per run, only for runs that have their thread, and a run that can still be claimed has none. */
  lemma AtMostOneDispatch(events: seq<Event>)
    requires CalmRun(EMPTY, events)
    ensures var s := Steps(EMPTY, events);
            && Distinct(s.wire) && (forall id :: id in s.wire ==> HasThread(s.runs, id))
            && forall id :: id in s.runs ==> Threadless(s.runs[id])
  {
    RunSafe(EMPTY, events);
  }

  lemma StepKeepsThread(s: State, event: Event, id: Id)
    requires HasThread(s.runs, id)
    ensures HasThread(Step(s, event).runs, id)
  {
    if event.Advance? && event.execution in s.executions {
      MovedKeepsThread(s, event.execution, MoveOf(s.executions[event.execution].phase, event.outcome, s.stopped), id);
    }
  }

  lemma MovedKeepsThread(s: State, e: nat, move: Move, id: Id)
    requires e in s.executions && HasThread(s.runs, id)
    ensures HasThread(Moved(s, e, move).runs, id)
  {
  }

  /** A stored thread is never cleared, so a dispatched run is never queued, parked for a login or claimed again. */
  lemma {:induction false} DispatchedForGood(events: seq<Event>, k: nat, id: Id)
    requires CalmRun(EMPTY, events) && k <= |events| && HasThread(Steps(EMPTY, events[..k]).runs, id)
    ensures HasThread(Steps(EMPTY, events).runs, id)
    ensures !Pending(Steps(EMPTY, events).runs[id]) && Steps(EMPTY, events).runs[id].state != CLAIMED
    decreases |events|
  {
    RunSafe(EMPTY, events);
    if k == |events| {
      assert events[..k] == events;
    } else {
      var init := events[..|events| - 1];
      assert init[..k] == events[..k];
      forall j | 0 <= j < |init| ensures Calm(Steps(EMPTY, init[..j]), init[j]) {
        assert init[..j] == events[..j];
        assert Calm(Steps(EMPTY, events[..j]), events[j]);
      }
      DispatchedForGood(init, k, id);
      StepKeepsThread(Steps(EMPTY, init), events[|events| - 1], id);
    }
  }

  // ---------- the store's own operations are events ----------

  /** A process that starts after a crash recovers calmly. */
  lemma CrashIsCalm(s: State)
    ensures Calm(Step(s, Crash), Recover)
  {
  }

  /** `claimDue` is the queueing of new runs followed by coalescing. */
  lemma ClaimDueIsQueueing(s: State, issued: Id, schedules: map<Id, Schedule>, due: seq<Id>)
    requires forall id :: id in due ==> id in schedules && schedules[id].nextRunAt.Some?
    requires OneRunPerSlot(s.runs) && forall id :: id in s.runs ==> id < issued
    ensures var after := QueueSlots(Queue(s.runs, issued), schedules, due).runs;
            Step(Step(s, Queued(after - s.runs.Keys)), Coalesce).runs == Coalesced(after)
  {
    var after := QueueSlots(Queue(s.runs, issued), schedules, due).runs;
    QueueingKeeps(Queue(s.runs, issued), schedules, due);
    NewRunsCanQueue(s.runs, issued, schedules, due, after);
    OldAndNew(s.runs, after);
  }

  lemma NewRunsCanQueue(runs: map<Id, Run>, issued: Id, schedules: map<Id, Schedule>, due: seq<Id>, after: map<Id, Run>)
    requires forall id :: id in due ==> id in schedules && schedules[id].nextRunAt.Some?
    requires after == QueueSlots(Queue(runs, issued), schedules, due).runs
    ensures CanQueue(runs, after - runs.Keys)
  {
    forall id | id in after && id !in runs ensures after[id].state == QUEUED && after[id].threadId.None? {
      OnlyDueSlotsQueued(Queue(runs, issued), schedules, due, id);
    }
  }

  lemma OldAndNew(before: map<Id, Run>, after: map<Id, Run>)
    requires forall id :: id in before ==> id in after && after[id] == before[id]
    ensures before + (after - before.Keys) == after
  {
  }

  /** `claimRunnable` is coalescing followed by a claim. */
  lemma ClaimRunnableIsClaim(s: State, candidates: seq<Id>, live: set<string>, limit: int, first: nat)
    requires QueuedQuery(Coalesced(s.runs), candidates, live, limit) && forall e :: e in s.executions ==> e < first
    ensures Step(Step(s, Coalesce), Claim(candidates, first)).runs == Claimed(Coalesced(s.runs), candidates)
  {
    assert CanClaim(Step(s, Coalesce), candidates, first);
  }
}
