/** What a scheduled run is left as, and on whose word. */
module RunOutcomes {
  import opened Options
  import opened ScheduleStore
  import opened ScheduleRunner
  import opened RunnerTheorems

  // ---------- what the runner names is in the table ----------

  predicate Known(s: State) {
    && (forall e :: e in s.executions ==> s.executions[e].runId in s.runs)
    && (forall k :: k in s.activeRuns ==> s.activeRuns[k] in s.runs)
    && forall id :: id in s.recovering ==> id in s.runs
  }

  lemma StepKnown(s: State, e: Event)
    requires Known(s)
    ensures Known(Step(s, e)) && s.runs.Keys <= Step(s, e).runs.Keys
  {
    match e
    case Advance(x, outcome) => AdvanceKnown(s, x, outcome);
    case Claim(candidates, first) => ClaimKnown(s, candidates, first);
    case RuntimeExited(session, scheduleRun) => ExitKnown(s, session, scheduleRun);
    case _ => OtherKnown(s, e);
  }

  lemma AdvanceKnown(s: State, x: nat, outcome: Outcome)
    requires Known(s)
    ensures Known(AdvanceExecution(s, x, outcome)) && s.runs.Keys <= AdvanceExecution(s, x, outcome).runs.Keys
  {
  }

  lemma ClaimKnown(s: State, candidates: seq<Id>, first: nat)
    requires Known(s)
    ensures Known(Step(s, Claim(candidates, first))) && s.runs.Keys <= Step(s, Claim(candidates, first)).runs.Keys
  {
  }

  lemma ExitKnown(s: State, session: Session, scheduleRun: Option<Id>)
    requires Known(s)
    ensures Known(OnExit(s, session, scheduleRun)) && s.runs.Keys <= OnExit(s, session, scheduleRun).runs.Keys
  {
  }

  lemma OtherKnown(s: State, e: Event)
    requires Known(s) && !e.Advance? && !e.Claim? && !e.RuntimeExited?
    ensures Known(Step(s, e)) && s.runs.Keys <= Step(s, e).runs.Keys
  {
    if e.TurnCompleted? || e.Reconciled? || e.PickUncertain? {
      NativeKnown(s, e);
    } else {
      TableKnown(s, e);
    }
  }

  lemma NativeKnown(s: State, e: Event)
    requires Known(s) && (e.TurnCompleted? || e.Reconciled? || e.PickUncertain?)
    ensures Known(Step(s, e)) && s.runs.Keys <= Step(s, e).runs.Keys
  {
  }

  lemma TableKnown(s: State, e: Event)
    requires Known(s) && !e.Advance? && !e.Claim? && !e.RuntimeExited? && !e.TurnCompleted? && !e.Reconciled? && !e.PickUncertain?
    ensures Known(Step(s, e)) && s.runs.Keys <= Step(s, e).runs.Keys
  {
  }

  lemma StepsNext(events: seq<Event>, k: nat)
    requires k < |events|
    ensures Steps(EMPTY, events[..k + 1]) == Step(Steps(EMPTY, events[..k]), events[k])
  {
    assert events[..k + 1][..k] == events[..k];
  }

  lemma {:induction false} RunKnown(events: seq<Event>)
    ensures Known(Steps(EMPTY, events))
    decreases |events|
  {
    if events != [] {
      RunKnown(events[..|events| - 1]);
      StepKnown(Steps(EMPTY, events[..|events| - 1]), events[|events| - 1]);
    }
  }

  // ---------- a native terminal event ----------

  /** The turn is registered, and the runtime it came from is not being stopped. */
  predicate Heeded(s: State, e: Event) {
    && e.TurnCompleted? && (e.session, e.turn) in s.activeRuns
    && !(e.scheduleRun.Some? && e.scheduleRun.value in s.runtimes && s.runtimes[e.scheduleRun.value].stopping)
  }

  predicate EndedBy(run: Run, status: Option<string>, turn: string) {
    && (run.state == COMPLETED <==> status == Some("completed"))
    && (run.state == FAILED <==> status == Some("failed"))
    && (run.state == BLOCKED <==> status != Some("completed") && status != Some("failed"))
    && run.turnId == Some(turn) && (run.error.None? <==> run.state == COMPLETED)
  }

  lemma HeededEnds(s: State, e: Event)
    requires Known(s) && Heeded(s, e)
    ensures var id, after := s.activeRuns[(e.session, e.turn)], Step(s, e);
            && id in s.runs && id in after.runs && EndedBy(after.runs[id], e.status, e.turn)
            && (e.thread.Some? ==> after.runs[id].threadId == e.thread)
            && after == s.(runs := s.runs[id := after.runs[id]], activeRuns := s.activeRuns - {(e.session, e.turn)})
  {
  }

  /** In every run: a native terminal event ends exactly the run its turn is registered for, as it says, and names the
      turn; any other changes nothing. */
  lemma TurnEndsItsRun(events: seq<Event>, j: nat)
    requires j < |events| && events[j].TurnCompleted?
    ensures var s, after, e := Steps(EMPTY, events[..j]), Steps(EMPTY, events[..j + 1]), events[j];
            if Heeded(s, e) then
              var id := s.activeRuns[(e.session, e.turn)];
              && id in after.runs && EndedBy(after.runs[id], e.status, e.turn)
              && after == s.(runs := s.runs[id := after.runs[id]], activeRuns := s.activeRuns - {(e.session, e.turn)})
            else after == s
  {
    StepsNext(events, j);
    RunKnown(events[..j]);
    if Heeded(Steps(EMPTY, events[..j]), events[j]) {
      HeededEnds(Steps(EMPTY, events[..j]), events[j]);
    }
  }

  /** The step makes a turn known as a run's: the runtime answered that it goes on, or recovery found it going on. */
  predicate Registers(s: State, e: Event, key: TurnKey, id: Id) {
    || (e.Advance? && e.execution in s.executions && s.executions[e.execution].runId == id && s.executions[e.execution].phase.Sent?
        && e.outcome.Answered? && (e.outcome.session, e.outcome.turn) == key
        && e.outcome.status != Some("completed") && e.outcome.status != Some("failed") && e.outcome.status != Some("interrupted"))
    || (e.Reconciled? && e.id == id && id in s.recovering && e.state == RUNNING && e.key == Some(key))
  }

  lemma RegisteringIs(s: State, e: Event, key: TurnKey, id: Id)
    ensures Registers(s, e, key, id) ==> key in Step(s, e).activeRuns && Step(s, e).activeRuns[key] == id
    ensures key in Step(s, e).activeRuns && Step(s, e).activeRuns[key] == id ==>
              (key in s.activeRuns && s.activeRuns[key] == id) || Registers(s, e, key, id)
  {
  }

  predicate RegisteredIn(events: seq<Event>, key: TurnKey, id: Id) {
    exists j :: 0 <= j < |events| && Registers(Steps(EMPTY, events[..j]), events[j], key, id)
  }

  /** A turn is taken as a run's only after the runtime, or recovery, has said so. */
  lemma {:induction false} ActiveWasRegistered(events: seq<Event>, key: TurnKey)
    requires key in Steps(EMPTY, events).activeRuns
    ensures RegisteredIn(events, key, Steps(EMPTY, events).activeRuns[key])
    decreases |events|
  {
    var n, id := |events| - 1, Steps(EMPTY, events).activeRuns[key];
    RegisteringIs(Steps(EMPTY, events[..n]), events[n], key, id);
    if !Registers(Steps(EMPTY, events[..n]), events[n], key, id) {
      ActiveWasRegistered(events[..n], key);
      var j :| 0 <= j < n && Registers(Steps(EMPTY, events[..n][..j]), events[..n][j], key, id);
      assert events[..n][..j] == events[..j];
      assert Registers(Steps(EMPTY, events[..j]), events[j], key, id);
    }
  }

  // ---------- who says that a run completed or failed ----------

  function Word(state: RunState): string {
    if state == COMPLETED then "completed" else "failed"
  }

  /** The event says this of the run: a native terminal event of its turn, the answer to its turn/start, or recovery. */
  predicate Says(s: State, e: Event, id: Id, state: RunState) {
    || (Heeded(s, e) && s.activeRuns[(e.session, e.turn)] == id && e.status == Some(Word(state)))
    || (e.Advance? && e.execution in s.executions && s.executions[e.execution].runId == id && s.executions[e.execution].phase.Sent?
        && e.outcome.Answered? && e.outcome.status == Some(Word(state)))
    || (e.Reconciled? && e.id == id && id in s.recovering && e.state == state)
  }

  lemma MoveSays(phase: Phase, outcome: Outcome, stopped: bool)
    ensures var update := MoveOf(phase, outcome, stopped).update;
            update.Some? && (update.value.state == COMPLETED || update.value.state == FAILED) ==>
              phase.Sent? && outcome.Answered? && outcome.status == Some(Word(update.value.state))
  {
  }

  lemma StepSays(s: State, e: Event, id: Id, state: RunState)
    requires state == COMPLETED || state == FAILED
    requires id in Step(s, e).runs && Step(s, e).runs[id].state == state
    ensures (id in s.runs && s.runs[id].state == state) || Says(s, e, id, state)
  {
    if e.Advance? {
      AdvanceSays(s, e.execution, e.outcome, id, state);
    } else if e.RuntimeExited? {
      ExitSays(s, e.session, e.scheduleRun, id);
    } else if e.TurnCompleted? || e.Reconciled? {
      NativeSays(s, e, id, state);
    } else {
      TableSays(s, e, id, state);
    }
  }

  lemma ExitSays(s: State, session: Session, scheduleRun: Option<Id>, id: Id)
    requires id in OnExit(s, session, scheduleRun).runs
    ensures id in s.runs && (OnExit(s, session, scheduleRun).runs[id] == s.runs[id] || OnExit(s, session, scheduleRun).runs[id].state == UNCERTAIN)
  {
  }

  lemma AdvanceSays(s: State, x: nat, outcome: Outcome, id: Id, state: RunState)
    requires state == COMPLETED || state == FAILED
    requires id in AdvanceExecution(s, x, outcome).runs && AdvanceExecution(s, x, outcome).runs[id].state == state
    ensures (id in s.runs && s.runs[id].state == state) || Says(s, Advance(x, outcome), id, state)
  {
    if x in s.executions {
      MoveSays(s.executions[x].phase, outcome, s.stopped);
    }
  }

  lemma NativeSays(s: State, e: Event, id: Id, state: RunState)
    requires (state == COMPLETED || state == FAILED) && (e.TurnCompleted? || e.Reconciled?)
    requires id in Step(s, e).runs && Step(s, e).runs[id].state == state
    ensures (id in s.runs && s.runs[id].state == state) || Says(s, e, id, state)
  {
  }

  lemma TableSays(s: State, e: Event, id: Id, state: RunState)
    requires (state == COMPLETED || state == FAILED) && !e.Advance? && !e.RuntimeExited? && !e.TurnCompleted? && !e.Reconciled?
    requires id in Step(s, e).runs && Step(s, e).runs[id].state == state
    ensures id in s.runs && s.runs[id].state == state
  {
    if e.Queued? || e.Coalesce? || e.Resume? || e.Cancel? || e.Claim? || e.Recover? {
      StoreSays(s, e, id, state);
    } else {
      RuntimeSays(s, e, id, state);
    }
  }

  lemma StoreSays(s: State, e: Event, id: Id, state: RunState)
    requires (state == COMPLETED || state == FAILED) && (e.Queued? || e.Coalesce? || e.Resume? || e.Cancel? || e.Claim? || e.Recover?)
    requires id in Step(s, e).runs && Step(s, e).runs[id].state == state
    ensures id in s.runs && s.runs[id].state == state
  {
  }

  lemma RuntimeSays(s: State, e: Event, id: Id, state: RunState)
    requires state == COMPLETED || state == FAILED
    requires e.ReleaseRuntime? || e.Released? || e.Start? || e.Stop? || e.PickUncertain? || e.Crash?
    requires id in Step(s, e).runs && Step(s, e).runs[id].state == state
    ensures id in s.runs && s.runs[id].state == state
  {
  }

  predicate SaidIn(events: seq<Event>, id: Id, state: RunState) {
    exists j :: 0 <= j < |events| && Says(Steps(EMPTY, events[..j]), events[j], id, state)
  }

  /** In every run: a run is COMPLETED, or FAILED, only if the native runtime or recovery has said so of it. */
  lemma {:induction false} OnlyAsReported(events: seq<Event>, id: Id, state: RunState)
    requires (state == COMPLETED || state == FAILED) && id in Steps(EMPTY, events).runs && Steps(EMPTY, events).runs[id].state == state
    ensures SaidIn(events, id, state)
    decreases |events|
  {
    var n := |events| - 1;
    StepSays(Steps(EMPTY, events[..n]), events[n], id, state);
    if !Says(Steps(EMPTY, events[..n]), events[n], id, state) {
      OnlyAsReported(events[..n], id, state);
      var j :| 0 <= j < n && Says(Steps(EMPTY, events[..n][..j]), events[..n][j], id, state);
      assert events[..n][..j] == events[..j];
      assert Says(Steps(EMPTY, events[..j]), events[j], id, state);
    }
  }

  // ---------- how an execution ends ----------

  /** What each answer leaves a run as, wherever it comes; `sent`: turn/start is out. */
  function EndState(outcome: Outcome, sent: bool): RunState {
    match outcome
    case Answered(status, _, _) =>
      if status == Some("completed") then COMPLETED else if status == Some("failed") then FAILED
      else if status == Some("interrupted") then BLOCKED else RUNNING
    case LoginRequired => AUTH_REQUIRED
    case Busy => QUEUED
    case Error(_) => if sent then UNCERTAIN else BLOCKED
    case _ => BLOCKED
  }

  /** When an execution ends, its run is left as the answer says, wherever the answer came: only a stopped runner that
      has not looked at the run yet leaves its row alone. */
  lemma EndsAsAnswered(phase: Phase, outcome: Outcome, stopped: bool)
    requires !phase.Tail? && MoveOf(phase, outcome, stopped).phase.Tail?
    ensures var update := MoveOf(phase, outcome, stopped).update;
            && (update.None? <==> phase.Fresh? && stopped)
            && (update.Some? ==> update.value.state == EndState(outcome, phase.Sent?) && (update.value.error.None? <==> outcome.Answered?))
  {
  }

  /** turn/start is sent exactly when the composed turn is reached and the runner has not been stopped. */
  lemma SendsIff(phase: Phase, outcome: Outcome, stopped: bool)
    ensures MoveOf(phase, outcome, stopped).sends <==> phase.Composing? && outcome == Next && !stopped
  {
  }

  // ---------- exits, stops and recovery ----------

  ghost predicate HadTurn(s: State, session: Session, id: Id) {
    exists turn :: (session, turn) in s.activeRuns && s.activeRuns[(session, turn)] == id
  }

  predicate OwnedBy(s: State, scheduleRun: Option<Id>, id: Id) {
    scheduleRun == Some(id) && id in s.runtimes && !s.runtimes[id].stopping
  }

  /** After a runtime has exited, exactly the runs with a turn on it, and the ongoing run that owns it, are uncertain,
      and no turn of it is registered any more. */
  lemma ExitDoubts(s: State, session: Session, scheduleRun: Option<Id>, id: Id)
    requires id in s.runs
    ensures var after := Step(s, RuntimeExited(session, scheduleRun));
            && id in after.runs
            && (if HadTurn(s, session, id) || (OwnedBy(s, scheduleRun, id) && Ongoing(s.runs[id]))
                then after.runs[id] == s.runs[id].(state := UNCERTAIN, error := Some("SCHEDULE_RUNTIME_EXITED"))
                else after.runs[id] == s.runs[id])
            && forall k :: k in after.activeRuns ==> k in s.activeRuns && k.0 != session
  {
    if ActiveOn(s, session, id) {
      var k :| k in s.activeRuns && k.0 == session && s.activeRuns[k] == id;
      assert (session, k.1) == k;
    }
    if HadTurn(s, session, id) {
      var turn :| (session, turn) in s.activeRuns && s.activeRuns[(session, turn)] == id;
      assert (session, turn).0 == session;
    }
  }

  /** After a stop, no run that owns a runtime is left starting or running, and the others are as they were. */
  lemma StopDoubts(s: State, id: Id)
    requires id in s.runs
    ensures var after := Step(s, Stop);
            && after.stopped && id in after.runs
            && (if id in s.runtimes && Ongoing(s.runs[id])
                then after.runs[id] == s.runs[id].(state := UNCERTAIN, error := Some("SCHEDULE_RUNNER_STOPPED"))
                else after.runs[id] == s.runs[id])
            && forall r :: r in s.runtimes ==> r in after.runtimes && after.runtimes[r].stopping
  {
  }

  /** After recovery, a run that was interrupted before its thread is queued again, one with a thread that was not over
      is uncertain, and every other is as it was. */
  lemma RecoverySorts(s: State, id: Id)
    requires id in s.runs
    ensures var run, after := s.runs[id], Step(s, Recover);
            && id in after.runs
            && (Interrupted(run) && run.threadId.None? <==> after.runs[id].state == QUEUED && run.state != QUEUED)
            && (run.threadId.Some? && (Interrupted(run) || run.state == RUNNING) ==> after.runs[id].state == UNCERTAIN && after.runs[id].error.Some?)
            && (!Interrupted(run) && !(run.threadId.Some? && run.state == RUNNING) ==> after.runs[id] == run)
            && after.runs[id].threadId == run.threadId && after.runs[id].turnId == run.turnId && after.runs[id].attempts == run.attempts
  {
  }
}
