/** The runner's own maps, updated step by step, against the transition function of ScheduleRunner. */
module BotScheduleRunner {
  import opened Options
  import opened ScheduleStore
  import opened ScheduleRunner

  /** The keys of a runtime for one run. */
  predicate ReleasedBy(key: TurnKey, value: Id, id: Id, session: Session) {
    value == id && key.0 == session
  }

  class Runner {
    var runs: map<Id, Run>
    var executions: map<nat, Execution>
    var activeRuns: map<TurnKey, Id>
    var scheduleRuntimes: map<Id, Runtime>
    var recovering: set<Id>
    var stopped: bool
    ghost var wire: seq<Id>

    ghost function Now(): State
      reads this
    {
      State(runs, executions, activeRuns, scheduleRuntimes, recovering, stopped, wire)
    }

    /** A process starts: nothing of the last one is left but the table, and interrupted runs are recovered. */
    constructor (table: map<Id, Run>, ghost sent: seq<Id>)
      ensures Now() == Step(State(table, map[], map[], map[], {}, false, sent), Recover)
    {
      runs := map id | id in table :: Recovered(table[id]);
      executions, activeRuns, scheduleRuntimes, recovering, stopped, wire := map[], map[], map[], {}, false, sent;
    }

    method MarkRun(id: Id, update: Update)
      modifies this`runs
      ensures runs == Updated(old(runs), id, Some(update))
    {
      if id in runs {
        runs := runs[id := Marked(runs[id], update.state, update.thread, update.turn, update.error)];
      }
    }

    /** One segment of `execute` or `startTurn`, from one await to the next. */
    method Advance(e: nat, outcome: Outcome)
      requires e in executions
      modifies this
      ensures Now() == Step(old(Now()), Event.Advance(e, outcome))
    {
      var x := executions[e];
      var move := MoveOf(x.phase, outcome, stopped);
      if move.update.Some? { MarkRun(x.runId, move.update.value); }
      if move.sends { wire := wire + [x.runId]; }
      executions := executions[e := Execution(x.runId, move.phase)];
      if x.phase.Opening? && outcome.Opened? {
        scheduleRuntimes := scheduleRuntimes[x.runId := Runtime(outcome.session, false)];
      } else if x.phase.Sent? && outcome.Answered? && StateForNativeTurn(outcome.status) == RUNNING {
        activeRuns := activeRuns[(outcome.session, outcome.turn) := x.runId];
      }
    }

    method OnMessageTurnCompleted(session: Session, turn: string, scheduleRun: Option<Id>, status: Option<string>, thread: Option<string>)
      modifies this
      ensures Now() == Step(old(Now()), TurnCompleted(session, turn, scheduleRun, status, thread))
    {
      if scheduleRun.Some? && scheduleRun.value in scheduleRuntimes && scheduleRuntimes[scheduleRun.value].stopping { return; }
      if (session, turn) !in activeRuns { return; }
      var runId := activeRuns[(session, turn)];
      var state := if status == Some("completed") then COMPLETED else if status == Some("failed") then FAILED else BLOCKED;
      MarkRun(runId, Update(state, thread, Some(turn), if state == COMPLETED then None else Some(NativeTurnError(status))));
      activeRuns := activeRuns - {(session, turn)};
    }

    /** Some key of the session already handled names this run. */
    ghost predicate Seen(active: map<TurnKey, Id>, todo: set<TurnKey>, session: Session, id: Id) {
      exists k :: k in active && k !in todo && k.0 == session && active[k] == id
    }

    method OnExitActive(session: Session)
      modifies this`runs, this`activeRuns
      ensures Now() == Exited(old(Now()), session, None)
    {
      var todo := activeRuns.Keys;
      ghost var before, active := runs, activeRuns;
      while todo != {}
        invariant todo <= active.Keys && runs.Keys == before.Keys
        invariant activeRuns == map k | k in active && (k in todo || k.0 != session) :: active[k]
        invariant forall id :: id in runs ==>
          runs[id] == if Seen(active, todo, session, id) then Uncertain(before[id], "SCHEDULE_RUNTIME_EXITED") else before[id]
        decreases todo
      {
        var key :| key in todo;
        SeenNext(active, todo, session, key);
        todo := todo - {key};
        if key.0 == session {
          ExitKey(key);
        }
      }
      AllSeen(old(Now()), session, runs, activeRuns);
    }

    /** The run of an active key becomes uncertain, and the key is dropped. */
    method ExitKey(key: TurnKey)
      requires key in activeRuns
      modifies this`runs, this`activeRuns
      ensures runs.Keys == old(runs).Keys && activeRuns == old(activeRuns) - {key}
      ensures forall id :: id in runs ==>
        runs[id] == if id == old(activeRuns)[key] then Uncertain(old(runs)[id], "SCHEDULE_RUNTIME_EXITED") else old(runs)[id]
    {
      MarkRun(activeRuns[key], Update(UNCERTAIN, None, None, Some("SCHEDULE_RUNTIME_EXITED")));
      activeRuns := activeRuns - {key};
    }

    lemma AllSeen(before: State, session: Session, runs: map<Id, Run>, active: map<TurnKey, Id>)
      requires runs.Keys == before.runs.Keys
      requires forall id :: id in runs ==>
        runs[id] == if Seen(before.activeRuns, {}, session, id) then Uncertain(before.runs[id], "SCHEDULE_RUNTIME_EXITED") else before.runs[id]
      requires active == map k | k in before.activeRuns && k.0 != session :: before.activeRuns[k]
      ensures runs == Exited(before, session, None).runs && active == Exited(before, session, None).activeRuns
    {
      assert forall id :: Seen(before.activeRuns, {}, session, id) <==> ActiveOn(before, session, id);
    }

    lemma SeenNext(active: map<TurnKey, Id>, todo: set<TurnKey>, session: Session, key: TurnKey)
      requires key in todo && key in active
      ensures forall id :: Seen(active, todo - {key}, session, id) <==> Seen(active, todo, session, id) || (key.0 == session && active[key] == id)
    {
      forall id | Seen(active, todo, session, id) ensures Seen(active, todo - {key}, session, id) {
        var k :| k in active && k !in todo && k.0 == session && active[k] == id;
        assert k !in todo - {key};
      }
      forall id | key.0 == session && active[key] == id ensures Seen(active, todo - {key}, session, id) {
        assert key !in todo - {key};
      }
    }

    method ReleaseScheduleRuntime(id: Id)
      modifies this`scheduleRuntimes, this`activeRuns
      ensures Now() == Release(old(Now()), id)
    {
      if id !in scheduleRuntimes || scheduleRuntimes[id].stopping { return; }
      var session := scheduleRuntimes[id].session;
      var todo := activeRuns.Keys;
      ghost var active := activeRuns;
      while todo != {}
        invariant todo <= active.Keys && scheduleRuntimes == old(scheduleRuntimes)
        invariant activeRuns == map k | k in active && (k in todo || !ReleasedBy(k, active[k], id, session)) :: active[k]
        decreases todo
      {
        var key :| key in todo;
        todo := todo - {key};
        if ReleasedBy(key, activeRuns[key], id, session) { activeRuns := activeRuns - {key}; }
      }
      scheduleRuntimes := scheduleRuntimes[id := Runtime(session, true)];
      assert activeRuns == Release(old(Now()), id).activeRuns;
    }

    method OnExit(session: Session, scheduleRun: Option<Id>)
      modifies this
      ensures Now() == Step(old(Now()), RuntimeExited(session, scheduleRun))
    {
      OnExitActive(session);
      if scheduleRun.Some? && scheduleRun.value in scheduleRuntimes && !scheduleRuntimes[scheduleRun.value].stopping {
        var id := scheduleRun.value;
        if id in runs && Ongoing(runs[id]) { MarkRun(id, Update(UNCERTAIN, None, None, Some("SCHEDULE_RUNTIME_EXITED"))); }
        assert runs == Exited(old(Now()), session, scheduleRun).runs;
        ReleaseScheduleRuntime(id);
      }
    }

    method Stop()
      modifies this
      ensures Now() == Step(old(Now()), Event.Stop)
    {
      stopped := true;
      StopRuns();
      StopRuntimes();
    }

    method StopRuns()
      modifies this`runs
      ensures runs == Halted(old(Now()))
    {
      var todo := scheduleRuntimes.Keys;
      ghost var before := runs;
      while todo != {}
        invariant todo <= scheduleRuntimes.Keys && runs.Keys == before.Keys
        invariant forall id :: id in runs ==>
          runs[id] == if id in scheduleRuntimes && id !in todo && Ongoing(before[id]) then Uncertain(before[id], "SCHEDULE_RUNNER_STOPPED") else before[id]
        decreases todo
      {
        var id: Id :| id in todo;
        todo := todo - {id};
        if id in runs && Ongoing(runs[id]) { MarkRun(id, Update(UNCERTAIN, None, None, Some("SCHEDULE_RUNNER_STOPPED"))); }
      }
      assert runs == Halted(old(Now()));
    }

    method StopRuntimes()
      modifies this`scheduleRuntimes, this`activeRuns
      ensures Now() == StopSome(old(Now()), old(scheduleRuntimes).Keys)
    {
      ghost var before, handled := Now(), {};
      var todo := scheduleRuntimes.Keys;
      assert activeRuns == StopSome(before, {}).activeRuns && scheduleRuntimes == StopSome(before, {}).runtimes;
      while todo != {}
        invariant handled + todo == before.runtimes.Keys && handled !! todo
        invariant Now() == StopSome(before, handled)
        decreases todo
      {
        var id: Id :| id in todo;
        ReleaseNext(before, handled, id);
        todo, handled := todo - {id}, handled + {id};
        ReleaseScheduleRuntime(id);
      }
      assert handled == before.runtimes.Keys;
    }
  }
}
