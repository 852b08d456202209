/** The schedule runner as atomic steps between awaits: executions of claimed runs, callbacks of
    the native runtime, stop, recovery of uncertain runs, crash and restart. Answers of awaited
    calls are arguments of the step that resumes after them. */
module ScheduleRunner {
  import opened Options
  import opened ScheduleStore

  type Session = string
  type TurnKey = (string, string)

  /** Where an execution waits. `live`: it uses a runtime that was already running. */
  datatype Phase =
    | Fresh
    | Issuing
    | Verifying(live: bool)
    | Gating(live: bool)
    | Opening
    | Initializing
    | Claiming
    | Preparing
    | Composing(thread: string)
    | Sent(thread: string)
    | Failing
    | Tail

  /** What an awaited call, or the checks after it, came out as. */
  datatype Outcome =
    | Next
    | UseLive
    | Opened(session: Session)
    | Error(reason: string)
    | LoginRequired
    | Blocked(reason: string)
    | Busy
    | Threaded(thread: string)
    | Answered(status: Option<string>, session: Session, turn: string)

  datatype Execution = Execution(runId: Id, phase: Phase)
  datatype Runtime = Runtime(session: Session, stopping: bool)

  /** `executions`, `activeRuns`, `runtimes`, `recovering` and `stopped` are the process's; `runs` is durable;
      `wire` is what the native runtime was sent: the run of each `turn/start`, in order. */
  datatype State = State(
    runs: map<Id, Run>, executions: map<nat, Execution>, activeRuns: map<TurnKey, Id>,
    runtimes: map<Id, Runtime>, recovering: set<Id>, stopped: bool, wire: seq<Id>)

  /** What one step does: the update of the run row, the next phase, and whether turn/start is sent. */
  datatype Update = Update(state: RunState, thread: Option<string>, turn: Option<string>, error: Option<string>)
  datatype Move = Move(update: Option<Update>, phase: Phase, sends: bool)

  function Stay(phase: Phase): Move {
    Move(None, phase, false)
  }

  function Mark(state: RunState, error: Option<string>, phase: Phase): Move {
    Move(Some(Update(state, None, None, error)), phase, false)
  }

  function Login(): Move {
    Mark(AUTH_REQUIRED, Some("SCHEDULE_LOGIN_REQUIRED"), Tail)
  }

  function StateForNativeTurn(status: Option<string>): RunState {
    if status == Some("completed") then COMPLETED
    else if status == Some("failed") then FAILED
    else if status == Some("interrupted") then BLOCKED
    else RUNNING
  }

  /** `execute`, up to the claim of the bot's turn. */
  function ExecuteMove(phase: Phase, outcome: Outcome, stopped: bool): Move {
    match (phase, outcome)
    case (Fresh, Blocked(reason)) => if stopped then Stay(Tail) else Mark(BLOCKED, Some(reason), Tail)
    case (Fresh, LoginRequired) => if stopped then Stay(Tail) else Login()
    case (Fresh, UseLive) => if stopped then Stay(Tail) else Stay(Verifying(true))
    case (Fresh, Next) => if stopped then Stay(Tail) else Stay(Issuing)
    case (Issuing, Next) => Stay(Verifying(false))
    case (Issuing, LoginRequired) => Login()
    case (Verifying(live), Next) => Stay(Gating(live))
    case (Verifying(_), LoginRequired) => Login()
    case (Gating(_), LoginRequired) => Login()
    case (Gating(live), Next) =>
      if stopped then Mark(BLOCKED, Some("SCHEDULE_RUNNER_STOPPED"), Tail) else Stay(if live then Claiming else Opening)
    case (Opening, Opened(_)) => Stay(Initializing)
    case (Opening, Error(reason)) => Mark(BLOCKED, Some("SCHEDULE_RUNTIME_START_FAILED:" + reason), Tail)
    case (Initializing, Error(reason)) => Mark(BLOCKED, Some("SCHEDULE_RUNTIME_START_FAILED:" + reason), Tail)
    case (Initializing, Next) => if stopped then Mark(BLOCKED, Some("SCHEDULE_RUNTIME_START_FAILED:SCHEDULE_RUNNER_STOPPED"), Tail) else Stay(Claiming)
    case _ => Stay(phase)
  }

  /** `startTurn`. */
  function StartTurnMove(phase: Phase, outcome: Outcome, stopped: bool): Move {
    match (phase, outcome)
    case (Claiming, Busy) => Mark(QUEUED, Some("BOT_TURN_BUSY"), Tail)
    case (Claiming, Blocked(reason)) => Mark(BLOCKED, Some(reason), Tail)
    case (Claiming, Error(reason)) => Mark(BLOCKED, Some(reason), Tail)
    case (Claiming, Next) => Mark(STARTING, None, Preparing)
    case (Preparing, LoginRequired) => Mark(AUTH_REQUIRED, Some("SCHEDULE_MCP_AUTH_REQUIRED"), Tail)
    case (Preparing, Blocked(reason)) => Mark(BLOCKED, Some(reason), Tail)
    case (Preparing, Error(_)) => Stay(Failing)
    case (Preparing, Threaded(thread)) => Move(Some(Update(STARTING, Some(thread), None, None)), Composing(thread), false)
    case (Composing(_), Error(_)) => Stay(Failing)
    case (Composing(thread), Next) => if stopped then Stay(Failing) else Move(None, Sent(thread), true)
    case (Failing, Error(reason)) => Mark(BLOCKED, Some(reason), Tail)
    case (Sent(thread), Error(reason)) => Move(Some(Update(UNCERTAIN, Some(thread), None, Some(reason))), Tail, false)
    case (Sent(thread), Answered(status, _, turn)) =>
      Move(Some(Update(StateForNativeTurn(status), Some(thread), Some(turn), None)), Tail, false)
    case _ => Stay(phase)
  }

  function MoveOf(phase: Phase, outcome: Outcome, stopped: bool): Move {
    if phase.Fresh? || phase.Issuing? || phase.Verifying? || phase.Gating? || phase.Opening? || phase.Initializing?
    then ExecuteMove(phase, outcome, stopped) else StartTurnMove(phase, outcome, stopped)
  }

  function Updated(runs: map<Id, Run>, id: Id, update: Option<Update>): map<Id, Run> {
    if update.None? || id !in runs then runs
    else runs[id := Marked(runs[id], update.value.state, update.value.thread, update.value.turn, update.value.error)]
  }

  // ---------- the steps ----------

  datatype Event =
    | Queued(queued: map<Id, Run>)
    | Coalesce
    | Resume(who: Principal)
    | Cancel(who: Principal, botId: string)
    | Claim(candidates: seq<Id>, first: nat)
    | Advance(execution: nat, outcome: Outcome)
    | TurnCompleted(session: Session, turn: string, scheduleRun: Option<Id>, status: Option<string>, thread: Option<string>)
    | RuntimeExited(session: Session, scheduleRun: Option<Id>)
    | ReleaseRuntime(id: Id)
    | Released(id: Id)
    | Start
    | Stop
    | PickUncertain(id: Id)
    | Reconciled(id: Id, state: RunState, turnId: Option<string>, key: Option<TurnKey>, error: Option<string>)
    | Crash
    | Recover

  function Moved(s: State, e: nat, move: Move): State
    requires e in s.executions
  {
    var id := s.executions[e].runId;
    s.(runs := Updated(s.runs, id, move.update), executions := s.executions[e := Execution(id, move.phase)],
       wire := if move.sends then s.wire + [id] else s.wire)
  }

  function AdvanceExecution(s: State, e: nat, outcome: Outcome): State {
    if e !in s.executions then s
    else
      var Execution(id, phase) := s.executions[e];
      var after := Moved(s, e, MoveOf(phase, outcome, s.stopped));
      if phase.Opening? && outcome.Opened? then after.(runtimes := s.runtimes[id := Runtime(outcome.session, false)])
      else if phase.Sent? && outcome.Answered? && StateForNativeTurn(outcome.status) == RUNNING
      then after.(activeRuns := s.activeRuns[(outcome.session, outcome.turn) := id])
      else after
  }

  /** `releaseScheduleRuntime`, up to its await. */
  function Release(s: State, id: Id): State {
    if id !in s.runtimes || s.runtimes[id].stopping then s
    else
      var session := s.runtimes[id].session;
      s.(runtimes := s.runtimes[id := Runtime(session, true)],
         activeRuns := map k | k in s.activeRuns && !(s.activeRuns[k] == id && k.0 == session) :: s.activeRuns[k])
  }

  predicate Ongoing(run: Run) {
    run.state == STARTING || run.state == RUNNING
  }

  function NativeTurnError(status: Option<string>): string {
    "SCHEDULE_NATIVE_TURN_" + status.Or("UNKNOWN")
  }

  function OnTurnCompleted(s: State, key: TurnKey, scheduleRun: Option<Id>, status: Option<string>, thread: Option<string>): State {
    if key !in s.activeRuns || (scheduleRun.Some? && scheduleRun.value in s.runtimes && s.runtimes[scheduleRun.value].stopping) then s
    else
      var state := if status == Some("completed") then COMPLETED else if status == Some("failed") then FAILED else BLOCKED;
      s.(runs := Updated(s.runs, s.activeRuns[key], Some(Update(state, thread, Some(key.1), if state == COMPLETED then None else Some(NativeTurnError(status))))),
         activeRuns := s.activeRuns - {key})
  }

  predicate ActiveOn(s: State, session: Session, id: Id) {
    exists k :: k in s.activeRuns && k.0 == session && s.activeRuns[k] == id
  }

  function Uncertain(run: Run, reason: string): Run {
    run.(state := UNCERTAIN, error := Some(reason))
  }

  /** The rows and keys of a runtime that has exited, before the owned runtime is released. */
  function Exited(s: State, session: Session, owned: Option<Id>): State {
    s.(runs := map id | id in s.runs ::
         if ActiveOn(s, session, id) || (owned == Some(id) && Ongoing(s.runs[id])) then Uncertain(s.runs[id], "SCHEDULE_RUNTIME_EXITED") else s.runs[id],
       activeRuns := map k | k in s.activeRuns && k.0 != session :: s.activeRuns[k])
  }

  function OnExit(s: State, session: Session, scheduleRun: Option<Id>): State {
    if scheduleRun.Some? && scheduleRun.value in s.runtimes && !s.runtimes[scheduleRun.value].stopping
    then Release(Exited(s, session, scheduleRun), scheduleRun.value)
    else Exited(s, session, None)
  }

  /** The stop, with the runtimes of the `handled` runs released. */
  function StopSome(s: State, handled: set<Id>): State {
    s.(activeRuns := map k | k in s.activeRuns && !(Owned(s, k) && s.activeRuns[k] in handled) :: s.activeRuns[k],
       runtimes := map id | id in s.runtimes :: if id in handled then s.runtimes[id].(stopping := true) else s.runtimes[id])
  }

  function Halted(s: State): map<Id, Run> {
    map id | id in s.runs :: if id in s.runtimes && Ongoing(s.runs[id]) then Uncertain(s.runs[id], "SCHEDULE_RUNNER_STOPPED") else s.runs[id]
  }

  function OnStop(s: State): State {
    StopSome(s, s.runtimes.Keys).(stopped := true, runs := Halted(s))
  }

  /** The release of the runtime of the key's run deletes the key. */
  predicate Owned(s: State, k: TurnKey)
    requires k in s.activeRuns
  {
    s.activeRuns[k] in s.runtimes && !s.runtimes[s.activeRuns[k]].stopping && s.runtimes[s.activeRuns[k]].session == k.0
  }

  lemma ReleaseNext(s: State, handled: set<Id>, id: Id)
    requires id in s.runtimes && id !in handled
    ensures Release(StopSome(s, handled), id) == StopSome(s, handled + {id})
  {
    assert Release(StopSome(s, handled), id).activeRuns == StopSome(s, handled + {id}).activeRuns;
    assert Release(StopSome(s, handled), id).runtimes == StopSome(s, handled + {id}).runtimes;
  }

  /** States the recovery of an uncertain run can end in. */
  predicate RecoveredTo(state: RunState) {
    state == BLOCKED || state == UNCERTAIN || state == COMPLETED || state == RUNNING || state == FAILED
  }

  function OnReconciled(s: State, id: Id, state: RunState, turn: Option<string>, key: Option<TurnKey>, error: Option<string>): State {
    if id !in s.recovering || !RecoveredTo(state) then s
    else s.(runs := Updated(s.runs, id, Some(Update(state, None, turn, error))), recovering := s.recovering - {id},
            activeRuns := if state == RUNNING && key.Some? then s.activeRuns[key.value := id] else s.activeRuns)
  }

  /** One uncertain run of the recovery loop: without a thread it is given up at once. */
  function OnPick(s: State, id: Id): State {
    if id !in s.runs || s.runs[id].state != UNCERTAIN then s
    else if s.runs[id].threadId.None? then s.(runs := Updated(s.runs, id, Some(Update(BLOCKED, None, None, Some("SCHEDULE_RECOVERY_THREAD_MISSING")))))
    else s.(recovering := s.recovering + {id})
  }

  /** Executions numbered from `first` start for the claimed runs. */
  function Started(executions: map<nat, Execution>, claimed: seq<Id>, first: nat): map<nat, Execution> {
    executions + map e | first <= e < first + |claimed| :: Beginning(claimed, first, e)
  }

  function Beginning(claimed: seq<Id>, first: nat, e: nat): Execution
    requires first <= e < first + |claimed|
  {
    Execution(claimed[e - first], Fresh)
  }

  predicate CanClaim(s: State, candidates: seq<Id>, first: nat) {
    && DistinctIds(candidates) && (forall id :: id in candidates ==> id in s.runs && s.runs[id].state == QUEUED)
    && forall e :: e in s.executions ==> e < first
  }

  predicate CanQueue(runs: map<Id, Run>, queued: map<Id, Run>) {
    forall id :: id in queued ==> id !in runs && queued[id].state == QUEUED && queued[id].threadId.None?
  }

  function Step(s: State, event: Event): State {
    match event
    case Queued(queued) => if CanQueue(s.runs, queued) then s.(runs := s.runs + queued) else s
    case Coalesce => s.(runs := Coalesced(s.runs))
    case Resume(who) => s.(runs := Resumed(s.runs, who))
    case Cancel(who, botId) => s.(runs := map id | id in s.runs :: if OfBot(s.runs[id], who, botId) then Cancelled(s.runs[id]) else s.runs[id])
    case Claim(candidates, first) =>
      if CanClaim(s, candidates, first) then s.(runs := Claimed(s.runs, candidates), executions := Started(s.executions, candidates, first)) else s
    case Advance(e, outcome) => AdvanceExecution(s, e, outcome)
    case TurnCompleted(session, turn, scheduleRun, status, thread) => OnTurnCompleted(s, (session, turn), scheduleRun, status, thread)
    case RuntimeExited(session, scheduleRun) => OnExit(s, session, scheduleRun)
    case ReleaseRuntime(id) => Release(s, id)
    case Released(id) => s.(runtimes := s.runtimes - {id})
    case Start => s.(stopped := false)
    case Stop => OnStop(s)
    case PickUncertain(id) => OnPick(s, id)
    case Reconciled(id, state, turn, key, error) => OnReconciled(s, id, state, turn, key, error)
    case Crash => s.(executions := map[], activeRuns := map[], runtimes := map[], recovering := {}, stopped := false)
    case Recover => s.(runs := MapRuns(Recovered, s.runs))
  }
}
