/** The schedule and run tables. A due slot becomes one queued run, older pending runs of the same
    schedule are superseded, and queued runs are claimed. Queries are arguments: each method is
    given the rows its SELECT returned, in the order the query asks for. */
module ScheduleStore {
  import opened Options

  type Id = nat
  datatype Principal = Principal(tenantId: string, subjectId: string, actingClientId: string)

  /** A recurring spec is opaque: the cron expression and the time zone. */
  datatype Spec = Once(at: int) | Recurring(cron: string)
  datatype Schedule = Schedule(owner: Principal, botId: string, spec: Spec, enabled: bool, revision: nat, nextRunAt: Option<int>)

  datatype RunState = QUEUED | CLAIMED | STARTING | RUNNING | COMPLETED | AUTH_REQUIRED | BLOCKED | FAILED | UNCERTAIN
  datatype Run = Run(
    scheduleId: Id, owner: Principal, botId: string, slotAt: int,
    state: RunState, attempts: nat, threadId: Option<string>, turnId: Option<string>, error: Option<string>)

  type Cron = (string, int) -> Option<int>

  /** The cron parser answers null or a time strictly later than the one it is given. */
  ghost predicate Later(cron: Cron) {
    forall expression, after :: cron(expression, after).Some? ==> cron(expression, after).value > after
  }

  function NextBotScheduleAt(cron: Cron, spec: Spec, after: int): (next: Option<int>)
    requires Later(cron)
    ensures next.Some? ==> next.value > after
  {
    match spec
    case Once(at) => if at > after then Some(at) else None
    case Recurring(expression) => cron(expression, after)
  }

  predicate Pending(run: Run) {
    run.state == QUEUED || run.state == AUTH_REQUIRED
  }

  /** The unique(schedule_id, slot_at) constraint. */
  predicate OneRunPerSlot(runs: map<Id, Run>) {
    forall a, b :: a in runs && b in runs && runs[a].scheduleId == runs[b].scheduleId && runs[a].slotAt == runs[b].slotAt ==> a == b
  }

  // ---------- queries ----------

  predicate DistinctIds(ids: seq<Id>) {
    forall j, k :: 0 <= j < k < |ids| ==> ids[j] != ids[k]
  }

  /** `order by schedule_id, slot_at desc`. */
  predicate Before(a: Run, b: Run) {
    a.scheduleId < b.scheduleId || (a.scheduleId == b.scheduleId && a.slotAt >= b.slotAt)
  }

  predicate Ordered(runs: map<Id, Run>, ids: seq<Id>)
    requires forall id :: id in ids ==> id in runs
  {
    forall j, k :: 0 <= j < k < |ids| ==> Before(runs[ids[j]], runs[ids[k]])
  }

  /** `who`: None for every principal. */
  predicate Selected(run: Run, who: Option<Principal>) {
    Pending(run) && (who.Some? ==> run.owner == who.value)
  }

  ghost predicate PendingQuery(runs: map<Id, Run>, ids: seq<Id>, who: Option<Principal>) {
    && DistinctIds(ids)
    && (forall id :: id in ids <==> id in runs && Selected(runs[id], who))
    && Ordered(runs, ids)
  }

  predicate Due(schedule: Schedule, now: int, live: set<string>) {
    schedule.enabled && schedule.nextRunAt.Some? && schedule.nextRunAt.value <= now && schedule.botId in live
  }

  /** `order by next_run_at limit ?`: a due schedule is left out only when the limit is reached, for earlier ones. */
  ghost predicate DueQuery(schedules: map<Id, Schedule>, ids: seq<Id>, now: int, live: set<string>, limit: int) {
    && DistinctIds(ids) && |ids| <= Clamp(limit)
    && (forall id :: id in ids ==> id in schedules && Due(schedules[id], now, live))
    && forall id :: id in schedules && Due(schedules[id], now, live) && id !in ids ==>
      |ids| == Clamp(limit) && NoneLater(schedules, ids, schedules[id].nextRunAt.value)
  }

  predicate NoneLater(schedules: map<Id, Schedule>, ids: seq<Id>, slot: int) {
    forall id :: id in ids && id in schedules && schedules[id].nextRunAt.Some? ==> schedules[id].nextRunAt.value <= slot
  }

  predicate Runnable(run: Run, live: set<string>) {
    run.state == QUEUED && run.botId in live
  }

  /** A runnable run is left out only when the limit is reached. */
  ghost predicate QueuedQuery(runs: map<Id, Run>, ids: seq<Id>, live: set<string>, limit: int) {
    && DistinctIds(ids) && |ids| <= Clamp(limit)
    && (forall id :: id in ids ==> id in runs && Runnable(runs[id], live))
    && forall id :: id in runs && Runnable(runs[id], live) && id !in ids ==> |ids| == Clamp(limit)
  }

  function Clamp(limit: int): int {
    if limit < 1 then 1 else if limit > 100 then 100 else limit
  }

  // ---------- what each operation makes of the tables ----------

  /** Some selected run of the same schedule has a later slot. */
  predicate Superseded(runs: map<Id, Run>, id: Id, who: Option<Principal>)
    requires id in runs
  {
    Selected(runs[id], who) &&
    exists other :: other in runs && Selected(runs[other], who) && runs[other].scheduleId == runs[id].scheduleId && runs[other].slotAt > runs[id].slotAt
  }

  const SUPERSEDED := Some("SCHEDULE_SUPERSEDED")

  function Blocked(run: Run): Run {
    run.(state := BLOCKED, error := SUPERSEDED)
  }

  function ResumedRow(run: Run, superseded: bool): Run {
    if superseded then Blocked(run)
    else if run.state == AUTH_REQUIRED then run.(state := QUEUED, error := None)
    else run
  }

  predicate SameSlots(before: map<Id, Run>, after: map<Id, Run>) {
    before.Keys == after.Keys && forall id :: id in before ==> after[id].scheduleId == before[id].scheduleId && after[id].slotAt == before[id].slotAt
  }

  function Coalesced(runs: map<Id, Run>): map<Id, Run> {
    map id | id in runs :: if Superseded(runs, id, None) then Blocked(runs[id]) else runs[id]
  }

  function Resumed(runs: map<Id, Run>, who: Principal): map<Id, Run> {
    map id | id in runs ::
      if Superseded(runs, id, Some(who)) then Blocked(runs[id])
      else if runs[id].owner == who && runs[id].state == AUTH_REQUIRED then runs[id].(state := QUEUED, error := None)
      else runs[id]
  }

  predicate HasSlot(runs: map<Id, Run>, schedule: Id, slot: int) {
    exists id :: id in runs && runs[id].scheduleId == schedule && runs[id].slotAt == slot
  }

  datatype Queue = Queue(runs: map<Id, Run>, issued: Id)

  /** Insert or ignore; `issued` is the next fresh run id. */
  function QueueOne(q: Queue, id: Id, schedule: Schedule): Queue
    requires schedule.nextRunAt.Some?
  {
    var slot := schedule.nextRunAt.value;
    if HasSlot(q.runs, id, slot) then q
    else Queue(q.runs[q.issued := Run(id, schedule.owner, schedule.botId, slot, QUEUED, 0, None, None, None)], q.issued + 1)
  }

  function QueueSlots(q: Queue, schedules: map<Id, Schedule>, due: seq<Id>): Queue
    requires forall id :: id in due ==> id in schedules && schedules[id].nextRunAt.Some?
  {
    if due == [] then q
    else
      var last := due[|due| - 1];
      QueueOne(QueueSlots(q, schedules, due[..|due| - 1]), last, schedules[last])
  }

  function AdvancedRow(cron: Cron, schedule: Schedule, now: int): Schedule
    requires Later(cron)
  {
    schedule.(nextRunAt := NextBotScheduleAt(cron, schedule.spec, now), revision := schedule.revision + 1)
  }

  function Advanced(cron: Cron, schedules: map<Id, Schedule>, due: seq<Id>, now: int): map<Id, Schedule>
    requires Later(cron)
  {
    map id | id in schedules :: if id in due then AdvancedRow(cron, schedules[id], now) else schedules[id]
  }

  function Claimed(runs: map<Id, Run>, ids: seq<Id>): map<Id, Run> {
    map id | id in runs :: if id in ids then runs[id].(state := CLAIMED, attempts := runs[id].attempts + 1, error := None) else runs[id]
  }

  function Requeued(run: Run): Run {
    if (run.state == CLAIMED || run.state == STARTING) && run.threadId.None? then run.(state := QUEUED, error := None) else run
  }

  function Doubted(run: Run): Run {
    if (run.state == CLAIMED || run.state == STARTING || run.state == RUNNING) && run.threadId.Some?
    then run.(state := UNCERTAIN, error := Some("SCHEDULE_RECOVERY_REQUIRES_NATIVE_HISTORY")) else run
  }

  function MapRuns(f: Run -> Run, runs: map<Id, Run>): map<Id, Run> {
    map id | id in runs :: f(runs[id])
  }

  lemma MapTwice(f: Run -> Run, g: Run -> Run, h: Run -> Run, runs: map<Id, Run>)
    requires forall run :: h(run) == g(f(run))
    ensures MapRuns(g, MapRuns(f, runs)) == MapRuns(h, runs)
  {
  }

  function Recovered(run: Run): Run {
    Doubted(Requeued(run))
  }

  predicate Cancellable(run: Run) {
    Pending(run) || ((run.state == CLAIMED || run.state == STARTING) && run.threadId.None?)
  }

  function Cancelled(run: Run): Run {
    if Cancellable(run) then run.(state := BLOCKED, error := Some("BOT_DELETED")) else run
  }

  function Marked(run: Run, state: RunState, thread: Option<string>, turn: Option<string>, error: Option<string>): Run {
    run.(state := state, threadId := if thread.Some? then thread else run.threadId,
         turnId := if turn.Some? then turn else run.turnId, error := error)
  }

  /** The schedules of the first `i` ids. */
  ghost function SchedulesOf(runs: map<Id, Run>, ids: seq<Id>, i: nat): set<Id>
    requires i <= |ids| && forall id :: id in ids ==> id in runs
  {
    set k | 0 <= k < i :: runs[ids[k]].scheduleId
  }

  /** `after` for the ids already taken, `before` for the others. */
  function Mixed(before: map<Id, Run>, after: map<Id, Run>, taken: seq<Id>): map<Id, Run>
    requires before.Keys == after.Keys
  {
    map id | id in before :: if id in taken then after[id] else before[id]
  }

  // ---------- the class ----------

  class BotSchedules {
    const cron: Cron
    var schedules: map<Id, Schedule>
    var runs: map<Id, Run>
    var issued: Id

    ghost predicate Valid()
      reads this
    {
      Later(cron) && OneRunPerSlot(runs) && forall id :: id in runs ==> id < issued
    }

    constructor (cron: Cron)
      requires Later(cron)
      ensures Valid() && schedules == map[] && runs == map[] && this.cron == cron
    {
      this.cron := cron;
      schedules, runs, issued := map[], map[], 0;
    }

    method CoalescePendingRuns(candidates: seq<Id>)
      requires Valid() && PendingQuery(runs, candidates, None)
      modifies this`runs
      ensures Valid() && runs == Coalesced(old(runs))
    {
      CoalesceRows(candidates, Coalesced(runs));
    }

    /** The loop, given what it is to make of each row. */
    method CoalesceRows(candidates: seq<Id>, ghost after: map<Id, Run>)
      requires Valid() && PendingQuery(runs, candidates, None) && SameSlots(runs, after)
      requires forall id :: id in runs ==> after[id] == if Superseded(runs, id, None) then Blocked(runs[id]) else runs[id]
      modifies this`runs
      ensures Valid() && runs == after
    {
      ghost var before := runs;
      var retained: set<Id> := {};
      for i := 0 to |candidates|
        invariant retained == SchedulesOf(before, candidates, i)
        invariant runs == Mixed(before, after, candidates[..i])
      {
        var candidate := candidates[i];
        SeenMeansSuperseded(before, candidates, None, i);
        MixedNext(before, after, candidates, i);
        if runs[candidate].scheduleId !in retained {
          retained := retained + {runs[candidate].scheduleId};
        } else {
          runs := runs[candidate := runs[candidate].(state := BLOCKED, error := SUPERSEDED)];
        }
      }
      MixedAll(before, after, candidates);
    }

    /** `pending` is what the coalescing query returns once the due slots are queued. */
    method ClaimDue(now: int, due: seq<Id>, pending: seq<Id>, ghost live: set<string>, ghost limit: int)
      requires Valid() && DueQuery(schedules, due, now, live, limit)
      requires PendingQuery(QueueSlots(Queue(runs, issued), schedules, due).runs, pending, None)
      modifies this`schedules, this`runs, this`issued
      ensures Valid() && schedules == Advanced(cron, old(schedules), due, now)
      ensures runs == Coalesced(QueueSlots(Queue(old(runs), old(issued)), old(schedules), due).runs)
    {
      QueueDue(now, due, live, limit);
      CoalescePendingRuns(pending);
    }

    method QueueDue(now: int, due: seq<Id>, ghost live: set<string>, ghost limit: int)
      requires Valid() && DueQuery(schedules, due, now, live, limit)
      modifies this`schedules, this`runs, this`issued
      ensures Valid()
      ensures schedules == Advanced(cron, old(schedules), due, now)
      ensures Queue(runs, issued) == QueueSlots(Queue(old(runs), old(issued)), old(schedules), due)
    {
      for i := 0 to |due|
        invariant Valid()
        invariant schedules == Advanced(cron, old(schedules), due[..i], now)
        invariant Queue(runs, issued) == QueueSlots(Queue(old(runs), old(issued)), old(schedules), due[..i])
      {
        assert due[..i + 1][..i] == due[..i];
        TakenNext(due, i);
        AdvanceAndQueue(now, due[i]);
      }
      assert due[..|due|] == due;
    }

    /** One row of the query: its next slot is stored, and the due one queued. */
    method AdvanceAndQueue(now: int, id: Id)
      requires Valid() && id in schedules && schedules[id].nextRunAt.Some?
      modifies this`schedules, this`runs, this`issued
      ensures Valid() && schedules == old(schedules)[id := AdvancedRow(cron, old(schedules)[id], now)]
      ensures Queue(runs, issued) == QueueOne(Queue(old(runs), old(issued)), id, old(schedules)[id])
    {
      var schedule := schedules[id];
      var slot := schedule.nextRunAt.value;
      schedules := schedules[id := schedule.(nextRunAt := NextBotScheduleAt(cron, schedule.spec, now), revision := schedule.revision + 1)];
      if !HasSlot(runs, id, slot) {
        runs := runs[issued := Run(id, schedule.owner, schedule.botId, slot, QUEUED, 0, None, None, None)];
        issued := issued + 1;
      }
    }

    /** `pending` is what the coalescing query returns, `candidates` what the second query returns after it. */
    method ClaimRunnable(pending: seq<Id>, candidates: seq<Id>, ghost live: set<string>, ghost limit: int) returns (claimed: seq<Id>)
      requires Valid() && PendingQuery(runs, pending, None) && QueuedQuery(Coalesced(runs), candidates, live, limit)
      modifies this`runs
      ensures Valid() && runs == Claimed(Coalesced(old(runs)), candidates) && claimed == candidates
    {
      CoalescePendingRuns(pending);
      claimed := ClaimQueued(candidates, live, limit);
    }

    method ClaimQueued(candidates: seq<Id>, ghost live: set<string>, ghost limit: int) returns (claimed: seq<Id>)
      requires Valid() && QueuedQuery(runs, candidates, live, limit)
      modifies this`runs
      ensures Valid() && runs == Claimed(old(runs), candidates) && claimed == candidates
    {
      claimed := [];
      for i := 0 to |candidates|
        invariant runs == Claimed(old(runs), candidates[..i]) && claimed == candidates[..i]
      {
        var id := candidates[i];
        TakenNext(candidates, i);
        if runs[id].state == QUEUED {
          runs := runs[id := runs[id].(state := CLAIMED, attempts := runs[id].attempts + 1, error := None)];
          claimed := claimed + [id];
        }
      }
      assert candidates[..|candidates|] == candidates;
    }

    method ResumeAuthorized(who: Principal, candidates: seq<Id>) returns (changes: nat)
      requires Valid() && PendingQuery(runs, candidates, Some(who))
      modifies this`runs
      ensures Valid() && runs == Resumed(old(runs), who)
    {
      ghost var late := set id | id in runs && Superseded(runs, id, Some(who));
      forall i | 0 <= i < |candidates|
        ensures candidates[i] in late <==> runs[candidates[i]].scheduleId in SchedulesOf(runs, candidates, i)
      {
        SeenMeansSuperseded(runs, candidates, Some(who), i);
        assert candidates[i] in candidates;
      }
      changes := ResumeRows(candidates, late, Resumed(runs, who));
    }

    /** The loop, given what it is to make of each row; `late`: the rows whose schedule was seen before. */
    method ResumeRows(candidates: seq<Id>, ghost late: set<Id>, ghost after: map<Id, Run>) returns (changes: nat)
      requires Valid() && SameSlots(runs, after) && DistinctIds(candidates)
      requires forall id :: id in candidates ==> id in runs && after[id] == ResumedRow(runs[id], id in late)
      requires forall id :: id in runs && id !in candidates ==> after[id] == runs[id]
      requires forall i :: 0 <= i < |candidates| ==>
        (candidates[i] in late <==> runs[candidates[i]].scheduleId in SchedulesOf(runs, candidates, i))
      modifies this`runs
      ensures Valid() && runs == after
    {
      ghost var before := runs;
      var retained: set<Id> := {};
      changes := 0;
      for i := 0 to |candidates|
        invariant retained == SchedulesOf(before, candidates, i)
        invariant runs == Mixed(before, after, candidates[..i])
      {
        var id := candidates[i];
        MixedNext(before, after, candidates, i);
        var seen := runs[id].scheduleId in retained;
        retained := retained + {runs[id].scheduleId};
        var changed := ResumeRow(id, seen);
        if changed { changes := changes + 1; }
      }
      MixedAll(before, after, candidates);
    }

    method ResumeRow(id: Id, seen: bool) returns (changed: bool)
      requires id in runs
      modifies this`runs
      ensures runs == old(runs)[id := ResumedRow(old(runs)[id], seen)]
      ensures changed <==> seen || old(runs)[id].state == AUTH_REQUIRED
    {
      changed := seen || runs[id].state == AUTH_REQUIRED;
      if seen {
        runs := runs[id := runs[id].(state := BLOCKED, error := SUPERSEDED)];
      } else if runs[id].state == AUTH_REQUIRED {
        runs := runs[id := runs[id].(state := QUEUED, error := None)];
      } else {
        assert runs[id := runs[id]] == runs;
      }
    }

    method RecoverInterrupted()
      requires Valid()
      modifies this`runs
      ensures Valid() && runs == MapRuns(Recovered, old(runs))
    {
      MapTwice(Requeued, Doubted, Recovered, runs);
      Update(Requeued);
      Update(Doubted);
    }

    /** One UPDATE over the table. */
    method Update(f: Run -> Run)
      requires Valid() && forall run :: f(run).scheduleId == run.scheduleId && f(run).slotAt == run.slotAt
      modifies this`runs
      ensures Valid() && runs == MapRuns(f, old(runs))
    {
      runs := MapRuns(f, runs);
    }

    method CancelBot(who: Principal, botId: string)
      requires Valid()
      modifies this`runs, this`schedules
      ensures Valid()
      ensures runs == map id | id in old(runs) :: if OfBot(old(runs)[id], who, botId) then Cancelled(old(runs)[id]) else old(runs)[id]
      ensures schedules == map id | id in old(schedules) && !(old(schedules)[id].botId == botId && SameOwner(old(schedules)[id].owner, who)) :: old(schedules)[id]
    {
      runs := map id | id in runs :: if OfBot(runs[id], who, botId) && Cancellable(runs[id])
        then runs[id].(state := BLOCKED, error := Some("BOT_DELETED")) else runs[id];
      schedules := map id | id in schedules && !(schedules[id].botId == botId && SameOwner(schedules[id].owner, who)) :: schedules[id];
    }

    method MarkRun(id: Id, state: RunState, thread: Option<string>, turn: Option<string>, error: Option<string>) returns (found: bool)
      requires Valid()
      modifies this`runs
      ensures Valid() && (found <==> id in old(runs))
      ensures runs == if found then old(runs)[id := Marked(old(runs)[id], state, thread, turn, error)] else old(runs)
    {
      found := id in runs;
      if found {
        runs := runs[id := runs[id].(state := state, threadId := if thread.Some? then thread else runs[id].threadId,
                                     turnId := if turn.Some? then turn else runs[id].turnId, error := error)];
      }
    }
  }

  predicate SameOwner(a: Principal, b: Principal) {
    a.tenantId == b.tenantId && a.subjectId == b.subjectId
  }

  predicate OfBot(run: Run, who: Principal, botId: string) {
    run.botId == botId && SameOwner(run.owner, who)
  }

  // ---------- what the loops rely on ----------

  lemma TakenNext(ids: seq<Id>, i: nat)
    requires i < |ids|
    ensures forall id :: id in ids[..i + 1] <==> id in ids[..i] || id == ids[i]
    ensures DistinctIds(ids) ==> ids[i] !in ids[..i]
  {
    assert ids[..i + 1] == ids[..i] + [ids[i]];
  }

  lemma MixedNext(before: map<Id, Run>, after: map<Id, Run>, ids: seq<Id>, i: nat)
    requires before.Keys == after.Keys && i < |ids| && DistinctIds(ids) && ids[i] in before
    ensures ids[i] in Mixed(before, after, ids[..i]) && Mixed(before, after, ids[..i])[ids[i]] == before[ids[i]]
    ensures Mixed(before, after, ids[..i + 1]) == Mixed(before, after, ids[..i])[ids[i] := after[ids[i]]]
    ensures after[ids[i]] == before[ids[i]] ==> Mixed(before, after, ids[..i + 1]) == Mixed(before, after, ids[..i])
  {
    TakenNext(ids, i);
  }

  lemma MixedAll(before: map<Id, Run>, after: map<Id, Run>, ids: seq<Id>)
    requires before.Keys == after.Keys && forall id :: id in before && id !in ids ==> after[id] == before[id]
    ensures Mixed(before, after, ids[..|ids|]) == after
  {
    assert ids[..|ids|] == ids;
  }

  /** In the order of the query, a schedule seen before means a later slot of it was seen. */
  lemma SeenMeansSuperseded(runs: map<Id, Run>, ids: seq<Id>, who: Option<Principal>, i: nat)
    requires PendingQuery(runs, ids, who) && OneRunPerSlot(runs) && i < |ids|
    ensures runs[ids[i]].scheduleId in SchedulesOf(runs, ids, i) <==> Superseded(runs, ids[i], who)
  {
    assert ids[i] in ids;
    if Superseded(runs, ids[i], who) {
      var other :| other in runs && Selected(runs[other], who) && runs[other].scheduleId == runs[ids[i]].scheduleId && runs[other].slotAt > runs[ids[i]].slotAt;
      assert other in ids;
      var k :| 0 <= k < |ids| && ids[k] == other;
      assert !(i < k);
    }
    if runs[ids[i]].scheduleId in SchedulesOf(runs, ids, i) {
      var k :| 0 <= k < i && runs[ids[k]].scheduleId == runs[ids[i]].scheduleId;
      assert Before(runs[ids[k]], runs[ids[i]]) && ids[k] in ids && ids[k] != ids[i];
    }
  }
}
