/** What the schedule tables never hold, and what a fenced bot never gets. */
module ScheduleTheorems {
  import opened Options
  import opened ScheduleStore
  import PendingDeletion
  import DeletionTheorems

  // ---------- coalescing ----------

  /** A pending run survives coalescing just when no pending run of its schedule has a later slot; the others become BLOCKED. */
  lemma CoalescingKeepsNewest(runs: map<Id, Run>, id: Id)
    requires OneRunPerSlot(runs) && id in runs && Pending(runs[id])
    ensures Pending(Coalesced(runs)[id]) <==>
            forall other :: other in runs && other != id && Pending(runs[other]) && runs[other].scheduleId == runs[id].scheduleId ==>
              runs[other].slotAt < runs[id].slotAt
    ensures Coalesced(runs)[id] == runs[id] || Coalesced(runs)[id] == runs[id].(state := BLOCKED, error := SUPERSEDED)
  {
  }

  /** At most one pending run per schedule is left. */
  lemma CoalescedAtMostOne(runs: map<Id, Run>, a: Id, b: Id)
    requires OneRunPerSlot(runs) && a in runs && b in runs && runs[a].scheduleId == runs[b].scheduleId
    requires Pending(Coalesced(runs)[a]) && Pending(Coalesced(runs)[b])
    ensures a == b
  {
    CoalescingKeepsNewest(runs, a);
    CoalescingKeepsNewest(runs, b);
  }

  /** And one is left whenever there was one. */
  lemma CoalescedAtLeastOne(runs: map<Id, Run>, id: Id)
    requires OneRunPerSlot(runs) && id in runs && Pending(runs[id])
    ensures exists newest :: newest in runs && Pending(Coalesced(runs)[newest]) && runs[newest].scheduleId == runs[id].scheduleId
  {
    var newest := Newest(runs, runs.Keys, id);
    CoalescingKeepsNewest(runs, newest);
  }

  lemma {:induction false} Newest(runs: map<Id, Run>, among: set<Id>, id: Id) returns (newest: Id)
    requires OneRunPerSlot(runs) && among <= runs.Keys && id in runs && Pending(runs[id])
    ensures newest in runs && Pending(runs[newest]) && runs[newest].scheduleId == runs[id].scheduleId
    ensures runs[newest].slotAt >= runs[id].slotAt
    ensures forall other :: other in among && Pending(runs[other]) && runs[other].scheduleId == runs[id].scheduleId ==>
              runs[other].slotAt <= runs[newest].slotAt
    decreases |among|
  {
    if among == {} {
      newest := id;
    } else {
      var x :| x in among;
      newest := Newest(runs, among - {x}, id);
      if Pending(runs[x]) && runs[x].scheduleId == runs[id].scheduleId && runs[x].slotAt > runs[newest].slotAt {
        newest := x;
      }
    }
  }

  lemma CoalescedTwice(runs: map<Id, Run>)
    requires OneRunPerSlot(runs)
    ensures Coalesced(Coalesced(runs)) == Coalesced(runs)
  {
    var once := Coalesced(runs);
    assert forall id :: id in once ==> !Superseded(once, id, None);
  }

  // ---------- claiming due slots ----------

  /** Every processed schedule is next due later than now, or never; the others are untouched. */
  lemma NextIsLater(cron: Cron, schedules: map<Id, Schedule>, due: seq<Id>, now: int, id: Id)
    requires Later(cron) && id in schedules
    ensures var after := Advanced(cron, schedules, due, now)[id];
            if id in due then (after.nextRunAt.Some? ==> after.nextRunAt.value > now) && after.revision == schedules[id].revision + 1
            else after == schedules[id]
  {
  }

  /** A processed recurring schedule is next due exactly when its cron next answers after now; a one-off schedule only
      while its time is still to come. */
  lemma NextIsTheCrons(cron: Cron, schedules: map<Id, Schedule>, due: seq<Id>, now: int, id: Id)
    requires Later(cron) && id in schedules && id in due
    ensures var spec, after := schedules[id].spec, Advanced(cron, schedules, due, now)[id];
            && (spec.Recurring? ==> after.nextRunAt == cron(spec.cron, now))
            && (spec.Once? ==> after.nextRunAt == if spec.at > now then Some(spec.at) else None)
            && after.spec == spec && after.enabled == schedules[id].enabled && after.botId == schedules[id].botId && after.owner == schedules[id].owner
  {
  }

  /** A schedule is still due afterwards only if the limit was reached, for schedules that were due no later. */
  lemma DueOnlyBeyondLimit(cron: Cron, schedules: map<Id, Schedule>, due: seq<Id>, now: int, live: set<string>, limit: int, id: Id)
    requires Later(cron) && id in schedules && DueQuery(schedules, due, now, live, limit)
    requires Due(Advanced(cron, schedules, due, now)[id], now, live)
    ensures id !in due && |due| == Clamp(limit)
    ensures forall taken :: taken in due ==> schedules[taken].nextRunAt.value <= schedules[id].nextRunAt.value
  {
    NextIsLater(cron, schedules, due, now, id);
  }

  /** Queueing keeps every run, keeps one run per slot, and issues only fresh ids. */
  lemma {:induction false} QueueingKeeps(q: Queue, schedules: map<Id, Schedule>, due: seq<Id>)
    requires forall id :: id in due ==> id in schedules && schedules[id].nextRunAt.Some?
    requires OneRunPerSlot(q.runs) && forall id :: id in q.runs ==> id < q.issued
    ensures var after := QueueSlots(q, schedules, due);
            && OneRunPerSlot(after.runs)
            && (forall id :: id in after.runs ==> id < after.issued)
            && forall id :: id in q.runs ==> id in after.runs && after.runs[id] == q.runs[id]
    decreases |due|
  {
    if due != [] {
      var init, last := due[..|due| - 1], due[|due| - 1];
      QueueingKeeps(q, schedules, init);
      QueueOneKeeps(QueueSlots(q, schedules, init), last, schedules[last]);
    }
  }

  lemma QueueOneKeeps(q: Queue, id: Id, schedule: Schedule)
    requires schedule.nextRunAt.Some? && OneRunPerSlot(q.runs) && forall r :: r in q.runs ==> r < q.issued
    ensures var after := QueueOne(q, id, schedule);
            && OneRunPerSlot(after.runs)
            && (forall r :: r in after.runs ==> r < after.issued)
            && (forall r :: r in q.runs ==> r in after.runs && after.runs[r] == q.runs[r])
            && HasSlot(after.runs, id, schedule.nextRunAt.value)
  {
    var after := QueueOne(q, id, schedule);
    if after != q {
      assert after.runs[q.issued].slotAt == schedule.nextRunAt.value;
    }
  }

  /** Each due slot has its run afterwards, and by the constraint only one. */
  lemma {:induction false} EveryDueSlotQueued(q: Queue, schedules: map<Id, Schedule>, due: seq<Id>, j: nat)
    requires j < |due| && forall id :: id in due ==> id in schedules && schedules[id].nextRunAt.Some?
    requires OneRunPerSlot(q.runs) && forall id :: id in q.runs ==> id < q.issued
    ensures HasSlot(QueueSlots(q, schedules, due).runs, due[j], schedules[due[j]].nextRunAt.value)
    decreases |due|
  {
    var init, last := due[..|due| - 1], due[|due| - 1];
    var before := QueueSlots(q, schedules, init);
    QueueingKeeps(q, schedules, init);
    QueueOneKeeps(before, last, schedules[last]);
    if j < |init| {
      EveryDueSlotQueued(q, schedules, init, j);
      var slot := schedules[due[j]].nextRunAt.value;
      var id :| id in before.runs && before.runs[id].scheduleId == due[j] && before.runs[id].slotAt == slot;
      assert QueueSlots(q, schedules, due).runs[id] == before.runs[id];
    }
  }

  /** A run that was not there before belongs to a due schedule, at the slot it was due, and has never been tried. */
  lemma {:induction false} OnlyDueSlotsQueued(q: Queue, schedules: map<Id, Schedule>, due: seq<Id>, id: Id)
    requires forall s :: s in due ==> s in schedules && schedules[s].nextRunAt.Some?
    requires id in QueueSlots(q, schedules, due).runs && id !in q.runs
    ensures var run := QueueSlots(q, schedules, due).runs[id];
            && run.scheduleId in due && run.slotAt == schedules[run.scheduleId].nextRunAt.value
            && run.botId == schedules[run.scheduleId].botId && run.owner == schedules[run.scheduleId].owner
            && run.state == QUEUED && run.attempts == 0 && run.threadId.None?
    decreases |due|
  {
    if due != [] && id in QueueSlots(q, schedules, due[..|due| - 1]).runs {
      var before := QueueSlots(q, schedules, due[..|due| - 1]);
      OnlyDueSlotsQueued(q, schedules, due[..|due| - 1], id);
      KeptByQueueOne(before, due[|due| - 1], schedules[due[|due| - 1]], id, before.issued);
    }
  }

  lemma KeptByQueueOne(q: Queue, s: Id, schedule: Schedule, id: Id, issued: Id)
    requires schedule.nextRunAt.Some? && id in q.runs && issued == q.issued
    ensures id in QueueOne(q, s, schedule).runs
    ensures QueueOne(q, s, schedule).runs[id] == q.runs[id] ||
            QueueOne(q, s, schedule).runs[id] == Run(s, schedule.owner, schedule.botId, schedule.nextRunAt.value, QUEUED, 0, None, None, None)
  {
  }

  // ---------- claiming and resuming ----------

  /** One call never claims two runs of a schedule. */
  lemma NeverTwoOfOneSchedule(runs: map<Id, Run>, candidates: seq<Id>, live: set<string>, limit: int, j: nat, k: nat)
    requires OneRunPerSlot(runs) && QueuedQuery(Coalesced(runs), candidates, live, limit)
    requires j < k < |candidates|
    ensures candidates[j] in runs && candidates[k] in runs
    ensures runs[candidates[j]].scheduleId != runs[candidates[k]].scheduleId
  {
    assert candidates[j] in candidates && candidates[k] in candidates;
    if runs[candidates[j]].scheduleId == runs[candidates[k]].scheduleId {
      CoalescedAtMostOne(runs, candidates[j], candidates[k]);
    }
  }

  /** A claimed run is CLAIMED for one more attempt with its error cleared; every other run is as it was. */
  lemma ClaimMarks(runs: map<Id, Run>, candidates: seq<Id>, live: set<string>, limit: int, id: Id)
    requires id in runs && QueuedQuery(runs, candidates, live, limit)
    ensures var run, after := runs[id], Claimed(runs, candidates)[id];
            if id in candidates
            then run.state == QUEUED && after.state == CLAIMED && after.attempts == run.attempts + 1 && after.error.None?
                 && after.threadId == run.threadId && after.slotAt == run.slotAt && after.scheduleId == run.scheduleId
            else after == run
  {
    assert id in candidates ==> Runnable(runs[id], live);
  }

  /** The bot is this owner's, and the run has not been dispatched or ended. */
  predicate Undispatched(run: Run, who: Principal, botId: string) {
    && run.botId == botId && run.owner.tenantId == who.tenantId && run.owner.subjectId == who.subjectId
    && (run.state == QUEUED || run.state == AUTH_REQUIRED || ((run.state == CLAIMED || run.state == STARTING) && run.threadId.None?))
  }

  /** Cancelling a bot leaves exactly its dispatched and ended runs; the others are blocked. */
  lemma CancelBlocks(runs: map<Id, Run>, who: Principal, botId: string, id: Id)
    requires id in runs
    ensures var after := (if OfBot(runs[id], who, botId) then Cancelled(runs[id]) else runs[id]);
            && !Undispatched(after, who, botId)
            && after == if Undispatched(runs[id], who, botId) then runs[id].(state := BLOCKED, error := Some("BOT_DELETED")) else runs[id]
  {
  }

  /** After claiming, a runnable run is left only if the limit was reached, and it was left as it was. */
  lemma RunnableOnlyBeyondLimit(runs: map<Id, Run>, candidates: seq<Id>, live: set<string>, limit: int, id: Id)
    requires id in runs && QueuedQuery(Coalesced(runs), candidates, live, limit)
    requires Runnable(Claimed(Coalesced(runs), candidates)[id], live)
    ensures |candidates| == Clamp(limit) && Claimed(Coalesced(runs), candidates)[id] == runs[id]
  {
    assert Runnable(Coalesced(runs)[id], live) && id !in candidates;
  }

  /** After resuming, no run of the principal still waits for a login, each of its schedules has at most one
      pending run, and other principals' runs are as they were. */
  lemma ResumedClears(runs: map<Id, Run>, who: Principal, id: Id)
    requires OneRunPerSlot(runs) && id in runs
    ensures runs[id].owner == who ==> Resumed(runs, who)[id].state != AUTH_REQUIRED
    ensures runs[id].owner != who || !Pending(runs[id]) ==> Resumed(runs, who)[id] == runs[id]
    ensures Selected(Resumed(runs, who)[id], Some(who)) ==> !HasRival(Resumed(runs, who), id, who)
  {
  }

  /** Of each schedule, the principal's pending run with the latest slot is queued; the earlier ones are superseded. */
  lemma ResumeRequeues(runs: map<Id, Run>, who: Principal, id: Id)
    requires id in runs && runs[id].owner == who && Pending(runs[id])
    ensures var after, later := Resumed(runs, who)[id],
                (exists other :: other in runs && runs[other].owner == who && Pending(runs[other])
                   && runs[other].scheduleId == runs[id].scheduleId && runs[other].slotAt > runs[id].slotAt);
            && after.state == (if later then BLOCKED else QUEUED)
            && (later ==> after.error == Some("SCHEDULE_SUPERSEDED"))
            && (!later && runs[id].state == AUTH_REQUIRED ==> after.error.None?)
  {
  }

  predicate HasRival(runs: map<Id, Run>, id: Id, who: Principal)
    requires id in runs
  {
    exists other :: other in runs && other != id && runs[other].scheduleId == runs[id].scheduleId && Selected(runs[other], Some(who))
  }

  // ---------- fenced and deleted bots ----------

  /** While a bot is not live, claiming creates no run for it and claims none of its runs. */
  lemma NothingForFencedBot(
      q: Queue, schedules: map<Id, Schedule>, due: seq<Id>, candidates: seq<Id>,
      now: int, live: set<string>, limit: int, bot: string, id: Id)
    requires bot !in live && DueQuery(schedules, due, now, live, limit)
    requires OneRunPerSlot(q.runs) && forall r :: r in q.runs ==> r < q.issued
    ensures id in QueueSlots(q, schedules, due).runs && QueueSlots(q, schedules, due).runs[id].botId == bot ==> id in q.runs
    ensures QueuedQuery(q.runs, candidates, live, limit) && id in q.runs && q.runs[id].botId == bot ==>
              Claimed(q.runs, candidates)[id] == q.runs[id]
  {
    if id in QueueSlots(q, schedules, due).runs && id !in q.runs {
      OnlyDueSlotsQueued(q, schedules, due, id);
    }
  }

  /** From the fence until a restore, and forever once the deletion is final, the schedules leave the bot alone. */
  lemma FenceStopsSchedules(
      events: seq<PendingDeletion.Event>, k: nat, bot: string, live: set<string>,
      q: Queue, schedules: map<Id, Schedule>, due: seq<Id>, candidates: seq<Id>, now: int, limit: int, id: Id)
    requires k <= |events| && DeletionTheorems.Run(events[..k]).archived != Some(false)
    requires forall j :: k <= j < |events| ==> !DeletionTheorems.Restored(events, j)
    requires bot in live <==> DeletionTheorems.Run(events).archived == Some(false)
    requires DueQuery(schedules, due, now, live, limit)
    requires OneRunPerSlot(q.runs) && forall r :: r in q.runs ==> r < q.issued
    ensures id in QueueSlots(q, schedules, due).runs && QueueSlots(q, schedules, due).runs[id].botId == bot ==> id in q.runs
    ensures QueuedQuery(q.runs, candidates, live, limit) && id in q.runs && q.runs[id].botId == bot ==>
              Claimed(q.runs, candidates)[id] == q.runs[id]
  {
    DeletionTheorems.FencedUntilRestored(events, k);
    NothingForFencedBot(q, schedules, due, candidates, now, live, limit, bot, id);
  }
}
