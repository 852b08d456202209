/** What no interleaving of live events and history snapshots can do to a stored turn. */
module TimelineTheorems {
  import opened Options
  import opened Timeline
  import Text

  function Ids(items: seq<Item>): (ids: seq<string>)
    ensures |ids| == |items|
  {
    seq(|items|, i requires 0 <= i < |items| => items[i].id)
  }

  predicate Distinct(ids: seq<string>) {
    forall i, j :: 0 <= i < j < |ids| ==> ids[i] != ids[j]
  }

  /** Stored items have distinct ids and verified artifacts only, and every completed id has its item. */
  predicate Sound(turn: Turn) {
    && Distinct(Ids(turn.items))
    && (forall item :: item in turn.items ==> Normal(item) == item)
    && (turn.completed.Known? ==> forall id :: id in turn.completed.ids ==> Has(turn.items, id))
    && !turn.completed.Undefined?
  }

  predicate SoundRow(row: Option<Row>) {
    row.Some? ==> Sound(row.value.turn)
  }

  // ---------- items ----------

  lemma {:induction false} VerifiedTwice(artifacts: seq<Artifact>)
    ensures Verified(Verified(artifacts)) == Verified(artifacts)
  {
    if artifacts != [] {
      VerifiedTwice(artifacts[1..]);
      var rest := Verified(artifacts[1..]);
      assert ([artifacts[0]] + rest)[1..] == rest && [] + rest == rest;
      assert Verified(artifacts) == if artifacts[0].verified then [artifacts[0]] + rest else rest;
    }
  }

  lemma NormalTwice(item: Item)
    ensures Normal(Normal(item)) == Normal(item) && Normal(item).id == item.id
  {
    if item.ToolCall? && item.artifacts.Some? {
      VerifiedTwice(item.artifacts.value);
    }
  }

  lemma HasIff(items: seq<Item>, id: string)
    ensures Has(items, id) <==> id in Ids(items)
  {
    if Has(items, id) {
      assert Ids(items)[Find(items, id)] == id;
    }
  }

  /** With distinct ids, the item at a position is found there. */
  lemma FindAt(items: seq<Item>, k: nat)
    requires k < |items| && Distinct(Ids(items))
    ensures Find(items, items[k].id) == k
  {
    var i := Find(items, items[k].id);
    assert Ids(items)[k] == items[k].id;
    assert i < |items| ==> Ids(items)[i] == items[i].id;
  }

  // ---------- merging ----------

  /** `later` keeps every item of `earlier` at its place, possibly with new contents. */
  predicate Keeps(earlier: seq<Item>, later: seq<Item>) {
    Ids(earlier) <= Ids(later) && Distinct(Ids(later))
  }

  lemma PutKeeps(items: seq<Item>, item: Item)
    requires Distinct(Ids(items))
    ensures Keeps(items, Put(items, item)) && Has(Put(items, item), item.id)
    ensures Put(items, item)[Find(Put(items, item), item.id)] == item
    ensures forall k :: 0 <= k < |items| && items[k].id != item.id ==> Put(items, item)[k] == items[k]
  {
    var i, after := Find(items, item.id), Put(items, item);
    HasIff(items, item.id);
    if i < |items| {
      assert Ids(after) == Ids(items);
    } else {
      assert Ids(after) == Ids(items) + [item.id];
    }
    FindAt(after, i);
  }

  lemma KeepsTrans(a: seq<Item>, b: seq<Item>, c: seq<Item>)
    requires Keeps(a, b) && Keeps(b, c)
    ensures Keeps(a, c)
  {
  }

  lemma {:induction false} MergeKeeps(items: seq<Item>, incoming: seq<Item>, preserve: bool)
    requires Distinct(Ids(items))
    ensures Keeps(items, Merge(items, incoming, preserve))
    ensures preserve ==> items <= Merge(items, incoming, preserve)
    decreases |incoming|
  {
    if incoming != [] {
      var init, last := incoming[..|incoming| - 1], incoming[|incoming| - 1];
      MergeKeeps(items, init, preserve);
      PutKeeps(Merge(items, init, preserve), last);
      KeepsTrans(items, Merge(items, init, preserve), Merge(items, incoming, preserve));
    }
  }

  lemma {:induction false} MergeMember(items: seq<Item>, incoming: seq<Item>, preserve: bool, x: Item)
    requires x in Merge(items, incoming, preserve)
    ensures x in items || x in incoming
    decreases |incoming|
  {
    if incoming != [] {
      var init, last := incoming[..|incoming| - 1], incoming[|incoming| - 1];
      if x in Merge(items, init, preserve) {
        MergeMember(items, init, preserve, x);
      }
    }
  }

  /** An item no incoming item contradicts is still there unchanged. */
  lemma {:induction false} MergeUnchanged(items: seq<Item>, incoming: seq<Item>, preserve: bool, k: nat)
    requires Distinct(Ids(items)) && k < |items|
    requires forall j :: 0 <= j < |incoming| && incoming[j].id == items[k].id ==> incoming[j] == items[k]
    ensures k < |Merge(items, incoming, preserve)| && Merge(items, incoming, preserve)[k] == items[k]
    decreases |incoming|
  {
    if incoming != [] {
      var init, last := incoming[..|incoming| - 1], incoming[|incoming| - 1];
      MergeUnchanged(items, init, preserve, k);
      MergeKeeps(items, init, preserve);
      var before := Merge(items, init, preserve);
      PutKeeps(before, last);
      if last.id == items[k].id {
        FindAt(before, k);
      }
    }
  }

  /** Every incoming id ends up stored. */
  lemma {:induction false} MergeHas(items: seq<Item>, incoming: seq<Item>, preserve: bool, j: nat)
    requires Distinct(Ids(items)) && j < |incoming|
    ensures Has(Merge(items, incoming, preserve), incoming[j].id)
    decreases |incoming|
  {
    var init, last := incoming[..|incoming| - 1], incoming[|incoming| - 1];
    var before := Merge(items, init, preserve);
    MergeKeeps(items, init, preserve);
    PutKeeps(before, last);
    if j < |init| {
      MergeHas(items, init, preserve, j);
      HasIff(before, incoming[j].id);
      HasIff(Merge(items, incoming, preserve), incoming[j].id);
      assert Keeps(before, Merge(items, incoming, preserve));
    }
  }

  // ---------- one row ----------

  predicate CompletedIn(earlier: Turn, later: Turn) {
    earlier.completed.Known? ==> later.completed.Known? && earlier.completed.ids <= later.completed.ids
  }

  /** Nothing stored is lost or reordered, no completed id is forgotten, and the revision tells when the row changed. */
  predicate Progress(earlier: Option<Row>, later: Option<Row>) {
    earlier.Some? ==>
      && later.Some?
      && Keeps(earlier.value.turn.items, later.value.turn.items)
      && CompletedIn(earlier.value.turn, later.value.turn)
      && earlier.value.revision <= later.value.revision
      && (earlier.value.revision == later.value.revision ==> earlier == later)
  }

  predicate Finished(row: Option<Row>) {
    row.Some? && row.value.turn.status != InProgress
  }

  /** The completed ids handed to `putTurn` go on from the stored ones, and each has its item. */
  predicate Continues(existing: Option<Row>, turn: Turn) {
    && (existing.Some? && turn.completed.Undefined? ==> existing.value.turn.completed.Absent?)
    && (turn.completed.Known? ==>
        && (existing.Some? ==> CompletedIn(existing.value.turn, turn))
        && forall id :: id in turn.completed.ids ==> Has(ItemsOf(existing), id) || id in Ids(turn.items))
  }

  lemma MergedItems(existing: Option<Row>, turn: Turn, preserve: bool)
    requires SoundRow(existing)
    ensures var items := Merge(ItemsOf(existing), AllNormal(turn.items), preserve);
            && Keeps(ItemsOf(existing), items)
            && forall item :: item in items ==> Normal(item) == item
  {
    var incoming := AllNormal(turn.items);
    MergeKeeps(ItemsOf(existing), incoming, preserve);
    forall item | item in Merge(ItemsOf(existing), incoming, preserve) ensures Normal(item) == item {
      MergeMember(ItemsOf(existing), incoming, preserve, item);
      if item in incoming {
        var i :| 0 <= i < |incoming| && incoming[i] == item;
        NormalTwice(turn.items[i]);
      }
    }
  }

  lemma MergedHas(existing: Option<Row>, turn: Turn, preserve: bool, id: string)
    requires SoundRow(existing) && (Has(ItemsOf(existing), id) || id in Ids(turn.items))
    ensures Has(Merge(ItemsOf(existing), AllNormal(turn.items), preserve), id)
  {
    var incoming := AllNormal(turn.items);
    var items := Merge(ItemsOf(existing), incoming, preserve);
    if Has(ItemsOf(existing), id) {
      MergeKeeps(ItemsOf(existing), incoming, preserve);
      HasIff(ItemsOf(existing), id);
      HasIff(items, id);
    } else {
      var i :| 0 <= i < |turn.items| && Ids(turn.items)[i] == id;
      NormalTwice(turn.items[i]);
      MergeHas(ItemsOf(existing), incoming, preserve, i);
    }
  }

  lemma PutTurnProgress(existing: Option<Row>, turn: Turn, preserve: bool)
    requires SoundRow(existing) && Continues(existing, turn)
    ensures SoundRow(PutTurn(existing, turn, preserve)) && Progress(existing, PutTurn(existing, turn, preserve))
  {
    MergedItems(existing, turn, preserve);
    var merged := Encoded(Merged(existing, turn, preserve));
    forall id | merged.completed.Known? && id in merged.completed.ids ensures Has(merged.items, id) {
      MergedHas(existing, turn, preserve, id);
    }
  }

  lemma ImportProgress(existing: Option<Row>, payload: Payload, live: nat, readRevision: nat)
    requires SoundRow(existing)
    ensures var after := ImportSnapshot(existing, payload, live, readRevision);
            SoundRow(after) && Progress(existing, after)
  {
    PutTurnProgress(existing, SnapshotTurn(existing, payload), Preserves(existing, payload, live, readRevision));
  }

  lemma RecordProgress(existing: Option<Row>, live: Live)
    requires SoundRow(existing)
    ensures var after := Record(existing, live); SoundRow(after) && Progress(existing, after)
  {
    var current := Current(existing);
    match live
    case TurnStarted(Some(payload)) => PutTurnProgress(existing, WithPayload(current, payload), false);
    case TurnCompleted(Some(payload)) => PutTurnProgress(existing, WithPayload(current, payload), false);
    case ItemStarted(item) =>
      PutTurnProgress(existing, current.(items := [item], completed := if current.completed.Absent? then Undefined else current.completed), false);
    case ItemCompleted(item) =>
      assert Ids([item])[0] == item.id;
      PutTurnProgress(existing, current.(items := [item], completed := AddId(current.completed, item.id)), false);
    case MessageDelta(id, delta) => PutTurnProgress(existing, current.(items := [Grown(current.items, id, delta)]), false);
    case _ =>
  }

  lemma InterruptProgress(existing: Option<Row>)
    requires SoundRow(existing)
    ensures SoundRow(Interrupt(existing)) && Progress(existing, Interrupt(existing))
  {
    if existing.Some? {
      PutTurnProgress(existing, existing.value.turn.(status := Interrupted), false);
    }
  }

  // ---------- completed items are final ----------

  /** Everything but the two turn payloads and the item's own completion. */
  predicate Mild(live: Live, id: string) {
    match live
    case TurnStarted(turn) => turn.None? || turn.value.items.None?
    case TurnCompleted(turn) => turn.None? || turn.value.items.None?
    case ItemCompleted(item) => item.id != id
    case _ => true
  }

  predicate KeepsItem(earlier: Option<Row>, later: Option<Row>, k: nat) {
    earlier.Some? && k < |earlier.value.turn.items| ==>
      && later.Some? && k < |later.value.turn.items|
      && later.value.turn.items[k] == earlier.value.turn.items[k]
  }

  lemma PutTurnKeepsItem(existing: Option<Row>, turn: Turn, preserve: bool, k: nat)
    requires SoundRow(existing) && existing.Some? && k < |existing.value.turn.items|
    requires forall j :: 0 <= j < |turn.items| && turn.items[j].id == existing.value.turn.items[k].id ==>
               Normal(turn.items[j]) == existing.value.turn.items[k]
    ensures KeepsItem(existing, PutTurn(existing, turn, preserve), k)
  {
    var items, incoming := existing.value.turn.items, AllNormal(turn.items);
    forall j | 0 <= j < |incoming| && incoming[j].id == items[k].id ensures incoming[j] == items[k] {
      NormalTwice(turn.items[j]);
    }
    MergeUnchanged(items, incoming, preserve, k);
  }

  lemma ImportKeepsCompleted(existing: Option<Row>, payload: Payload, live: nat, readRevision: nat, k: nat)
    requires SoundRow(existing) && existing.Some? && k < |existing.value.turn.items|
    requires IsCompleted(existing.value.turn, existing.value.turn.items[k].id)
    ensures KeepsItem(existing, ImportSnapshot(existing, payload, live, readRevision), k)
  {
    var items := existing.value.turn.items;
    FindAt(items, k);
    var snapshot := SnapshotTurn(existing, payload);
    forall j | 0 <= j < |snapshot.items| && snapshot.items[j].id == items[k].id ensures Normal(snapshot.items[j]) == items[k] {
      var incoming := payload.items.Or([])[j];
      assert Finalized(existing, incoming).id == incoming.id;
    }
    PutTurnKeepsItem(existing, snapshot, Preserves(existing, payload, live, readRevision), k);
  }

  lemma RecordKeepsCompleted(existing: Option<Row>, live: Live, k: nat)
    requires SoundRow(existing) && existing.Some? && k < |existing.value.turn.items|
    requires IsCompleted(existing.value.turn, existing.value.turn.items[k].id)
    requires Mild(live, existing.value.turn.items[k].id)
    ensures KeepsItem(existing, Record(existing, live), k)
  {
    var current := existing.value.turn;
    var items := current.items;
    match live
    case TurnStarted(Some(payload)) => CarriesOwnItems(existing, k); PutTurnKeepsItem(existing, WithPayload(current, payload), false, k);
    case TurnCompleted(Some(payload)) => CarriesOwnItems(existing, k); PutTurnKeepsItem(existing, WithPayload(current, payload), false, k);
    case ItemStarted(item) =>
      if !IsCompleted(current, item.id) {
        PutTurnKeepsItem(existing, current.(items := [item], completed := if current.completed.Absent? then Undefined else current.completed), false, k);
      }
    case ItemCompleted(item) =>
      PutTurnKeepsItem(existing, current.(items := [item], completed := AddId(current.completed, item.id)), false, k);
    case MessageDelta(id, delta) =>
      if !IsCompleted(current, id) {
        PutTurnKeepsItem(existing, current.(items := [Grown(items, id, delta)]), false, k);
      }
    case _ =>
  }

  lemma CarriesOwnItems(existing: Option<Row>, k: nat)
    requires SoundRow(existing) && existing.Some? && k < |existing.value.turn.items|
    ensures forall j :: 0 <= j < |existing.value.turn.items| && existing.value.turn.items[j].id == existing.value.turn.items[k].id ==>
              Normal(existing.value.turn.items[j]) == existing.value.turn.items[k]
  {
    var items := existing.value.turn.items;
    forall j | 0 <= j < |items| && items[j].id == items[k].id ensures Normal(items[j]) == items[k] {
      FindAt(items, j);
      FindAt(items, k);
    }
  }

  lemma InterruptKeepsItem(existing: Option<Row>, k: nat)
    requires SoundRow(existing) && existing.Some? && k < |existing.value.turn.items|
    ensures KeepsItem(existing, Interrupt(existing), k)
  {
    CarriesOwnItems(existing, k);
    PutTurnKeepsItem(existing, existing.value.turn.(status := Interrupted), false, k);
  }

  // ---------- snapshots ----------

  /** A preserving snapshot of a known turn appends items with unseen ids and changes nothing that was stored. */
  predicate OnlyAppends(earlier: Turn, later: Turn) {
    && earlier.items <= later.items
    && Distinct(Ids(later.items))
    && later.status == earlier.status
    && later.completed == earlier.completed
    && (earlier.startedAt.Some? ==> later.startedAt == earlier.startedAt)
    && forall key :: key in earlier.details ==> key in later.details && later.details[key] == earlier.details[key]
  }

  lemma PreservingImport(existing: Option<Row>, payload: Payload, live: nat, readRevision: nat)
    requires SoundRow(existing) && existing.Some? && Preserves(existing, payload, live, readRevision)
    ensures var after := ImportSnapshot(existing, payload, live, readRevision);
            after.Some? && OnlyAppends(existing.value.turn, after.value.turn)
  {
    MergeKeeps(existing.value.turn.items, AllNormal(SnapshotTurn(existing, payload).items), true);
  }

  /** The last incoming item with an id. */
  function Last(incoming: seq<Item>, id: string, otherwise: Item): Item {
    if incoming == [] then otherwise
    else if incoming[|incoming| - 1].id == id then incoming[|incoming| - 1]
    else Last(incoming[..|incoming| - 1], id, otherwise)
  }

  lemma {:induction false} LastAgain(incoming: seq<Item>, id: string, otherwise: Item)
    ensures Last(incoming, id, Last(incoming, id, otherwise)) == Last(incoming, id, otherwise)
    decreases |incoming|
  {
    if incoming != [] && incoming[|incoming| - 1].id != id {
      LastAgain(incoming[..|incoming| - 1], id, otherwise);
      assert Last(incoming, id, otherwise) == Last(incoming[..|incoming| - 1], id, otherwise);
    }
  }

  /** What a merge that overwrites leaves at each position: the last incoming item of that id, else what was stored.
      `stored` is arbitrary past the stored items. */
  lemma {:induction false} MergeAt(items: seq<Item>, incoming: seq<Item>, k: nat, stored: Item)
    requires Distinct(Ids(items)) && k < |Merge(items, incoming, false)| && (k < |items| ==> stored == items[k])
    ensures var after := Merge(items, incoming, false)[k]; after == Last(incoming, after.id, stored)
    decreases |incoming|
  {
    if incoming != [] {
      var init, last := incoming[..|incoming| - 1], incoming[|incoming| - 1];
      var before := Merge(items, init, false);
      MergeKeeps(items, init, false);
      PutKeeps(before, last);
      if k < |before| {
        FindAt(before, k);
        MergeAt(items, init, k, stored);
      }
    }
  }

  lemma {:induction false} MergeAddsNothing(items: seq<Item>, incoming: seq<Item>, preserve: bool)
    requires Distinct(Ids(items))
    requires forall item :: item in incoming ==> Has(items, item.id)
    ensures Ids(Merge(items, incoming, preserve)) == Ids(items)
    ensures preserve ==> Merge(items, incoming, preserve) == items
    decreases |incoming|
  {
    if incoming != [] {
      var init, last := incoming[..|incoming| - 1], incoming[|incoming| - 1];
      MergeAddsNothing(items, init, preserve);
      HasIff(items, last.id);
      HasIff(Merge(items, init, preserve), last.id);
    }
  }

  /** Merging the same items a second time changes nothing, whatever duplicates the list holds. */
  lemma MergeTwice(items: seq<Item>, incoming: seq<Item>, preserve: bool)
    requires Distinct(Ids(items))
    ensures Merge(Merge(items, incoming, preserve), incoming, preserve) == Merge(items, incoming, preserve)
  {
    var once := Merge(items, incoming, preserve);
    var twice := Merge(once, incoming, preserve);
    MergeKeeps(items, incoming, preserve);
    forall item | item in incoming ensures Has(once, item.id) {
      var j :| 0 <= j < |incoming| && incoming[j] == item;
      MergeHas(items, incoming, preserve, j);
    }
    MergeAddsNothing(once, incoming, preserve);
    if !preserve {
      assert |twice| == |Ids(twice)| == |once|;
      forall k | 0 <= k < |once| ensures twice[k] == once[k] {
        MergedTwiceAt(items, incoming, k);
      }
    }
  }

  lemma MergedTwiceAt(items: seq<Item>, incoming: seq<Item>, k: nat)
    requires var once := Merge(items, incoming, false);
             && Distinct(Ids(items)) && Distinct(Ids(once)) && k < |once|
             && Ids(Merge(once, incoming, false)) == Ids(once)
    ensures var once := Merge(items, incoming, false);
            |Merge(once, incoming, false)| == |once| && Merge(once, incoming, false)[k] == once[k]
  {
    var once := Merge(items, incoming, false);
    var twice := Merge(once, incoming, false);
    assert |Ids(twice)| == |twice| && Ids(twice)[k] == once[k].id;
    var stored := if k < |items| then items[k] else once[k];
    MergeAt(items, incoming, k, stored);
    MergeAt(once, incoming, k, once[k]);
    LastAgain(incoming, once[k].id, stored);
  }

  /** A snapshot reads the same against the row it has just produced. */
  lemma SnapshotAgain(existing: Option<Row>, payload: Payload, live: nat, readRevision: nat)
    requires SoundRow(existing)
    ensures SnapshotTurn(ImportSnapshot(existing, payload, live, readRevision), payload) == SnapshotTurn(existing, payload)
  {
    var after := ImportSnapshot(existing, payload, live, readRevision);
    ImportProgress(existing, payload, live, readRevision);
    var items := payload.items.Or([]);
    forall i | 0 <= i < |items| ensures Finalized(after, items[i]) == Finalized(existing, items[i]) {
      if existing.Some? {
        FinalizedAgain(existing, payload, live, readRevision, items[i]);
      }
    }
    assert SnapshotTurn(after, payload).items == SnapshotTurn(existing, payload).items;
  }

  lemma FinalizedAgain(existing: Option<Row>, payload: Payload, live: nat, readRevision: nat, item: Item)
    requires SoundRow(existing) && existing.Some?
    ensures Finalized(ImportSnapshot(existing, payload, live, readRevision), item) == Finalized(existing, item)
  {
    var after := ImportSnapshot(existing, payload, live, readRevision);
    ImportProgress(existing, payload, live, readRevision);
    var stored, later := existing.value.turn, after.value.turn;
    assert later.completed == stored.completed;
    if IsCompleted(stored, item.id) {
      var k := Find(stored.items, item.id);
      ImportKeepsCompleted(existing, payload, live, readRevision, k);
      FindAt(later.items, k);
    }
  }

  /** Importing the same snapshot twice in a row: the second time nothing changes, not even the revision. */
  lemma ImportTwice(existing: Option<Row>, payload: Payload, live: nat, readRevision: nat)
    requires SoundRow(existing)
    ensures var once := ImportSnapshot(existing, payload, live, readRevision);
            ImportSnapshot(once, payload, live, readRevision) == once
  {
    var once := ImportSnapshot(existing, payload, live, readRevision);
    var turn, preserve := SnapshotTurn(existing, payload), Preserves(existing, payload, live, readRevision);
    SnapshotAgain(existing, payload, live, readRevision);
    assert Preserves(once, payload, live, readRevision) == preserve;
    MergeTwice(ItemsOf(existing), AllNormal(turn.items), preserve);
    PutTwice(existing, turn, preserve);
  }

  lemma PutTwice(existing: Option<Row>, turn: Turn, preserve: bool)
    requires turn.completed.Absent? && (existing.Some? ==> !existing.value.turn.completed.Undefined?)
    requires var items := Merge(ItemsOf(existing), AllNormal(turn.items), preserve);
             Merge(items, AllNormal(turn.items), preserve) == items
    ensures PutTurn(PutTurn(existing, turn, preserve), turn, preserve) == PutTurn(existing, turn, preserve)
  {
    var once := PutTurn(existing, turn, preserve).value.turn;
    assert once.details == turn.details || existing.Some?;
    assert Merged(Some(Row(once, 0)), turn, preserve).details == once.details;
  }

  // ---------- whole runs ----------

  predicate SoundStore(s: Store) {
    && (forall key :: key in s.rows ==> Sound(s.rows[key].turn))
    && (forall key :: key in s.liveTurns ==> 0 < s.liveTurns[key] <= s.liveRevision)
  }

  function Run(s: Store, ops: seq<Op>): Store {
    if ops == [] then s else Apply(Run(s, ops[..|ops| - 1]), ops[|ops| - 1])
  }

  lemma RowProgress(s: Store, at: string, row: Option<Row>, key: string)
    requires SoundStore(s) && SoundRow(row) && Progress(RowAt(s, at), row)
    ensures SoundStore(SetRow(s, at, row)) && Progress(RowAt(s, key), RowAt(SetRow(s, at, row), key))
  {
    SelfProgress(RowAt(s, key));
  }

  lemma SelfProgress(row: Option<Row>)
    requires SoundRow(row)
    ensures Progress(row, row)
  {
  }

  lemma StepProgress(s: Store, op: Op, key: string)
    requires SoundStore(s)
    ensures SoundStore(Apply(s, op)) && Progress(RowAt(s, key), RowAt(Apply(s, op), key))
  {
    var row := RowAt(s, op.key);
    match op
    case RecordOp(at, live) =>
      RecordProgress(row, live);
      var n := s.liveRevision + 1;
      RowProgress(s.(liveRevision := n, liveTurns := s.liveTurns[at := n]), at, Record(row, live), key);
    case ImportOp(at, payload, readRevision) =>
      ImportProgress(row, payload, LiveAt(s, at), readRevision);
      RowProgress(s, at, ImportSnapshot(row, payload, LiveAt(s, at), readRevision), key);
    case InterruptOp(at) =>
      InterruptProgress(row);
      RowProgress(s, at, Interrupt(row), key);
  }

  /** No run of events and snapshots loses or reorders a stored item or forgets a completion. */
  lemma {:induction false} RunProgress(s: Store, ops: seq<Op>, key: string)
    requires SoundStore(s)
    ensures SoundStore(Run(s, ops)) && Progress(RowAt(s, key), RowAt(Run(s, ops), key))
    decreases |ops|
  {
    if ops != [] {
      RunProgress(s, ops[..|ops| - 1], key);
      StepProgress(Run(s, ops[..|ops| - 1]), ops[|ops| - 1], key);
    }
  }

  // ---------- terminal turns ----------

  /** A `turn/completed` whose turn is in progress. */
  predicate Revives(op: Op, key: string) {
    op.RecordOp? && op.key == key && op.live.TurnCompleted? && op.live.turn.Some? && op.live.turn.value.status == InProgress
  }

  lemma StepRevives(s: Store, op: Op, key: string)
    requires Finished(RowAt(s, key))
    ensures Finished(RowAt(Apply(s, op), key)) <==> !Revives(op, key)
  {
  }

  lemma RunNext(s: Store, ops: seq<Op>, k: nat)
    requires k < |ops|
    ensures Run(s, ops[..k + 1]) == Apply(Run(s, ops[..k]), ops[k])
  {
    assert ops[..k + 1][..k] == ops[..k];
  }

  predicate FinishedAt(s: Store, ops: seq<Op>, key: string, k: nat)
    requires k <= |ops|
  {
    Finished(RowAt(Run(s, ops[..k]), key))
  }

  /** No step of the run takes the turn from a terminal status back to inProgress. */
  predicate StaysFinished(s: Store, ops: seq<Op>, key: string) {
    forall k :: 0 <= k < |ops| && FinishedAt(s, ops, key, k) ==> FinishedAt(s, ops, key, k + 1)
  }

  lemma FinishedStep(s: Store, ops: seq<Op>, key: string, k: nat)
    requires k < |ops| && FinishedAt(s, ops, key, k)
    ensures FinishedAt(s, ops, key, k + 1) <==> !Revives(ops[k], key)
  {
    RunNext(s, ops, k);
    StepRevives(Run(s, ops[..k]), ops[k], key);
  }

  predicate NeverRevived(s: Store, ops: seq<Op>, key: string) {
    forall k :: 0 <= k < |ops| && FinishedAt(s, ops, key, k) ==> !Revives(ops[k], key)
  }

  /** In every run, a terminal turn never returns to inProgress if and only if no `turn/completed` that is itself in
      progress comes while it is terminal. */
  lemma TerminalIffNotRevived(s: Store, ops: seq<Op>, key: string)
    ensures StaysFinished(s, ops, key) <==> NeverRevived(s, ops, key)
  {
    if StaysFinished(s, ops, key) {
      forall k | 0 <= k < |ops| && FinishedAt(s, ops, key, k) ensures !Revives(ops[k], key) {
        FinishedStep(s, ops, key, k);
      }
    }
    if NeverRevived(s, ops, key) {
      forall k | 0 <= k < |ops| && FinishedAt(s, ops, key, k) ensures FinishedAt(s, ops, key, k + 1) {
        FinishedStep(s, ops, key, k);
      }
    }
  }

  /** A turn completes, and a second `turn/completed` says it is in progress. */
  const REVIVAL := [RecordOp("turn", TurnCompleted(Some(Payload(Completed, None, map[], None)))),
                    RecordOp("turn", TurnCompleted(Some(Payload(InProgress, None, map[], None))))]

  lemma RevivedTurn()
    ensures var empty := Store(map[], map[], 0); FinishedAt(empty, REVIVAL, "turn", 1) && !FinishedAt(empty, REVIVAL, "turn", 2)
  {
    var empty := Store(map[], map[], 0);
    RunNext(empty, REVIVAL, 0);
    assert REVIVAL[..0] == [];
    FinishedStep(empty, REVIVAL, "turn", 1);
  }

  /** So a terminal turn stays terminal when every `turn/completed` carries a terminal status. */
  lemma {:induction false} TerminalForGood(s: Store, ops: seq<Op>, key: string)
    requires Finished(RowAt(s, key)) && forall op :: op in ops ==> !Revives(op, key)
    ensures Finished(RowAt(Run(s, ops), key))
    decreases |ops|
  {
    if ops != [] {
      TerminalForGood(s, ops[..|ops| - 1], key);
      StepRevives(Run(s, ops[..|ops| - 1]), ops[|ops| - 1], key);
    }
  }

  // ---------- completed items, over runs ----------

  predicate MildOp(op: Op, key: string, id: string) {
    op.RecordOp? && op.key == key ==> Mild(op.live, id)
  }

  lemma StepKeepsCompleted(s: Store, op: Op, key: string, k: nat)
    requires SoundStore(s) && key in s.rows && k < |s.rows[key].turn.items|
    requires IsCompleted(s.rows[key].turn, s.rows[key].turn.items[k].id) && MildOp(op, key, s.rows[key].turn.items[k].id)
    ensures KeepsItem(RowAt(s, key), RowAt(Apply(s, op), key), k)
  {
    if op.key == key {
      match op
      case RecordOp(_, live) => RecordKeepsCompleted(RowAt(s, key), live, k);
      case ImportOp(_, payload, readRevision) => ImportKeepsCompleted(RowAt(s, key), payload, LiveAt(s, key), readRevision, k);
      case InterruptOp(_) => InterruptKeepsItem(RowAt(s, key), k);
    }
  }

  /** A completed item is final under snapshots, deltas, starts, interrupts and other items' completions. */
  lemma {:induction false} CompletedIsFinal(s: Store, ops: seq<Op>, key: string, k: nat)
    requires SoundStore(s) && key in s.rows && k < |s.rows[key].turn.items|
    requires IsCompleted(s.rows[key].turn, s.rows[key].turn.items[k].id)
    requires forall op :: op in ops ==> MildOp(op, key, s.rows[key].turn.items[k].id)
    ensures KeepsItem(RowAt(s, key), RowAt(Run(s, ops), key), k)
    ensures key in Run(s, ops).rows && IsCompleted(Run(s, ops).rows[key].turn, s.rows[key].turn.items[k].id)
    decreases |ops|
  {
    if ops != [] {
      var init, last := ops[..|ops| - 1], ops[|ops| - 1];
      CompletedIsFinal(s, init, key, k);
      RunProgress(s, init, key);
      StepKeepsCompleted(Run(s, init), last, key, k);
      StepProgress(Run(s, init), last, key);
    }
  }

  /** `item/completed` stores the item it names, and marks it. */
  lemma CompletionStores(existing: Option<Row>, item: Item)
    requires SoundRow(existing) && item.id != ""
    ensures var after := Record(existing, ItemCompleted(item));
            && after.Some? && IsCompleted(after.value.turn, item.id)
            && Has(after.value.turn.items, item.id)
            && after.value.turn.items[Find(after.value.turn.items, item.id)] == Normal(item)
  {
    var current := Current(existing);
    var turn := current.(items := [item], completed := AddId(current.completed, item.id));
    assert AllNormal(turn.items) == [Normal(item)];
    NormalTwice(item);
    PutKeeps(ItemsOf(existing), Normal(item));
    var items := ItemsOf(existing);
    assert Merge(items, [], false) == items && [Normal(item)][..0] == [];
    assert Merge(items, [Normal(item)], false) == Put(items, Normal(item));
  }

  // ---------- what live events store ----------

  /** An id that occurs decides its last item, whatever the default. */
  lemma {:induction false} LastOccurs(incoming: seq<Item>, j: nat, a: Item, b: Item)
    requires j < |incoming|
    ensures Last(incoming, incoming[j].id, a) == Last(incoming, incoming[j].id, b)
    decreases |incoming|
  {
    if incoming[|incoming| - 1].id != incoming[j].id {
      LastOccurs(incoming[..|incoming| - 1], j, a, b);
    }
  }

  lemma {:induction false} LastNormal(items: seq<Item>, id: string, otherwise: Item)
    ensures Last(AllNormal(items), id, Normal(otherwise)) == Normal(Last(items, id, otherwise))
    decreases |items|
  {
    if items != [] {
      var init, last := items[..|items| - 1], items[|items| - 1];
      NormalTwice(last);
      assert AllNormal(items)[..|init|] == AllNormal(init);
      LastNormal(init, id, otherwise);
    }
  }

  /** What an overwriting merge stores under one incoming id. */
  lemma MergeStores(stored: seq<Item>, items: seq<Item>, j: nat)
    requires Distinct(Ids(stored)) && j < |items|
    ensures var after, id := Merge(stored, AllNormal(items), false), items[j].id;
            Has(after, id) && after[Find(after, id)] == Normal(Last(items, id, items[j]))
  {
    var incoming, id := AllNormal(items), items[j].id;
    var after := Merge(stored, incoming, false);
    NormalTwice(items[j]);
    MergeHas(stored, incoming, false, j);
    var k := Find(after, id);
    var before := if k < |stored| then stored[k] else incoming[j];
    MergeAt(stored, incoming, k, before);
    LastOccurs(incoming, j, before, Normal(items[j]));
    LastNormal(items, id, items[j]);
  }

  lemma MergeLeaves(stored: seq<Item>, items: seq<Item>, k: nat)
    requires Distinct(Ids(stored)) && k < |stored| && stored[k].id !in Ids(items)
    ensures k < |Merge(stored, AllNormal(items), false)| && Merge(stored, AllNormal(items), false)[k] == stored[k]
  {
    forall j | 0 <= j < |items| ensures AllNormal(items)[j].id != stored[k].id {
      NormalTwice(items[j]);
      assert Ids(items)[j] == items[j].id;
    }
    MergeUnchanged(stored, AllNormal(items), false, k);
  }

  /** The items of `after` are those of `stored`, overwritten by these as they read. */
  predicate Overwritten(stored: seq<Item>, items: seq<Item>, after: seq<Item>) {
    && |stored| <= |after|
    && (forall j :: 0 <= j < |items| ==> Has(after, items[j].id) && after[Find(after, items[j].id)] == Normal(Last(items, items[j].id, items[j])))
    && (forall k :: 0 <= k < |stored| && stored[k].id !in Ids(items) ==> after[k] == stored[k])
    && (forall item :: item in after ==> item in stored || item.id in Ids(items))
  }

  lemma MergeOverwrites(stored: seq<Item>, items: seq<Item>)
    requires Distinct(Ids(stored))
    ensures Overwritten(stored, items, Merge(stored, AllNormal(items), false))
  {
    var after := Merge(stored, AllNormal(items), false);
    MergeKeeps(stored, AllNormal(items), false);
    forall j | 0 <= j < |items| ensures Has(after, items[j].id) && after[Find(after, items[j].id)] == Normal(Last(items, items[j].id, items[j])) {
      MergeStores(stored, items, j);
    }
    forall k | 0 <= k < |stored| && stored[k].id !in Ids(items) ensures after[k] == stored[k] {
      MergeLeaves(stored, items, k);
    }
    forall item | item in after ensures item in stored || item.id in Ids(items) {
      MergeMember(stored, AllNormal(items), false, item);
      if item !in stored {
        var j :| 0 <= j < |items| && AllNormal(items)[j] == item;
        NormalTwice(items[j]);
        assert Ids(items)[j] == item.id;
      }
    }
  }

  lemma {:induction false} SameMerge(items: seq<Item>, n: nat)
    requires Distinct(Ids(items)) && n <= |items| && forall item :: item in items ==> Normal(item) == item
    ensures Merge(items, AllNormal(items)[..n], false) == items
    decreases n
  {
    if n > 0 {
      assert AllNormal(items)[..n][..n - 1] == AllNormal(items)[..n - 1];
      SameMerge(items, n - 1);
      assert items[n - 1] in items;
      FindAt(items, n - 1);
    }
  }

  /** Storing a turn with its own items again leaves them as they are. */
  lemma OwnItems(items: seq<Item>)
    requires Distinct(Ids(items)) && forall item :: item in items ==> Normal(item) == item
    ensures Merge(items, AllNormal(items), false) == items
  {
    SameMerge(items, |items|);
    assert AllNormal(items)[..|items|] == AllNormal(items);
  }

  /** The event reports the turn, and the row takes it: every turn/completed, and a turn/started unless the turn is over. */
  predicate Takes(existing: Option<Row>, live: Live, payload: Payload) {
    live == TurnCompleted(Some(payload)) || (live == TurnStarted(Some(payload)) && !Finished(existing))
  }

  /** The row after a report: its items overwritten by the payload's, its status the payload's, each detail the payload's
      where it has it, the first start that was known, and the completed ids as they were. */
  ghost predicate Reported(existing: Option<Row>, payload: Payload, after: Option<Row>) {
    && after.Some? && after.value.turn.status == payload.status
    && (if payload.items.Some? then Overwritten(ItemsOf(existing), payload.items.value, after.value.turn.items)
        else after.value.turn.items == ItemsOf(existing))
    && (forall key :: key in after.value.turn.details <==>
          key in payload.details || (existing.Some? && key in existing.value.turn.details))
    && (forall key :: key in after.value.turn.details ==>
          after.value.turn.details[key] ==
          if key in payload.details then payload.details[key] else existing.value.turn.details[key])
    && after.value.turn.startedAt == (if existing.Some? && existing.value.turn.startedAt.Some? then existing.value.turn.startedAt else payload.startedAt)
    && after.value.turn.completed == (if existing.Some? then existing.value.turn.completed else Absent)
  }

  lemma ReportTaken(existing: Option<Row>, live: Live, payload: Payload)
    requires SoundRow(existing) && Takes(existing, live, payload)
    ensures Reported(existing, payload, Record(existing, live))
  {
    var items := ItemsOf(existing);
    if payload.items.Some? {
      MergeOverwrites(items, payload.items.value);
    } else {
      OwnItems(items);
    }
    ReportedMerge(existing, payload, Merge(items, AllNormal(payload.items.Or(items)), false));
  }

  lemma ReportedMerge(existing: Option<Row>, payload: Payload, items: seq<Item>)
    requires SoundRow(existing) && items == Merge(ItemsOf(existing), AllNormal(payload.items.Or(ItemsOf(existing))), false)
    requires if payload.items.Some? then Overwritten(ItemsOf(existing), payload.items.value, items) else items == ItemsOf(existing)
    ensures Reported(existing, payload, PutTurn(existing, WithPayload(Current(existing), payload), false))
  {
  }

  /** A report of the turn is stored; a turn/started of a turn that is over changes nothing. */
  lemma TurnReported(s: Store, key: string, live: Live, payload: Payload)
    requires SoundStore(s) && (live == TurnCompleted(Some(payload)) || live == TurnStarted(Some(payload)))
    ensures var existing, after := RowAt(s, key), RowAt(Apply(s, RecordOp(key, live)), key);
            if Takes(existing, live, payload) then Reported(existing, payload, after) else after == existing
  {
    if Takes(RowAt(s, key), live, payload) {
      ReportTaken(RowAt(s, key), live, payload);
    }
  }

  /** The row after an item event: the item overwrites the one of its id, and nothing else changes but, on completion,
      the completed ids. */
  ghost predicate ItemStored(existing: Option<Row>, item: Item, completes: bool, after: Option<Row>) {
    && after.Some? && Overwritten(ItemsOf(existing), [item], after.value.turn.items)
    && after.value.turn.status == (if existing.Some? then existing.value.turn.status else InProgress)
    && after.value.turn.startedAt == (if existing.Some? then existing.value.turn.startedAt else None)
    && after.value.turn.details == (if existing.Some? then existing.value.turn.details else map[])
    && forall id :: IsCompleted(after.value.turn, id) <==> (existing.Some? && IsCompleted(existing.value.turn, id)) || (completes && id == item.id)
  }

  lemma ItemTaken(existing: Option<Row>, item: Item)
    requires SoundRow(existing) && item.id != ""
    ensures ItemStored(existing, item, true, Record(existing, ItemCompleted(item)))
    ensures !(existing.Some? && IsCompleted(existing.value.turn, item.id)) ==> ItemStored(existing, item, false, Record(existing, ItemStarted(item)))
  {
    MergeOverwrites(ItemsOf(existing), [item]);
    ItemMerged(existing, item);
  }

  lemma ItemMerged(existing: Option<Row>, item: Item)
    requires SoundRow(existing) && item.id != "" && Overwritten(ItemsOf(existing), [item], Merge(ItemsOf(existing), AllNormal([item]), false))
    ensures ItemStored(existing, item, true, Record(existing, ItemCompleted(item)))
    ensures !(existing.Some? && IsCompleted(existing.value.turn, item.id)) ==> ItemStored(existing, item, false, Record(existing, ItemStarted(item)))
  {
    CompletedMerged(existing, item);
    if !(existing.Some? && IsCompleted(existing.value.turn, item.id)) {
      StartedMerged(existing, item);
    }
  }

  lemma CompletedMerged(existing: Option<Row>, item: Item)
    requires SoundRow(existing) && item.id != "" && Overwritten(ItemsOf(existing), [item], Merge(ItemsOf(existing), AllNormal([item]), false))
    ensures ItemStored(existing, item, true, Record(existing, ItemCompleted(item)))
  {
  }

  lemma StartedMerged(existing: Option<Row>, item: Item)
    requires SoundRow(existing) && item.id != "" && Overwritten(ItemsOf(existing), [item], Merge(ItemsOf(existing), AllNormal([item]), false))
    requires !(existing.Some? && IsCompleted(existing.value.turn, item.id))
    ensures ItemStored(existing, item, false, Record(existing, ItemStarted(item)))
  {
  }

  /** A completed item is stored and marked; a started one is stored unless it is already completed. */
  lemma ItemReported(s: Store, key: string, item: Item)
    requires SoundStore(s) && item.id != ""
    ensures ItemStored(RowAt(s, key), item, true, RowAt(Apply(s, RecordOp(key, ItemCompleted(item))), key))
    ensures var existing, after := RowAt(s, key), RowAt(Apply(s, RecordOp(key, ItemStarted(item))), key);
            if existing.Some? && IsCompleted(existing.value.turn, item.id) then after == existing else ItemStored(existing, item, false, after)
  {
    ItemTaken(RowAt(s, key), item);
  }

  /** Interrupting ends a turn in progress, and changes nothing else of it. */
  lemma InterruptEnds(s: Store, key: string)
    requires SoundStore(s) && key in s.rows
    ensures var turn, after := s.rows[key].turn, Apply(s, InterruptOp(key)).rows[key].turn;
            after == if turn.status == InProgress then turn.(status := Interrupted) else turn
  {
    OwnItems(s.rows[key].turn.items);
    var turn := s.rows[key].turn;
    assert turn.details + turn.details == turn.details;
  }

  predicate LiveBetween(ops: seq<Op>, i: nat, key: string)
    requires i <= |ops|
  {
    exists j :: i <= j < |ops| && ops[j].RecordOp? && ops[j].key == key
  }

  /** The store's staleness test is exact: a turn's mark passes the revision read earlier
      just when a live event for that turn came in since. */
  lemma {:induction false} StaleExactly(s: Store, ops: seq<Op>, i: nat, key: string)
    requires SoundStore(s) && i <= |ops|
    ensures LiveAt(Run(s, ops), key) > Run(s, ops[..i]).liveRevision <==> LiveBetween(ops, i, key)
    ensures Run(s, ops[..i]).liveRevision <= Run(s, ops).liveRevision
    decreases |ops|
  {
    if i == |ops| {
      assert ops[..i] == ops;
      RunProgress(s, ops, key);
    } else {
      var init, last := ops[..|ops| - 1], ops[|ops| - 1];
      assert init[..i] == ops[..i];
      StaleExactly(s, init, i, key);
      assert init + [last] == ops;
      LiveNext(init, last, i, key);
      StampStep(Run(s, init), last, key);
    }
  }

  lemma LiveNext(init: seq<Op>, last: Op, i: nat, key: string)
    requires i <= |init|
    ensures LiveBetween(init + [last], i, key) <==> LiveBetween(init, i, key) || (last.RecordOp? && last.key == key)
  {
    var ops := init + [last];
    assert ops[|init|] == last;
    if LiveBetween(init, i, key) {
      var j :| i <= j < |init| && init[j].RecordOp? && init[j].key == key;
      assert ops[j] == init[j];
    }
    if LiveBetween(ops, i, key) {
      var j :| i <= j < |ops| && ops[j].RecordOp? && ops[j].key == key;
      assert j < |init| ==> init[j] == ops[j];
    }
  }

  /** A live event stamps its own turn with a fresh revision; nothing else changes a stamp. */
  lemma StampStep(s: Store, op: Op, key: string)
    ensures LiveAt(Apply(s, op), key) == if op.RecordOp? && op.key == key then s.liveRevision + 1 else LiveAt(s, key)
    ensures Apply(s, op).liveRevision == if op.RecordOp? then s.liveRevision + 1 else s.liveRevision
  {
  }

  /** A snapshot whose reading began before a later live event of the turn only appends unseen items. */
  lemma StaleSnapshotOnlyAppends(s: Store, ops: seq<Op>, i: nat, key: string, payload: Payload)
    requires SoundStore(s) && i <= |ops| && LiveBetween(ops, i, key)
    requires key in Run(s, ops).rows
    ensures var after := Apply(Run(s, ops), ImportOp(key, payload, Run(s, ops[..i]).liveRevision));
            key in after.rows && OnlyAppends(Run(s, ops).rows[key].turn, after.rows[key].turn)
  {
    StaleExactly(s, ops, i, key);
    RunProgress(s, ops, key);
    PreservingImport(RowAt(Run(s, ops), key), payload, LiveAt(Run(s, ops), key), Run(s, ops[..i]).liveRevision);
  }

  // ---------- message text ----------

  function Stream(id: string, deltas: seq<string>): seq<Live> {
    seq(|deltas|, i requires 0 <= i < |deltas| => MessageDelta(id, deltas[i]))
  }

  function RecordAll(existing: Option<Row>, events: seq<Live>): Option<Row> {
    if events == [] then existing else Record(RecordAll(existing, events[..|events| - 1]), events[|events| - 1])
  }

  predicate Reads(row: Option<Row>, id: string, text: string) {
    && row.Some? && row.value.turn.status == InProgress && !IsCompleted(row.value.turn, id)
    && Has(row.value.turn.items, id)
    && var item := row.value.turn.items[Find(row.value.turn.items, id)]; item.AgentMessage? && item.text == text
  }

  lemma FindMessageIs(items: seq<Item>, id: string)
    requires Distinct(Ids(items)) && Has(items, id) && items[Find(items, id)].AgentMessage?
    ensures FindMessage(items, id) == Find(items, id)
  {
    if items[0].id != id {
      assert Distinct(Ids(items[1..])) by {
        assert forall i :: 0 <= i < |items[1..]| ==> Ids(items[1..])[i] == Ids(items)[i + 1];
      }
      FindMessageIs(items[1..], id);
    }
  }

  lemma DeltaReads(existing: Option<Row>, id: string, text: string, delta: string)
    requires SoundRow(existing) && Reads(existing, id, text)
    ensures Reads(Record(existing, MessageDelta(id, delta)), id, text + delta)
  {
    var current := existing.value.turn;
    FindMessageIs(current.items, id);
    var grown := Grown(current.items, id, delta);
    assert AllNormal([grown]) == [grown];
    PutKeeps(current.items, grown);
    assert Merge(current.items, [], false) == current.items && [grown][..0] == [];
    assert Merge(current.items, [grown], false) == Put(current.items, grown);
  }

  /** Deltas of one message add up, in order, to its text. */
  lemma {:induction false} DeltasAddUp(existing: Option<Row>, id: string, text: string, deltas: seq<string>)
    requires SoundRow(existing) && Reads(existing, id, text)
    ensures SoundRow(RecordAll(existing, Stream(id, deltas)))
    ensures Reads(RecordAll(existing, Stream(id, deltas)), id, text + Text.Concat(deltas))
    decreases |deltas|
  {
    if deltas == [] {
      assert text + "" == text;
    } else {
      var init, last := deltas[..|deltas| - 1], deltas[|deltas| - 1];
      DeltasAddUp(existing, id, text, init);
      StreamEnds(existing, id, deltas);
      OneMore(RecordAll(existing, Stream(id, init)), id, text, Text.Concat(init), last);
    }
  }

  lemma StreamEnds(existing: Option<Row>, id: string, deltas: seq<string>)
    requires deltas != []
    ensures RecordAll(existing, Stream(id, deltas)) ==
            Record(RecordAll(existing, Stream(id, deltas[..|deltas| - 1])), MessageDelta(id, deltas[|deltas| - 1]))
  {
    assert Stream(id, deltas)[..|deltas| - 1] == Stream(id, deltas[..|deltas| - 1]);
  }

  lemma OneMore(before: Option<Row>, id: string, text: string, joined: string, delta: string)
    requires SoundRow(before) && Reads(before, id, text + joined)
    ensures SoundRow(Record(before, MessageDelta(id, delta)))
    ensures Reads(Record(before, MessageDelta(id, delta)), id, text + (joined + delta))
  {
    DeltaReads(before, id, text + joined, delta);
    RecordProgress(before, MessageDelta(id, delta));
    assert text + joined + delta == text + (joined + delta);
  }

  // ---------- a fresh snapshot ----------

  /** A snapshot that preserves nothing decides the status, and each of its items that is not completed and named
      once is stored as it reads. */
  lemma FreshImportTakes(existing: Option<Row>, payload: Payload, live: nat, readRevision: nat, j: nat)
    requires SoundRow(existing) && !Preserves(existing, payload, live, readRevision)
    requires payload.items.Some? && j < |payload.items.value|
    requires forall k :: 0 <= k < |payload.items.value| && payload.items.value[k].id == payload.items.value[j].id ==> k == j
    requires existing.Some? ==> !IsCompleted(existing.value.turn, payload.items.value[j].id)
    ensures var after, item := ImportSnapshot(existing, payload, live, readRevision), payload.items.value[j];
            && after.Some? && after.value.turn.status == payload.status
            && Has(after.value.turn.items, item.id)
            && after.value.turn.items[Find(after.value.turn.items, item.id)] == Normal(item)
  {
    var item := payload.items.value[j];
    var incoming := AllNormal(SnapshotTurn(existing, payload).items);
    var merged := Merge(ItemsOf(existing), incoming, false);
    NormalTwice(item);
    MergeKeeps(ItemsOf(existing), incoming, false);
    MergeHas(ItemsOf(existing), incoming, false, j);
    var k := Find(merged, item.id);
    var stored := if k < |ItemsOf(existing)| then ItemsOf(existing)[k] else item;
    MergeAt(ItemsOf(existing), incoming, k, stored);
    forall i | 0 <= i < |incoming| && incoming[i].id == item.id ensures i == j {
      NormalTwice(SnapshotTurn(existing, payload).items[i]);
    }
    LastIs(incoming, j, stored);
  }

  lemma {:induction false} LastIs(incoming: seq<Item>, j: nat, otherwise: Item)
    requires j < |incoming| && forall i :: 0 <= i < |incoming| && incoming[i].id == incoming[j].id ==> i == j
    ensures Last(incoming, incoming[j].id, otherwise) == incoming[j]
    decreases |incoming|
  {
    if j < |incoming| - 1 {
      LastIs(incoming[..|incoming| - 1], j, otherwise);
    }
  }
}
