/** The stored timeline: live runtime events and history snapshots merged into one row per turn.
    JSON rows are values; the store's maps are those of the class at the end. */
module Timeline {
  import opened Options

  // ---------- items and turns ----------

  /** `verified`: well formed, and its text has the digest it names. */
  datatype Artifact = Artifact(name: string, text: string, verified: bool)
  datatype Item =
    | AgentMessage(id: string, text: string, extra: string)
    | ToolCall(id: string, artifacts: Option<seq<Artifact>>, payload: string)
    | OtherItem(id: string, payload: string)

  datatype Status = InProgress | Completed | Failed | Interrupted

  /** `completedItemIds`: no such key, the key with value undefined, or a list. */
  datatype Ids = Absent | Undefined | Known(ids: seq<string>)

  /** `details`: the other keys of the turn object. */
  datatype Turn = Turn(status: Status, startedAt: Option<int>, details: map<string, string>, items: seq<Item>, completed: Ids)
  datatype Row = Row(turn: Turn, revision: nat)

  /** A turn as the runtime reports it; `items` may be missing. */
  datatype Payload = Payload(status: Status, startedAt: Option<int>, details: map<string, string>, items: Option<seq<Item>>)

  function Verified(artifacts: seq<Artifact>): seq<Artifact> {
    if artifacts == [] then []
    else (if artifacts[0].verified then [artifacts[0]] else []) + Verified(artifacts[1..])
  }

  /** Storing an item drops its unverified artifacts, and the key when none is left. */
  function Normal(item: Item): Item {
    if item.ToolCall? && item.artifacts.Some? then
      var kept := Verified(item.artifacts.value);
      ToolCall(item.id, if kept == [] then None else Some(kept), item.payload)
    else item
  }

  function AllNormal(items: seq<Item>): seq<Item> {
    seq(|items|, i requires 0 <= i < |items| => Normal(items[i]))
  }

  predicate IsCompleted(turn: Turn, id: string) {
    turn.completed.Known? && id in turn.completed.ids
  }

  // ---------- the ordered map of items ----------

  /** Position of an id, or the length. */
  function Find(items: seq<Item>, id: string): (i: nat)
    ensures i <= |items| && (i < |items| ==> items[i].id == id)
    ensures forall j :: 0 <= j < i ==> items[j].id != id
  {
    if items == [] || items[0].id == id then 0
    else
      var i := Find(items[1..], id);
      assert forall j :: 1 <= j < i + 1 ==> items[j] == items[1..][j - 1];
      i + 1
  }

  predicate Has(items: seq<Item>, id: string) {
    Find(items, id) < |items|
  }

  /** `Map.set`: replace in place, or append. */
  function Put(items: seq<Item>, item: Item): seq<Item> {
    var i := Find(items, item.id);
    if i < |items| then items[i := item] else items + [item]
  }

  function MergeOne(items: seq<Item>, item: Item, preserve: bool): seq<Item> {
    if preserve && Has(items, item.id) then items else Put(items, item)
  }

  function Merge(items: seq<Item>, incoming: seq<Item>, preserve: bool): seq<Item> {
    if incoming == [] then items
    else MergeOne(Merge(items, incoming[..|incoming| - 1], preserve), incoming[|incoming| - 1], preserve)
  }

  // ---------- putTurn ----------

  function ItemsOf(row: Option<Row>): seq<Item> {
    if row.Some? then row.value.turn.items else []
  }

  /** An object spread: the keys of `over` win. */
  function Spread(under: Turn, over: Turn): Turn {
    over.(details := under.details + over.details, completed := if over.completed.Absent? then under.completed else over.completed)
  }

  /** The merged row body. */
  function Merged(existing: Option<Row>, turn: Turn, preserve: bool): Turn {
    var items := Merge(ItemsOf(existing), AllNormal(turn.items), preserve);
    if existing.None? then turn.(items := items)
    else
      var stored := existing.value.turn;
      var metadata := if preserve then Spread(turn, stored) else Spread(stored, turn);
      metadata.(startedAt := if stored.startedAt.Some? then stored.startedAt else turn.startedAt, items := items)
  }

  /** What JSON keeps of it. */
  function Encoded(turn: Turn): Turn {
    if turn.completed.Undefined? then turn.(completed := Absent) else turn
  }

  function PutTurn(existing: Option<Row>, turn: Turn, preserve: bool): Option<Row> {
    var merged := Merged(existing, turn, preserve);
    if existing.Some? && existing.value.turn == merged then existing
    else Some(Row(Encoded(merged), if existing.Some? then existing.value.revision + 1 else 1))
  }

  // ---------- the operations, on one row ----------

  function Finalized(existing: Option<Row>, item: Item): Item {
    if existing.Some? && IsCompleted(existing.value.turn, item.id) && Has(existing.value.turn.items, item.id)
    then existing.value.turn.items[Find(existing.value.turn.items, item.id)] else item
  }

  function SnapshotTurn(existing: Option<Row>, payload: Payload): Turn {
    var items := payload.items.Or([]);
    Turn(payload.status, payload.startedAt, payload.details,
         seq(|items|, i requires 0 <= i < |items| => Finalized(existing, items[i])), Absent)
  }

  /** `live`: the revision of the last live event of this turn. */
  function ImportSnapshot(existing: Option<Row>, payload: Payload, live: nat, readRevision: nat): Option<Row> {
    PutTurn(existing, SnapshotTurn(existing, payload), Preserves(existing, payload, live, readRevision))
  }

  predicate Preserves(existing: Option<Row>, payload: Payload, live: nat, readRevision: nat) {
    live > readRevision || (existing.Some? && existing.value.turn.status != InProgress && payload.status == InProgress)
  }

  datatype Live =
    | TurnStarted(turn: Option<Payload>)
    | TurnCompleted(turn: Option<Payload>)
    | ItemStarted(item: Item)
    | ItemCompleted(item: Item)
    | MessageDelta(itemId: string, delta: string)
    | OtherMethod

  const NEW_TURN := Turn(InProgress, None, map[], [], Absent)
  const NEW_MESSAGE := ""

  function Current(existing: Option<Row>): Turn {
    if existing.Some? then existing.value.turn else NEW_TURN
  }

  function WithPayload(current: Turn, payload: Payload): Turn {
    Turn(payload.status, payload.startedAt, current.details + payload.details, payload.items.Or(current.items), current.completed)
  }

  function AddId(completed: Ids, id: string): Ids {
    match completed
    case Known(ids) => if id in ids then completed else Known(ids + [id])
    case _ => Known([id])
  }

  function Grown(items: seq<Item>, id: string, delta: string): Item {
    var i := FindMessage(items, id);
    if i < |items| then items[i].(text := items[i].text + delta) else AgentMessage(id, delta, NEW_MESSAGE)
  }

  function FindMessage(items: seq<Item>, id: string): (i: nat)
    ensures i <= |items| && (i < |items| ==> items[i].AgentMessage? && items[i].id == id)
  {
    if items == [] || (items[0].AgentMessage? && items[0].id == id) then 0 else 1 + FindMessage(items[1..], id)
  }

  /** A live event, after the revision bookkeeping. */
  function Record(existing: Option<Row>, live: Live): Option<Row> {
    var current := Current(existing);
    match live
    case TurnStarted(Some(payload)) =>
      if current.status != InProgress then existing else PutTurn(existing, WithPayload(current, payload), false)
    case TurnCompleted(Some(payload)) => PutTurn(existing, WithPayload(current, payload), false)
    case ItemStarted(item) =>
      if item.id == "" || IsCompleted(current, item.id) then existing
      else PutTurn(existing, current.(items := [item], completed := if current.completed.Absent? then Undefined else current.completed), false)
    case ItemCompleted(item) =>
      if item.id == "" then existing
      else PutTurn(existing, current.(items := [item], completed := AddId(current.completed, item.id)), false)
    case MessageDelta(id, delta) =>
      if current.status != InProgress || IsCompleted(current, id) then existing
      else PutTurn(existing, current.(items := [Grown(current.items, id, delta)]), false)
    case _ => existing
  }

  function Interrupt(existing: Option<Row>): Option<Row> {
    if existing.None? || existing.value.turn.status != InProgress then existing
    else PutTurn(existing, existing.value.turn.(status := Interrupted), false)
  }

  // ---------- the store ----------

  datatype Store = Store(rows: map<string, Row>, liveTurns: map<string, nat>, liveRevision: nat)

  function RowAt(s: Store, key: string): Option<Row> {
    if key in s.rows then Some(s.rows[key]) else None
  }

  function LiveAt(s: Store, key: string): nat {
    if key in s.liveTurns then s.liveTurns[key] else 0
  }

  function SetRow(s: Store, key: string, row: Option<Row>): Store {
    if row.Some? then s.(rows := s.rows[key := row.value]) else s
  }

  datatype Op =
    | RecordOp(key: string, live: Live)
    | ImportOp(key: string, payload: Payload, readRevision: nat)
    | InterruptOp(key: string)

  function Apply(s: Store, op: Op): Store {
    match op
    case RecordOp(key, live) =>
      var n := s.liveRevision + 1;
      SetRow(s.(liveRevision := n, liveTurns := s.liveTurns[key := n]), key, Record(RowAt(s, key), live))
    case ImportOp(key, payload, readRevision) =>
      SetRow(s, key, ImportSnapshot(RowAt(s, key), payload, LiveAt(s, key), readRevision))
    case InterruptOp(key) => SetRow(s, key, Interrupt(RowAt(s, key)))
  }

  class BotTimelineStore {
    var rows: map<string, Row>
    var liveTurns: map<string, nat>
    var liveRevision: nat

    function State(): Store
      reads this
    {
      Store(rows, liveTurns, liveRevision)
    }

    constructor ()
      ensures State() == Store(map[], map[], 0)
    {
      rows, liveTurns, liveRevision := map[], map[], 0;
    }

    function GetTurn(key: string): Option<Row>
      reads this
    {
      if key in rows then Some(rows[key]) else None
    }

    method PutTurnRow(key: string, turn: Turn, preserve: bool)
      modifies this`rows
      ensures State() == SetRow(old(State()), key, PutTurn(RowAt(old(State()), key), turn, preserve))
    {
      var incoming := AllNormal(turn.items);
      var existing := GetTurn(key);
      var items := ItemsOf(existing);
      for i := 0 to |incoming|
        invariant items == Merge(ItemsOf(existing), incoming[..i], preserve)
      {
        assert incoming[..i + 1][..i] == incoming[..i];
        if !preserve || !Has(items, incoming[i].id) { items := Put(items, incoming[i]); }
      }
      assert incoming[..|incoming|] == incoming;
      var merged := turn.(items := items);
      if existing.Some? {
        var stored := existing.value.turn;
        var metadata := if preserve then Spread(turn, stored) else Spread(stored, turn);
        merged := metadata.(startedAt := if stored.startedAt.Some? then stored.startedAt else turn.startedAt, items := items);
        if stored == merged {
          assert rows[key := existing.value] == rows;
          return;
        }
      }
      rows := rows[key := Row(Encoded(merged), if existing.Some? then existing.value.revision + 1 else 1)];
    }

    method Import(key: string, payload: Payload, readRevision: nat)
      modifies this`rows
      ensures State() == Apply(old(State()), ImportOp(key, payload, readRevision))
    {
      var existing := GetTurn(key);
      var snapshot := SnapshotTurn(existing, payload);
      var live := if key in liveTurns then liveTurns[key] else 0;
      var preserve := live > readRevision || (existing.Some? && existing.value.turn.status != InProgress && payload.status == InProgress);
      PutTurnRow(key, snapshot, preserve);
    }

    method RecordEvent(key: string, live: Live)
      modifies this
      ensures State() == Apply(old(State()), RecordOp(key, live))
    {
      liveRevision := liveRevision + 1;
      liveTurns := liveTurns[key := liveRevision];
      var existing := GetTurn(key);
      assert existing.Some? ==> rows[key := existing.value] == rows;
      var current := Current(existing);
      match live {
        case TurnStarted(Some(payload)) =>
          if current.status == InProgress { PutTurnRow(key, WithPayload(current, payload), false); }
        case TurnCompleted(Some(payload)) => PutTurnRow(key, WithPayload(current, payload), false);
        case ItemStarted(item) =>
          if item.id != "" && !IsCompleted(current, item.id) {
            PutTurnRow(key, current.(items := [item], completed := if current.completed.Absent? then Undefined else current.completed), false);
          }
        case ItemCompleted(item) =>
          if item.id != "" {
            PutTurnRow(key, current.(items := [item], completed := AddId(current.completed, item.id)), false);
          }
        case MessageDelta(id, delta) =>
          if current.status == InProgress && !IsCompleted(current, id) {
            PutTurnRow(key, current.(items := [Grown(current.items, id, delta)]), false);
          }
        case _ =>
      }
    }

    method InterruptTurn(key: string) returns (interrupted: bool)
      modifies this`rows
      ensures State() == Apply(old(State()), InterruptOp(key))
      ensures interrupted <==> key in old(rows) && old(rows)[key].turn.status == InProgress
    {
      var current := GetTurn(key);
      if current.None? || current.value.turn.status != InProgress {
        assert current.Some? ==> rows[key := current.value] == rows;
        return false;
      }
      PutTurnRow(key, current.value.turn.(status := Interrupted), false);
      interrupted := true;
    }
  }
}
