/** The operational event log of src/event_log.rs: its tables, and the operations on them, first as
    functions on the table contents and then as the methods of the class `EventLog`. */
module EventLog {
  import opened Wrappers

  const MAX_EVENT_BYTES := 16 * 1024
  const BATCH := 128
  const RETENTION_MS := 30 * 24 * 60 * 60 * 1000

  /** `size` is the length of the event's JSON encoding. */
  datatype Event = Event(
    id: string,
    kind: string,
    version: nat,
    origin: string,
    time: int,
    project: Option<string>,
    subject: string,
    data: string,
    size: nat)

  datatype Retirement = Retirement(id: string, record: Digest)

  /** A journal record: an event, a batch of retirements, or a record of another kind. */
  datatype Payload = EventFact(event: Event) | RetiredFact(items: seq<Retirement>) | Foreign(text: string)

  /** Content hashes: different payloads have different digests, and some hexadecimal texts are the
      digest of no payload at hand. */
  datatype Digest = Of(payload: Payload) | Unknown(hex: string)

  /** A row of operational_events; its position is its index plus one. The event is gone once retired. */
  datatype Row = Row(id: string, record: Digest, event: Option<Event>, receivedAt: int, pruned: bool)

  datatype Pending = Pending(id: Digest, payload: Payload)

  datatype Tables = Tables(rows: seq<Row>, outbox: seq<Pending>, floor: nat)

  const Empty := Tables([], [], 0)

  predicate Blank(text: string) {
    forall c <- text :: c == ' ' || c == '\t' || c == '\n' || c == '\r'
  }

  predicate Control(c: char) {
    c < ' ' || '\U{7F}' <= c <= '\U{9F}'
  }

  predicate Field(text: string, limit: nat) {
    !Blank(text) && |text| <= limit && forall c <- text :: !Control(c)
  }

  predicate KindChar(c: char) {
    'a' <= c <= 'z' || '0' <= c <= '9' || c == '.' || c == '_' || c == '-'
  }

  predicate Valid(event: Event) {
    && Field(event.id, 256) && Field(event.kind, 128) && Field(event.origin, 256) && Field(event.subject, 1024)
    && (forall c <- event.kind :: KindChar(c))
    && event.version != 0 && event.time >= 0
    && (event.project.Some? ==> event.project.value != "" && |event.project.value| <= 8192
                                && forall c <- event.project.value :: !Control(c))
    && event.size <= MAX_EVENT_BYTES
  }

  predicate HexDigest(record: Digest) {
    record.Unknown? ==> |record.hex| == 64 && forall c <- record.hex :: '0' <= c <= '9' || 'a' <= c <= 'f' || 'A' <= c <= 'F'
  }

  predicate ValidRetirement(item: Retirement) {
    item.id != "" && |item.id| <= 256 && HexDigest(item.record)
  }

  /** The index of the row with this ID. */
  function Find(rows: seq<Row>, id: string): (index: Option<nat>)
    ensures index.Some? ==> index.value < |rows| && rows[index.value].id == id
    ensures index.None? ==> forall i :: 0 <= i < |rows| ==> rows[i].id != id
  {
    if rows == [] then None
    else if rows[|rows| - 1].id == id then Some(|rows| - 1)
    else Find(rows[..|rows| - 1], id)
  }

  function Max(a: nat, b: nat): nat {
    if a < b then b else a
  }

  /** INSERT on operational_events: a known ID must have the same contents; a payload that arrives after its
      retirement is marked for pruning again. */
  function Insert(t: Tables, event: Event, record: Digest, now: int): Result<(Tables, bool)> {
    match Find(t.rows, event.id)
    case Some(i) =>
      var row := t.rows[i];
      if row.record != record then Failure("An event ID was reused with different contents")
      else if row.event.None? then Success((t.(rows := t.rows[i := row.(pruned := false)]), false))
      else Success((t, false))
    case None => Success((t.(rows := t.rows + [Row(event.id, record, Some(event), now, false)]), true))
  }

  function Append(t: Tables, event: Event, now: int): Result<(Tables, bool)> {
    if !Valid(event) then Failure("Invalid event") else
    var payload := EventFact(event);
    match Insert(t, event, Of(payload), now)
    case Failure(e) => Failure(e)
    case Success((after, inserted)) =>
      if inserted then Success((after.(outbox := after.outbox + [Pending(Of(payload), payload)]), true))
      else Success((after, false))
  }

  function Without(outbox: seq<Pending>, id: Digest): seq<Pending> {
    if outbox == [] then []
    else if outbox[0].id == id then Without(outbox[1..], id)
    else [outbox[0]] + Without(outbox[1..], id)
  }

  function RetireOne(t: Tables, item: Retirement, now: int): Result<Tables> {
    if !ValidRetirement(item) then Failure("Invalid event retirement") else
    match Find(t.rows, item.id)
    case Some(i) =>
      if t.rows[i].record != item.record then Failure("Event retirement does not match its identity")
      else Success(Tables(t.rows[i := t.rows[i].(event := None, pruned := false)], Without(t.outbox, item.record),
                          Max(t.floor, i + 1)))
    case None =>
      Success(Tables(t.rows + [Row(item.id, item.record, None, now, false)], Without(t.outbox, item.record),
                     Max(t.floor, |t.rows| + 1)))
  }

  function RetireRecords(t: Tables, items: seq<Retirement>, now: int): Result<Tables>
    decreases |items|
  {
    if items == [] then Success(t) else
    match RetireRecords(t, items[..|items| - 1], now)
    case Failure(e) => Failure(e)
    case Success(before) => RetireOne(before, items[|items| - 1], now)
  }

  /** The retirement facts for those of `ids` that are still live. */
  function LiveItems(rows: seq<Row>, ids: seq<string>): seq<Retirement> {
    if ids == [] then [] else
    var id := ids[|ids| - 1];
    var earlier := LiveItems(rows, ids[..|ids| - 1]);
    match Find(rows, id)
    case Some(i) => if rows[i].event.Some? then earlier + [Retirement(id, rows[i].record)] else earlier
    case None => earlier
  }

  /** INSERT OR IGNORE into the outbox. */
  function Enqueue(outbox: seq<Pending>, payload: Payload): seq<Pending> {
    if exists p <- outbox :: p.id == Of(payload) then outbox else outbox + [Pending(Of(payload), payload)]
  }

  function Retire(t: Tables, ids: seq<string>, now: int): Result<Tables> {
    if |ids| > BATCH then Failure("Too many event retirements") else
    var items := LiveItems(t.rows, ids);
    if items == [] then Success(t) else
    match RetireRecords(t, items, now)
    case Failure(e) => Failure(e)
    case Success(after) => Success(after.(outbox := Enqueue(after.outbox, RetiredFact(items))))
  }

  /** Applying a record of the shared journal; also whether it was an event fact at all. */
  function Receive(t: Tables, payload: Payload, now: int): Result<(Tables, bool)> {
    match payload
    case Foreign(_) => Success((t, false))
    case EventFact(event) =>
      if !Valid(event) then Failure("Invalid event") else
      (match Insert(t, event, Of(payload), now)
       case Failure(e) => Failure(e)
       case Success((after, _)) => Success((after, true)))
    case RetiredFact(items) =>
      if items == [] || |items| > BATCH then Failure("Invalid event retirement batch") else
      (match RetireRecords(t, items, now)
       case Failure(e) => Failure(e)
       case Success(after) => Success((after, true)))
  }

  /** The outbox rows of one export, in publication order. */
  function Batch(outbox: seq<Pending>): seq<Pending> {
    if |outbox| <= BATCH then outbox else outbox[..BATCH]
  }

  function Payloads(outbox: seq<Pending>): set<Payload> {
    set p <- outbox :: p.payload
  }

  function Export(t: Tables): Tables {
    t.(outbox := t.outbox[|Batch(t.outbox)|..])
  }

  /** The records of retired rows whose payloads were not pruned yet, oldest first, at most `limit`. */
  function Unpruned(rows: seq<Row>, limit: nat): (records: seq<Digest>)
    ensures |records| <= limit
    ensures forall d <- records :: exists i :: 0 <= i < |rows| && rows[i].record == d && rows[i].event.None?
  {
    if rows == [] then [] else
    var last := rows[|rows| - 1];
    var earlier := Unpruned(rows[..|rows| - 1], limit);
    if last.event.None? && !last.pruned && |earlier| < limit then earlier + [last.record] else earlier
  }

  /** Pruning waits until everything in the outbox has been published. */
  function Prunable(t: Tables): seq<Digest> {
    if t.outbox == [] then Unpruned(t.rows, BATCH) else []
  }

  function Mark(row: Row, records: seq<Digest>): Row {
    if row.record in records && row.event.None? then row.(pruned := true) else row
  }

  function MarkPruned(t: Tables, records: seq<Digest>): Tables {
    t.(rows := seq(|t.rows|, i requires 0 <= i < |t.rows| => Mark(t.rows[i], records)))
  }

  // ---- expiry

  predicate Expired(row: Row, now: int) {
    row.event.Some? && row.receivedAt < now - RETENTION_MS
  }

  predicate Within(order: seq<nat>, n: nat) {
    forall k :: 0 <= k < |order| ==> order[k] < n
  }

  /** ORDER BY received_at, position. */
  predicate ByTime(rows: seq<Row>, order: seq<nat>)
    requires Within(order, |rows|)
  {
    forall a, b :: 0 <= a < b < |order| ==> Sooner(rows, order[a], order[b])
  }

  predicate Sooner(rows: seq<Row>, i: nat, j: nat)
    requires i < |rows| && j < |rows|
  {
    rows[i].receivedAt < rows[j].receivedAt || (rows[i].receivedAt == rows[j].receivedAt && i < j)
  }

  /** A position put in its place among others. */
  function Place(rows: seq<Row>, order: seq<nat>, i: nat): (r: seq<nat>)
    requires i < |rows| && Within(order, |rows|)
    ensures Within(r, |rows|) && forall j: nat :: j in r <==> j in order || j == i
  {
    if order == [] then [i] else
    var earlier, last := order[..|order| - 1], order[|order| - 1];
    assert order == earlier + [last];
    if Sooner(rows, last, i) then order + [i] else Place(rows, earlier, i) + [last]
  }

  lemma {:induction false} PlaceKeepsOrder(rows: seq<Row>, order: seq<nat>, i: nat)
    requires i < |rows| && Within(order, i) && ByTime(rows, order)
    ensures ByTime(rows, Place(rows, order, i))
    decreases |order|
  {
    if order != [] && !Sooner(rows, order[|order| - 1], i) {
      var earlier, last := order[..|order| - 1], order[|order| - 1];
      PlaceKeepsOrder(rows, earlier, i);
      var placed := Place(rows, earlier, i);
      forall b | 0 <= b < |placed| ensures Sooner(rows, placed[b], last) {
        assert placed[b] in placed;
        if placed[b] != i {
          var a :| 0 <= a < |earlier| && earlier[a] == placed[b];
          assert order[a] == earlier[a];
        }
      }
    }
  }

  /** The expired rows, the longest received first. */
  function ByAge(rows: seq<Row>, now: int): (order: seq<nat>)
    ensures Within(order, |rows|)
    ensures forall i: nat | i < |rows| :: i in order <==> Expired(rows[i], now)
  {
    if rows == [] then [] else
    var last := |rows| - 1;
    var earlier := ByAge(rows[..last], now);
    if Expired(rows[last], now) then Place(rows, earlier, last) else earlier
  }

  lemma {:induction false} ByAgeIsOrdered(rows: seq<Row>, now: int)
    ensures ByTime(rows, ByAge(rows, now))
    decreases |rows|
  {
    if rows != [] {
      var last := |rows| - 1;
      var earlier := ByAge(rows[..last], now);
      ByAgeIsOrdered(rows[..last], now);
      assert Within(earlier, last);
      forall a, b | 0 <= a < b < |earlier| ensures Sooner(rows, earlier[a], earlier[b]) {
        assert Sooner(rows[..last], earlier[a], earlier[b]);
      }
      PlaceKeepsOrder(rows, earlier, last);
    }
  }

  /** The identities that one maintenance pass retires. */
  function Oldest(rows: seq<Row>, now: int): seq<string> {
    var order := ByAge(rows, now);
    seq(if |order| <= BATCH then |order| else BATCH, k requires 0 <= k < |order| => rows[order[k]].id)
  }

  /** They are of live rows past their retention, and an expired row is left for later only behind 128 that were
      received before it. */
  lemma OldestAreExpired(rows: seq<Row>, now: int)
    ensures |Oldest(rows, now)| <= BATCH
    ensures forall id <- Oldest(rows, now) :: exists i :: 0 <= i < |rows| && rows[i].id == id && Expired(rows[i], now)
    ensures forall i: nat | i < |rows| && Expired(rows[i], now) && rows[i].id !in Oldest(rows, now) ::
              |Oldest(rows, now)| == BATCH < |ByAge(rows, now)|
              && forall k: nat | k < BATCH ::
                   Oldest(rows, now)[k] == rows[ByAge(rows, now)[k]].id && Sooner(rows, ByAge(rows, now)[k], i)
  {
    var order, ids := ByAge(rows, now), Oldest(rows, now);
    ByAgeIsOrdered(rows, now);
    forall id <- ids ensures exists i :: 0 <= i < |rows| && rows[i].id == id && Expired(rows[i], now) {
      var k :| 0 <= k < |ids| && ids[k] == id;
      assert order[k] in order;
    }
    forall i: nat | i < |rows| && Expired(rows[i], now) && rows[i].id !in ids
      ensures |ids| == BATCH < |order|
      ensures forall k: nat | k < BATCH :: ids[k] == rows[order[k]].id && Sooner(rows, order[k], i)
    {
      assert forall k :: 0 <= k < |ids| ==> ids[k] in ids && ids[k] == rows[order[k]].id;
      assert i in order;
      var a :| 0 <= a < |order| && order[a] == i;
    }
  }

  /** The synchronization engine, as far as the log uses it: the payloads held in the journal. */
  class Engine {
    var journal: set<Payload>

    constructor ()
      ensures journal == {}
    {
      journal := {};
    }

    method Put(payload: Payload) returns (id: Digest)
      modifies this
      ensures id == Of(payload) && journal == old(journal) + {payload}
    {
      journal := journal + {payload};
      id := Of(payload);
    }

    method Prune(records: seq<Digest>)
      modifies this
      ensures forall p :: p in journal <==> p in old(journal) && Of(p) !in records
    {
      journal := set p <- journal | Of(p) !in records;
    }
  }

  /** The tables as the program updates them. An operation that fails leaves them as they were, because its
      transaction is rolled back. */
  class EventLog {
    var rows: seq<Row>
    var outbox: seq<Pending>
    var floor: nat

    constructor ()
      ensures State() == Empty
    {
      rows, outbox, floor := [], [], 0;
    }

    function State(): Tables
      reads this
    {
      Tables(rows, outbox, floor)
    }

    method Rollback(saved: Tables)
      modifies this
      ensures State() == saved
    {
      rows, outbox, floor := saved.rows, saved.outbox, saved.floor;
    }

    method InsertEvent(event: Event, record: Digest, now: int) returns (result: Result<bool>)
      modifies this
      ensures match Insert(old(State()), event, record, now)
              case Success((after, inserted)) => result == Success(inserted) && State() == after
              case Failure(e) => result == Failure(e) && State() == old(State())
    {
      var found := Find(rows, event.id);
      if found.Some? {
        var row := rows[found.value];
        if row.record != record {
          return Failure("An event ID was reused with different contents");
        }
        if row.event.None? {
          rows := rows[found.value := row.(pruned := false)];
        }
        return Success(false);
      }
      rows := rows + [Row(event.id, record, Some(event), now, false)];
      return Success(true);
    }

    method AppendEvent(event: Event, now: int) returns (result: Result<bool>)
      modifies this
      ensures match Append(old(State()), event, now)
              case Success((after, inserted)) => result == Success(inserted) && State() == after
              case Failure(e) => result == Failure(e) && State() == old(State())
    {
      if !Valid(event) {
        return Failure("Invalid event");
      }
      var payload := EventFact(event);
      result := InsertEvent(event, Of(payload), now);
      if result == Success(true) {
        outbox := outbox + [Pending(Of(payload), payload)];
      }
    }

    method RetireItems(items: seq<Retirement>, now: int) returns (result: Result<()>)
      modifies this
      ensures match RetireRecords(old(State()), items, now)
              case Success(after) => result == Success(()) && State() == after
              case Failure(e) => result.Failure?
    {
      var before := State();
      for n := 0 to |items|
        invariant RetireRecords(before, items[..n], now) == Success(State())
      {
        assert items[..n + 1][..n] == items[..n];
        var item := items[n];
        if !ValidRetirement(item) {
          RetireFails(before, items, n + 1, now);
          return Failure("Invalid event retirement");
        }
        var found := Find(rows, item.id);
        if found.Some? && rows[found.value].record != item.record {
          RetireFails(before, items, n + 1, now);
          return Failure("Event retirement does not match its identity");
        }
        if found.Some? {
          rows := rows[found.value := rows[found.value].(event := None, pruned := false)];
          floor := Max(floor, found.value + 1);
        } else {
          rows := rows + [Row(item.id, item.record, None, now, false)];
          floor := Max(floor, |rows|);
        }
        outbox := Without(outbox, item.record);
      }
      assert items[..|items|] == items;
      return Success(());
    }

    method RetireIds(ids: seq<string>, now: int) returns (result: Result<()>)
      modifies this
      ensures match Retire(old(State()), ids, now)
              case Success(after) => result == Success(()) && State() == after
              case Failure(e) => result.Failure? && State() == old(State())
    {
      if |ids| > BATCH {
        return Failure("Too many event retirements");
      }
      var items: seq<Retirement> := [];
      for n := 0 to |ids|
        invariant items == LiveItems(rows, ids[..n])
      {
        assert ids[..n + 1][..n] == ids[..n];
        var found := Find(rows, ids[n]);
        if found.Some? && rows[found.value].event.Some? {
          items := items + [Retirement(ids[n], rows[found.value].record)];
        }
      }
      assert ids[..|ids|] == ids;
      if items != [] {
        var saved := State();
        result := RetireItems(items, now);
        if result.Failure? {
          Rollback(saved);
          return;
        }
        outbox := Enqueue(outbox, RetiredFact(items));
      }
      return Success(());
    }

    method ReceiveRecord(payload: Payload, now: int) returns (result: Result<bool>)
      modifies this
      ensures match Receive(old(State()), payload, now)
              case Success((after, relevant)) => result == Success(relevant) && State() == after
              case Failure(e) => result.Failure? && State() == old(State())
    {
      match payload {
        case Foreign(_) =>
          return Success(false);
        case EventFact(event) =>
          if !Valid(event) {
            return Failure("Invalid event");
          }
          var inserted := InsertEvent(event, Of(payload), now);
          return if inserted.Success? then Success(true) else Failure(inserted.error);
        case RetiredFact(items) =>
          if items == [] || |items| > BATCH {
            return Failure("Invalid event retirement batch");
          }
          var saved := State();
          var retired := RetireItems(items, now);
          if retired.Failure? {
            Rollback(saved);
            return Failure(retired.error);
          }
          return Success(true);
      }
    }

    /** Publishes the oldest outbox rows; fails before the first row whose saved digest is not its own. */
    method ExportTo(engine: Engine) returns (result: Result<nat>)
      modifies this, engine
      ensures (forall p <- old(outbox) :: p.id == Of(p.payload)) ==>
                && result == Success(|Batch(old(outbox))|)
                && State() == Export(old(State()))
                && engine.journal == old(engine.journal) + Payloads(Batch(old(outbox)))
      ensures result.Failure? ==> State() == old(State())
    {
      var batch := Batch(outbox);
      var n := 0;
      while n < |batch|
        invariant n <= |batch|
        invariant State() == old(State())
        invariant engine.journal == old(engine.journal) + Payloads(batch[..n])
      {
        var id := engine.Put(batch[n].payload);
        if id != batch[n].id {
          return Failure("Event outbox failed its integrity check");
        }
        assert batch[..n + 1] == batch[..n] + [batch[n]];
        n := n + 1;
      }
      assert batch[..n] == batch;
      outbox := outbox[|batch|..];
      return Success(|batch|);
    }

    method PruneRetired(engine: Engine) returns (count: nat)
      modifies this, engine
      ensures count == |Prunable(old(State()))|
      ensures State() == MarkPruned(old(State()), Prunable(old(State())))
      ensures engine.journal == set p <- old(engine.journal) | Of(p) !in Prunable(old(State()))
    {
      var records := Prunable(State());
      if records != [] {
        engine.Prune(records);
      }
      rows := MarkPruned(State(), records).rows;
      return |records|;
    }

    /** Retires the oldest expired rows, publishes, and prunes what is published and retired. */
    method Collect(engine: Engine, now: int) returns (result: Result<nat>)
      requires forall p <- outbox :: p.id == Of(p.payload)
      modifies this, engine
      ensures match Retire(old(State()), Oldest(old(rows), now), now)
              case Failure(_) => result.Failure? && State() == old(State()) && engine.journal == old(engine.journal)
              case Success(retired) =>
                var exported := Export(retired);
                var published := old(engine.journal) + Payloads(Batch(retired.outbox));
                && result == Success(|Oldest(old(rows), now)| + |Prunable(exported)|)
                && State() == MarkPruned(exported, Prunable(exported))
                && engine.journal == set p <- published | Of(p) !in Prunable(exported)
    {
      var expired := Oldest(rows, now);
      var step := RetireIds(expired, now);
      if step.Failure? {
        return Failure(step.error);
      }
      RetireKeepsDigests(old(State()), expired, now);
      var _ := ExportTo(engine);
      var pruned := PruneRetired(engine);
      return Success(|expired| + pruned);
    }
  }

  lemma {:induction false} RetireFails(t: Tables, items: seq<Retirement>, n: nat, now: int)
    requires n <= |items| && RetireRecords(t, items[..n], now).Failure?
    ensures RetireRecords(t, items, now).Failure?
    decreases |items|
  {
    if n == |items| {
      assert items[..n] == items;
    } else {
      assert items[..|items| - 1][..n] == items[..n];
      RetireFails(t, items[..|items| - 1], n, now);
    }
  }

  lemma {:induction false} WithoutMembers(outbox: seq<Pending>, id: Digest)
    ensures forall p :: p in Without(outbox, id) <==> p in outbox && p.id != id
  {
    if outbox != [] {
      WithoutMembers(outbox[1..], id);
    }
  }

  lemma {:induction false} RetireRecordsOutbox(t: Tables, items: seq<Retirement>, now: int)
    ensures match RetireRecords(t, items, now)
            case Success(after) => forall p :: p in after.outbox ==> p in t.outbox
            case Failure(_) => true
    decreases |items|
  {
    if items != [] {
      RetireRecordsOutbox(t, items[..|items| - 1], now);
      match RetireRecords(t, items[..|items| - 1], now)
      case Failure(_) =>
      case Success(before) => WithoutMembers(before.outbox, items[|items| - 1].record);
    }
  }

  lemma RetireKeepsDigests(t: Tables, ids: seq<string>, now: int)
    requires forall p <- t.outbox :: p.id == Of(p.payload)
    ensures match Retire(t, ids, now)
            case Success(after) => forall p <- after.outbox :: p.id == Of(p.payload)
            case Failure(_) => true
  {
    RetireRecordsOutbox(t, LiveItems(t.rows, ids), now);
  }
}
