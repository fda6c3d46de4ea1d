/** Runs of one replica of the event log: local appends and retirements, publication with crashes, facts
    arriving from peers, and pruning in three separately interruptible steps. */
module EventReplica {
  import opened Wrappers
  import opened EventLog

  /** `journal` is what the synchronization engine holds; `collecting` the records a pruning pass has
      selected. `facts`, `appended` and `reclaimed` are the history: every fact that was applied, every
      event appended here, and every digest pruned from the journal. */
  datatype Replica = Replica(
    tables: Tables,
    journal: set<Payload>,
    collecting: Option<seq<Digest>>,
    facts: set<Payload>,
    appended: set<Event>,
    reclaimed: set<Digest>)

  const Init := Replica(Empty, {}, None, {}, {}, {})

  datatype Action =
    | AppendLocally(event: Event, now: int)
    | RetireLocally(ids: seq<string>, now: int)
    | Publish
    | CrashWhilePublishing(puts: nat)
    | Arrive(payload: Payload)
    | Project(payload: Payload, now: int)
    | SelectRetired
    | PruneJournal
    | MarkRetired
    | Restart

  /** A retirement fact as `retire` makes it: each item names an event and that event's own digest. */
  predicate Genuine(payload: Payload) {
    payload.RetiredFact? ==>
      forall item <- payload.items ::
        item.record.Of? && item.record.payload.EventFact? && item.record.payload.event.id == item.id
  }

  function Step(s: Replica, a: Action): Replica {
    match a
    case AppendLocally(event, now) =>
      (match Append(s.tables, event, now)
       case Failure(_) => s
       case Success((after, _)) =>
         s.(tables := after, facts := s.facts + {EventFact(event)}, appended := s.appended + {event}))
    case RetireLocally(ids, now) =>
      (match Retire(s.tables, ids, now)
       case Failure(_) => s
       case Success(after) =>
         var items := LiveItems(s.tables.rows, ids);
         if items == [] then s else s.(tables := after, facts := s.facts + {RetiredFact(items)}))
    case Publish =>
      s.(tables := Export(s.tables), journal := s.journal + Payloads(Batch(s.tables.outbox)))
    case CrashWhilePublishing(puts) =>
      if puts <= |s.tables.outbox| then s.(journal := s.journal + Payloads(s.tables.outbox[..puts])) else s
    case Arrive(payload) => if Genuine(payload) then s.(journal := s.journal + {payload}) else s
    case Project(payload, now) =>
      if payload !in s.journal then s else
      (match Receive(s.tables, payload, now)
       case Failure(_) => s
       case Success((after, relevant)) => s.(tables := after, facts := if relevant then s.facts + {payload} else s.facts))
    case SelectRetired => s.(collecting := Some(Prunable(s.tables)))
    case PruneJournal =>
      if s.collecting.None? then s else
      s.(journal := (set p <- s.journal | Of(p) !in s.collecting.value),
         reclaimed := s.reclaimed + (set d | d in s.collecting.value))
    case MarkRetired =>
      if s.collecting.None? then s else s.(tables := MarkPruned(s.tables, s.collecting.value), collecting := None)
    case Restart => s.(collecting := None)
  }

  function Run(s: Replica, actions: seq<Action>): Replica
    decreases |actions|
  {
    if actions == [] then s else Run(Step(s, actions[0]), actions[1..])
  }

  // ---- the invariant of the tables

  predicate RowOk(row: Row) {
    row.event.Some? ==> row.event.value.id == row.id && row.record == Of(EventFact(row.event.value))
  }

  /** IDs are unique, live rows match their digests, and the floor is the last retired position. */
  ghost predicate RowsOk(t: Tables) {
    && (forall i, j :: 0 <= i < j < |t.rows| ==> t.rows[i].id != t.rows[j].id)
    && (forall i :: 0 <= i < |t.rows| ==> RowOk(t.rows[i]))
    && (forall i :: 0 <= i < |t.rows| && t.rows[i].event.None? ==> i + 1 <= t.floor)
    && t.floor <= |t.rows|
    && (t.floor > 0 ==> t.rows[t.floor - 1].event.None?)
  }

  /** The rows keep their order, identity, digest and arrival time; an event can only disappear. */
  ghost predicate Later(before: Tables, after: Tables) {
    && |before.rows| <= |after.rows|
    && before.floor <= after.floor
    && forall i :: 0 <= i < |before.rows| ==>
         && after.rows[i].id == before.rows[i].id
         && after.rows[i].record == before.rows[i].record
         && after.rows[i].receivedAt == before.rows[i].receivedAt
         && (after.rows[i].event == before.rows[i].event || after.rows[i].event.None?)
  }

  lemma LaterTransitive(a: Tables, b: Tables, c: Tables)
    requires Later(a, b) && Later(b, c)
    ensures Later(a, c)
  {
  }

  lemma FindUnique(t: Tables, i: nat)
    requires RowsOk(t) && i < |t.rows|
    ensures Find(t.rows, t.rows[i].id) == Some(i)
  {
  }

  lemma InsertRows(t: Tables, event: Event, now: int)
    requires RowsOk(t)
    ensures match Insert(t, event, Of(EventFact(event)), now)
            case Success((after, inserted)) =>
              && RowsOk(after) && Later(t, after) && after.outbox == t.outbox
              && (exists i :: 0 <= i < |after.rows| && after.rows[i].id == event.id
                              && after.rows[i].record == Of(EventFact(event))
                              && (i >= |t.rows| ==> after.rows[i].event == Some(event))
                              && (!inserted ==> i < |t.rows| && after.rows[i].event == t.rows[i].event))
            case Failure(_) => true
  {
    match Insert(t, event, Of(EventFact(event)), now)
    case Failure(_) =>
    case Success((after, inserted)) =>
      match Find(t.rows, event.id)
      case Some(i) => assert after.rows[i].id == event.id;
      case None => assert after.rows[|t.rows|].id == event.id;
  }

  /** What an insertion does to the rows: nothing, a mark taken back, or one new live row. */
  predicate RowsInserted(rows: seq<Row>, after: seq<Row>, event: Event) {
    && |rows| <= |after|
    && (forall i :: 0 <= i < |rows| ==>
          after[i] == rows[i] || (rows[i].event.None? && after[i] == rows[i].(pruned := false)))
    && (forall i :: |rows| <= i < |after| ==>
          && after[i].event == Some(event) && !after[i].pruned
          && after[i].id == event.id && after[i].record == Of(EventFact(event)))
  }

  lemma InsertedRows(t: Tables, event: Event, now: int)
    ensures match Insert(t, event, Of(EventFact(event)), now)
            case Success((after, inserted)) =>
              RowsInserted(t.rows, after.rows, event) && (inserted <==> |after.rows| > |t.rows|)
            case Failure(_) => true
  {
  }

  lemma RetireOneRows(t: Tables, item: Retirement, now: int)
    requires RowsOk(t)
    ensures match RetireOne(t, item, now)
            case Success(after) =>
              && RowsOk(after) && Later(t, after)
              && (forall p :: p in after.outbox <==> p in t.outbox && p.id != item.record)
              && (exists i :: 0 <= i < |after.rows| && after.rows[i].id == item.id
                              && after.rows[i].record == item.record && after.rows[i].event.None?)
              && (forall i :: 0 <= i < |after.rows| && (after.rows[i].id != item.id || after.rows[i].pruned) ==>
                                i < |t.rows| && after.rows[i] == t.rows[i])
            case Failure(_) => true
  {
    WithoutMembers(t.outbox, item.record);
    match RetireOne(t, item, now)
    case Failure(_) =>
    case Success(after) =>
      match Find(t.rows, item.id)
      case Some(i) => assert after.rows[i].id == item.id;
      case None => assert after.rows[|t.rows|].id == item.id;
  }

  predicate Named(items: seq<Retirement>, id: string) {
    exists item <- items :: item.id == id
  }

  ghost predicate RetiredAs(rows: seq<Row>, item: Retirement) {
    exists i :: 0 <= i < |rows| && rows[i].id == item.id && rows[i].record == item.record && rows[i].event.None?
  }

  lemma LaterRetired(before: Tables, after: Tables, item: Retirement)
    requires Later(before, after) && RetiredAs(before.rows, item)
    ensures RetiredAs(after.rows, item)
  {
    var i :| 0 <= i < |before.rows| && before.rows[i].id == item.id && before.rows[i].record == item.record
             && before.rows[i].event.None?;
    assert after.rows[i].id == item.id;
  }

  /** Applying a batch of retirements: exactly the named rows are retired and unmarked, all others stay. */
  lemma {:induction false} RetireRecordsRows(t: Tables, items: seq<Retirement>, now: int)
    requires RowsOk(t)
    ensures match RetireRecords(t, items, now)
            case Success(after) =>
              && RowsOk(after) && Later(t, after)
              && (forall p :: p in after.outbox <==> p in t.outbox && forall item <- items :: p.id != item.record)
              && (forall item <- items :: RetiredAs(after.rows, item))
              && (forall i :: 0 <= i < |after.rows| && (!Named(items, after.rows[i].id) || after.rows[i].pruned) ==>
                                i < |t.rows| && after.rows[i] == t.rows[i])
            case Failure(_) => true
    decreases |items|
  {
    if items != [] {
      var init, last := items[..|items| - 1], items[|items| - 1];
      assert items == init + [last];
      RetireRecordsRows(t, init, now);
      match RetireRecords(t, init, now)
      case Failure(_) =>
      case Success(before) =>
        RetireOneRows(before, last, now);
        match RetireOne(before, last, now)
        case Failure(_) =>
        case Success(after) =>
          LaterTransitive(t, before, after);
          forall item <- items ensures RetiredAs(after.rows, item) {
            if item in init {
              LaterRetired(before, after, item);
            }
          }
          forall i | 0 <= i < |after.rows| && (!Named(items, after.rows[i].id) || after.rows[i].pruned)
            ensures i < |t.rows| && after.rows[i] == t.rows[i]
          {
            assert last in items;
            assert after.rows[i] == before.rows[i];
            assert Named(init, before.rows[i].id) ==> Named(items, before.rows[i].id);
          }
    }
  }

  lemma {:induction false} LiveItemsAreLive(t: Tables, ids: seq<string>)
    requires RowsOk(t)
    ensures forall item <- LiveItems(t.rows, ids) ::
              exists i :: 0 <= i < |t.rows| && t.rows[i].id == item.id && t.rows[i].record == item.record && t.rows[i].event.Some?
    ensures Genuine(RetiredFact(LiveItems(t.rows, ids)))
    decreases |ids|
  {
    if ids != [] {
      LiveItemsAreLive(t, ids[..|ids| - 1]);
      var found := Find(t.rows, ids[|ids| - 1]);
      if found.Some? {
        assert RowOk(t.rows[found.value]);
      }
    }
  }

  lemma MarkRows(t: Tables, records: seq<Digest>)
    requires RowsOk(t)
    ensures RowsOk(MarkPruned(t, records)) && Later(t, MarkPruned(t, records)) && Later(MarkPruned(t, records), t)
  {
  }

  ghost predicate RowsMove(before: Tables, after: Tables) {
    RowsOk(after) && Later(before, after)
  }

  lemma AppendRows(t: Tables, event: Event, now: int)
    requires RowsOk(t)
    ensures match Append(t, event, now) case Success((after, _)) => RowsMove(t, after) case Failure(_) => true
  {
    InsertRows(t, event, now);
  }

  /** The tables after a retirement and the enqueueing of its fact. */
  function Retired(t: Tables, items: seq<Retirement>, now: int): Tables
    requires RetireRecords(t, items, now).Success?
  {
    var after := RetireRecords(t, items, now).value;
    after.(outbox := Enqueue(after.outbox, RetiredFact(items)))
  }

  lemma RetiredMove(t: Tables, items: seq<Retirement>, now: int)
    requires RowsOk(t) && RetireRecords(t, items, now).Success?
    ensures RowsMove(t, Retired(t, items, now))
  {
    RetireRecordsRows(t, items, now);
    OutboxIsNoRow(t, RetireRecords(t, items, now).value, Enqueue(RetireRecords(t, items, now).value.outbox, RetiredFact(items)));
  }

  lemma OutboxIsNoRow(before: Tables, after: Tables, outbox: seq<Pending>)
    requires RowsMove(before, after)
    ensures RowsMove(before, after.(outbox := outbox))
  {
  }

  lemma RetireForms(t: Tables, ids: seq<string>, now: int)
    requires Retire(t, ids, now).Success?
    ensures var items := LiveItems(t.rows, ids);
            if items == [] then Retire(t, ids, now).value == t
            else RetireRecords(t, items, now).Success? && Retire(t, ids, now).value == Retired(t, items, now)
  {
  }

  lemma RetireRows(t: Tables, ids: seq<string>, now: int)
    requires RowsOk(t)
    ensures match Retire(t, ids, now) case Success(after) => RowsMove(t, after) case Failure(_) => true
  {
    if Retire(t, ids, now).Success? {
      RetireForms(t, ids, now);
      if LiveItems(t.rows, ids) != [] {
        RetiredMove(t, LiveItems(t.rows, ids), now);
      }
    }
  }

  lemma ReceiveRows(t: Tables, payload: Payload, now: int)
    requires RowsOk(t)
    ensures match Receive(t, payload, now) case Success((after, _)) => RowsMove(t, after) case Failure(_) => true
  {
    match payload {
      case Foreign(_) =>
      case EventFact(event) => InsertRows(t, event, now);
      case RetiredFact(items) => RetireRecordsRows(t, items, now);
    }
  }

  lemma StepRows(s: Replica, a: Action)
    requires RowsOk(s.tables)
    ensures RowsMove(s.tables, Step(s, a).tables)
  {
    match a
    case AppendLocally(event, now) => AppendRows(s.tables, event, now);
    case RetireLocally(ids, now) => RetireRows(s.tables, ids, now);
    case Project(payload, now) => ReceiveRows(s.tables, payload, now);
    case MarkRetired => if s.collecting.Some? { MarkRows(s.tables, s.collecting.value); }
    case _ =>
  }

  lemma {:induction false} RunRows(s: Replica, actions: seq<Action>)
    requires RowsOk(s.tables)
    ensures RowsOk(Run(s, actions).tables) && Later(s.tables, Run(s, actions).tables)
    decreases |actions|
  {
    if actions != [] {
      StepRows(s, actions[0]);
      RunRows(Step(s, actions[0]), actions[1..]);
      LaterTransitive(s.tables, Step(s, actions[0]).tables, Run(s, actions).tables);
    }
  }
}
