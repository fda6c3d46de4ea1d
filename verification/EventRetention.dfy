/** No fact is lost and pruning is safe: over all runs, with crashes at any point, every event appended here
    is waiting in the outbox, in the journal, or covered by a retirement that is; and a payload is pruned
    only after the retirement that covers it has reached the journal. */
module EventRetention {
  import opened Wrappers
  import opened EventLog
  import opened EventReplica
  import opened EventConvergence

  function Held(s: Replica): set<Payload> {
    s.journal + Payloads(s.tables.outbox)
  }

  predicate OutboxOk(outbox: seq<Pending>) {
    forall p <- outbox :: p.id == Of(p.payload) && Genuine(p.payload)
  }

  /** Every row carries the digest of an event with its own ID. */
  predicate Signed(row: Row) {
    row.record.Of? && row.record.payload.EventFact? && row.record.payload.event.id == row.id
  }

  ghost predicate RowKept(row: Row, held: set<Payload>, journal: set<Payload>) {
    && Signed(row)
    && (row.event.Some? ==> EventFact(row.event.value) in held && !row.pruned)
    && (row.event.None? ==> RetiredBy(held, row))
    && (row.pruned ==> RetiredBy(journal, row))
  }

  ghost predicate RowsKept(rows: seq<Row>, held: set<Payload>, journal: set<Payload>) {
    forall i :: 0 <= i < |rows| ==> RowKept(rows[i], held, journal)
  }

  /** The digest belongs to a retired row whose retirement has been published. */
  ghost predicate Spent(rows: seq<Row>, journal: set<Payload>, d: Digest) {
    exists i :: 0 <= i < |rows| && rows[i].record == d && rows[i].event.None? && RetiredBy(journal, rows[i])
  }

  ghost predicate Kept(s: Replica) {
    && RowsOk(s.tables)
    && OutboxOk(s.tables.outbox)
    && (forall p <- s.journal :: Genuine(p))
    && RowsKept(s.tables.rows, Held(s), s.journal)
    && (s.collecting.Some? ==> forall d <- s.collecting.value :: Spent(s.tables.rows, s.journal, d))
    && (forall d <- s.reclaimed :: Spent(s.tables.rows, s.journal, d))
    && (forall e <- s.appended :: Recorded(s.tables.rows, e))
  }

  lemma RetiredByMore(small: set<Payload>, large: set<Payload>, row: Row)
    requires small <= large && RetiredBy(small, row)
    ensures RetiredBy(large, row)
  {
    var p :| p in small && p.RetiredFact? && Retirement(row.id, row.record) in p.items;
    assert p in large;
  }

  /** The rows moved on, and the journal kept its retirement facts: what was spent or recorded still is. */
  lemma HistoryKept(before: Replica, after: Replica)
    requires Kept(before) && RowsMove(before.tables, after.tables)
    requires forall p <- before.journal :: p.RetiredFact? ==> p in after.journal
    ensures forall d :: Spent(before.tables.rows, before.journal, d) ==> Spent(after.tables.rows, after.journal, d)
    ensures forall e :: Recorded(before.tables.rows, e) ==> Recorded(after.tables.rows, e)
  {
    forall d | Spent(before.tables.rows, before.journal, d) ensures Spent(after.tables.rows, after.journal, d) {
      var i :| 0 <= i < |before.tables.rows| && before.tables.rows[i].record == d && before.tables.rows[i].event.None?
               && RetiredBy(before.journal, before.tables.rows[i]);
      var row := after.tables.rows[i];
      var p :| p in before.journal && p.RetiredFact? && Retirement(row.id, row.record) in p.items;
      assert p in after.journal;
      assert RetiredBy(after.journal, row);
    }
    forall e | Recorded(before.tables.rows, e) ensures Recorded(after.tables.rows, e) {
      LaterRecorded(before.tables, after.tables, e);
    }
  }

  /** Everything about new tables that does not depend on the history. */
  ghost predicate TablesKept(s: Replica, t: Tables) {
    && RowsMove(s.tables, t)
    && OutboxOk(t.outbox)
    && RowsKept(t.rows, s.journal + Payloads(t.outbox), s.journal)
  }

  lemma TablesSuffice(s: Replica, t: Replica)
    requires Kept(s) && TablesKept(s, t.tables)
    requires t.journal == s.journal && t.collecting == s.collecting && t.reclaimed == s.reclaimed
    requires forall e <- t.appended :: e in s.appended || Recorded(t.tables.rows, e)
    ensures Kept(t)
  {
    HistoryKept(s, t);
  }

  lemma AppendTables(s: Replica, event: Event, now: int)
    requires Kept(s)
    ensures match Append(s.tables, event, now)
            case Success((after, _)) => TablesKept(s, after) && Recorded(after.rows, event)
            case Failure(_) => true
  {
    match Append(s.tables, event, now)
    case Failure(_) =>
    case Success((after, inserted)) =>
      InsertRows(s.tables, event, now);
      InsertedRows(s.tables, event, now);
      AppendedOutbox(s.tables, after, event, inserted);
      InsertKept(s, s.(tables := after), event);
  }

  lemma AppendedOutbox(t: Tables, after: Tables, event: Event, inserted: bool)
    requires OutboxOk(t.outbox)
    requires after.outbox == if inserted then t.outbox + [Pending(Of(EventFact(event)), EventFact(event))] else t.outbox
    ensures OutboxOk(after.outbox) && Payloads(t.outbox) <= Payloads(after.outbox)
    ensures inserted ==> EventFact(event) in Payloads(after.outbox)
  {
    if inserted {
      assert after.outbox[|t.outbox|].payload == EventFact(event);
      forall p <- t.outbox ensures p in after.outbox {}
    }
  }

  lemma AppendKept(s: Replica, event: Event, now: int)
    requires Kept(s)
    ensures Kept(Step(s, AppendLocally(event, now)))
  {
    AppendTables(s, event, now);
    if Append(s.tables, event, now).Success? {
      TablesSuffice(s, Step(s, AppendLocally(event, now)));
    }
  }

  /** Rows that are unchanged, marked for pruning again, or the new live row of a held event. */
  lemma InsertKept(s: Replica, t: Replica, event: Event)
    requires Kept(s) && Held(s) <= Held(t) && s.journal <= t.journal
    requires |t.tables.rows| > |s.tables.rows| ==> EventFact(event) in Held(t)
    requires Later(s.tables, t.tables)
    requires RowsInserted(s.tables.rows, t.tables.rows, event)
    ensures RowsKept(t.tables.rows, Held(t), t.journal)
  {
    forall i | 0 <= i < |t.tables.rows| ensures RowKept(t.tables.rows[i], Held(t), t.journal) {
      if i < |s.tables.rows| {
        var row := s.tables.rows[i];
        assert RowKept(row, Held(s), s.journal);
        if row.event.None? {
          RetiredByMore(Held(s), Held(t), row);
          assert RetiredBy(Held(t), t.tables.rows[i]);
          if row.pruned {
            RetiredByMore(s.journal, t.journal, row);
            assert RetiredBy(t.journal, t.tables.rows[i]);
          }
        }
      }
    }
  }

  /** Retiring rows with a genuine fact that is held afterwards. */
  lemma RetirementKept(s: Replica, t: Replica, items: seq<Retirement>, now: int)
    requires Kept(s) && Genuine(RetiredFact(items))
    requires RetireRecords(s.tables, items, now).Success?
    requires t.tables.rows == RetireRecords(s.tables, items, now).value.rows
    requires Payloads(RetireRecords(s.tables, items, now).value.outbox) <= Payloads(t.tables.outbox)
    requires t.journal == s.journal && RetiredFact(items) in Held(t)
    ensures RowsKept(t.tables.rows, Held(t), t.journal)
  {
    RetireRecordsRows(s.tables, items, now);
    var after := RetireRecords(s.tables, items, now).value;
    forall i | 0 <= i < |after.rows| ensures RowKept(after.rows[i], Held(t), t.journal) {
      var row := after.rows[i];
      if Named(items, row.id) {
        NamedRowKept(after, items, i);
        assert Retirement(row.id, row.record) in items;
        assert RetiredBy(Held(t), row);
        if row.pruned {
          assert RowKept(s.tables.rows[i], Held(s), s.journal);
        }
      } else {
        assert row == s.tables.rows[i] && RowKept(row, Held(s), s.journal);
        UnnamedStaysHeld(s, t, items, now, row);
      }
    }
  }

  lemma NamedRowKept(after: Tables, items: seq<Retirement>, i: nat)
    requires RowsOk(after) && Genuine(RetiredFact(items))
    requires forall item <- items :: RetiredAs(after.rows, item)
    requires i < |after.rows| && Named(items, after.rows[i].id)
    ensures Retirement(after.rows[i].id, after.rows[i].record) in items
    ensures after.rows[i].event.None? && Signed(after.rows[i])
  {
    var item :| item in items && item.id == after.rows[i].id;
    assert RetiredAs(after.rows, item);
    var k :| 0 <= k < |after.rows| && after.rows[k].id == item.id && after.rows[k].record == item.record && after.rows[k].event.None?;
    assert k == i;
    assert item == Retirement(after.rows[i].id, after.rows[i].record);
  }

  /** The outbox loses only the payloads of the events that are being retired. */
  lemma UnnamedStaysHeld(s: Replica, t: Replica, items: seq<Retirement>, now: int, row: Row)
    requires Kept(s) && Genuine(RetiredFact(items))
    requires RetireRecords(s.tables, items, now).Success?
    requires Payloads(RetireRecords(s.tables, items, now).value.outbox) <= Payloads(t.tables.outbox)
    requires t.journal == s.journal
    requires RowKept(row, Held(s), s.journal) && RowOk(row) && !Named(items, row.id)
    ensures RowKept(row, Held(t), t.journal)
  {
    RetireRecordsRows(s.tables, items, now);
    var outbox := RetireRecords(s.tables, items, now).value.outbox;
    forall p | p in s.tables.outbox && (p.payload.RetiredFact? || (p.payload.EventFact? && !Named(items, p.payload.event.id)))
      ensures p.payload in Held(t)
    {
      assert p in outbox;
      assert p.payload in Payloads(outbox);
    }
    if row.event.None? {
      var p :| p in Held(s) && p.RetiredFact? && Retirement(row.id, row.record) in p.items;
      assert p in Held(t);
      assert RetiredBy(Held(t), row);
    }
  }

  lemma EnqueuedIsPending(outbox: seq<Pending>, fact: Payload)
    requires OutboxOk(outbox) && Genuine(fact)
    ensures OutboxOk(Enqueue(outbox, fact))
    ensures fact in Payloads(Enqueue(outbox, fact)) && Payloads(outbox) <= Payloads(Enqueue(outbox, fact))
  {
    if exists p <- outbox :: p.id == Of(fact) {
      var p :| p in outbox && p.id == Of(fact);
      assert p.payload == fact;
    } else {
      assert Pending(Of(fact), fact) in Enqueue(outbox, fact);
    }
  }

  lemma RetiredOutbox(t: Tables, items: seq<Retirement>, now: int)
    requires RowsOk(t) && OutboxOk(t.outbox) && Genuine(RetiredFact(items)) && RetireRecords(t, items, now).Success?
    ensures var before, after := RetireRecords(t, items, now).value.outbox, Retired(t, items, now).outbox;
            OutboxOk(after) && RetiredFact(items) in Payloads(after) && Payloads(before) <= Payloads(after)
  {
    RetireRecordsRows(t, items, now);
    var before := RetireRecords(t, items, now).value.outbox;
    assert OutboxOk(before) by {
      forall p <- before ensures p.id == Of(p.payload) && Genuine(p.payload) { assert p in t.outbox; }
    }
    EnqueuedIsPending(before, RetiredFact(items));
  }

  lemma RetiredTables(s: Replica, items: seq<Retirement>, now: int)
    requires Kept(s) && Genuine(RetiredFact(items)) && RetireRecords(s.tables, items, now).Success?
    ensures TablesKept(s, Retired(s.tables, items, now))
  {
    RetiredMove(s.tables, items, now);
    RetiredOutbox(s.tables, items, now);
    RetirementKept(s, s.(tables := Retired(s.tables, items, now)), items, now);
  }

  lemma NothingMoved(s: Replica)
    requires Kept(s)
    ensures TablesKept(s, s.tables)
  {
  }

  lemma RetireTables(s: Replica, ids: seq<string>, now: int)
    requires Kept(s)
    ensures match Retire(s.tables, ids, now)
            case Success(after) => TablesKept(s, after)
            case Failure(_) => true
  {
    if Retire(s.tables, ids, now).Success? {
      RetireForms(s.tables, ids, now);
      NothingMoved(s);
      var items := LiveItems(s.tables.rows, ids);
      if items != [] {
        LiveItemsAreLive(s.tables, ids);
        RetiredTables(s, items, now);
      }
    }
  }

  lemma RetireKept(s: Replica, ids: seq<string>, now: int)
    requires Kept(s)
    ensures Kept(Step(s, RetireLocally(ids, now)))
  {
    RetireTables(s, ids, now);
    if Step(s, RetireLocally(ids, now)) != s {
      TablesSuffice(s, Step(s, RetireLocally(ids, now)));
    }
  }

  lemma ReceiveEventTables(s: Replica, event: Event, now: int)
    requires Kept(s) && EventFact(event) in s.journal
    ensures match Insert(s.tables, event, Of(EventFact(event)), now)
            case Success((after, _)) => TablesKept(s, after)
            case Failure(_) => true
  {
    match Insert(s.tables, event, Of(EventFact(event)), now)
    case Failure(_) =>
    case Success((after, _)) =>
      InsertRows(s.tables, event, now);
      InsertedRows(s.tables, event, now);
      InsertKept(s, s.(tables := after), event);
  }

  lemma ReceiveRetirementTables(s: Replica, items: seq<Retirement>, now: int)
    requires Kept(s) && RetiredFact(items) in s.journal
    ensures match RetireRecords(s.tables, items, now)
            case Success(after) => TablesKept(s, after)
            case Failure(_) => true
  {
    match RetireRecords(s.tables, items, now)
    case Failure(_) =>
    case Success(after) =>
      RetireRecordsRows(s.tables, items, now);
      RetirementKept(s, s.(tables := after), items, now);
  }

  lemma ReceiveTables(s: Replica, payload: Payload, now: int)
    requires Kept(s) && payload in s.journal
    ensures match Receive(s.tables, payload, now)
            case Success((after, _)) => TablesKept(s, after)
            case Failure(_) => true
  {
    match payload {
      case Foreign(_) => assert Held(s) == s.journal + Payloads(s.tables.outbox);
      case EventFact(event) => ReceiveEventTables(s, event, now);
      case RetiredFact(items) => ReceiveRetirementTables(s, items, now);
    }
  }

  lemma ProjectKept(s: Replica, payload: Payload, now: int)
    requires Kept(s)
    ensures Kept(Step(s, Project(payload, now)))
  {
    if payload in s.journal && Receive(s.tables, payload, now).Success? {
      ReceiveTables(s, payload, now);
      TablesSuffice(s, Step(s, Project(payload, now)));
    }
  }

  /** Only more is held: rows keep being covered. */
  lemma MoreHeld(rows: seq<Row>, held: set<Payload>, held': set<Payload>, journal: set<Payload>, journal': set<Payload>)
    requires RowsKept(rows, held, journal)
    requires forall i :: 0 <= i < |rows| && rows[i].event.Some? ==> EventFact(rows[i].event.value) in held ==> EventFact(rows[i].event.value) in held'
    requires forall p <- held :: p.RetiredFact? ==> p in held'
    requires forall p <- journal :: p.RetiredFact? ==> p in journal'
    ensures RowsKept(rows, held', journal')
  {
    forall i | 0 <= i < |rows| ensures RowKept(rows[i], held', journal') {
      var row := rows[i];
      assert RowKept(row, held, journal);
      if row.event.None? {
        var p :| p in held && p.RetiredFact? && Retirement(row.id, row.record) in p.items;
        assert p in held';
        assert RetiredBy(held', row);
      }
      if row.pruned {
        var p :| p in journal && p.RetiredFact? && Retirement(row.id, row.record) in p.items;
        assert p in journal';
        assert RetiredBy(journal', row);
      }
    }
  }

  lemma PublishKept(s: Replica)
    requires Kept(s)
    ensures Kept(Step(s, Publish))
  {
    var t := Step(s, Publish);
    var n := |Batch(s.tables.outbox)|;
    assert s.tables.outbox == Batch(s.tables.outbox) + t.tables.outbox;
    assert Held(t) == Held(s);
    MoreHeld(s.tables.rows, Held(s), Held(t), s.journal, t.journal);
    HistoryKept(s, t);
    forall p <- t.journal ensures Genuine(p) {
      if p !in s.journal {
        var q :| q in Batch(s.tables.outbox) && q.payload == p;
        assert q in s.tables.outbox;
      }
    }
  }

  lemma CrashKept(s: Replica, puts: nat)
    requires Kept(s)
    ensures Kept(Step(s, CrashWhilePublishing(puts)))
  {
    var t := Step(s, CrashWhilePublishing(puts));
    if puts <= |s.tables.outbox| {
      MoreHeld(s.tables.rows, Held(s), Held(t), s.journal, t.journal);
      HistoryKept(s, t);
      forall p <- t.journal ensures Genuine(p) {
        if p !in s.journal {
          var q :| q in s.tables.outbox[..puts] && q.payload == p;
          assert q in s.tables.outbox;
        }
      }
    }
  }

  lemma ArriveKept(s: Replica, payload: Payload)
    requires Kept(s)
    ensures Kept(Step(s, Arrive(payload)))
  {
    var t := Step(s, Arrive(payload));
    MoreHeld(s.tables.rows, Held(s), Held(t), s.journal, t.journal);
    HistoryKept(s, t);
  }

  lemma SelectKept(s: Replica)
    requires Kept(s)
    ensures Kept(Step(s, SelectRetired))
  {
    forall d <- Prunable(s.tables) ensures Spent(s.tables.rows, s.journal, d) {
      var i :| 0 <= i < |s.tables.rows| && s.tables.rows[i].record == d && s.tables.rows[i].event.None?;
      assert RowKept(s.tables.rows[i], Held(s), s.journal);
      assert Held(s) == s.journal;
    }
  }

  /** A spent digest belongs to no live row and to no retirement fact. */
  lemma SpentIsNotNeeded(s: Replica, d: Digest)
    requires Kept(s) && Spent(s.tables.rows, s.journal, d)
    ensures d.Of? && d.payload.EventFact?
    ensures forall i :: 0 <= i < |s.tables.rows| && s.tables.rows[i].event.Some? ==> d != Of(EventFact(s.tables.rows[i].event.value))
  {
    var k :| 0 <= k < |s.tables.rows| && s.tables.rows[k].record == d && s.tables.rows[k].event.None?
             && RetiredBy(s.journal, s.tables.rows[k]);
    assert RowKept(s.tables.rows[k], Held(s), s.journal);
    forall i | 0 <= i < |s.tables.rows| && s.tables.rows[i].event.Some? ensures d != Of(EventFact(s.tables.rows[i].event.value)) {
      assert RowOk(s.tables.rows[i]);
      assert i != k;
    }
  }

  lemma PruneKept(s: Replica)
    requires Kept(s)
    ensures Kept(Step(s, PruneJournal))
  {
    var t := Step(s, PruneJournal);
    if s.collecting.Some? {
      forall d <- s.collecting.value
        ensures d.Of? && d.payload.EventFact?
        ensures forall i :: 0 <= i < |s.tables.rows| && s.tables.rows[i].event.Some? ==> d != Of(EventFact(s.tables.rows[i].event.value))
      {
        SpentIsNotNeeded(s, d);
      }
      forall i | 0 <= i < |s.tables.rows| && s.tables.rows[i].event.Some?
        ensures EventFact(s.tables.rows[i].event.value) in Held(s) ==> EventFact(s.tables.rows[i].event.value) in Held(t)
      {
        assert Of(EventFact(s.tables.rows[i].event.value)) !in s.collecting.value;
      }
      MoreHeld(s.tables.rows, Held(s), Held(t), s.journal, t.journal);
      HistoryKept(s, t);
    }
  }

  lemma MarkKept(s: Replica)
    requires Kept(s)
    ensures Kept(Step(s, MarkRetired))
  {
    var t := Step(s, MarkRetired);
    if s.collecting.Some? {
      MarkRows(s.tables, s.collecting.value);
      HistoryKept(s, t);
      forall i | 0 <= i < |t.tables.rows| ensures RowKept(t.tables.rows[i], Held(t), t.journal) {
        var row := s.tables.rows[i];
        assert RowKept(row, Held(s), s.journal);
        if row.event.None? {
          assert RetiredBy(Held(t), t.tables.rows[i]);
          if row.record in s.collecting.value {
            assert Spent(s.tables.rows, s.journal, row.record);
            var k :| 0 <= k < |s.tables.rows| && s.tables.rows[k].record == row.record && s.tables.rows[k].event.None?
                     && RetiredBy(s.journal, s.tables.rows[k]);
            assert RowKept(s.tables.rows[k], Held(s), s.journal);
            assert s.tables.rows[k].id == row.id;
          }
          assert t.tables.rows[i].pruned ==> RetiredBy(t.journal, t.tables.rows[i]);
        }
      }
    }
  }

  lemma StepKept(s: Replica, a: Action)
    requires Kept(s)
    ensures Kept(Step(s, a))
  {
    match a
    case AppendLocally(event, now) => AppendKept(s, event, now);
    case RetireLocally(ids, now) => RetireKept(s, ids, now);
    case Publish => PublishKept(s);
    case CrashWhilePublishing(puts) => CrashKept(s, puts);
    case Arrive(payload) => ArriveKept(s, payload);
    case Project(payload, now) => ProjectKept(s, payload, now);
    case SelectRetired => SelectKept(s);
    case PruneJournal => PruneKept(s);
    case MarkRetired => MarkKept(s);
    case Restart =>
  }

  lemma {:induction false} RunKept(s: Replica, actions: seq<Action>)
    requires Kept(s)
    ensures Kept(Run(s, actions))
    decreases |actions|
  {
    if actions != [] {
      StepKept(s, actions[0]);
      RunKept(Step(s, actions[0]), actions[1..]);
    }
  }

  /** A retirement of this event is among the payloads. */
  ghost predicate Covered(payloads: set<Payload>, event: Event) {
    exists p <- payloads :: p.RetiredFact? && Retirement(event.id, Of(EventFact(event))) in p.items
  }

  /** In every reachable state an event appended here is still held, or a held retirement covers it; and if
      its payload was ever pruned from the journal, the retirement is in the journal itself. */
  lemma NoFactIsLost(actions: seq<Action>, event: Event)
    requires event in Run(Init, actions).appended
    ensures var s := Run(Init, actions);
            && (EventFact(event) in Held(s) || Covered(Held(s), event))
            && (Of(EventFact(event)) in s.reclaimed ==> Covered(s.journal, event))
  {
    RunKept(Init, actions);
    var s := Run(Init, actions);
    assert Recorded(s.tables.rows, event);
    var i :| 0 <= i < |s.tables.rows| && s.tables.rows[i].id == event.id && s.tables.rows[i].record == Of(EventFact(event));
    assert RowKept(s.tables.rows[i], Held(s), s.journal) && RowOk(s.tables.rows[i]);
    if Of(EventFact(event)) in s.reclaimed {
      assert Spent(s.tables.rows, s.journal, Of(EventFact(event)));
      var k :| 0 <= k < |s.tables.rows| && s.tables.rows[k].record == Of(EventFact(event)) && s.tables.rows[k].event.None?
               && RetiredBy(s.journal, s.tables.rows[k]);
      assert RowKept(s.tables.rows[k], Held(s), s.journal);
    }
  }

  /** What is marked as pruned, or was ever pruned, has its retirement in the journal; in particular no live
      event's payload is ever pruned. */
  lemma PruningIsSafe(actions: seq<Action>, i: nat)
    requires i < |Run(Init, actions).tables.rows|
    ensures var s := Run(Init, actions);
            var row := s.tables.rows[i];
            && (row.pruned ==> row.event.None? && RetiredBy(s.journal, row))
            && (row.record in s.reclaimed ==> row.event.None? && RetiredBy(s.journal, row))
            && (row.event.Some? ==> EventFact(row.event.value) in Held(s))
  {
    RunKept(Init, actions);
    var s := Run(Init, actions);
    var row := s.tables.rows[i];
    assert RowKept(row, Held(s), s.journal) && RowOk(row);
    if row.record in s.reclaimed {
      var k :| 0 <= k < |s.tables.rows| && s.tables.rows[k].record == row.record && s.tables.rows[k].event.None?
               && RetiredBy(s.journal, s.tables.rows[k]);
      assert RowKept(s.tables.rows[k], Held(s), s.journal);
      assert s.tables.rows[k].id == row.id && k == i;
    }
  }
}
