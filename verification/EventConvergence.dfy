/** Convergence of the event log: what a replica holds is determined by the set of facts it has applied,
    whatever their order, repetition and origin. */
module EventConvergence {
  import opened Wrappers
  import opened EventLog
  import opened EventReplica

  ghost predicate Recorded(rows: seq<Row>, event: Event) {
    exists i :: 0 <= i < |rows| && rows[i].id == event.id && rows[i].record == Of(EventFact(event))
  }

  ghost predicate RetiredBy(facts: set<Payload>, row: Row) {
    exists p <- facts :: p.RetiredFact? && Retirement(row.id, row.record) in p.items
  }

  /** The rows hold exactly what the facts say: recorded events, retired where some fact retires them. */
  ghost predicate Reflects(rows: seq<Row>, facts: set<Payload>) {
    && (forall p <- facts :: p.EventFact? ==> Recorded(rows, p.event))
    && (forall p <- facts :: p.RetiredFact? ==> forall item <- p.items :: RetiredAs(rows, item))
    && (forall i :: 0 <= i < |rows| && rows[i].event.Some? ==> EventFact(rows[i].event.value) in facts)
    && (forall i :: 0 <= i < |rows| && rows[i].event.None? ==> RetiredBy(facts, rows[i]))
  }

  lemma LaterRecorded(before: Tables, after: Tables, event: Event)
    requires Later(before, after) && Recorded(before.rows, event)
    ensures Recorded(after.rows, event)
  {
    var i :| 0 <= i < |before.rows| && before.rows[i].id == event.id && before.rows[i].record == Of(EventFact(event));
    assert after.rows[i].id == event.id;
  }

  lemma LaterKeepsFacts(before: Tables, after: Tables, facts: set<Payload>)
    requires Later(before, after) && Reflects(before.rows, facts)
    ensures forall p <- facts :: p.EventFact? ==> Recorded(after.rows, p.event)
    ensures forall p <- facts :: p.RetiredFact? ==> forall item <- p.items :: RetiredAs(after.rows, item)
  {
    forall p <- facts | p.EventFact? ensures Recorded(after.rows, p.event) {
      LaterRecorded(before, after, p.event);
    }
    forall p <- facts, item <- (if p.RetiredFact? then p.items else []) ensures RetiredAs(after.rows, item) {
      LaterRetired(before, after, item);
    }
  }

  lemma InsertReflects(t: Tables, facts: set<Payload>, event: Event, now: int)
    requires RowsOk(t) && Reflects(t.rows, facts)
    ensures match Insert(t, event, Of(EventFact(event)), now)
            case Success((after, _)) => Reflects(after.rows, facts + {EventFact(event)})
            case Failure(_) => true
  {
    InsertRows(t, event, now);
    InsertedRows(t, event, now);
    match Insert(t, event, Of(EventFact(event)), now)
    case Failure(_) =>
    case Success((after, _)) =>
      LaterKeepsFacts(t, after, facts);
      RowsStayKnown(t, facts, event, after);
      assert Recorded(after.rows, event);
  }

  lemma RowsStayKnown(t: Tables, facts: set<Payload>, event: Event, after: Tables)
    requires RowsOk(t) && Reflects(t.rows, facts) && Later(t, after)
    requires RowsInserted(t.rows, after.rows, event)
    ensures forall i :: 0 <= i < |after.rows| && after.rows[i].event.Some? ==>
              EventFact(after.rows[i].event.value) in facts + {EventFact(event)}
    ensures forall i :: 0 <= i < |after.rows| && after.rows[i].event.None? ==> RetiredBy(facts + {EventFact(event)}, after.rows[i])
  {
    forall i | 0 <= i < |after.rows| && after.rows[i].event.None? ensures RetiredBy(facts + {EventFact(event)}, after.rows[i]) {
      assert RetiredBy(facts, t.rows[i]);
    }
  }

  lemma RetireReflects(t: Tables, facts: set<Payload>, items: seq<Retirement>, now: int)
    requires RowsOk(t) && Reflects(t.rows, facts)
    ensures match RetireRecords(t, items, now)
            case Success(after) => Reflects(after.rows, facts + {RetiredFact(items)})
            case Failure(_) => true
  {
    RetireRecordsRows(t, items, now);
    match RetireRecords(t, items, now)
    case Failure(_) =>
    case Success(after) =>
      LaterKeepsFacts(t, after, facts);
      forall i | 0 <= i < |after.rows| ensures after.rows[i].event.Some? ==> EventFact(after.rows[i].event.value) in facts
                                       ensures after.rows[i].event.None? ==> RetiredBy(facts + {RetiredFact(items)}, after.rows[i])
      {
        if Named(items, after.rows[i].id) {
          var item :| item in items && item.id == after.rows[i].id;
          assert RetiredAs(after.rows, item);
          var k :| 0 <= k < |after.rows| && after.rows[k].id == item.id && after.rows[k].record == item.record && after.rows[k].event.None?;
          assert k == i;
          assert item == Retirement(after.rows[i].id, after.rows[i].record);
        } else if after.rows[i].event.None? {
          assert RetiredBy(facts, t.rows[i]);
        }
      }
  }

  lemma MarkReflects(t: Tables, facts: set<Payload>, records: seq<Digest>)
    requires RowsOk(t) && Reflects(t.rows, facts)
    ensures Reflects(MarkPruned(t, records).rows, facts)
  {
    var after := MarkPruned(t, records);
    MarkRows(t, records);
    LaterKeepsFacts(t, after, facts);
    forall i | 0 <= i < |after.rows| && after.rows[i].event.None? ensures RetiredBy(facts, after.rows[i]) {
      assert RetiredBy(facts, t.rows[i]);
    }
  }

  lemma ReceiveReflects(t: Tables, facts: set<Payload>, payload: Payload, now: int)
    requires RowsOk(t) && Reflects(t.rows, facts)
    ensures match Receive(t, payload, now)
            case Success((after, relevant)) => Reflects(after.rows, if relevant then facts + {payload} else facts)
            case Failure(_) => true
  {
    match payload {
      case Foreign(_) =>
      case EventFact(event) => InsertReflects(t, facts, event, now);
      case RetiredFact(items) => RetireReflects(t, facts, items, now);
    }
  }

  lemma StepReflects(s: Replica, a: Action)
    requires RowsOk(s.tables) && Reflects(s.tables.rows, s.facts)
    ensures Reflects(Step(s, a).tables.rows, Step(s, a).facts)
  {
    match a
    case AppendLocally(event, now) => InsertReflects(s.tables, s.facts, event, now);
    case RetireLocally(ids, now) => RetireReflects(s.tables, s.facts, LiveItems(s.tables.rows, ids), now);
    case Project(payload, now) => ReceiveReflects(s.tables, s.facts, payload, now);
    case MarkRetired => if s.collecting.Some? { MarkReflects(s.tables, s.facts, s.collecting.value); }
    case _ =>
  }

  lemma {:induction false} RunReflects(s: Replica, actions: seq<Action>)
    requires RowsOk(s.tables) && Reflects(s.tables.rows, s.facts)
    ensures RowsOk(Run(s, actions).tables) && Reflects(Run(s, actions).tables.rows, Run(s, actions).facts)
    decreases |actions|
  {
    if actions != [] {
      StepRows(s, actions[0]);
      StepReflects(s, actions[0]);
      RunReflects(Step(s, actions[0]), actions[1..]);
    }
  }

  /** What a reader can learn about an ID: nothing, or its digest and its event while it is live. */
  function Lookup(rows: seq<Row>, id: string): Option<(Digest, Option<Event>)> {
    match Find(rows, id)
    case Some(i) => Some((rows[i].record, rows[i].event))
    case None => None
  }

  lemma RetiredEverywhere(a: Tables, b: Tables, facts: set<Payload>, i: nat)
    requires RowsOk(b) && Reflects(a.rows, facts) && Reflects(b.rows, facts)
    requires i < |a.rows| && a.rows[i].event.None?
    ensures Lookup(b.rows, a.rows[i].id) == Some((a.rows[i].record, None))
  {
    var item := Retirement(a.rows[i].id, a.rows[i].record);
    assert RetiredBy(facts, a.rows[i]);
    assert RetiredAs(b.rows, item);
    var k :| 0 <= k < |b.rows| && b.rows[k].id == item.id && b.rows[k].record == item.record && b.rows[k].event.None?;
    FindUnique(b, k);
  }

  lemma LiveEverywhere(a: Tables, b: Tables, facts: set<Payload>, i: nat)
    requires RowsOk(a) && RowsOk(b) && Reflects(a.rows, facts) && Reflects(b.rows, facts)
    requires i < |a.rows| && a.rows[i].event.Some? && RowOk(a.rows[i])
    ensures Lookup(b.rows, a.rows[i].id) == Some((a.rows[i].record, a.rows[i].event))
  {
    var row := a.rows[i];
    assert Recorded(b.rows, row.event.value);
    var k :| 0 <= k < |b.rows| && b.rows[k].id == row.id && b.rows[k].record == row.record;
    FindUnique(b, k);
    if b.rows[k].event.None? {
      RetiredEverywhere(b, a, facts, k);
      FindUnique(a, i);
    } else {
      assert RowOk(b.rows[k]);
    }
  }

  /** Everything known to one replica is known to another that reflects the same facts. */
  lemma SameRow(a: Tables, b: Tables, facts: set<Payload>, i: nat)
    requires RowsOk(a) && RowsOk(b) && Reflects(a.rows, facts) && Reflects(b.rows, facts)
    requires i < |a.rows|
    ensures Lookup(b.rows, a.rows[i].id) == Some((a.rows[i].record, a.rows[i].event))
  {
    var row := a.rows[i];
    assert RowOk(row);
    if row.event.Some? {
      LiveEverywhere(a, b, facts, i);
    } else {
      RetiredEverywhere(a, b, facts, i);
    }
  }

  lemma SameLookup(a: Tables, b: Tables, facts: set<Payload>, id: string)
    requires RowsOk(a) && RowsOk(b) && Reflects(a.rows, facts) && Reflects(b.rows, facts)
    ensures Lookup(a.rows, id) == Lookup(b.rows, id)
  {
    match Find(a.rows, id)
    case Some(i) => SameRow(a, b, facts, i);
    case None =>
      match Find(b.rows, id) {
        case Some(k) => SameRow(b, a, facts, k);
        case None =>
      }
  }

  /** Two replicas, with any mix of local work, publication, crashes and deliveries, that have applied the
      same set of facts agree on every ID. */
  lemma ReplicasConverge(first: seq<Action>, second: seq<Action>, id: string)
    requires Run(Init, first).facts == Run(Init, second).facts
    ensures Lookup(Run(Init, first).tables.rows, id) == Lookup(Run(Init, second).tables.rows, id)
  {
    RunReflects(Init, first);
    RunReflects(Init, second);
    SameLookup(Run(Init, first).tables, Run(Init, second).tables, Run(Init, first).facts, id);
  }

  /** Once a retirement of an ID was applied, before or after the event itself, the ID is never live. */
  lemma RetiredIsNeverLiveAgain(actions: seq<Action>, fact: Payload, item: Retirement)
    requires fact in Run(Init, actions).facts && fact.RetiredFact? && item in fact.items
    ensures Lookup(Run(Init, actions).tables.rows, item.id) == Some((item.record, None))
  {
    RunReflects(Init, actions);
    var t := Run(Init, actions).tables;
    var i :| 0 <= i < |t.rows| && t.rows[i].id == item.id && t.rows[i].record == item.record && t.rows[i].event.None?;
    FindUnique(t, i);
  }

  // ---- conflict-free delivery

  predicate Mentions(p: Payload, id: string, record: Digest) {
    || (p.EventFact? && p.event.id == id && record == Of(p))
    || (p.RetiredFact? && Retirement(id, record) in p.items)
  }

  /** No two facts give one ID two different contents. */
  ghost predicate ConflictFree(facts: set<Payload>) {
    forall p, q, id, r1, r2 | p in facts && q in facts && Mentions(p, id, r1) && Mentions(q, id, r2) :: r1 == r2
  }

  /** Facts that pass the receiver's checks on a single record. */
  predicate Deliverable(p: Payload) {
    && (p.EventFact? ==> Valid(p.event))
    && (p.RetiredFact? ==> p.items != [] && |p.items| <= BATCH && forall item <- p.items :: ValidRetirement(item))
  }

  ghost predicate MentionedIn(facts: set<Payload>, id: string, record: Digest) {
    exists p <- facts :: Mentions(p, id, record)
  }

  ghost predicate RowsMentioned(rows: seq<Row>, facts: set<Payload>) {
    forall i :: 0 <= i < |rows| ==> MentionedIn(facts, rows[i].id, rows[i].record)
  }

  lemma ReflectedRowsAreMentioned(t: Tables, facts: set<Payload>)
    requires RowsOk(t) && Reflects(t.rows, facts)
    ensures RowsMentioned(t.rows, facts)
  {
    forall i | 0 <= i < |t.rows| ensures MentionedIn(facts, t.rows[i].id, t.rows[i].record) {
      assert RowOk(t.rows[i]);
      if t.rows[i].event.Some? {
        var p := EventFact(t.rows[i].event.value);
        assert p in facts && Mentions(p, t.rows[i].id, t.rows[i].record);
      } else {
        assert RetiredBy(facts, t.rows[i]);
        var p :| p in facts && p.RetiredFact? && Retirement(t.rows[i].id, t.rows[i].record) in p.items;
        assert Mentions(p, t.rows[i].id, t.rows[i].record);
      }
    }
  }

  lemma {:induction false} RetirementSucceeds(t: Tables, facts: set<Payload>, fact: Payload, n: nat, now: int)
    requires fact.RetiredFact? && n <= |fact.items| && Deliverable(fact)
    requires fact in facts && ConflictFree(facts) && RowsMentioned(t.rows, facts)
    ensures RetireRecords(t, fact.items[..n], now).Success?
    ensures RowsMentioned(RetireRecords(t, fact.items[..n], now).value.rows, facts)
  {
    if n > 0 {
      RetirementSucceeds(t, facts, fact, n - 1, now);
      var item := fact.items[n - 1];
      assert fact.items[..n][..n - 1] == fact.items[..n - 1];
      var before := RetireRecords(t, fact.items[..n - 1], now).value;
      assert item == Retirement(item.id, item.record);
      assert item in fact.items;
      assert Mentions(fact, item.id, item.record);
      match Find(before.rows, item.id) {
        case Some(i) =>
          assert MentionedIn(facts, before.rows[i].id, before.rows[i].record);
        case None =>
      }
      var after := RetireOne(before, item, now).value;
      forall i | 0 <= i < |after.rows| ensures MentionedIn(facts, after.rows[i].id, after.rows[i].record) {
        if i < |before.rows| {
          assert after.rows[i].id == before.rows[i].id && after.rows[i].record == before.rows[i].record;
        }
      }
    }
  }

  lemma DeliverySucceeds(t: Tables, facts: set<Payload>, fact: Payload, now: int)
    requires RowsOk(t) && Reflects(t.rows, facts) && Deliverable(fact) && ConflictFree(facts + {fact})
    ensures Receive(t, fact, now).Success?
  {
    ReflectedRowsAreMentioned(t, facts);
    forall i | 0 <= i < |t.rows| ensures MentionedIn(facts + {fact}, t.rows[i].id, t.rows[i].record) {
      assert MentionedIn(facts, t.rows[i].id, t.rows[i].record);
    }
    match fact {
      case Foreign(_) =>
      case EventFact(event) =>
        assert Mentions(fact, event.id, Of(fact));
      case RetiredFact(items) =>
        RetirementSucceeds(t, facts + {fact}, fact, |items|, now);
        assert items[..|items|] == items;
    }
  }

  /** Delivering facts one after the other; a fact that is refused leaves the tables alone. */
  function Deliver(t: Tables, facts: seq<Payload>, now: int): Tables
    decreases |facts|
  {
    if facts == [] then t else
    var before := Deliver(t, facts[..|facts| - 1], now);
    match Receive(before, facts[|facts| - 1], now)
    case Success((after, _)) => after
    case Failure(_) => before
  }

  function Elements(facts: seq<Payload>): set<Payload> {
    set p | p in facts && !p.Foreign?
  }

  lemma {:induction false} DeliveredAll(facts: seq<Payload>, now: int)
    requires ConflictFree(Elements(facts)) && forall p <- facts :: Deliverable(p)
    ensures RowsOk(Deliver(Empty, facts, now))
    ensures Reflects(Deliver(Empty, facts, now).rows, Elements(facts))
    decreases |facts|
  {
    if facts != [] {
      var init, last := facts[..|facts| - 1], facts[|facts| - 1];
      assert facts == init + [last];
      assert Elements(facts) == if last.Foreign? then Elements(init) else Elements(init) + {last};
      DeliveredAll(init, now);
      var before := Deliver(Empty, init, now);
      if !last.Foreign? {
        DeliverySucceeds(before, Elements(init), last, now);
      }
      ReceiveRows(before, last, now);
      ReceiveReflects(before, Elements(init), last, now);
    }
  }

  /** Two replicas that are sent the same conflict-free facts, in any order and with any repetition and at
      any times, agree on every ID: its digest, and its event unless some fact retires it. */
  lemma DeliveryOrderIsIrrelevant(first: seq<Payload>, second: seq<Payload>, now1: int, now2: int, id: string)
    requires Elements(first) == Elements(second) && ConflictFree(Elements(first))
    requires (forall p <- first :: Deliverable(p)) && (forall p <- second :: Deliverable(p))
    ensures Lookup(Deliver(Empty, first, now1).rows, id) == Lookup(Deliver(Empty, second, now2).rows, id)
  {
    DeliveredAll(first, now1);
    DeliveredAll(second, now2);
    SameLookup(Deliver(Empty, first, now1), Deliver(Empty, second, now2), Elements(first), id);
  }
}
