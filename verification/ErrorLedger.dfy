/** Runs of the error inbox together with the event log it feeds: every accepted event is counted once, for
    ever, and becomes one record of the log. */
module ErrorLedger {
  import opened Wrappers
  import opened ErrorInbox
  import EventLog
  import EventReplica
  import EventConvergence

  /** What is fixed during a run: names, and the contents behind each event key. */
  datatype World = World(naming: Naming, truth: Key -> Event)

  /** Different events have different log IDs, because these are hashes of the key. */
  ghost predicate DistinctIds(w: World) {
    forall a, b :: w.naming.logId(a) == w.naming.logId(b) ==> a == b
  }

  /** `accepted` is the history of the keys that were counted; `clock` the latest time used. */
  datatype Ledger = Ledger(inbox: Inbox, log: EventReplica.Replica, accepted: seq<Key>, clock: int)

  const Init := Ledger(Empty, EventReplica.Init, [], 0)

  datatype Action =
    | Enable(project: string, on: bool)
    | Collect(project: string, events: seq<Event>, now: int)
    | Reopen(now: int)
    | PublishOne(index: nat, now: int, crash: bool)
    | InLog(action: EventReplica.Action)

  predicate Truthful(w: World, project: string, events: seq<Event>) {
    forall e <- events :: e == w.truth(KeyOf(project, e))
  }

  function Counted(inbox: Inbox, naming: Naming, project: string, events: seq<Event>): seq<Key>
    decreases |events|
  {
    if events == [] then [] else
    var init, last := events[..|events| - 1], events[|events| - 1];
    var earlier := Counted(inbox, naming, project, init);
    if KeyOf(project, last) in IngestAll(inbox, naming, project, init).events then earlier else earlier + [KeyOf(project, last)]
  }

  /** Time does not go back, and an event ID always stands for the same contents. */
  function Step(w: World, s: Ledger, a: Action): Ledger {
    match a
    case Enable(project, on) => s.(inbox := s.inbox.(enabled := s.inbox.enabled[project := on]))
    case Collect(project, events, now) =>
      if now < s.clock || !Truthful(w, project, events) then s else
      (match Ingest(s.inbox, w.naming, project, events, now)
       case Failure(_) => s
       case Success(after) =>
         s.(inbox := after, clock := now,
            accepted := s.accepted + Counted(Prune(s.inbox, now), w.naming, project, events)))
    case Reopen(now) => if now < s.clock then s else s.(inbox := Prune(s.inbox, now), clock := now)
    case PublishOne(index, now, crash) =>
      if index >= |s.inbox.outbox| then s else
      var event := s.inbox.outbox[index];
      (match EventLog.Append(s.log.tables, event, now)
       case Failure(_) => s
       case Success(_) =>
         s.(log := EventReplica.Step(s.log, EventReplica.AppendLocally(event, now)),
            inbox := if crash then s.inbox else s.inbox.(outbox := Acknowledge(s.inbox.outbox, event.id))))
    case InLog(action) => s.(log := EventReplica.Step(s.log, action))
  }

  function Run(w: World, actions: seq<Action>): Ledger
    decreases |actions|
  {
    if actions == [] then Init else Step(w, Run(w, actions[..|actions| - 1]), actions[|actions| - 1])
  }

  function GroupOfKey(w: World, key: Key): GroupKey {
    GroupKey(key.project, w.naming.groupOf(w.truth(key)))
  }

  /** The weights of the accepted events of a group, each counted as often as it was accepted. */
  function GroupSum(w: World, accepted: seq<Key>, g: GroupKey): int {
    if accepted == [] then 0 else
    var last := accepted[|accepted| - 1];
    GroupSum(w, accepted[..|accepted| - 1], g) + if GroupOfKey(w, last) == g then w.truth(last).count else 0
  }

  function LogEventOf(w: World, key: Key): EventLog.Event {
    LogEvent(w.naming, key.project, w.truth(key))
  }

  predicate Distinct(keys: seq<Key>) {
    forall i, j :: 0 <= i < j < |keys| ==> keys[i] != keys[j]
  }

  /** Counting is right: totals are sums over the accepted keys, which are all different; each is still in
      the table or too old to be accepted again. */
  ghost predicate CountsOk(w: World, inbox: Inbox, accepted: seq<Key>, clock: int) {
    && (forall g :: Total(inbox.totals, g) == GroupSum(w, accepted, g))
    && Distinct(accepted)
    && (forall k <- accepted :: k in inbox.events || w.truth(k).timestamp < clock - 30 * DAY)
    && (forall k <- inbox.events :: k in accepted && inbox.events[k].time == w.truth(k).timestamp)
    && (forall k <- accepted :: k == KeyOf(k.project, w.truth(k)))
  }

  /** The bridge is right: what was accepted is waiting or recorded, and only that is waiting. */
  ghost predicate BridgeOk(w: World, outbox: seq<EventLog.Event>, log: EventLog.Tables, accepted: seq<Key>) {
    && (forall k <- accepted :: LogEventOf(w, k) in outbox || EventConvergence.Recorded(log.rows, LogEventOf(w, k)))
    && (forall o <- outbox :: Stems(w, accepted, o))
  }

  /** A waiting log event stems from an accepted one. */
  ghost predicate Stems(w: World, accepted: seq<Key>, o: EventLog.Event) {
    exists k <- accepted :: k == KeyOf(k.project, w.truth(k)) && o == LogEventOf(w, k)
  }

  ghost predicate Sound(w: World, s: Ledger) {
    && CountsOk(w, s.inbox, s.accepted, s.clock)
    && EventReplica.RowsOk(s.log.tables)
    && BridgeOk(w, s.inbox.outbox, s.log.tables, s.accepted)
  }

  lemma PruneSound(w: World, inbox: Inbox, accepted: seq<Key>, clock: int, now: int)
    requires CountsOk(w, inbox, accepted, clock) && clock <= now
    ensures CountsOk(w, Prune(inbox, now), accepted, now)
  {
  }

  lemma DistinctExtends(keys: seq<Key>, key: Key)
    requires Distinct(keys) && key !in keys
    ensures Distinct(keys + [key])
  {
  }

  lemma GroupSumExtends(w: World, accepted: seq<Key>, key: Key, g: GroupKey)
    ensures GroupSum(w, accepted + [key], g)
            == GroupSum(w, accepted, g) + if GroupOfKey(w, key) == g then w.truth(key).count else 0
  {
    assert (accepted + [key])[..|accepted|] == accepted;
  }

  /** One acceptable event: known, or never accepted before. */
  lemma IngestOneCounts(w: World, inbox: Inbox, accepted: seq<Key>, project: string, e: Event, now: int)
    requires CountsOk(w, inbox, accepted, now)
    requires Acceptable(e, now) && e == w.truth(KeyOf(project, e))
    ensures var key := KeyOf(project, e);
            CountsOk(w, IngestOne(inbox, w.naming, project, e), if key in inbox.events then accepted else accepted + [key], now)
  {
    var key := KeyOf(project, e);
    if key !in inbox.events {
      assert key !in accepted;
      DistinctExtends(accepted, key);
      var after := IngestOne(inbox, w.naming, project, e);
      forall g ensures Total(after.totals, g) == GroupSum(w, accepted + [key], g) {
        GroupSumExtends(w, accepted, key, g);
      }
    }
  }

  lemma IngestOneBridges(w: World, inbox: Inbox, log: EventLog.Tables, accepted: seq<Key>, project: string, e: Event)
    requires DistinctIds(w) && BridgeOk(w, inbox.outbox, log, accepted)
    requires e == w.truth(KeyOf(project, e))
    requires KeyOf(project, e) !in inbox.events ==> KeyOf(project, e) !in accepted
    ensures var key := KeyOf(project, e);
            BridgeOk(w, IngestOne(inbox, w.naming, project, e).outbox, log, if key in inbox.events then accepted else accepted + [key])
  {
    var key := KeyOf(project, e);
    if key !in inbox.events {
      var event := LogEvent(w.naming, project, e);
      var after := IngestOne(inbox, w.naming, project, e).outbox;
      assert event == LogEventOf(w, key);
      forall o <- inbox.outbox ensures o.id != event.id && Stems(w, accepted + [key], o) {
        assert Stems(w, accepted, o);
        var k :| k in accepted && k == KeyOf(k.project, w.truth(k)) && o == LogEventOf(w, k);
        assert o.id == w.naming.logId(k) && event.id == w.naming.logId(key) && k != key;
        assert k in accepted + [key];
      }
      assert after == inbox.outbox + [event];
      assert Stems(w, accepted + [key], event) by {
        assert key in accepted + [key];
      }
      forall k <- accepted + [key] ensures LogEventOf(w, k) in after || EventConvergence.Recorded(log.rows, LogEventOf(w, k)) {
        if k != key {
          assert k in accepted;
        }
      }
    }
  }

  ghost predicate InboxOk(w: World, inbox: Inbox, log: EventLog.Tables, accepted: seq<Key>, clock: int) {
    CountsOk(w, inbox, accepted, clock) && BridgeOk(w, inbox.outbox, log, accepted)
  }

  lemma IngestOneSound(w: World, inbox: Inbox, log: EventLog.Tables, accepted: seq<Key>, project: string, e: Event, now: int)
    requires DistinctIds(w) && InboxOk(w, inbox, log, accepted, now)
    requires Acceptable(e, now) && e == w.truth(KeyOf(project, e))
    ensures var key := KeyOf(project, e);
            InboxOk(w, IngestOne(inbox, w.naming, project, e), log, if key in inbox.events then accepted else accepted + [key], now)
  {
    IngestOneCounts(w, inbox, accepted, project, e, now);
    NewKeyIsNew(w, inbox, accepted, project, e, now);
    IngestOneBridges(w, inbox, log, accepted, project, e);
  }

  lemma {:induction false} IngestAllSound(w: World, inbox: Inbox, log: EventLog.Tables, accepted: seq<Key>, project: string, events: seq<Event>, now: int)
    requires DistinctIds(w) && InboxOk(w, inbox, log, accepted, now)
    requires forall e <- events :: Acceptable(e, now) && e == w.truth(KeyOf(project, e))
    ensures InboxOk(w, IngestAll(inbox, w.naming, project, events), log, accepted + Counted(inbox, w.naming, project, events), now)
    decreases |events|
  {
    if events == [] {
      assert accepted + [] == accepted;
    } else {
      var init, last := events[..|events| - 1], events[|events| - 1];
      forall e <- init ensures Acceptable(e, now) && e == w.truth(KeyOf(project, e)) {
        assert e in events;
      }
      assert last in events;
      IngestAllSound(w, inbox, log, accepted, project, init, now);
      var counted := Counted(inbox, w.naming, project, init);
      IngestOneSound(w, IngestAll(inbox, w.naming, project, init), log, accepted + counted, project, last, now);
      assert accepted + (counted + [KeyOf(project, last)]) == accepted + counted + [KeyOf(project, last)];
    }
  }

  /** An acceptable event whose row is gone was never accepted: its row could only have been pruned when it
      was too old to be accepted again. */
  lemma NewKeyIsNew(w: World, inbox: Inbox, accepted: seq<Key>, project: string, e: Event, now: int)
    requires CountsOk(w, inbox, accepted, now)
    requires Acceptable(e, now) && e == w.truth(KeyOf(project, e))
    ensures KeyOf(project, e) !in inbox.events ==> KeyOf(project, e) !in accepted
  {
  }

  lemma CollectSound(w: World, s: Ledger, project: string, events: seq<Event>, now: int)
    requires DistinctIds(w) && Sound(w, s)
    ensures Sound(w, Step(w, s, Collect(project, events, now)))
  {
    if s.clock <= now && Truthful(w, project, events) && Ingest(s.inbox, w.naming, project, events, now).Success? {
      PruneSound(w, s.inbox, s.accepted, s.clock, now);
      IngestAllSound(w, Prune(s.inbox, now), s.log.tables, s.accepted, project, events, now);
    }
  }

  lemma {:induction false} AcknowledgeMembers(outbox: seq<EventLog.Event>, id: string)
    ensures forall o :: o in Acknowledge(outbox, id) <==> o in outbox && o.id != id
  {
    if outbox != [] {
      AcknowledgeMembers(outbox[1..], id);
    }
  }

  /** What is acknowledged has been recorded. */
  lemma AcknowledgeKeepsBridge(w: World, outbox: seq<EventLog.Event>, log: EventLog.Tables, accepted: seq<Key>, event: EventLog.Event)
    requires DistinctIds(w) && BridgeOk(w, outbox, log, accepted) && event in outbox
    requires EventConvergence.Recorded(log.rows, event)
    ensures BridgeOk(w, Acknowledge(outbox, event.id), log, accepted)
  {
    AcknowledgeMembers(outbox, event.id);
    assert Stems(w, accepted, event);
    var key :| key in accepted && key == KeyOf(key.project, w.truth(key)) && event == LogEventOf(w, key);
    forall k <- accepted
      ensures LogEventOf(w, k) in Acknowledge(outbox, event.id) || EventConvergence.Recorded(log.rows, LogEventOf(w, k))
    {
      if LogEventOf(w, k) in outbox && LogEventOf(w, k).id == event.id {
        assert Stems(w, accepted, LogEventOf(w, k));
        var j :| j in accepted && j == KeyOf(j.project, w.truth(j)) && LogEventOf(w, k) == LogEventOf(w, j);
        assert w.naming.logId(j) == w.naming.logId(key);
      }
    }
  }

  lemma LaterKeepsBridge(w: World, outbox: seq<EventLog.Event>, log: EventLog.Tables, later: EventLog.Tables, accepted: seq<Key>)
    requires BridgeOk(w, outbox, log, accepted) && EventReplica.Later(log, later)
    ensures BridgeOk(w, outbox, later, accepted)
  {
    forall k <- accepted ensures LogEventOf(w, k) in outbox || EventConvergence.Recorded(later.rows, LogEventOf(w, k)) {
      if EventConvergence.Recorded(log.rows, LogEventOf(w, k)) {
        EventConvergence.LaterRecorded(log, later, LogEventOf(w, k));
      }
    }
  }

  lemma PublishSound(w: World, s: Ledger, index: nat, now: int, crash: bool)
    requires DistinctIds(w) && Sound(w, s)
    ensures Sound(w, Step(w, s, PublishOne(index, now, crash)))
  {
    if index < |s.inbox.outbox| && EventLog.Append(s.log.tables, s.inbox.outbox[index], now).Success? {
      var event := s.inbox.outbox[index];
      var log := EventReplica.Step(s.log, EventReplica.AppendLocally(event, now));
      EventReplica.StepRows(s.log, EventReplica.AppendLocally(event, now));
      EventReplica.InsertRows(s.log.tables, event, now);
      LaterKeepsBridge(w, s.inbox.outbox, s.log.tables, log.tables, s.accepted);
      if !crash {
        AcknowledgeKeepsBridge(w, s.inbox.outbox, log.tables, s.accepted, event);
      }
    }
  }

  lemma StepSound(w: World, s: Ledger, a: Action)
    requires DistinctIds(w) && Sound(w, s)
    ensures Sound(w, Step(w, s, a))
  {
    match a
    case Enable(project, on) =>
    case Collect(project, events, now) => CollectSound(w, s, project, events, now);
    case Reopen(now) => if s.clock <= now { PruneSound(w, s.inbox, s.accepted, s.clock, now); }
    case PublishOne(index, now, crash) => PublishSound(w, s, index, now, crash);
    case InLog(action) =>
      EventReplica.StepRows(s.log, action);
      LaterKeepsBridge(w, s.inbox.outbox, s.log.tables, EventReplica.Step(s.log, action).tables, s.accepted);
  }

  lemma {:induction false} RunSound(w: World, actions: seq<Action>)
    requires DistinctIds(w)
    ensures Sound(w, Run(w, actions))
    decreases |actions|
  {
    if actions != [] {
      RunSound(w, actions[..|actions| - 1]);
      StepSound(w, Run(w, actions[..|actions| - 1]), actions[|actions| - 1]);
    }
  }

  /** In every run a group's total is the sum of the counts of the events ever accepted into it, each counted
      once, whether or not its row is still kept. */
  lemma TotalsAreConserved(w: World, actions: seq<Action>, g: GroupKey)
    requires DistinctIds(w)
    ensures var s := Run(w, actions);
            Total(s.inbox.totals, g) == GroupSum(w, s.accepted, g) && Distinct(s.accepted)
  {
    RunSound(w, actions);
  }

  /** The row that records an event in the log. */
  ghost predicate RecordOf(log: EventLog.Tables, event: EventLog.Event, i: nat) {
    i < |log.rows| && log.rows[i].id == event.id && log.rows[i].record == EventLog.Of(EventLog.EventFact(event))
  }

  /** Every accepted event is still waiting or has exactly one record in the log, whatever crashes there were
      between recording and acknowledging it. */
  lemma AcceptedEventsReachTheLogOnce(w: World, actions: seq<Action>, key: Key)
    requires DistinctIds(w) && key in Run(w, actions).accepted
    ensures var s := Run(w, actions);
            && (LogEventOf(w, key) in s.inbox.outbox || exists i :: RecordOf(s.log.tables, LogEventOf(w, key), i))
            && (forall i, j :: RecordOf(s.log.tables, LogEventOf(w, key), i) && RecordOf(s.log.tables, LogEventOf(w, key), j) ==> i == j)
            && (forall i :: RecordOf(s.log.tables, LogEventOf(w, key), i) ==>
                  forall j: nat :: j < |s.log.tables.rows| && s.log.tables.rows[j].id == LogEventOf(w, key).id ==> j == i)
  {
    RunSound(w, actions);
    var s := Run(w, actions);
    if LogEventOf(w, key) !in s.inbox.outbox {
      assert EventConvergence.Recorded(s.log.tables.rows, LogEventOf(w, key));
      var i :| 0 <= i < |s.log.tables.rows| && s.log.tables.rows[i].id == LogEventOf(w, key).id
               && s.log.tables.rows[i].record == EventLog.Of(EventLog.EventFact(LogEventOf(w, key)));
      assert RecordOf(s.log.tables, LogEventOf(w, key), i);
    }
  }

  predicate DistinctEvents(rows: seq<EventLog.Event>) {
    forall i, j :: 0 <= i < j < |rows| ==> rows[i].id != rows[j].id
  }

  lemma {:induction false} AcknowledgeFirst(outbox: seq<EventLog.Event>)
    requires outbox != [] && DistinctEvents(outbox)
    ensures Acknowledge(outbox, outbox[0].id) == outbox[1..]
  {
    forall i | 1 <= i < |outbox| ensures outbox[i].id != outbox[0].id {}
    AcknowledgeNothing(outbox[1..], outbox[0].id);
  }

  lemma {:induction false} AcknowledgeNothing(outbox: seq<EventLog.Event>, id: string)
    requires forall o <- outbox :: o.id != id
    ensures Acknowledge(outbox, id) == outbox
  {
    if outbox != [] {
      forall o <- outbox[1..] ensures o.id != id { assert o in outbox; }
      AcknowledgeNothing(outbox[1..], id);
      assert [outbox[0]] + outbox[1..] == outbox;
    }
  }

  /** A pass over rows that the log accepts takes exactly these rows from the front of the outbox. */
  lemma {:induction false} PassDrains(outbox: seq<EventLog.Event>, log: EventLog.Tables, n: nat, now: int)
    requires n <= |outbox| && DistinctEvents(outbox) && PublishRows(outbox, log, outbox[..n], now).2
    ensures PublishRows(outbox, log, outbox[..n], now).0 == outbox[n..]
    decreases n
  {
    if n > 0 {
      assert outbox[..n][..n - 1] == outbox[..n - 1];
      PassDrains(outbox, log, n - 1, now);
      AcknowledgeFirst(outbox[n - 1..]);
      assert outbox[n - 1..][1..] == outbox[n..];
    }
  }

  lemma {:induction false} AcknowledgeKeepsDistinct(outbox: seq<EventLog.Event>, id: string)
    requires DistinctEvents(outbox)
    ensures DistinctEvents(Acknowledge(outbox, id))
    ensures forall o <- Acknowledge(outbox, id) :: o in outbox
  {
    if outbox != [] {
      AcknowledgeKeepsDistinct(outbox[1..], id);
      forall o <- outbox[1..] ensures o.id != outbox[0].id && o in outbox {}
    }
  }

  lemma {:induction false} IngestKeepsDistinct(inbox: Inbox, naming: Naming, project: string, events: seq<Event>)
    requires DistinctEvents(inbox.outbox)
    ensures DistinctEvents(IngestAll(inbox, naming, project, events).outbox)
    decreases |events|
  {
    if events != [] {
      IngestKeepsDistinct(inbox, naming, project, events[..|events| - 1]);
    }
  }

  /** In every run the outbox holds each log event once, so a pass drains its page. */
  lemma {:induction false} OutboxIsDistinct(w: World, actions: seq<Action>)
    ensures DistinctEvents(Run(w, actions).inbox.outbox)
    decreases |actions|
  {
    if actions != [] {
      OutboxIsDistinct(w, actions[..|actions| - 1]);
      var s := Run(w, actions[..|actions| - 1]);
      match actions[|actions| - 1]
      case Collect(project, events, now) => IngestKeepsDistinct(Prune(s.inbox, now), w.naming, project, events);
      case PublishOne(index, now, crash) =>
        if index < |s.inbox.outbox| { AcknowledgeKeepsDistinct(s.inbox.outbox, s.inbox.outbox[index].id); }
      case _ =>
    }
  }
}
