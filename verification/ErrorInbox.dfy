/** The error inbox of src/error_inbox.rs: deduplicated ingest with retention, the outbox towards the event
    log, and the hourly activity of a group. */
module ErrorInbox {
  import opened Wrappers
  import EventLog

  const DAY: int := 86_400_000
  const HOUR: int := 3_600_000
  const MAX_EVENTS: nat := 1_000_000
  const MAX_GROUPS: nat := 10_000

  datatype Event = Event(
    source: string,
    eventId: string,
    timestamp: int,
    message: string,
    stack: Option<string>,
    release: Option<string>,
    requestRef: Option<string>,
    fingerprint: Option<string>,
    count: int)

  datatype Key = Key(project: string, source: string, eventId: string)

  datatype GroupKey = GroupKey(project: string, id: string)

  datatype Saved = Saved(group: string, time: int, count: int)

  /** What ingest takes from elsewhere: the grouping of a message, the machine, the hashed log ID of an
      event, and its data in the log. */
  datatype Naming = Naming(
    groupOf: Event -> string,
    origin: string,
    logId: Key -> string,
    logData: Event -> (string, nat))

  datatype Inbox = Inbox(
    enabled: map<string, bool>,
    totals: map<GroupKey, int>,
    events: map<Key, Saved>,
    outbox: seq<EventLog.Event>)

  const Empty := Inbox(map[], map[], map[], [])

  predicate Blank(text: string) {
    forall c <- text :: c == ' ' || c == '\t' || c == '\n' || c == '\r'
  }

  predicate Fits(field: Option<string>, limit: nat) {
    field.Some? ==> |field.value| <= limit
  }

  predicate ValidFields(e: Event) {
    && !Blank(e.source) && |e.source| <= 256 && !Blank(e.eventId) && |e.eventId| <= 512
    && !Blank(e.message) && |e.message| <= 8192
    && Fits(e.stack, 16384) && Fits(e.release, 256) && Fits(e.requestRef, 512) && Fits(e.fingerprint, 1024)
  }

  predicate Acceptable(e: Event, now: int) {
    ValidFields(e) && now - 30 * DAY <= e.timestamp <= now + 300_000 && 1 <= e.count <= 1_000_000
  }

  function Enabled(inbox: Inbox, project: string): bool {
    project in inbox.enabled && inbox.enabled[project]
  }

  /** Retention: rows older than thirty days are deleted. */
  function Prune(inbox: Inbox, now: int): Inbox {
    inbox.(events := map k | k in inbox.events && inbox.events[k].time >= now - 30 * DAY :: inbox.events[k])
  }

  function KeyOf(project: string, e: Event): Key {
    Key(project, e.source, e.eventId)
  }

  function LogEvent(naming: Naming, project: string, e: Event): EventLog.Event {
    EventLog.Event(naming.logId(KeyOf(project, e)), "error.observed", 1, naming.origin, e.timestamp, Some(project),
                   naming.groupOf(e), naming.logData(e).0, naming.logData(e).1)
  }

  function Offer(outbox: seq<EventLog.Event>, e: EventLog.Event): seq<EventLog.Event> {
    if exists o <- outbox :: o.id == e.id then outbox else outbox + [e]
  }

  function Total(totals: map<GroupKey, int>, g: GroupKey): int {
    if g in totals then totals[g] else 0
  }

  /** One event of a batch: a known key changes nothing. */
  function IngestOne(inbox: Inbox, naming: Naming, project: string, e: Event): Inbox {
    var key, group := KeyOf(project, e), GroupKey(project, naming.groupOf(e));
    if key in inbox.events then inbox
    else
      inbox.(events := inbox.events[key := Saved(naming.groupOf(e), e.timestamp, e.count)],
      outbox := Offer(inbox.outbox, LogEvent(naming, project, e)),
      totals := inbox.totals[group := Total(inbox.totals, group) + e.count])
  }

  function IngestAll(inbox: Inbox, naming: Naming, project: string, events: seq<Event>): Inbox
    decreases |events|
  {
    if events == [] then inbox
    else IngestOne(IngestAll(inbox, naming, project, events[..|events| - 1]), naming, project, events[|events| - 1])
  }

  function Ingest(inbox: Inbox, naming: Naming, project: string, events: seq<Event>, now: int): Result<Inbox> {
    if !Enabled(inbox, project) then Failure("collection_disabled")
    else if |events| > 500 then Failure("Maximum 500 events per batch")
    else if !(forall e <- events :: Acceptable(e, now)) then Failure("invalid event")
    else
      var after := IngestAll(Prune(inbox, now), naming, project, events);
      if |after.events| > MAX_EVENTS then Failure("Inbox retention limit reached")
      else if |after.totals| > MAX_GROUPS then Failure("Inbox group limit reached")
      else Success(after)
  }

  /** The outbox without the published event of this ID. */
  function Acknowledge(outbox: seq<EventLog.Event>, id: string): seq<EventLog.Event> {
    if outbox == [] then []
    else if outbox[0].id == id then Acknowledge(outbox[1..], id)
    else [outbox[0]] + Acknowledge(outbox[1..], id)
  }

  const PAGE: nat := 128

  /** Publishing the given rows: each is appended to the log before it is acknowledged, up to the first failure. */
  function PublishRows(outbox: seq<EventLog.Event>, log: EventLog.Tables, rows: seq<EventLog.Event>, now: int)
    : (seq<EventLog.Event>, EventLog.Tables, bool)
    decreases |rows|
  {
    if rows == [] then (outbox, log, true) else
    var (waiting, published, ok) := PublishRows(outbox, log, rows[..|rows| - 1], now);
    if !ok then (waiting, published, false) else
    match EventLog.Append(published, rows[|rows| - 1], now)
    case Failure(_) => (waiting, published, false)
    case Success((after, _)) => (Acknowledge(waiting, rows[|rows| - 1].id), after, true)
  }

  function FirstPage(outbox: seq<EventLog.Event>): seq<EventLog.Event> {
    if |outbox| <= PAGE then outbox else outbox[..PAGE]
  }

  method AllAcceptable(batch: seq<Event>, now: int) returns (valid: bool)
    ensures valid <==> forall e <- batch :: Acceptable(e, now)
  {
    for n := 0 to |batch|
      invariant forall i :: 0 <= i < n ==> Acceptable(batch[i], now)
    {
      if !Acceptable(batch[n], now) {
        assert batch[n] in batch;
        return false;
      }
    }
    return true;
  }

  class Store {
    var enabled: map<string, bool>
    var totals: map<GroupKey, int>
    var events: map<Key, Saved>
    var outbox: seq<EventLog.Event>

    constructor ()
      ensures State() == Empty
    {
      enabled, totals, events, outbox := map[], map[], map[], [];
    }

    function State(): Inbox
      reads this
    {
      Inbox(enabled, totals, events, outbox)
    }

    method Enable(project: string, on: bool)
      modifies this
      ensures State() == old(State()).(enabled := old(enabled)[project := on])
    {
      enabled := enabled[project := on];
    }

    method Insert(naming: Naming, project: string, e: Event) returns (inserted: bool)
      modifies this
      ensures State() == IngestOne(old(State()), naming, project, e)
      ensures inserted <==> KeyOf(project, e) !in old(events)
    {
      var key := KeyOf(project, e);
      inserted := key !in events;
      if inserted {
        var group := naming.groupOf(e);
        events := events[key := Saved(group, e.timestamp, e.count)];
        outbox := Offer(outbox, LogEvent(naming, project, e));
        totals := totals[GroupKey(project, group) := Total(totals, GroupKey(project, group)) + e.count];
      }
    }

    /** The events of a batch, one after the other; how many were new. */
    method InsertAll(naming: Naming, project: string, batch: seq<Event>) returns (accepted: nat)
      modifies this
      ensures State() == IngestAll(old(State()), naming, project, batch)
      ensures accepted <= |batch|
    {
      accepted := 0;
      for n := 0 to |batch|
        invariant State() == IngestAll(old(State()), naming, project, batch[..n])
        invariant accepted <= n
      {
        assert batch[..n + 1][..n] == batch[..n];
        var inserted := Insert(naming, project, batch[n]);
        if inserted {
          accepted := accepted + 1;
        }
      }
      assert batch[..|batch|] == batch;
    }

    /** A batch is accepted as a whole or changes nothing. */
    method IngestBatch(naming: Naming, project: string, batch: seq<Event>, now: int) returns (result: Result<nat>)
      modifies this
      ensures match Ingest(old(State()), naming, project, batch, now)
              case Failure(_) => result.Failure? && State() == old(State())
              case Success(after) => result.Success? && State() == after && result.value <= |batch|
    {
      if !Enabled(State(), project) {
        return Failure("collection_disabled");
      }
      if |batch| > 500 {
        return Failure("Maximum 500 events per batch");
      }
      var valid := AllAcceptable(batch, now);
      if !valid {
        return Failure("invalid event");
      }
      var saved := State();
      events := Prune(saved, now).events;
      var accepted := InsertAll(naming, project, batch);
      if |events| > MAX_EVENTS || |totals| > MAX_GROUPS {
        enabled, totals, events, outbox := saved.enabled, saved.totals, saved.events, saved.outbox;
        return Failure("inbox_full");
      }
      return Success(accepted);
    }

    /** One pass of the bridge into the event log. */
    method Publish(log: EventLog.EventLog, now: int) returns (result: Result<nat>)
      modifies this, log
      ensures var (waiting, published, ok) := PublishRows(old(outbox), old(log.State()), FirstPage(old(outbox)), now);
              && State() == old(State()).(outbox := waiting) && log.State() == published
              && result.Success? == ok
    {
      var rows := FirstPage(outbox);
      for n := 0 to |rows|
        invariant (outbox, log.State(), true) == PublishRows(old(outbox), old(log.State()), rows[..n], now)
        invariant State() == old(State()).(outbox := outbox)
      {
        assert rows[..n + 1][..n] == rows[..n];
        var appended := log.AppendEvent(rows[n], now);
        if appended.Failure? {
          FailureStays(old(outbox), old(log.State()), rows, n + 1, now);
          return Failure(appended.error);
        }
        outbox := Acknowledge(outbox, rows[n].id);
      }
      assert rows[..|rows|] == rows;
      return Success(|rows|);
    }
  }

  lemma {:induction false} FailureStays(outbox: seq<EventLog.Event>, log: EventLog.Tables, rows: seq<EventLog.Event>, n: nat, now: int)
    requires n <= |rows| && !PublishRows(outbox, log, rows[..n], now).2
    ensures PublishRows(outbox, log, rows, now) == PublishRows(outbox, log, rows[..n], now)
    decreases |rows| - n
  {
    if n == |rows| {
      assert rows[..n] == rows;
    } else {
      assert rows[..n + 1][..n] == rows[..n];
      FailureStays(outbox, log, rows, n + 1, now);
    }
  }

  // ---- hourly activity

  /** One observation of a group: when, and how often. */
  datatype Sample = Sample(time: int, count: int)

  predicate InLastDay(s: Sample, now: int) {
    now - DAY <= s.time <= now
  }

  /** The hour of the last day a sample falls into; the observation time itself belongs to the last. */
  function Bucket(s: Sample, now: int): (b: nat)
    requires InLastDay(s, now)
    ensures b < 24
    ensures now - DAY + b * HOUR <= s.time
    ensures b < 23 ==> s.time < now - DAY + (b + 1) * HOUR
  {
    var hour := (s.time - (now - DAY)) / HOUR;
    if hour < 23 then hour else 23
  }

  function CountDay(samples: seq<Sample>, now: int): int {
    if samples == [] then 0 else
    var s := samples[|samples| - 1];
    CountDay(samples[..|samples| - 1], now) + if InLastDay(s, now) then s.count else 0
  }

  function CountHour(samples: seq<Sample>, now: int, bucket: nat): int {
    if samples == [] then 0 else
    var s := samples[|samples| - 1];
    CountHour(samples[..|samples| - 1], now, bucket) + if InLastDay(s, now) && Bucket(s, now) == bucket then s.count else 0
  }

  function Sum(counts: seq<int>): int {
    if counts == [] then 0 else Sum(counts[..|counts| - 1]) + counts[|counts| - 1]
  }

  lemma {:induction false} SumUpdate(counts: seq<int>, index: nat, more: int)
    requires index < |counts|
    ensures Sum(counts[index := counts[index] + more]) == Sum(counts) + more
  {
    var after := counts[index := counts[index] + more];
    if index == |counts| - 1 {
      assert after[..|counts| - 1] == counts[..|counts| - 1];
    } else {
      assert after[..|counts| - 1] == counts[..|counts| - 1][index := counts[index] + more];
      SumUpdate(counts[..|counts| - 1], index, more);
    }
  }

  /** The chart of a group: each bucket counts its own hour, and together they are the day's count. */
  method HourlyCounts(samples: seq<Sample>, now: int) returns (hourly: array<int>)
    ensures hourly.Length == 24
    ensures forall b :: 0 <= b < 24 ==> hourly[b] == CountHour(samples, now, b)
    ensures Sum(hourly[..]) == CountDay(samples, now)
  {
    hourly := new int[24](_ => 0);
    ZeroSum(hourly[..]);
    for n := 0 to |samples|
      invariant forall b :: 0 <= b < 24 ==> hourly[b] == CountHour(samples[..n], now, b)
      invariant Sum(hourly[..]) == CountDay(samples[..n], now)
    {
      assert samples[..n + 1][..n] == samples[..n];
      var s := samples[n];
      if InLastDay(s, now) {
        var b := Bucket(s, now);
        ghost var before := hourly[..];
        SumUpdate(before, b, s.count);
        hourly[b] := hourly[b] + s.count;
        assert hourly[..] == before[b := before[b] + s.count];
      }
    }
    assert samples[..|samples|] == samples;
  }

  lemma {:induction false} ZeroSum(counts: seq<int>)
    requires forall i :: 0 <= i < |counts| ==> counts[i] == 0
    ensures Sum(counts) == 0
  {
    if counts != [] {
      ZeroSum(counts[..|counts| - 1]);
    }
  }
}
