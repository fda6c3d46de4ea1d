/** Reading the event log by cursor (src/event_log.rs `read` and the follow loop of src/event_cli.rs): pages
    are exact, whatever is written between them. */
module EventCursor {
  import opened Wrappers
  import opened EventLog
  import opened EventReplica

  datatype Filter = Filter(
    kind: Option<string>,
    machine: Option<string>,
    project: Option<string>,
    subject: Option<string>,
    since: Option<int>)

  /** Where to continue: no cursor, a text that is not one, or a position of some replica. */
  datatype After = Start | Malformed | At(replica: string, position: int)

  datatype Item = Item(position: nat, receivedAt: int, event: Event)

  datatype Page = Page(events: seq<Item>, next: nat, hasMore: bool, expiredThrough: Option<nat>)

  /** A namespace pattern: a type prefix that ends in a dot, followed by a star. */
  predicate IsNamespace(kind: string) {
    |kind| >= 2 && kind[|kind| - 2..] == ".*"
  }

  predicate ValidFilter(filter: Filter) {
    filter.kind.Some? && IsNamespace(filter.kind.value) ==>
      forall c <- filter.kind.value[..|filter.kind.value| - 1] :: KindChar(c)
  }

  predicate KindMatches(pattern: string, kind: string) {
    if IsNamespace(pattern) then pattern[..|pattern| - 1] <= kind else kind == pattern
  }

  predicate Matches(filter: Filter, event: Event) {
    && (filter.kind.Some? ==> KindMatches(filter.kind.value, event.kind))
    && (filter.machine.Some? ==> event.origin == filter.machine.value)
    && (filter.project.Some? ==> event.project == filter.project)
    && (filter.subject.Some? ==> event.subject == filter.subject.value)
    && (filter.since.Some? ==> event.time >= filter.since.value)
  }

  predicate Hit(filter: Filter, row: Row) {
    row.event.Some? && Matches(filter, row.event.value)
  }

  /** The matching live rows at positions above `low` and up to `high`, oldest first. */
  function Select(rows: seq<Row>, filter: Filter, low: nat, high: nat): (items: seq<Item>)
    requires high <= |rows|
    ensures forall item <- items :: low < item.position <= high
  {
    if high <= low then [] else
    var row := rows[high - 1];
    var earlier := Select(rows, filter, low, high - 1);
    if Hit(filter, row) then earlier + [Item(high, row.receivedAt, row.event.value)] else earlier
  }

  function Last(items: seq<Item>, limit: nat): seq<Item> {
    if |items| <= limit then items else items[|items| - limit..]
  }

  /** One page: without cursor and age limit the latest events, otherwise the oldest after the cursor. */
  function ReadPage(t: Tables, replica: string, filter: Filter, after: After, limit: int): Result<Page>
    requires t.floor <= |t.rows|
  {
    var head := |t.rows|;
    if !(1 <= limit <= 1000) then Failure("Event limit must be 1-1000")
    else if after.Malformed? then Failure("Invalid event cursor")
    else if after.At? && after.replica != replica then Failure("Event cursor belongs to another replica")
    else if after.At? && !(0 <= after.position <= head) then Failure("Event cursor is outside this replica's history")
    else if after.At? && after.position < t.floor then Failure("event_gap")
    else if !ValidFilter(filter) then Failure("Event type accepts an exact type or a namespace ending in .*")
    else
      var position := if after.At? then after.position else 0;
      var found := Select(t.rows, filter, position, head);
      var recent := after.Start? && filter.since.None?;
      var more := |found| > limit;
      var events := if recent then Last(found, limit) else if more then found[..limit] else found;
      Success(Page(events, if !recent && more then events[limit - 1].position else head, !recent && more,
                   if t.floor > 0 then Some(t.floor) else None))
  }

  lemma SelectStep(rows: seq<Row>, filter: Filter, low: nat, n: nat, high: nat)
    requires low <= n < high <= |rows|
    ensures Select(rows, filter, low, n + 1) ==
            Select(rows, filter, low, n)
            + if Hit(filter, rows[n]) then [Item(n + 1, rows[n].receivedAt, rows[n].event.value)] else []
  {
  }

  /** A range is read in two parts without loss or repetition. */
  lemma {:induction false} SelectSplit(rows: seq<Row>, filter: Filter, low: nat, middle: nat, high: nat)
    requires low <= middle <= high <= |rows|
    ensures Select(rows, filter, low, middle) + Select(rows, filter, middle, high) == Select(rows, filter, low, high)
    decreases high
  {
    if high > middle {
      SelectSplit(rows, filter, low, middle, high - 1);
    }
  }

  /** The query of `read`: the rows are visited in the requested direction until one more than the limit is
      found; the surplus row only tells that there is more. */
  method Query(rows: seq<Row>, filter: Filter, low: nat, high: nat, limit: nat, newestFirst: bool)
    returns (found: seq<Item>, more: bool)
    requires low <= high <= |rows|
    ensures more <==> |Select(rows, filter, low, high)| > limit
    ensures found == if newestFirst then Last(Select(rows, filter, low, high), limit)
                     else if more then Select(rows, filter, low, high)[..limit]
                     else Select(rows, filter, low, high)
  {
    ghost var all := Select(rows, filter, low, high);
    found := [];
    if newestFirst {
      var n := high;
      while n > low && |found| <= limit
        invariant low <= n <= high
        invariant |found| <= limit + 1
        invariant Select(rows, filter, low, n) + found == all
      {
        SelectStep(rows, filter, low, n - 1, high);
        n := n - 1;
        if Hit(filter, rows[n]) {
          found := [Item(n + 1, rows[n].receivedAt, rows[n].event.value)] + found;
        }
      }
      more := |found| > limit;
      if more {
        found := found[1..];
      }
    } else {
      var n := low;
      while n < high && |found| <= limit
        invariant low <= n <= high
        invariant |found| <= limit + 1
        invariant found == Select(rows, filter, low, n)
      {
        SelectStep(rows, filter, low, n, high);
        if Hit(filter, rows[n]) {
          found := found + [Item(n + 1, rows[n].receivedAt, rows[n].event.value)];
        }
        n := n + 1;
      }
      SelectSplit(rows, filter, low, n, high);
      more := |found| > limit;
      if more {
        found := found[..limit];
      }
    }
  }

  method Read(t: Tables, replica: string, filter: Filter, after: After, limit: int) returns (result: Result<Page>)
    requires t.floor <= |t.rows|
    ensures result == ReadPage(t, replica, filter, after, limit)
  {
    if !(1 <= limit <= 1000) {
      return Failure("Event limit must be 1-1000");
    }
    var head := |t.rows|;
    var position := 0;
    if !after.Start? {
      if after.Malformed? {
        return Failure("Invalid event cursor");
      }
      if after.replica != replica {
        return Failure("Event cursor belongs to another replica");
      }
      if after.position < 0 || after.position > head {
        return Failure("Event cursor is outside this replica's history");
      }
      if after.position < t.floor {
        return Failure("event_gap");
      }
      position := after.position;
    }
    if !ValidFilter(filter) {
      return Failure("Event type accepts an exact type or a namespace ending in .*");
    }
    var recent := after.Start? && filter.since.None?;
    var rows, more := Query(t.rows, filter, position, head, limit, recent);
    var next := if !recent && more then rows[|rows| - 1].position else head;
    return Success(Page(rows, next, !recent && more, if t.floor > 0 then Some(t.floor) else None));
  }

  // ---- what one page means

  /** What the row at a position recorded, whether or not it was retired since. */
  function Original(row: Row): Option<Event> {
    if row.record.Of? && row.record.payload.EventFact? then Some(row.record.payload.event) else None
  }

  predicate Wanted(filter: Filter, row: Row) {
    Original(row).Some? && Matches(filter, Original(row).value)
  }

  /** The matching events ever recorded in a range, retired ones included. */
  function History(rows: seq<Row>, filter: Filter, low: nat, high: nat): seq<Item>
    requires high <= |rows|
  {
    if high <= low then [] else
    var row := rows[high - 1];
    var earlier := History(rows, filter, low, high - 1);
    if Wanted(filter, row) then earlier + [Item(high, row.receivedAt, Original(row).value)] else earlier
  }

  lemma {:induction false} HistorySplit(rows: seq<Row>, filter: Filter, low: nat, middle: nat, high: nat)
    requires low <= middle <= high <= |rows|
    ensures History(rows, filter, low, middle) + History(rows, filter, middle, high) == History(rows, filter, low, high)
    decreases high
  {
    if high > middle {
      HistorySplit(rows, filter, low, middle, high - 1);
    }
  }

  /** Above the floor nothing was retired, so the live rows are the whole history. */
  lemma {:induction false} SelectIsHistory(t: Tables, filter: Filter, low: nat, high: nat)
    requires RowsOk(t) && t.floor <= low && high <= |t.rows|
    ensures Select(t.rows, filter, low, high) == History(t.rows, filter, low, high)
    decreases high
  {
    if high > low {
      SelectIsHistory(t, filter, low, high - 1);
      assert RowOk(t.rows[high - 1]);
    }
  }

  lemma {:induction false} HistoryIsStable(before: Tables, after: Tables, filter: Filter, low: nat, high: nat)
    requires Later(before, after) && high <= |before.rows|
    ensures History(before.rows, filter, low, high) == History(after.rows, filter, low, high)
    decreases high
  {
    if high > low {
      HistoryIsStable(before, after, filter, low, high - 1);
    }
  }

  /** The first `n` selected items are what is selected up to the position of the n-th. */
  lemma {:induction false} SelectPrefix(rows: seq<Row>, filter: Filter, low: nat, high: nat, n: nat)
    requires low <= high <= |rows| && 0 < n <= |Select(rows, filter, low, high)|
    ensures low < Select(rows, filter, low, high)[n - 1].position <= high
    ensures Select(rows, filter, low, Select(rows, filter, low, high)[n - 1].position) == Select(rows, filter, low, high)[..n]
    decreases high
  {
    var all := Select(rows, filter, low, high);
    var earlier := Select(rows, filter, low, high - 1);
    if n <= |earlier| {
      SelectPrefix(rows, filter, low, high - 1, n);
      assert all[..n] == earlier[..n];
    } else {
      assert all[..n] == all;
    }
  }

  /** A page that continues from an accepted cursor contains exactly the matching events recorded between
      that cursor and the page's own. */
  lemma PageIsExact(t: Tables, replica: string, filter: Filter, position: nat, limit: int)
    requires RowsOk(t)
    requires ReadPage(t, replica, filter, At(replica, position), limit).Success?
    ensures var page := ReadPage(t, replica, filter, At(replica, position), limit).value;
            && position <= page.next <= |t.rows|
            && page.events == History(t.rows, filter, position, page.next)
            && (!page.hasMore ==> page.next == |t.rows|)
            && (page.hasMore ==> |page.events| == limit)
  {
    var page := ReadPage(t, replica, filter, At(replica, position), limit).value;
    var all := Select(t.rows, filter, position, |t.rows|);
    if |all| > limit {
      SelectPrefix(t.rows, filter, position, |t.rows|, limit);
    }
    SelectIsHistory(t, filter, position, page.next);
  }

  /** A cursor of this replica's own history is refused exactly when an event after it has been retired. */
  lemma GapExactlyWhenRetired(t: Tables, replica: string, filter: Filter, position: nat, limit: int)
    requires RowsOk(t) && position <= |t.rows| && 1 <= limit <= 1000 && ValidFilter(filter)
    ensures ReadPage(t, replica, filter, At(replica, position), limit).Failure? <==>
            exists i :: position <= i < |t.rows| && t.rows[i].event.None?
  {
    if position < t.floor {
      assert t.rows[t.floor - 1].event.None?;
    }
  }

  /** The first page of a reader without cursor. Without an age limit: the latest matching events, and the head
      as its cursor. With one: the oldest matching events that are still live, and a cursor right behind them. */
  lemma FirstPage(t: Tables, replica: string, filter: Filter, limit: int)
    requires RowsOk(t) && 1 <= limit <= 1000 && ValidFilter(filter)
    ensures ReadPage(t, replica, filter, Start, limit).Success?
    ensures var page := ReadPage(t, replica, filter, Start, limit).value;
            && page.next <= |t.rows| && (!page.hasMore ==> page.next == |t.rows|)
            && (page.hasMore ==> |page.events| == limit)
            && exists skipped :: skipped + page.events == Select(t.rows, filter, 0, page.next)
                                 && (skipped == [] || (filter.since.None? && |page.events| == limit && page.next == |t.rows|))
  {
    var page := ReadPage(t, replica, filter, Start, limit).value;
    var all := Select(t.rows, filter, 0, |t.rows|);
    if filter.since.None? {
      var skipped := if |all| <= limit then [] else all[..|all| - limit];
      assert skipped + Last(all, limit) == all;
    } else {
      if |all| > limit {
        SelectPrefix(t.rows, filter, 0, |t.rows|, limit);
      }
      assert [] + page.events == Select(t.rows, filter, 0, page.next);
    }
  }

  // ---- chains of pages

  /** Between two pages anything may happen to the replica. */
  datatype Segment = Segment(writes: seq<Action>, limit: int)

  datatype Chain = Broken | Chain(events: seq<Item>, cursor: nat, replica: Replica)

  /** Follows the log from a cursor: after each batch of writes, one page. */
  function Follow(s: Replica, owner: string, filter: Filter, cursor: nat, segments: seq<Segment>): Chain
    requires RowsOk(s.tables)
    decreases |segments|
  {
    if segments == [] then Chain([], cursor, s) else
    RunRows(s, segments[0].writes);
    var t := Run(s, segments[0].writes);
    match ReadPage(t.tables, owner, filter, At(owner, cursor), segments[0].limit)
    case Failure(_) => Broken
    case Success(page) =>
      match Follow(t, owner, filter, page.next, segments[1..])
      case Broken => Broken
      case Chain(events, last, final) => Chain(page.events + events, last, final)
  }

  /** The pages of an unbroken chain, put together, are exactly the matching events recorded after the first
      cursor and up to the last, each once and in position order, whatever was written in between. */
  lemma {:induction false} ChainIsExact(s: Replica, owner: string, filter: Filter, cursor: nat, segments: seq<Segment>)
    requires RowsOk(s.tables) && cursor <= |s.tables.rows|
    requires Follow(s, owner, filter, cursor, segments).Chain?
    ensures var chain := Follow(s, owner, filter, cursor, segments);
            && RowsOk(chain.replica.tables) && Later(s.tables, chain.replica.tables)
            && cursor <= chain.cursor <= |chain.replica.tables.rows|
            && chain.events == History(chain.replica.tables.rows, filter, cursor, chain.cursor)
    decreases |segments|
  {
    if segments != [] {
      RunRows(s, segments[0].writes);
      var t := Run(s, segments[0].writes);
      var page := ReadPage(t.tables, owner, filter, At(owner, cursor), segments[0].limit).value;
      PageIsExact(t.tables, owner, filter, cursor, segments[0].limit);
      ChainIsExact(t, owner, filter, page.next, segments[1..]);
      var chain := Follow(t, owner, filter, page.next, segments[1..]);
      LaterTransitive(s.tables, t.tables, chain.replica.tables);
      HistoryIsStable(t.tables, chain.replica.tables, filter, cursor, page.next);
      HistorySplit(chain.replica.tables.rows, filter, cursor, page.next, chain.cursor);
    }
  }

  /** Positions of the history strictly increase, so no event is delivered twice. */
  lemma {:induction false} HistoryInOrder(rows: seq<Row>, filter: Filter, low: nat, high: nat)
    requires high <= |rows|
    ensures forall item <- History(rows, filter, low, high) :: low < item.position <= high
    ensures forall i, j :: 0 <= i < j < |History(rows, filter, low, high)| ==>
              History(rows, filter, low, high)[i].position < History(rows, filter, low, high)[j].position
    ensures forall n :: low <= n < high && Wanted(filter, rows[n]) ==>
              Item(n + 1, rows[n].receivedAt, Original(rows[n]).value) in History(rows, filter, low, high)
    decreases high
  {
    if high > low {
      HistoryInOrder(rows, filter, low, high - 1);
    }
  }

  predicate InOrder(items: seq<Item>) {
    forall i, j :: 0 <= i < j < |items| ==> items[i].position < items[j].position
  }

  lemma {:induction false} SelectInOrder(rows: seq<Row>, filter: Filter, low: nat, high: nat)
    requires high <= |rows|
    ensures InOrder(Select(rows, filter, low, high))
    decreases high
  {
    if high > low {
      SelectInOrder(rows, filter, low, high - 1);
      assert forall item <- Select(rows, filter, low, high - 1) :: item.position <= high - 1;
    }
  }

  lemma SuffixInOrder(skipped: seq<Item>, items: seq<Item>)
    requires InOrder(skipped + items)
    ensures InOrder(items) && forall item <- items :: item in skipped + items
  {
    forall i, j | 0 <= i < j < |items| ensures items[i].position < items[j].position {
      assert (skipped + items)[|skipped| + i] == items[i] && (skipped + items)[|skipped| + j] == items[j];
    }
  }

  lemma JoinedInOrder(first: seq<Item>, rest: seq<Item>, middle: nat)
    requires InOrder(first) && InOrder(rest)
    requires (forall item <- first :: item.position <= middle) && forall item <- rest :: middle < item.position
    ensures InOrder(first + rest)
  {
  }

  /** A first read starts a chain: what follows it is all that matches after its cursor, whatever was written
      in between, and nothing is delivered twice or out of order. */
  lemma FirstPageStartsChain(s: Replica, owner: string, filter: Filter, limit: int, segments: seq<Segment>)
    requires RowsOk(s.tables) && 1 <= limit <= 1000 && ValidFilter(filter)
    requires Follow(s, owner, filter, ReadPage(s.tables, owner, filter, Start, limit).value.next, segments).Chain?
    ensures var page := ReadPage(s.tables, owner, filter, Start, limit).value;
            var chain := Follow(s, owner, filter, page.next, segments);
            && page.next <= chain.cursor <= |chain.replica.tables.rows|
            && chain.events == History(chain.replica.tables.rows, filter, page.next, chain.cursor)
            && InOrder(page.events + chain.events)
  {
    var t := s.tables;
    FirstPage(t, owner, filter, limit);
    var page := ReadPage(t, owner, filter, Start, limit).value;
    var skipped :| skipped + page.events == Select(t.rows, filter, 0, page.next);
    SelectInOrder(t.rows, filter, 0, page.next);
    SuffixInOrder(skipped, page.events);
    ChainIsExact(s, owner, filter, page.next, segments);
    var chain := Follow(s, owner, filter, page.next, segments);
    HistoryInOrder(chain.replica.tables.rows, filter, page.next, chain.cursor);
    JoinedInOrder(page.events, chain.events, page.next);
  }
}
