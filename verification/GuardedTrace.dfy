/** The exchanges of one guarded command, src/cli_request.rs: a lookup, the reads of one snapshot, one write,
    and, only if that write met a conflict, the replay of a receipt. */
module GuardedTrace {
  import opened Wrappers
  import opened GuardedCommand
  import opened GuardedReplay
  import opened GuardedRequest
  import opened GuardedSafety
  import opened GuardedExplicit

  /** Exchanges that only read. */
  predicate Quiet(rules: Rules, exchanges: seq<Exchange>) {
    forall e <- exchanges :: !Writes(rules, e.request.operation) && !e.applied
  }

  /** The receipt that a status reply shows. */
  function Shown(e: Exchange): Value {
    if e.reply.Success? then At(e.reply.value, "request") else Null
  }

  /** A receipt lookup under a request ID: the question, and if a receipt was shown possibly the resubmission of
      exactly the saved operation under the same ID, which mutates nothing. */
  predicate Lookup(rules: Rules, id: Option<string>, template: Value, exchanges: seq<Exchange>) {
    && |exchanges| <= 2
    && (exchanges != [] ==>
          && id.Some? && exchanges[0].request == Request(None, StatusOf(id.value)) && Quiet(rules, exchanges[..1]))
    && (|exchanges| == 2 ==>
          && Is(Shown(exchanges[0]), "state", Text("recorded"))
          && exchanges[1].request == Request(id, Restored(At(Shown(exchanges[0]), "operation"), template))
          && !exchanges[1].applied)
  }

  /** The effect of an exchange is in the store afterwards, and its request ID was not on record before. */
  predicate Landed(rules: Rules, before: Backend, after: Backend, e: Exchange) {
    && Payload(rules, e.request.operation).Some?
    && Effect(e.request.id, Payload(rules, e.request.operation).value) in after.effects
    && (e.request.id.Some? ==> e.request.id.value !in before.receipts)
  }

  lemma LandedBetween(rules: Rules, a: Backend, b: Backend, c: Backend, d: Backend, e: Exchange)
    requires Landed(rules, b, c, e) && Grows(a, b) && Grows(c, d)
    ensures Landed(rules, a, d, e)
  {
  }

  /** A request of the command, under its own request ID and with its own payload. */
  predicate CommandRequest(rules: Rules, id: Option<string>, template: Value, supervisor: bool, request: Request) {
    && request == Keyed(rules, Request(id, request.operation), supervisor)
    && (Payload(rules, request.operation).Some? ==> OfCommand(rules, template, Payload(rules, request.operation).value))
  }

  /** A write of the command under its request ID; what it mutated, if it did, is in the store. */
  predicate CommandWrite(rules: Rules, id: Option<string>, template: Value, supervisor: bool,
                         before: Backend, after: Backend, e: Exchange) {
    CommandRequest(rules, id, template, supervisor, e.request) && (e.applied ==> Landed(rules, before, after, e))
  }

  /** One write of the command, refused for a conflict if a lookup under its request ID follows. */
  predicate OneWrite(rules: Rules, id: Option<string>, template: Value, supervisor: bool, before: Backend, after: Backend,
                     write: seq<Exchange>, replay: seq<Exchange>) {
    && |write| <= 1
    && (write != [] ==>
          && CommandWrite(rules, id, template, supervisor, before, after, write[0])
          && Lookup(rules, write[0].request.id, template, replay))
    && (replay != [] ==> |write| == 1 && write[0].reply == Failure("conflict") && !write[0].applied)
  }

  predicate Sequence(rules: Rules, id: Option<string>, template: Value, supervisor: bool, before: Backend, after: Link,
                     lookup: seq<Exchange>, snapshot: seq<Exchange>, write: seq<Exchange>, replay: seq<Exchange>) {
    && after.trace == lookup + snapshot + write + replay
    && Lookup(rules, id, template, lookup)
    && (|lookup| == 2 ==> |after.trace| == 2)
    && Quiet(rules, snapshot)
    && OneWrite(rules, id, template, supervisor, before, after.backend, write, replay)
  }

  lemma ReadIsQuiet(rules: Rules, link: Link, request: Request, authority: bool)
    requires Inv(link.backend) && !Writes(rules, request.operation)
    ensures var after := Send(rules, link, request, authority).0;
            && |after.trace| == |link.trace| + 1 && after.trace[..|link.trace|] == link.trace
            && after.trace[|link.trace|].request == request
            && after.trace[|link.trace|].reply == Send(rules, link, request, authority).1
            && Quiet(rules, after.trace[|link.trace|..])
  {
    var before := SendRuns(rules, link, request, authority);
  }

  /** What was added to a trace. */
  function Added(before: Link, after: Link): seq<Exchange>
    requires before.trace <= after.trace
  {
    after.trace[|before.trace|..]
  }

  lemma AddedBoth(a: Link, b: Link, c: Link)
    requires a.trace <= b.trace && b.trace <= c.trace
    ensures a.trace <= c.trace && Added(a, c) == Added(a, b) + Added(b, c)
  {
  }

  lemma ViewReadsOnly(rules: Rules, number: Value)
    ensures !Writes(rules, ViewOf(number))
  {
  }

  lemma QueueReadsOnly(rules: Rules)
    ensures !Writes(rules, QUEUE_HEAD)
  {
  }

  lemma ArtifactViewReadsOnly(rules: Rules, id: Value)
    ensures !Writes(rules, ArtifactView(id))
  {
    assert Action(ArtifactView(id)) == Artifact;
  }

  lemma SnapshotReadsOnly(rules: Rules, operation: Value)
    ensures !Writes(rules, SnapshotRead(operation))
  {
    QueueReadsOnly(rules);
    ViewReadsOnly(rules, At(operation, "number"));
    ArtifactViewReadsOnly(rules, At(Innermost(At(operation, "operation")), "id"));
  }

  lemma StatusReadsOnly(rules: Rules, id: string)
    ensures !Writes(rules, StatusOf(id))
  {
  }

  lemma {:induction false} EditsAreQuiet(rules: Rules, link: Link, edits: seq<Value>, authority: bool)
    requires Inv(link.backend)
    ensures var after := FillEdits(rules, link, edits, authority).0;
            Later(link, after) && Quiet(rules, Added(link, after))
    decreases |edits|
  {
    EditsKeep(rules, link, edits, authority);
    if edits != [] {
      if Missing(At(edits[0], "if_version")) {
        var ask := Request(None, ViewOf(At(edits[0], "number")));
        ViewReadsOnly(rules, At(edits[0], "number"));
        ReadIsQuiet(rules, link, ask, authority);
        SendKeeps(rules, link, ask, authority);
        var read := Send(rules, link, ask, authority).0;
        EditsAreQuiet(rules, read, edits[1..], authority);
        AddedBoth(link, read, FillEdits(rules, read, edits[1..], authority).0);
      } else {
        EditsAreQuiet(rules, link, edits[1..], authority);
      }
    }
  }

  lemma FillIsQuiet(rules: Rules, link: Link, operation: Value, authority: bool)
    requires Inv(link.backend)
    ensures var after := Fill(rules, link, operation, authority).0;
            Later(link, after) && Quiet(rules, Added(link, after))
  {
    FillKeeps(rules, link, operation, authority);
    if Is(operation, "action", Name(Batch)) && !Matching(operation) && At(operation, "edits").List? {
      EditsAreQuiet(rules, link, At(operation, "edits").items, authority);
    } else {
      SnapshotReadsOnly(rules, operation);
      ReadIsQuiet(rules, link, Request(None, SnapshotRead(operation)), authority);
    }
  }

  lemma RecordedTrace(rules: Rules, link: Link, id: string, operation: Value, authority: bool)
    requires Inv(link.backend) && id in link.backend.receipts
    requires Writes(rules, operation) && Action(operation) != RequestStatus
    ensures var after := Send(rules, link, Request(Some(id), operation), authority).0;
            && Later(link, after) && |Added(link, after)| == 1
            && Added(link, after)[0].request == Request(Some(id), operation) && !Added(link, after)[0].applied
  {
    RecordedAnswers(rules, link, id, operation, authority);
  }

  lemma ResubmitTrace(rules: Rules, link: Link, receipt: Value, request: Request, template: Value, supervisor: bool, s: bool)
    requires Inv(link.backend) && NeedsSnapshot(template, s) && request.id.Some?
    requires Is(receipt, "state", Text("recorded")) ==>
               request.id.value in link.backend.receipts
               && At(receipt, "operation") == link.backend.receipts[request.id.value].payload
    ensures var (after, r) := Resubmit(rules, link, receipt, request, template, supervisor);
            && Later(link, after) && |Added(link, after)| <= 1
            && (Added(link, after) != [] ==>
                  && Is(receipt, "state", Text("recorded")) && r != Success(None)
                  && !Added(link, after)[0].applied
                  && Added(link, after)[0].request == Request(request.id, Restored(At(receipt, "operation"), template)))
  {
    ResubmitKeeps(rules, link, receipt, request, template, supervisor);
    if Resubmits(rules, receipt, template) {
      var saved := At(receipt, "operation");
      ComparisonIsExact(saved, Payload(rules, template).value, template);
      RestoredKind(rules, saved, template, s);
      RecordedTrace(rules, link, request.id.value, Restored(saved, template), supervisor);
    }
    ResubmitForms(rules, link, receipt, request, template, supervisor);
  }

  /** Whether a receipt is resubmitted rather than refused. */
  predicate Resubmits(rules: Rules, receipt: Value, template: Value) {
    var saved := At(receipt, "operation");
    && Is(receipt, "state", Text("recorded")) && Payload(rules, template).Some?
    && LogicalCommand(saved, template) == LogicalCommand(Payload(rules, template).value, template)
    && rules.typed(Restored(saved, template))
  }

  lemma ResubmitForms(rules: Rules, link: Link, receipt: Value, request: Request, template: Value, supervisor: bool)
    ensures var (after, r) := Resubmit(rules, link, receipt, request, template, supervisor);
            if Resubmits(rules, receipt, template) then
              r != Success(None)
              && after == Send(rules, link, Request(request.id, Restored(At(receipt, "operation"), template)), supervisor).0
            else after == link
  {
  }

  lemma LookupMade(rules: Rules, id: string, template: Value, question: seq<Exchange>, again: seq<Exchange>)
    requires |question| == 1 && question[0].request == Request(None, StatusOf(id)) && Quiet(rules, question)
    requires |again| <= 1
    requires again != [] ==>
               && Is(Shown(question[0]), "state", Text("recorded")) && !again[0].applied
               && again[0].request == Request(Some(id), Restored(At(Shown(question[0]), "operation"), template))
    ensures Lookup(rules, Some(id), template, question + again)
  {
    assert (question + again)[..1] == question;
  }

  lemma ReplayTrace(rules: Rules, link: Link, request: Request, template: Value, authority: bool, supervisor: bool, s: bool)
    requires Inv(link.backend) && NeedsSnapshot(template, s)
    ensures var (after, r) := Replay(rules, link, request, template, authority, supervisor);
            && Later(link, after) && Lookup(rules, request.id, template, Added(link, after))
            && (|Added(link, after)| == 2 ==> r != Success(None))
  {
    ReplayKeeps(rules, link, request, template, authority, supervisor);
    if request.id.Some? {
      var id := request.id.value;
      var priority := authority || Is(template, "action", Name(Artifact));
      var ask := Request(None, StatusOf(id));
      StatusReadsOnly(rules, id);
      ReadIsQuiet(rules, link, ask, priority);
      StatusAnswer(rules, link, id, priority);
      var (asked, status) := Send(rules, link, ask, priority);
      if status.Success? {
        StatusParts(asked.backend, id);
        ResubmitTrace(rules, asked, At(status.value, "request"), request, template, supervisor, s);
        var after := Resubmit(rules, asked, At(status.value, "request"), request, template, supervisor).0;
        LookupMade(rules, id, template, Added(link, asked), Added(asked, after));
        AddedBoth(link, asked, after);
      } else {
        LookupMade(rules, id, template, Added(link, asked), []);
        assert Added(link, asked) + [] == Added(link, asked);
      }
    }
  }

  /** A request that mutates the store leaves its effect there. */
  lemma SentTrace(rules: Rules, link: Link, request: Request, authority: bool)
    requires Inv(link.backend)
    ensures var (after, reply) := Send(rules, link, request, authority);
            && Later(link, after) && |Added(link, after)| == 1
            && var e := Added(link, after)[0];
               && e.request == request && e.reply == reply
               && (reply == Failure("conflict") ==> !e.applied) && (e.applied ==> Landed(rules, link.backend, after.backend, e))
  {
    SendKeeps(rules, link, request, authority);
    var before := SendRuns(rules, link, request, authority);
  }

  lemma WriteTrace(rules: Rules, link: Link, id: Option<string>, request: Request, template: Value, authority: bool,
                   supervisor: bool) returns (write: seq<Exchange>, replay: seq<Exchange>)
    requires Inv(link.backend) && NeedsSnapshot(template, supervisor)
    requires CommandRequest(rules, id, template, supervisor, request)
    ensures var after := Write(rules, link, request, template, authority, supervisor).0;
            && Later(link, after) && Added(link, after) == write + replay
            && OneWrite(rules, id, template, supervisor, link.backend, after.backend, write, replay)
  {
    WriteForms(rules, link, request, template, authority, supervisor);
    SentTrace(rules, link, request, supervisor);
    var (wrote, result) := Send(rules, link, request, supervisor);
    if result == Failure("conflict") {
      ReplayTrace(rules, wrote, request, template, authority, supervisor, supervisor);
      var looked := Replay(rules, wrote, request, template, authority, supervisor).0;
      write, replay := Added(link, wrote), Added(wrote, looked);
      LaterThen(link, wrote, looked);
      AddedBoth(link, wrote, looked);
    } else {
      write, replay := Added(link, wrote), [];
      assert write + replay == write;
    }
  }

  /** The same, seen from before the snapshot. */
  lemma WriteLater(rules: Rules, looked: Link, read: Link, id: Option<string>, request: Request, template: Value,
                   authority: bool, supervisor: bool) returns (write: seq<Exchange>, replay: seq<Exchange>)
    requires Later(looked, read) && NeedsSnapshot(template, supervisor)
    requires CommandRequest(rules, id, template, supervisor, request)
    ensures var after := Write(rules, read, request, template, authority, supervisor).0;
            && Later(looked, after) && Added(looked, after) == Added(looked, read) + write + replay
            && OneWrite(rules, id, template, supervisor, looked.backend, after.backend, write, replay)
  {
    write, replay := WriteTrace(rules, read, id, request, template, authority, supervisor);
    var after := Write(rules, read, request, template, authority, supervisor).0;
    WriteSince(rules, id, template, supervisor, looked.backend, read.backend, after.backend, write, replay);
    Together(looked, read, after, write, replay);
  }

  /** Filling in gives the command's own request. */
  lemma FilledRequest(rules: Rules, looked: Link, id: Option<string>, template: Value, supervisor: bool, authority: bool)
    requires NeedsSnapshot(template, supervisor) && Fill(rules, looked, template, authority).1.Success?
    ensures var filled := Fill(rules, looked, template, authority).1.value;
            CommandRequest(rules, id, template, supervisor, Keyed(rules, Request(id, filled), supervisor))
  {
    FilledIsOfCommand(rules, looked, template, supervisor, authority);
  }

  /** After the lookup found nothing: the snapshot and the write. */
  lemma SnapshotAndWrite(rules: Rules, looked: Link, id: Option<string>, template: Value, supervisor: bool)
    returns (snapshot: seq<Exchange>, write: seq<Exchange>, replay: seq<Exchange>)
    requires Inv(looked.backend) && NeedsSnapshot(template, supervisor)
    ensures var after := Proceed(rules, looked, id, template, supervisor);
            && Later(looked, after) && Added(looked, after) == snapshot + write + replay
            && Quiet(rules, snapshot)
            && OneWrite(rules, id, template, supervisor, looked.backend, after.backend, write, replay)
  {
    var authority := Authority(template, supervisor);
    FillIsQuiet(rules, looked, template, authority);
    var (read, filled) := Fill(rules, looked, template, authority);
    snapshot := Added(looked, read);
    write, replay := WriteIfFilled(rules, looked, read, id, filled, template, supervisor);
  }

  /** The write of what was filled in, or nothing. */
  function Written(rules: Rules, read: Link, id: Option<string>, filled: Result<Value>, template: Value, supervisor: bool): Link {
    if filled.Success? && rules.typed(filled.value) then
      Write(rules, read, Keyed(rules, Request(id, filled.value), supervisor), template, Authority(template, supervisor), supervisor).0
    else read
  }

  lemma WriteIfFilled(rules: Rules, looked: Link, read: Link, id: Option<string>, filled: Result<Value>, template: Value,
                      supervisor: bool) returns (write: seq<Exchange>, replay: seq<Exchange>)
    requires Later(looked, read) && NeedsSnapshot(template, supervisor)
    requires Fill(rules, looked, template, Authority(template, supervisor)) == (read, filled)
    ensures var after := Written(rules, read, id, filled, template, supervisor);
            && Later(looked, after) && Added(looked, after) == Added(looked, read) + write + replay
            && OneWrite(rules, id, template, supervisor, looked.backend, after.backend, write, replay)
  {
    var authority := Authority(template, supervisor);
    write, replay := [], [];
    if filled.Success? && rules.typed(filled.value) {
      var request := Keyed(rules, Request(id, filled.value), supervisor);
      FilledRequest(rules, looked, id, template, supervisor, authority);
      write, replay := WriteLater(rules, looked, read, id, request, template, authority, supervisor);
    }
  }

  lemma WriteSince(rules: Rules, id: Option<string>, template: Value, supervisor: bool, before: Backend, read: Backend,
                   after: Backend, write: seq<Exchange>, replay: seq<Exchange>)
    requires OneWrite(rules, id, template, supervisor, read, after, write, replay) && Grows(before, read)
    ensures OneWrite(rules, id, template, supervisor, before, after, write, replay)
  {
    if write != [] && write[0].applied {
      LandedBetween(rules, before, read, after, after, write[0]);
    }
  }

  lemma Together(a: Link, b: Link, c: Link, write: seq<Exchange>, replay: seq<Exchange>)
    requires Later(a, b) && Later(b, c) && Added(b, c) == write + replay
    ensures Later(a, c) && Added(a, c) == Added(a, b) + write + replay
  {
    LaterThen(a, b, c);
    AddedBoth(a, b, c);
    assert Added(a, b) + (write + replay) == Added(a, b) + write + replay;
  }

  /** Where an automatic command gets to when its lookup found nothing. */
  function Proceed(rules: Rules, looked: Link, id: Option<string>, template: Value, supervisor: bool): Link {
    var (read, filled) := Fill(rules, looked, template, Authority(template, supervisor));
    Written(rules, read, id, filled, template, supervisor)
  }

  lemma Stages(rules: Rules, link: Link, id: Option<string>, template: Value, supervisor: bool)
    ensures var (looked, early) := Replay(rules, link, Request(id, template), template, Authority(template, supervisor), supervisor);
            Automatically(rules, link, id, template, supervisor).0
            == if early == Success(None) then Proceed(rules, looked, id, template, supervisor) else looked
  {
  }

  /** A failed guard is never refreshed. Whatever the transport and the other clients do, an automatic command
      looks for a receipt, reads one snapshot, writes the command at most once under its request ID, and after a
      conflict does nothing but look for a receipt again and resubmit exactly what it shows, which mutates
      nothing. */
  lemma FailedGuardIsNotRefreshed(rules: Rules, b: Backend, turns: seq<Turn>, id: Option<string>, template: Value,
                                  supervisor: bool)
    requires Inv(b) && NeedsSnapshot(template, supervisor)
    ensures var after := Automatically(rules, Link(b, turns, []), id, template, supervisor).0;
            exists lookup, snapshot, write, replay ::
              Sequence(rules, id, template, supervisor, b, after, lookup, snapshot, write, replay)
  {
    var lookup, snapshot, write, replay := Traced(rules, b, turns, id, template, supervisor);
  }

  lemma Traced(rules: Rules, b: Backend, turns: seq<Turn>, id: Option<string>, template: Value, supervisor: bool)
    returns (lookup: seq<Exchange>, snapshot: seq<Exchange>, write: seq<Exchange>, replay: seq<Exchange>)
    requires Inv(b) && NeedsSnapshot(template, supervisor)
    ensures var after := Automatically(rules, Link(b, turns, []), id, template, supervisor).0;
            Sequence(rules, id, template, supervisor, b, after, lookup, snapshot, write, replay)
  {
    var link := Link(b, turns, []);
    var authority := Authority(template, supervisor);
    var looked, early := LookedUp(rules, link, id, template, authority, supervisor);
    Stages(rules, link, id, template, supervisor);
    lookup := looked.trace;
    if early == Success(None) {
      snapshot, write, replay := AfterLookup(rules, b, looked, id, template, supervisor);
    } else {
      snapshot, write, replay := [], [], [];
      SequenceMade(rules, id, template, supervisor, b, lookup, looked, [], [], []);
    }
  }

  /** The lookup at the start of a command. */
  lemma LookedUp(rules: Rules, link: Link, id: Option<string>, template: Value, authority: bool, supervisor: bool)
    returns (looked: Link, early: Result<Option<Value>>)
    requires Inv(link.backend) && NeedsSnapshot(template, supervisor) && link.trace == []
    ensures (looked, early) == Replay(rules, link, Request(id, template), template, authority, supervisor)
    ensures Inv(looked.backend) && Grows(link.backend, looked.backend) && Lookup(rules, id, template, looked.trace)
    ensures |looked.trace| == 2 ==> early != Success(None)
  {
    ReplayTrace(rules, link, Request(id, template), template, authority, supervisor, supervisor);
    var replayed := Replay(rules, link, Request(id, template), template, authority, supervisor);
    looked, early := replayed.0, replayed.1;
    assert Added(link, looked) == looked.trace;
  }

  lemma AfterLookup(rules: Rules, b: Backend, looked: Link, id: Option<string>, template: Value, supervisor: bool)
    returns (snapshot: seq<Exchange>, write: seq<Exchange>, replay: seq<Exchange>)
    requires Inv(looked.backend) && Grows(b, looked.backend) && NeedsSnapshot(template, supervisor)
    requires Lookup(rules, id, template, looked.trace) && |looked.trace| != 2
    ensures var after := Proceed(rules, looked, id, template, supervisor);
            Sequence(rules, id, template, supervisor, b, after, looked.trace, snapshot, write, replay)
  {
    snapshot, write, replay := SnapshotAndWrite(rules, looked, id, template, supervisor);
    var after := Proceed(rules, looked, id, template, supervisor);
    WriteSince(rules, id, template, supervisor, b, looked.backend, after.backend, write, replay);
    SequenceMade(rules, id, template, supervisor, b, looked.trace, after, snapshot, write, replay);
  }

  lemma SequenceMade(rules: Rules, id: Option<string>, template: Value, supervisor: bool, b: Backend, lookup: seq<Exchange>,
                     after: Link, snapshot: seq<Exchange>, write: seq<Exchange>, replay: seq<Exchange>)
    requires Lookup(rules, id, template, lookup) && (|lookup| == 2 ==> after.trace == lookup)
    requires lookup <= after.trace && after.trace[|lookup|..] == snapshot + write + replay
    requires Quiet(rules, snapshot) && OneWrite(rules, id, template, supervisor, b, after.backend, write, replay)
    ensures Sequence(rules, id, template, supervisor, b, after, lookup, snapshot, write, replay)
  {
    Pieces(after.trace, lookup, snapshot, write, replay);
  }

  lemma Pieces(trace: seq<Exchange>, a: seq<Exchange>, b: seq<Exchange>, c: seq<Exchange>, d: seq<Exchange>)
    requires a <= trace && trace[|a|..] == b + c + d
    ensures trace == a + b + c + d
  {
    assert trace == a + trace[|a|..];
  }

  // ---- the exchanges that mutate

  function Applied(trace: seq<Exchange>): (r: seq<Exchange>)
    ensures forall e <- r :: e in trace && e.applied
    ensures |r| <= |trace|
  {
    if trace == [] then [] else (if trace[0].applied then [trace[0]] else []) + Applied(trace[1..])
  }

  lemma AppliedFirst(e: Exchange, rest: seq<Exchange>)
    ensures Applied([e] + rest) == (if e.applied then [e] else []) + Applied(rest)
  {
    assert ([e] + rest)[1..] == rest;
  }

  lemma {:induction false} AppliedBoth(a: seq<Exchange>, b: seq<Exchange>)
    ensures Applied(a + b) == Applied(a) + Applied(b)
    decreases |a|
  {
    if a == [] {
      assert a + b == b;
    } else {
      AppliedBoth(a[1..], b);
      assert a + b == [a[0]] + (a[1..] + b);
      AppliedFirst(a[0], a[1..] + b);
      AppliedFirst(a[0], a[1..]);
      assert a == [a[0]] + a[1..];
    }
  }

  lemma NoneApplied(trace: seq<Exchange>)
    requires forall e <- trace :: !e.applied
    ensures Applied(trace) == []
  {
    if Applied(trace) != [] {
      assert Applied(trace)[0] in Applied(trace);
    }
  }

  lemma LookupMutatesNothing(rules: Rules, id: Option<string>, template: Value, exchanges: seq<Exchange>)
    requires Lookup(rules, id, template, exchanges)
    ensures Applied(exchanges) == []
  {
    if exchanges != [] {
      assert exchanges[..1][0] == exchanges[0];
      assert !exchanges[..1][0].applied;
    }
    NoneApplied(exchanges);
  }

  lemma OnlyTheWrite(rules: Rules, id: Option<string>, template: Value, supervisor: bool, b: Backend, after: Link,
                     lookup: seq<Exchange>, snapshot: seq<Exchange>, write: seq<Exchange>, replay: seq<Exchange>)
    requires Sequence(rules, id, template, supervisor, b, after, lookup, snapshot, write, replay)
    ensures Applied(after.trace) == Applied(write)
  {
    LookupMutatesNothing(rules, id, template, lookup);
    NoneApplied(snapshot);
    if replay != [] {
      LookupMutatesNothing(rules, write[0].request.id, template, replay);
    }
    AppliedBoth(lookup + snapshot + write, replay);
    AppliedBoth(lookup + snapshot, write);
    AppliedBoth(lookup, snapshot);
  }

  /** So a command mutates the store at most once, under its own request ID and with its own payload, and not at
      all when its ID is already on record. */
  lemma AppliedAtMostOnce(rules: Rules, b: Backend, turns: seq<Turn>, id: Option<string>, template: Value, supervisor: bool)
    requires Inv(b) && NeedsSnapshot(template, supervisor)
    ensures var after := Automatically(rules, Link(b, turns, []), id, template, supervisor).0;
            && |Applied(after.trace)| <= 1
            && (id.Some? && id.value in b.receipts ==> Applied(after.trace) == [])
            && forall e <- Applied(after.trace) :: CommandWrite(rules, id, template, supervisor, b, after.backend, e)
  {
    var lookup, snapshot, write, replay := Traced(rules, b, turns, id, template, supervisor);
    var after := Automatically(rules, Link(b, turns, []), id, template, supervisor).0;
    OnlyTheWrite(rules, id, template, supervisor, b, after, lookup, snapshot, write, replay);
    if id.Some? && id.value in b.receipts {
      RecordedIsOnlyLookedUp(rules, b, turns, id.value, template, supervisor);
    }
  }

  /** An ID on record ends the command with its lookup. */
  lemma RecordedIsOnlyLookedUp(rules: Rules, b: Backend, turns: seq<Turn>, id: string, template: Value, supervisor: bool)
    requires Inv(b) && NeedsSnapshot(template, supervisor) && id in b.receipts
    ensures var trace := Automatically(rules, Link(b, turns, []), Some(id), template, supervisor).0.trace;
            Lookup(rules, Some(id), template, trace) && Applied(trace) == []
  {
    var link, request := Link(b, turns, []), Request(Some(id), template);
    var authority := Authority(template, supervisor);
    ReplayAnswers(rules, link, request, template, authority, supervisor, supervisor);
    ReplayTrace(rules, link, request, template, authority, supervisor, supervisor);
    Stages(rules, link, Some(id), template, supervisor);
    var looked := Replay(rules, link, request, template, authority, supervisor).0;
    assert Added(link, looked) == looked.trace;
    LookupMutatesNothing(rules, Some(id), template, looked.trace);
  }
}
