/** One logical command, one effect: what holds over any number of prepared requests, whatever the transport
    loses and whatever other clients do in between. */
module GuardedSafety {
  import opened Wrappers
  import opened GuardedCommand
  import opened GuardedReplay
  import opened GuardedRequest

  // ---- the store

  /** A request ID has one effect exactly when it has a receipt, and the receipt is of that effect. */
  ghost predicate Inv(b: Backend) {
    && (forall i, j :: 0 <= i < j < |b.effects| && b.effects[i].id.Some? ==> b.effects[i].id != b.effects[j].id)
    && (forall e <- b.effects :: e.id.Some? ==> Kept(b.receipts, e))
    && (forall id <- b.receipts :: exists e <- b.effects :: e.id == Some(id))
  }

  predicate Kept(receipts: map<string, Receipt>, e: Effect)
    requires e.id.Some?
  {
    e.id.value in receipts && receipts[e.id.value].payload == e.payload
  }

  /** Receipts and effects are never taken back. */
  ghost predicate Grows(b: Backend, c: Backend) {
    && b.effects <= c.effects
    && forall id <- b.receipts :: id in c.receipts && c.receipts[id] == b.receipts[id]
  }

  lemma EffectKeeps(b: Backend, c: Backend, e: Effect)
    requires Inv(b) && c.effects == b.effects + [e]
    requires e.id.Some? ==> e.id.value !in b.receipts && c.receipts.Keys == b.receipts.Keys + {e.id.value} && Kept(c.receipts, e)
    requires e.id.None? ==> c.receipts == b.receipts
    requires forall id <- b.receipts :: c.receipts[id] == b.receipts[id]
    ensures Inv(c) && Grows(b, c)
  {
    forall id <- c.receipts ensures exists e' <- c.effects :: e'.id == Some(id) {
      if id in b.receipts {
        var e' :| e' in b.effects && e'.id == Some(id);
        assert e' in c.effects;
      } else {
        assert e in c.effects;
      }
    }
  }

  lemma ExecuteKeeps(rules: Rules, b: Backend, request: Request)
    requires Inv(b)
    ensures Inv(Execute(rules, b, request).0) && Grows(b, Execute(rules, b, request).0)
  {
    var c := Execute(rules, b, request).0;
    if c != b {
      EffectKeeps(b, c, Effect(request.id, Payload(rules, request.operation).value));
    }
  }

  lemma {:induction false} OthersKeep(rules: Rules, b: Backend, requests: seq<Request>)
    requires Inv(b)
    ensures Inv(ExecuteAll(rules, b, requests)) && Grows(b, ExecuteAll(rules, b, requests))
    decreases |requests|
  {
    if requests != [] {
      ExecuteKeeps(rules, b, requests[0]);
      OthersKeep(rules, Execute(rules, b, requests[0]).0, requests[1..]);
    }
  }

  /** What every exchange keeps. */
  ghost predicate Later(l: Link, m: Link) {
    Inv(m.backend) && Grows(l.backend, m.backend) && l.trace <= m.trace
  }

  lemma GrowsThen(b: Backend, c: Backend, d: Backend)
    requires Grows(b, c) && Grows(c, d)
    ensures Grows(b, d)
  {
  }

  lemma DeliverKeeps(rules: Rules, b: Backend, fate: Fate, request: Request)
    requires Inv(b)
    ensures Inv(Deliver(rules, b, fate, request).0) && Grows(b, Deliver(rules, b, fate, request).0)
  {
    ExecuteKeeps(rules, b, request);
  }

  lemma SendKeeps(rules: Rules, link: Link, request: Request, authority: bool)
    requires Inv(link.backend)
    ensures Later(link, Send(rules, link, request, authority).0)
  {
    var turn := if link.turns == [] then Turn([], Unreachable) else link.turns[0];
    var before := ExecuteAll(rules, link.backend, turn.others);
    OthersKeep(rules, link.backend, turn.others);
    DeliverKeeps(rules, before, turn.fate, request);
    GrowsThen(link.backend, before, Deliver(rules, before, turn.fate, request).0);
  }

  lemma LaterThen(l: Link, m: Link, n: Link)
    requires Later(l, m) && Later(m, n)
    ensures Later(l, n)
  {
  }

  lemma ReplayKeeps(rules: Rules, link: Link, request: Request, operation: Value, authority: bool, supervisor: bool)
    requires Inv(link.backend)
    ensures Later(link, Replay(rules, link, request, operation, authority, supervisor).0)
  {
    if request.id.Some? {
      var ask := Request(None, StatusOf(request.id.value));
      var priority := authority || Is(operation, "action", Name(Artifact));
      SendKeeps(rules, link, ask, priority);
      var (asked, status) := Send(rules, link, ask, priority);
      if status.Success? {
        ResubmitKeeps(rules, asked, At(status.value, "request"), request, operation, supervisor);
        LaterThen(link, asked, Replay(rules, link, request, operation, authority, supervisor).0);
      }
    }
  }

  lemma ResubmitKeeps(rules: Rules, link: Link, receipt: Value, request: Request, operation: Value, supervisor: bool)
    requires Inv(link.backend)
    ensures Later(link, Resubmit(rules, link, receipt, request, operation, supervisor).0)
  {
    var again := Request(request.id, Restored(At(receipt, "operation"), operation));
    SendKeeps(rules, link, again, supervisor);
    assert Resubmit(rules, link, receipt, request, operation, supervisor).0
           in {link, Send(rules, link, again, supervisor).0};
  }

  lemma {:induction false} EditsKeep(rules: Rules, link: Link, edits: seq<Value>, authority: bool)
    requires Inv(link.backend)
    ensures Later(link, FillEdits(rules, link, edits, authority).0)
    decreases |edits|
  {
    if edits != [] {
      if Missing(At(edits[0], "if_version")) {
        var ask := Request(None, ViewOf(At(edits[0], "number")));
        SendKeeps(rules, link, ask, authority);
        EditsKeep(rules, Send(rules, link, ask, authority).0, edits[1..], authority);
      } else {
        EditsKeep(rules, link, edits[1..], authority);
      }
    }
  }

  lemma FillKeeps(rules: Rules, link: Link, operation: Value, authority: bool)
    requires Inv(link.backend)
    ensures Later(link, Fill(rules, link, operation, authority).0)
  {
    if Is(operation, "action", Name(Batch)) && !Matching(operation) && At(operation, "edits").List? {
      EditsKeep(rules, link, At(operation, "edits").items, authority);
    } else {
      SendKeeps(rules, link, Request(None, SnapshotRead(operation)), authority);
    }
  }

  lemma WriteKeeps(rules: Rules, link: Link, request: Request, template: Value, authority: bool, supervisor: bool)
    requires Inv(link.backend)
    ensures Later(link, Write(rules, link, request, template, authority, supervisor).0)
  {
    SendKeeps(rules, link, request, supervisor);
    var wrote := Send(rules, link, request, supervisor).0;
    ReplayKeeps(rules, wrote, request, template, authority, supervisor);
    var looked := Replay(rules, wrote, request, template, authority, supervisor).0;
    LaterThen(link, wrote, looked);
    assert Write(rules, link, request, template, authority, supervisor).0 in {wrote, looked};
  }

  lemma AutomaticallyKeeps(rules: Rules, link: Link, id: Option<string>, template: Value, supervisor: bool)
    requires Inv(link.backend)
    ensures Later(link, Automatically(rules, link, id, template, supervisor).0)
  {
    var authority := Authority(template, supervisor);
    ReplayKeeps(rules, link, Request(id, template), template, authority, supervisor);
    var (looked, early) := Replay(rules, link, Request(id, template), template, authority, supervisor);
    FillKeeps(rules, looked, template, authority);
    var (read, filled) := Fill(rules, looked, template, authority);
    LaterThen(link, looked, read);
    if filled.Success? {
      var sent := Keyed(rules, Request(id, filled.value), supervisor);
      WriteKeeps(rules, read, sent, template, authority, supervisor);
      var wrote := Write(rules, read, sent, template, authority, supervisor).0;
      LaterThen(link, read, wrote);
      assert Automatically(rules, link, id, template, supervisor).0 in {looked, read, wrote};
    } else {
      assert Automatically(rules, link, id, template, supervisor).0 in {looked, read};
    }
  }

  lemma PrepareKeeps(rules: Rules, link: Link, request: Request, supervisor: bool, nonce: string)
    requires Inv(link.backend)
    ensures Later(link, Prepare(rules, link, request, supervisor, nonce).0)
  {
    var operation := Reassigned(request.operation);
    var known := Identified(request, nonce).(operation := operation);
    SendKeeps(rules, link, request, supervisor);
    SendKeeps(rules, link, Keyed(rules, known, supervisor), supervisor);
    AutomaticallyKeeps(rules, link, known.id, Template(operation, supervisor), supervisor);
  }

  /** One call of a client: its command, and the turns its transport takes. */
  datatype Call = Call(request: Request, supervisor: bool, nonce: string, turns: seq<Turn>)

  function RunCalls(rules: Rules, b: Backend, calls: seq<Call>): Backend
    decreases |calls|
  {
    if calls == [] then b else
    var c := calls[0];
    RunCalls(rules, Prepare(rules, Link(b, c.turns, []), c.request, c.supervisor, c.nonce).0.backend, calls[1..])
  }

  const Empty := Backend(Null, map[], [])

  lemma {:induction false} RunKeeps(rules: Rules, b: Backend, calls: seq<Call>)
    requires Inv(b)
    ensures Inv(RunCalls(rules, b, calls)) && Grows(b, RunCalls(rules, b, calls))
    decreases |calls|
  {
    if calls != [] {
      var c := calls[0];
      PrepareKeeps(rules, Link(b, c.turns, []), c.request, c.supervisor, c.nonce);
      RunKeeps(rules, Prepare(rules, Link(b, c.turns, []), c.request, c.supervisor, c.nonce).0.backend, calls[1..]);
    }
  }

  /** The store's half: however many calls are prepared, retried, lost or raced, a request ID has at most one
      effect, and the receipt kept for it is of that effect. That a command's calls write under its ID is the
      client's half, in `GuardedTrace` and `GuardedRuns`. */
  lemma OneEffectPerRequest(rules: Rules, calls: seq<Call>)
    ensures var b := RunCalls(rules, Empty, calls);
            && (forall i, j :: 0 <= i < j < |b.effects| && b.effects[i].id.Some? ==> b.effects[i].id != b.effects[j].id)
            && (forall e <- b.effects :: e.id.Some? ==> Kept(b.receipts, e))
  {
    RunKeeps(rules, Empty, calls);
  }

  // ---- what a successful reply means

  /** The store as an exchange finds it, and what the exchange does there. */
  lemma SendRuns(rules: Rules, link: Link, request: Request, authority: bool) returns (before: Backend)
    requires Inv(link.backend)
    ensures Inv(before) && Grows(link.backend, before)
    ensures var (after, reply) := Send(rules, link, request, authority);
            && after.trace == link.trace + [Exchange(request, authority, reply, after.backend.effects != before.effects)]
            && (after.backend == before || after.backend == Execute(rules, before, request).0)
            && (reply.Success? || reply == Failure("conflict") ==> (after.backend, reply) == Execute(rules, before, request))
            && (link.turns != [] && link.turns[0].fate == Delivered ==>
                  (after.backend, reply) == Execute(rules, before, request) && after.turns == link.turns[1..])
  {
    var others := if link.turns == [] then [] else link.turns[0].others;
    before := ExecuteAll(rules, link.backend, others);
    OthersKeep(rules, link.backend, others);
  }

  lemma StatusAnswer(rules: Rules, link: Link, id: string, authority: bool)
    requires Inv(link.backend)
    ensures var (asked, status) := Send(rules, link, Request(None, StatusOf(id)), authority);
            && Later(link, asked)
            && (status.Success? ==> status == Success(StatusReply(asked.backend, id)))
            && (link.turns != [] && link.turns[0].fate == Delivered ==> status.Success? && asked.turns == link.turns[1..])
  {
    SendKeeps(rules, link, Request(None, StatusOf(id)), authority);
    var before := SendRuns(rules, link, Request(None, StatusOf(id)), authority);
  }

  lemma ExecuteRecorded(rules: Rules, b: Backend, id: string, operation: Value)
    requires id in b.receipts && Writes(rules, operation) && Action(operation) != RequestStatus
    ensures var (c, reply) := Execute(rules, b, Request(Some(id), operation));
            && c == b
            && (reply.Success? <==> Payload(rules, operation) == Some(b.receipts[id].payload))
            && (reply.Success? ==> reply.value == b.receipts[id].response)
  {
  }

  /** A recorded request is not executed again: its receipt answers, or nothing does. */
  lemma RecordedAnswers(rules: Rules, link: Link, id: string, operation: Value, authority: bool)
    requires Inv(link.backend) && id in link.backend.receipts
    requires Writes(rules, operation) && Action(operation) != RequestStatus
    ensures var (after, reply) := Send(rules, link, Request(Some(id), operation), authority);
            var receipt := link.backend.receipts[id];
            && Later(link, after) && id in after.backend.receipts && after.backend.receipts[id] == receipt
            && !after.trace[|after.trace| - 1].applied && |after.trace| == |link.trace| + 1
            && (reply.Success? ==> reply.value == receipt.response && Payload(rules, operation) == Some(receipt.payload))
            && (link.turns != [] && link.turns[0].fate == Delivered && Payload(rules, operation) == Some(receipt.payload)
                ==> reply == Success(receipt.response))
  {
    SendKeeps(rules, link, Request(Some(id), operation), authority);
    var before := SendRuns(rules, link, Request(Some(id), operation), authority);
    ExecuteRecorded(rules, before, id, operation);
  }

  /** The reply is the response kept for the request ID. */
  predicate Recorded(b: Backend, id: string, response: Value) {
    id in b.receipts && b.receipts[id].response == response
  }

  /** The receipt kept for the request ID is of the same command. */
  predicate Matches(rules: Rules, b: Backend, id: string, template: Value)
    requires id in b.receipts
  {
    Payload(rules, template).Some? && Same(b.receipts[id].payload, Payload(rules, template).value, template)
  }

  lemma StatusParts(b: Backend, id: string)
    ensures var receipt := At(StatusReply(b, id), "request");
            && (Is(receipt, "state", Text("recorded")) <==> id in b.receipts)
            && (id in b.receipts ==> At(receipt, "operation") == b.receipts[id].payload)
  {
  }

  lemma ResubmitAnswers(rules: Rules, link: Link, receipt: Value, request: Request, template: Value, supervisor: bool, s: bool)
    requires Inv(link.backend) && NeedsSnapshot(template, s) && request.id.Some?
    requires Is(receipt, "state", Text("recorded")) && request.id.value in link.backend.receipts
    requires At(receipt, "operation") == link.backend.receipts[request.id.value].payload
    ensures var id := request.id.value;
            var (after, r) := Resubmit(rules, link, receipt, request, template, supervisor);
            && r != Success(None)
            && (!Matches(rules, link.backend, id, template) ==> r.Failure?)
            && (r.Success? && r.value.Some? ==> Recorded(after.backend, id, r.value.value) && Matches(rules, after.backend, id, template))
  {
    var id := request.id.value;
    if Payload(rules, template).Some? {
      var saved := link.backend.receipts[id].payload;
      var wanted := Payload(rules, template).value;
      ComparisonIsExact(saved, wanted, template);
      if Same(saved, wanted, template) {
        RestoredKind(rules, saved, template, s);
        RecordedAnswers(rules, link, id, Restored(saved, template), supervisor);
      }
    }
  }

  lemma ReplayAnswers(rules: Rules, link: Link, request: Request, template: Value, authority: bool, supervisor: bool, s: bool)
    requires Inv(link.backend) && NeedsSnapshot(template, s) && request.id.Some?
    ensures var id := request.id.value;
            var (after, r) := Replay(rules, link, request, template, authority, supervisor);
            && Later(link, after)
            && (id in link.backend.receipts ==> r != Success(None))
            && (id in link.backend.receipts && !Matches(rules, link.backend, id, template) ==> r.Failure?)
            && (r.Success? && r.value.Some? ==> Recorded(after.backend, id, r.value.value) && Matches(rules, after.backend, id, template))
  {
    var id := request.id.value;
    var priority := authority || Is(template, "action", Name(Artifact));
    StatusAnswer(rules, link, id, priority);
    ReplayKeeps(rules, link, request, template, authority, supervisor);
    var (asked, status) := Send(rules, link, Request(None, StatusOf(id)), priority);
    if status.Success? {
      StatusParts(asked.backend, id);
      if id in asked.backend.receipts {
        ResubmitAnswers(rules, asked, At(status.value, "request"), request, template, supervisor, s);
      }
    }
  }

  /** A write that is answered with success is recorded with its own payload. */
  lemma SentAnswers(rules: Rules, link: Link, id: string, operation: Value, authority: bool)
    requires Inv(link.backend) && Writes(rules, operation) && Action(operation) != RequestStatus
    requires Send(rules, link, Request(Some(id), operation), authority).1.Success?
    ensures var (after, reply) := Send(rules, link, Request(Some(id), operation), authority);
            && Recorded(after.backend, id, reply.value)
            && Payload(rules, operation) == Some(after.backend.receipts[id].payload)
  {
    var before := SendRuns(rules, link, Request(Some(id), operation), authority);
    if id in before.receipts {
      ExecuteRecorded(rules, before, id, operation);
    }
  }

  /** What a successful automatic command leaves: its response is on record, and the record is of the same
      command or of the command just filled in. */
  predicate Answered(rules: Rules, b: Backend, id: string, template: Value, filled: Option<Value>, response: Value) {
    && Recorded(b, id, response)
    && (Matches(rules, b, id, template)
        || (filled.Some? && Payload(rules, filled.value) == Some(b.receipts[id].payload)))
  }

  lemma WriteForms(rules: Rules, link: Link, request: Request, template: Value, authority: bool, supervisor: bool)
    ensures var (wrote, result) := Send(rules, link, request, supervisor);
            Write(rules, link, request, template, authority, supervisor)
            == if result != Failure("conflict") then (wrote, result)
               else Settled(Replay(rules, wrote, request, template, authority, supervisor), result)
  {
  }

  lemma WriteAnswers(rules: Rules, link: Link, id: string, filled: Value, template: Value, authority: bool, supervisor: bool)
    requires Inv(link.backend) && NeedsSnapshot(template, supervisor)
    requires Writes(rules, filled) && Action(filled) != RequestStatus
    ensures var (after, r) := Write(rules, link, Request(Some(id), filled), template, authority, supervisor);
            r.Success? ==> Answered(rules, after.backend, id, template, Some(filled), r.value)
  {
    var request := Request(Some(id), filled);
    WriteForms(rules, link, request, template, authority, supervisor);
    SendKeeps(rules, link, request, supervisor);
    var (wrote, result) := Send(rules, link, request, supervisor);
    if result.Success? {
      SentAnswers(rules, link, id, filled, supervisor);
    }
    ReplayAnswers(rules, wrote, request, template, authority, supervisor, supervisor);
  }

  /** The operation that an automatic command would send after a given lookup. */
  function FilledBy(rules: Rules, link: Link, id: string, template: Value, supervisor: bool): Option<Value> {
    var authority := Authority(template, supervisor);
    var looked := Replay(rules, link, Request(Some(id), template), template, authority, supervisor).0;
    var filled := Fill(rules, looked, template, authority).1;
    if filled.Success? then Some(filled.value) else None
  }

  lemma AutomaticAnswers(rules: Rules, link: Link, id: string, template: Value, supervisor: bool)
    requires Inv(link.backend) && NeedsSnapshot(template, supervisor)
    ensures var (after, r) := Automatically(rules, link, Some(id), template, supervisor);
            r.Success? ==> Answered(rules, after.backend, id, template, FilledBy(rules, link, id, template, supervisor), r.value)
  {
    var authority := Authority(template, supervisor);
    var request := Request(Some(id), template);
    ReplayAnswers(rules, link, request, template, authority, supervisor, supervisor);
    var (looked, early) := Replay(rules, link, request, template, authority, supervisor);
    if early == Success(None) {
      FillKeeps(rules, looked, template, authority);
      var (read, filled) := Fill(rules, looked, template, authority);
      if filled.Success? {
        FilledKind(rules, looked, template, supervisor, authority);
        SnapshotWrites(rules, template, supervisor);
        WriteAnswers(rules, read, id, filled.value, template, authority, supervisor);
      }
    }
  }

  /** Success means recorded: the reply given for a request ID is the response the store keeps for it, and, for
      every command that names its guards, the receipt is of the same command outside automatic guards. */
  lemma SuccessIsRecorded(rules: Rules, link: Link, id: string, template: Value, supervisor: bool)
    requires Inv(link.backend) && NeedsSnapshot(template, supervisor)
    ensures var (after, r) := Automatically(rules, link, Some(id), template, supervisor);
            r.Success? ==> Recorded(after.backend, id, r.value) && (Named(template) ==> Matches(rules, after.backend, id, template))
  {
    AutomaticAnswers(rules, link, id, template, supervisor);
    var (after, r) := Automatically(rules, link, Some(id), template, supervisor);
    if r.Success? && !Matches(rules, after.backend, id, template) {
      var authority := Authority(template, supervisor);
      var looked := Replay(rules, link, Request(Some(id), template), template, authority, supervisor).0;
      FilledMatches(rules, looked, template, supervisor, authority);
    }
  }

  lemma FilledMatches(rules: Rules, link: Link, template: Value, supervisor: bool, authority: bool)
    requires NeedsSnapshot(template, supervisor) && Fill(rules, link, template, authority).1.Success?
    requires Payload(rules, Fill(rules, link, template, authority).1.value).Some?
    ensures Payload(rules, template).Some?
    ensures var filled := Fill(rules, link, template, authority).1.value;
            (Same(Payload(rules, filled).value, Payload(rules, template).value, template) <==> Named(template))
  {
    FilledKind(rules, link, template, supervisor, authority);
    ReceiptIsRecognized(rules, link, template, supervisor, authority);
    var filled := Fill(rules, link, template, authority).1.value;
    ComparisonIsExact(Payload(rules, filled).value, Payload(rules, template).value, template);
  }

  /** A request ID that is already recorded for another command is refused, whatever the transport does. */
  lemma DifferentCommandIsRefused(rules: Rules, link: Link, id: string, template: Value, supervisor: bool)
    requires Inv(link.backend) && NeedsSnapshot(template, supervisor)
    requires id in link.backend.receipts && !Matches(rules, link.backend, id, template)
    ensures Automatically(rules, link, Some(id), template, supervisor).1.Failure?
  {
    ReplayAnswers(rules, link, Request(Some(id), template), template, Authority(template, supervisor), supervisor, supervisor);
  }

  /** A command sent without filling anything in is recorded exactly as it is. */
  lemma PlainSuccessIsRecorded(rules: Rules, link: Link, id: string, operation: Value, supervisor: bool, nonce: string)
    requires Inv(link.backend) && Writes(rules, operation)
    requires !NeedsSnapshot(Template(Reassigned(operation), supervisor), supervisor)
    ensures var (after, r) := Prepare(rules, link, Request(Some(id), operation), supervisor, nonce);
            r.Success? ==> Recorded(after.backend, id, r.value)
                           && Payload(rules, Reassigned(operation)) == Some(after.backend.receipts[id].payload)
  {
    PlainPrepare(rules, link, id, operation, supervisor, nonce);
    ReassignedWrites(rules, operation);
    if Send(rules, link, Request(Some(id), Reassigned(operation)), supervisor).1.Success? {
      SentAnswers(rules, link, id, Reassigned(operation), supervisor);
    }
  }

  lemma ReassignedWrites(rules: Rules, operation: Value)
    requires Writes(rules, operation)
    ensures Writes(rules, Reassigned(operation)) && Action(Reassigned(operation)) != RequestStatus
  {
  }

  lemma PlainPrepare(rules: Rules, link: Link, id: string, operation: Value, supervisor: bool, nonce: string)
    requires Writes(rules, operation) && !NeedsSnapshot(Template(Reassigned(operation), supervisor), supervisor)
    ensures Prepare(rules, link, Request(Some(id), operation), supervisor, nonce)
         == if Refused(Reassigned(operation), supervisor) then (link, Failure("invalid"))
            else Send(rules, link, Request(Some(id), Reassigned(operation)), supervisor)
  {
  }

  /** For a whole command: success under a request ID always hands out the response that is on record for it. */
  lemma PreparedSuccessIsRecorded(rules: Rules, link: Link, id: string, operation: Value, supervisor: bool, nonce: string)
    requires Inv(link.backend) && Writes(rules, operation)
    ensures var (after, r) := Prepare(rules, link, Request(Some(id), operation), supervisor, nonce);
            r.Success? ==> Recorded(after.backend, id, r.value)
  {
    var template := Template(Reassigned(operation), supervisor);
    if NeedsSnapshot(template, supervisor) {
      SuccessIsRecorded(rules, link, id, template, supervisor);
    } else {
      PlainSuccessIsRecorded(rules, link, id, operation, supervisor, nonce);
    }
  }

  // ---- retries

  lemma ResubmitReplays(rules: Rules, link: Link, receipt: Value, id: string, template: Value, supervisor: bool,
                        filled: Value, same: bool)
    requires Inv(link.backend) && id in link.backend.receipts && Payload(rules, template).Some?
    requires Is(receipt, "state", Text("recorded")) && At(receipt, "operation") == link.backend.receipts[id].payload
    requires var saved := link.backend.receipts[id].payload;
             && Restored(saved, template) == filled && Payload(rules, filled) == Some(saved)
             && (LogicalCommand(saved, template) == LogicalCommand(Payload(rules, template).value, template)) == same
    requires rules.typed(filled) && Writes(rules, filled) && Action(filled) != RequestStatus
    requires link.turns != [] && link.turns[0].fate == Delivered
    ensures Resubmit(rules, link, receipt, Request(Some(id), template), template, supervisor).1
            == if same then Success(Some(link.backend.receipts[id].response)) else Failure("conflict")
  {
    RecordedAnswers(rules, link, id, filled, supervisor);
  }

  lemma LookupReplays(rules: Rules, link: Link, id: string, template: Value, authority: bool, supervisor: bool,
                      filled: Value, same: bool)
    requires Inv(link.backend) && id in link.backend.receipts && Payload(rules, template).Some?
    requires var saved := link.backend.receipts[id].payload;
             && Restored(saved, template) == filled && Payload(rules, filled) == Some(saved)
             && (LogicalCommand(saved, template) == LogicalCommand(Payload(rules, template).value, template)) == same
    requires rules.typed(filled) && Writes(rules, filled) && Action(filled) != RequestStatus
    requires |link.turns| >= 2 && link.turns[0].fate == Delivered && link.turns[1].fate == Delivered
    ensures Replay(rules, link, Request(Some(id), template), template, authority, supervisor).1
            == if same then Success(Some(link.backend.receipts[id].response)) else Failure("conflict")
  {
    var priority := authority || Is(template, "action", Name(Artifact));
    StatusAnswer(rules, link, id, priority);
    var asked := Send(rules, link, Request(None, StatusOf(id)), priority).0;
    assert asked.turns == link.turns[1..] && asked.backend.receipts[id] == link.backend.receipts[id];
    StatusParts(asked.backend, id);
    ResubmitReplays(rules, asked, At(StatusReply(asked.backend, id), "request"), id, template, supervisor, filled, same);
  }

  /** A lookup that fails or finds a receipt ends the command. */
  lemma EarlyEnd(rules: Rules, link: Link, id: string, template: Value, supervisor: bool)
    ensures var early := Replay(rules, link, Request(Some(id), template), template, Authority(template, supervisor), supervisor).1;
            var r := Automatically(rules, link, Some(id), template, supervisor).1;
            && (early.Failure? ==> r == Failure(early.error))
            && (early.Success? && early.value.Some? ==> r == Success(early.value.value))
  {
  }

  /** The payload that a filled command leaves, seen from the repeated command. */
  lemma FilledReceipt(rules: Rules, earlier: Link, template: Value, supervisor: bool, authority: bool)
    requires NeedsSnapshot(template, supervisor) && Fill(rules, earlier, template, authority).1.Success?
    requires Payload(rules, Fill(rules, earlier, template, authority).1.value).Some?
    ensures Payload(rules, template).Some?
    ensures var filled := Fill(rules, earlier, template, authority).1.value;
            var saved := Payload(rules, filled).value;
            && Restored(saved, template) == filled && Writes(rules, filled) && Action(filled) != RequestStatus
            && (LogicalCommand(saved, template) == LogicalCommand(Payload(rules, template).value, template)) == Named(template)
  {
    FilledKind(rules, earlier, template, supervisor, authority);
    ReceiptIsRecognized(rules, earlier, template, supervisor, authority);
    RestoredIsFilled(rules, earlier, template, supervisor, authority);
    SnapshotWrites(rules, template, supervisor);
  }

  /** Whether an earlier call filled the command in and had it recorded under the request ID. */
  ghost predicate RecordedEarlier(rules: Rules, b: Backend, id: string, template: Value, filled: Value) {
    && id in b.receipts && rules.typed(filled) && Payload(rules, filled) == Some(b.receipts[id].payload)
    && exists earlier, authority :: Fill(rules, earlier, template, authority).1 == Success(filled)
  }

  /** A retry after a lost acknowledgment: when the transport delivers its two exchanges, the recorded response
      is replayed if and only if the command names the guards that were filled in. Otherwise the retry is
      refused as a different command. Nothing is filled in again either way. */
  lemma RetryIsReplayed(rules: Rules, b: Backend, turns: seq<Turn>, id: string, template: Value, supervisor: bool, filled: Value)
    requires Inv(b) && NeedsSnapshot(template, supervisor) && RecordedEarlier(rules, b, id, template, filled)
    requires |turns| >= 2 && turns[0].fate == Delivered && turns[1].fate == Delivered
    ensures Automatically(rules, Link(b, turns, []), Some(id), template, supervisor).1
         == if Named(template) then Success(b.receipts[id].response) else Failure("conflict")
  {
    var earlier, earlierAuthority :| Fill(rules, earlier, template, earlierAuthority).1 == Success(filled);
    FilledReceipt(rules, earlier, template, supervisor, earlierAuthority);
    LookupReplays(rules, Link(b, turns, []), id, template, Authority(template, supervisor), supervisor, filled, Named(template));
    EarlyEnd(rules, Link(b, turns, []), id, template, supervisor);
  }
}
