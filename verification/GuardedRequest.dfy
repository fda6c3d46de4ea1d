/** Filling revision guards and replaying receipts, src/cli_request.rs, over a store that deduplicates by
    request ID and a transport that may lose requests and replies. */
module GuardedRequest {
  import opened Wrappers
  import opened GuardedCommand

  datatype Request = Request(id: Option<string>, operation: Value)

  /** What the store keeps for a request ID: the payload it accepted and the response it gave. */
  datatype Receipt = Receipt(payload: Value, response: Value)

  datatype Effect = Effect(id: Option<string>, payload: Value)

  /** The store: its data, its receipts, and the history of mutations applied to it. */
  datatype Backend = Backend(world: Value, receipts: map<string, Receipt>, effects: seq<Effect>)

  /** The parts of the program that are given: which operations with commands of their own write, which
      values are operations, what the store answers, refuses and does, and the functions behind digests. */
  datatype Rules = Rules(
    nested: Value -> bool,
    typed: Value -> bool,
    show: (Value, Value) -> Result<Value>,
    refuses: (Value, Value) -> Option<string>,
    apply: (Value, Value) -> Value,
    respond: (Value, Value) -> Value,
    decode: string -> Option<string>,
    digest: string -> string,
    key: Value -> string)

  predicate Writes(rules: Rules, operation: Value) {
    match Action(operation)
    case View | ListAll | RequestStatus => false
    case Reading(_) => false
    case Deciding(_) => rules.nested(operation)
    case Artifact =>
      var command := At(At(operation, "operation"), "command");
      command != Name(Preview) && command != Name(ListAll) && command != Name(View) && command != Name(Links)
    case _ => true
  }

  // ---- receipts

  predicate IsImport(operation: Value) {
    Is(operation, "action", Name(Artifact)) && Is(At(operation, "operation"), "command", Name(Import))
  }

  function Files(operation: Value): Value {
    At(At(operation, "operation"), "files")
  }

  function WithFiles(operation: Value, files: Value): Value {
    With(operation, "operation", With(At(operation, "operation"), "files", files))
  }

  function FilePayload(rules: Rules, file: Value): Option<Value> {
    if !file.Object? || !At(file, "data").Text? then None else
    match rules.decode(At(file, "data").text)
    case None => None
    case Some(bytes) => Some(Object((file.fields - {"data"})["sha256" := Text(rules.digest(bytes))]))
  }

  function FilePayloads(rules: Rules, files: seq<Value>): Option<seq<Value>> {
    if files == [] then Some([]) else
    match (FilePayload(rules, files[0]), FilePayloads(rules, files[1..]))
    case (Some(first), Some(more)) => Some([first] + more)
    case _ => None
  }

  /** What a receipt retains of an operation: uploaded bytes are replaced by their digests. */
  function Payload(rules: Rules, operation: Value): Option<Value> {
    if !IsImport(operation) then Some(operation)
    else if !Files(operation).List? then None
    else match FilePayloads(rules, Files(operation).items)
      case None => None
      case Some(files) => Some(WithFiles(operation, List(files)))
  }

  // ---- the store and the transport

  function StatusOf(id: string): Value {
    Object(map["action" := Name(RequestStatus), "id" := Text(id)])
  }

  function StatusReply(b: Backend, id: string): Value {
    Object(map["request" :=
      if id in b.receipts then Object(map["state" := Text("recorded"), "operation" := b.receipts[id].payload])
      else Object(map["state" := Text("not_recorded"), "operation" := Null])])
  }

  /** One request at the store: a read, the replay of a receipt, a refusal, or a mutation. */
  function Execute(rules: Rules, b: Backend, request: Request): (Backend, Result<Value>) {
    var operation := request.operation;
    if Action(operation) == RequestStatus && At(operation, "id").Text? then
      (b, Success(StatusReply(b, At(operation, "id").text)))
    else if !Writes(rules, operation) then (b, rules.show(b.world, operation))
    else match Payload(rules, operation)
      case None => (b, Failure("invalid"))
      case Some(payload) =>
        if request.id.Some? && request.id.value in b.receipts then
          var receipt := b.receipts[request.id.value];
          (b, if receipt.payload == payload then Success(receipt.response) else Failure("conflict"))
        else match rules.refuses(b.world, operation)
          case Some(code) => (b, Failure(code))
          case None =>
            var response := rules.respond(b.world, operation);
            (Backend(rules.apply(b.world, operation),
             if request.id.Some? then b.receipts[request.id.value := Receipt(payload, response)] else b.receipts,
             b.effects + [Effect(request.id, payload)]),
             Success(response))
  }

  function ExecuteAll(rules: Rules, b: Backend, requests: seq<Request>): Backend
    decreases |requests|
  {
    if requests == [] then b else ExecuteAll(rules, Execute(rules, b, requests[0]).0, requests[1..])
  }

  datatype Fate = Unreachable | ReplyLost | Delivered

  /** One turn of the transport: what other clients do first, and how the exchange goes. */
  datatype Turn = Turn(others: seq<Request>, fate: Fate)

  /** An exchange as it happened; `applied` tells whether it mutated the store. */
  datatype Exchange = Exchange(request: Request, authority: bool, reply: Result<Value>, applied: bool)

  /** The store behind a transport, the turns to come and the exchanges made. */
  datatype Link = Link(backend: Backend, turns: seq<Turn>, trace: seq<Exchange>)

  function Deliver(rules: Rules, b: Backend, fate: Fate, request: Request): (Backend, Result<Value>) {
    match fate
    case Unreachable => (b, Failure("offline"))
    case ReplyLost => (Execute(rules, b, request).0, Failure("acknowledgement lost"))
    case Delivered => Execute(rules, b, request)
  }

  function Send(rules: Rules, link: Link, request: Request, authority: bool): (Link, Result<Value>) {
    var turn := if link.turns == [] then Turn([], Unreachable) else link.turns[0];
    var turns := if link.turns == [] then [] else link.turns[1..];
    var before := ExecuteAll(rules, link.backend, turn.others);
    var (after, reply) := Deliver(rules, before, turn.fate, request);
    (Link(after, turns, link.trace + [Exchange(request, authority, reply, after.effects != before.effects)]), reply)
  }

  // ---- the client

  function Restored(saved: Value, operation: Value): Value {
    if IsImport(operation) then WithFiles(saved, Files(operation)) else saved
  }

  /** Replay of a recorded receipt; None when there is none. */
  function Replay(rules: Rules, link: Link, request: Request, operation: Value, authority: bool, supervisor: bool)
    : (Link, Result<Option<Value>>)
  {
    if request.id.None? then (link, Success(None)) else
    var (asked, status) := Send(rules, link, Request(None, StatusOf(request.id.value)),
                                authority || Is(operation, "action", Name(Artifact)));
    match status
    case Failure(e) => (asked, Failure(e))
    case Success(reply) => Resubmit(rules, asked, At(reply, "request"), request, operation, supervisor)
  }

  function Resubmit(rules: Rules, link: Link, receipt: Value, request: Request, operation: Value, supervisor: bool)
    : (Link, Result<Option<Value>>)
  {
    if !Is(receipt, "state", Text("recorded")) then (link, Success(None)) else
    var saved := At(receipt, "operation");
    match Payload(rules, operation)
    case None => (link, Failure("invalid"))
    case Some(wanted) =>
      if LogicalCommand(saved, operation) != LogicalCommand(wanted, operation) then (link, Failure("conflict"))
      else if !rules.typed(Restored(saved, operation)) then (link, Failure("invalid"))
      else
        var (answered, result) := Send(rules, link, Request(request.id, Restored(saved, operation)), supervisor);
        (answered, if result.Success? then Success(Some(result.value)) else Failure(result.error))
  }

  function ViewOf(number: Value): Value {
    Object(map["action" := Name(View), "number" := number])
  }

  function ArtifactView(id: Value): Value {
    Object(map["action" := Name(Artifact), "operation" := Object(map["command" := Name(View), "id" := id])])
  }

  const QUEUE_HEAD := Object(map["action" := Name(ListAll), "compact" := Bool(true), "state" := Text("open"),
                                 "mine" := Bool(false), "unassigned" := Bool(false), "assignee" := Null,
                                 "labels" := List([]), "search" := Null, "limit" := Number(1), "offset" := Number(0),
                                 "all" := Bool(false)])

  predicate Matching(operation: Value) {
    Is(operation, "action", Name(Batch)) && At(operation, "matching") != Null
  }

  /** The innermost artifact edit with its version filled in. */
  function WithArtifactVersion(v: Value, version: Value): Value {
    if Is(v, "command", Name(Import)) && v.Object? && "operation" in v.fields then
      With(v, "operation", WithArtifactVersion(v.fields["operation"], version))
    else With(v, "if_version", version)
  }

  /** The edits filled so far in front of what becomes of the others. */
  function After(filled: seq<Value>, rest: (Link, Result<seq<Value>>)): (Link, Result<seq<Value>>) {
    (rest.0, if rest.1.Success? then Success(filled + rest.1.value) else rest.1)
  }

  lemma AfterBoth(filled: seq<Value>, edit: Value, rest: (Link, Result<seq<Value>>))
    ensures After(filled, After([edit], rest)) == After(filled + [edit], rest)
    ensures After([], rest) == rest
  {
    if rest.1.Success? {
      assert filled + ([edit] + rest.1.value) == (filled + [edit]) + rest.1.value;
      assert [] + rest.1.value == rest.1.value;
    }
  }

  function FillEdits(rules: Rules, link: Link, edits: seq<Value>, authority: bool): (Link, Result<seq<Value>>)
    decreases |edits|
  {
    if edits == [] then (link, Success([]))
    else if !Missing(At(edits[0], "if_version")) then
      After([edits[0]], FillEdits(rules, link, edits[1..], authority))
    else
      var (read, reply) := Send(rules, link, Request(None, ViewOf(At(edits[0], "number"))), authority);
      match reply
      case Failure(e) => (read, Failure(e))
      case Success(current) =>
        After([With(edits[0], "if_version", At(At(current, "issue"), "version"))],
              FillEdits(rules, read, edits[1..], authority))
  }

  /** The operation that is read for a snapshot, when it is one read. */
  function SnapshotRead(operation: Value): Value {
    if Is(operation, "action", Name(Artifact)) then ArtifactView(At(Innermost(At(operation, "operation")), "id"))
    else if Matching(operation) then QUEUE_HEAD
    else ViewOf(At(operation, "number"))
  }

  /** The operation with the guard that the snapshot gives. */
  function Guarded(operation: Value, current: Value): Value {
    if Is(operation, "action", Name(Artifact)) then
      With(operation, "operation", WithArtifactVersion(At(operation, "operation"), At(At(current, "artifact"), "version")))
    else if Matching(operation) then With(operation, "if_order_version", At(current, "order_version"))
    else if Is(operation, "action", Name(Ready)) || Is(operation, "action", Name(Close)) then
      With(operation, "guard", At(current, "ready_guard"))
    else if Is(operation, "action", Name(Move)) then With(operation, "if_order_version", At(current, "order_version"))
    else With(operation, "if_version", At(At(current, "issue"), "version"))
  }

  /** The operation with its missing guards captured from the store. */
  function Fill(rules: Rules, link: Link, operation: Value, authority: bool): (Link, Result<Value>) {
    if Is(operation, "action", Name(Batch)) && !Matching(operation) && At(operation, "edits").List? then
      var (read, edits) := FillEdits(rules, link, At(operation, "edits").items, authority);
      (read, if edits.Success? then Success(With(operation, "edits", List(edits.value))) else Failure(edits.error))
    else
      var (read, reply) := Send(rules, link, Request(None, SnapshotRead(operation)), authority);
      (read, if reply.Success? then Success(Guarded(operation, reply.value)) else reply)
  }

  function Identified(request: Request, nonce: string): Request {
    if request.id.None? && Matching(request.operation) then request.(id := Some("matching-" + nonce)) else request
  }

  /** An ordinary unassign is an assignment to nobody, guarded like one. */
  function Reassigned(operation: Value): Value {
    if Is(operation, "action", Name(Unassign)) && At(operation, "force") == Bool(false) then
      Object(map["action" := Name(Assign), "number" := At(operation, "number"), "target" := Text("unassigned"),
                 "if_version" := Number(0)])
    else operation
  }

  predicate Refused(operation: Value, supervisor: bool) {
    supervisor && Is(operation, "action", Name(Close)) && At(operation, "force") == Bool(true)
  }

  function OrNull(v: Value, key: string): Value {
    if v.Object? && key !in v.fields then With(v, key, Null) else v
  }

  /** The command as a template, with the guards it leaves out as explicit nulls. */
  function Template(operation: Value, supervisor: bool): Value {
    if Is(operation, "action", Name(Ready)) || (supervisor && Is(operation, "action", Name(Close))) then OrNull(operation, "guard")
    else if Matching(operation) then OrNull(operation, "if_order_version")
    else operation
  }

  predicate Authority(operation: Value, supervisor: bool) {
    || supervisor
    || Action(operation) in {Assign, Ready, Move, Undraft}
    || Matching(operation)
    || (Is(operation, "action", Name(Edit)) && At(operation, "draft") == Bool(true))
  }

  /** Guarded writes get a request ID of their own when the caller gave none. */
  function Keyed(rules: Rules, request: Request, supervisor: bool): Request {
    var operation := request.operation;
    if request.id.None? && Writes(rules, operation)
       && (supervisor || (Is(operation, "action", Name(Ready)) && At(operation, "guard") != Null)
           || Action(operation) in {Batch, Move, Undraft})
    then request.(id := Some("cli-" + rules.key(operation)))
    else request
  }

  function Prepare(rules: Rules, link: Link, request: Request, supervisor: bool, nonce: string): (Link, Result<Value>) {
    if !Writes(rules, request.operation) then Send(rules, link, request, supervisor) else
    var operation := Reassigned(request.operation);
    var known := Identified(request, nonce).(operation := operation);
    if Refused(operation, supervisor) then (link, Failure("invalid")) else
    var template := Template(operation, supervisor);
    if NeedsSnapshot(template, supervisor) then Automatically(rules, link, known.id, template, supervisor)
    else Send(rules, link, Keyed(rules, known, supervisor), supervisor)
  }

  /** A command whose guards are filled in here. */
  function Automatically(rules: Rules, link: Link, id: Option<string>, template: Value, supervisor: bool)
    : (Link, Result<Value>)
  {
    var authority := Authority(template, supervisor);
    var (looked, early) := Replay(rules, link, Request(id, template), template, authority, supervisor);
    match early
    case Failure(e) => (looked, Failure(e))
    case Success(Some(saved)) => (looked, Success(saved))
    case Success(None) =>
      var (read, filled) := Fill(rules, looked, template, authority);
      match filled
      case Failure(e) => (read, Failure(e))
      case Success(operation) =>
        if !rules.typed(operation) then (read, Failure("invalid"))
        else Write(rules, read, Keyed(rules, Request(id, operation), supervisor), template, authority, supervisor)
  }

  /** The guarded write. After a conflict only a proven receipt is replayed. */
  function Write(rules: Rules, link: Link, request: Request, template: Value, authority: bool, supervisor: bool)
    : (Link, Result<Value>)
  {
    var (wrote, result) := Send(rules, link, request, supervisor);
    if result != Failure("conflict") then (wrote, result)
    else Settled(Replay(rules, wrote, request, template, authority, supervisor), result)
  }

  /** A conflict stands unless a receipt answers. */
  function Settled(replayed: (Link, Result<Option<Value>>), conflict: Result<Value>): (Link, Result<Value>) {
    match replayed.1
    case Failure(e) => (replayed.0, Failure(e))
    case Success(Some(response)) => (replayed.0, Success(response))
    case Success(None) => (replayed.0, conflict)
  }

  /** The store behind its transport, as the program's closure sees it. */
  class Channel {
    const rules: Rules
    var backend: Backend
    var turns: seq<Turn>
    var trace: seq<Exchange>

    constructor (rules: Rules, backend: Backend, turns: seq<Turn>)
      ensures Now() == Link(backend, turns, []) && this.rules == rules
    {
      this.rules := rules;
      this.backend, this.turns, this.trace := backend, turns, [];
    }

    function Now(): Link
      reads this
    {
      Link(backend, turns, trace)
    }

    method Call(request: Request, authority: bool) returns (reply: Result<Value>)
      modifies this
      ensures (Now(), reply) == Send(rules, old(Now()), request, authority)
    {
      var fate := Unreachable;
      if turns != [] {
        fate := turns[0].fate;
        backend := ExecuteAll(rules, backend, turns[0].others);
        turns := turns[1..];
      }
      var before := backend.effects;
      var (after, answer) := Deliver(rules, backend, fate, request);
      backend, reply := after, answer;
      trace := trace + [Exchange(request, authority, reply, backend.effects != before)];
    }

    /** The receipt lookup and replay. */
    method ReplayReceipt(request: Request, operation: Value, authority: bool, supervisor: bool)
      returns (r: Result<Option<Value>>)
      modifies this
      ensures (Now(), r) == Replay(rules, old(Now()), request, operation, authority, supervisor)
    {
      if request.id.None? { return Success(None); }
      var status := Call(Request(None, StatusOf(request.id.value)), authority || Is(operation, "action", Name(Artifact)));
      if status.Failure? { return Failure(status.error); }
      var receipt := At(status.value, "request");
      if !Is(receipt, "state", Text("recorded")) { return Success(None); }
      var payload := Payload(rules, operation);
      if payload.None? { return Failure("invalid"); }
      var saved := Strip(At(receipt, "operation"), operation);
      var wanted := Strip(payload.value, operation);
      if saved != wanted { return Failure("conflict"); }
      var again := Restored(At(receipt, "operation"), operation);
      if !rules.typed(again) { return Failure("invalid"); }
      var answer := Call(Request(request.id, again), supervisor);
      r := if answer.Success? then Success(Some(answer.value)) else Failure(answer.error);
    }

    /** The edits of a batch are filled in one by one, each from its own read. */
    method FillInEdits(edits: seq<Value>, authority: bool) returns (r: Result<seq<Value>>)
      modifies this
      ensures (Now(), r) == FillEdits(rules, old(Now()), edits, authority)
    {
      var filled: seq<Value> := [];
      assert edits[0..] == edits;
      AfterBoth([], Null, FillEdits(rules, Now(), edits, authority));
      for i := 0 to |edits|
        invariant After(filled, FillEdits(rules, Now(), edits[i..], authority))
               == FillEdits(rules, old(Now()), edits, authority)
      {
        assert edits[i..][1..] == edits[i + 1..] && edits[i..][0] == edits[i];
        var edit := edits[i];
        if Missing(At(edit, "if_version")) {
          var current := Call(Request(None, ViewOf(At(edit, "number"))), authority);
          if current.Failure? { return Failure(current.error); }
          edit := With(edit, "if_version", At(At(current.value, "issue"), "version"));
        }
        AfterBoth(filled, edit, FillEdits(rules, Now(), edits[i + 1..], authority));
        filled := filled + [edit];
      }
      assert filled + [] == filled;
      r := Success(filled);
    }

    method FillIn(operation: Value, authority: bool) returns (r: Result<Value>)
      modifies this
      ensures (Now(), r) == Fill(rules, old(Now()), operation, authority)
    {
      if Is(operation, "action", Name(Batch)) && !Matching(operation) && At(operation, "edits").List? {
        var edits := FillInEdits(At(operation, "edits").items, authority);
        r := if edits.Success? then Success(With(operation, "edits", List(edits.value))) else Failure(edits.error);
      } else {
        var current := Call(Request(None, SnapshotRead(operation)), authority);
        r := if current.Success? then Success(Guarded(operation, current.value)) else current;
      }
    }

    /** The whole command: the request and its operation are rewritten step by step, then sent. */
    method Perform(request: Request, supervisor: bool, nonce: string) returns (r: Result<Value>)
      modifies this
      ensures (Now(), r) == Prepare(rules, old(Now()), request, supervisor, nonce)
    {
      if !Writes(rules, request.operation) {
        r := Call(request, supervisor);
        return;
      }
      var sent := Identified(request, nonce).(operation := Reassigned(request.operation));
      if Refused(sent.operation, supervisor) { return Failure("invalid"); }
      var template := Template(sent.operation, supervisor);
      var automatic := NeedsSnapshot(template, supervisor);
      var authority := Authority(template, supervisor);
      if automatic {
        var saved := ReplayReceipt(Request(sent.id, template), template, authority, supervisor);
        if saved.Failure? { return Failure(saved.error); }
        if saved.value.Some? { return Success(saved.value.value); }
        var filled := FillIn(template, authority);
        if filled.Failure? { return Failure(filled.error); }
        if !rules.typed(filled.value) { return Failure("invalid"); }
        sent := Request(sent.id, filled.value);
      }
      sent := Keyed(rules, sent, supervisor);
      r := Call(sent, supervisor);
      if automatic && r == Failure("conflict") {
        var saved := ReplayReceipt(sent, template, authority, supervisor);
        if saved.Failure? { return Failure(saved.error); }
        if saved.value.Some? { return Success(saved.value.value); }
      }
    }
  }
}
