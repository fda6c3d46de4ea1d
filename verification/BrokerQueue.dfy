/** The durable queue of src/broker.rs: its records, and what each hold of the queue mutex does to
    them. Every section appears twice: as a function on the queue directory, used by the protocol, and
    as a method of the class `Queue`, which updates the directory the way the program does. */
module BrokerQueue {
  import opened Wrappers

  datatype Request = Request(
    command: string,
    project: Option<string>,
    title: Option<string>,
    question: Option<string>,
    details: string,
    taskId: Option<string>,
    sync: bool,
    commentsEnabled: bool)

  datatype Response = Response(
    taskId: string,
    status: Option<string>,
    result: Option<string>,
    comments: Option<seq<string>>,
    reviewStatus: Option<string>,
    documentName: Option<string>)

  datatype Entry = Entry(
    request: Request,
    upstream: Option<string>,
    terminal: Option<Response>,
    pendingHide: bool,
    latest: Option<Response>,
    deliveryError: Option<string>)

  /** A queue file that `load` can read, or one that it refuses. */
  datatype File = Record(entry: Entry) | Damaged

  /** The queue directory, keyed by the task ID that names each file. */
  type Disk = map<string, File>

  predicate IsCreation(command: string) {
    command == "alert" || command == "update" || command == "ask"
  }

  predicate Blank(text: string) {
    forall c <- text :: c == ' ' || c == '\t' || c == '\n' || c == '\r'
  }

  predicate Missing(field: Option<string>) {
    field.None? || Blank(field.value)
  }

  predicate InvalidLegacyCreation(request: Request) {
    IsCreation(request.command) && (Missing(request.project) || Missing(request.title) || request.question.None?)
  }

  /** Questions and document reviews: the entries that have a final reply. */
  predicate Reviewable(request: Request) {
    request.command == "ask" || request.commentsEnabled
  }

  predicate Waiting(request: Request) {
    request.command == "wait" || (request.command == "status" && request.sync)
  }

  predicate IsError(response: Response) {
    response.status == Some("error")
  }

  predicate Final(response: Response) {
    response.status == Some("ok") || response.status == Some("cancelled") || response.status == Some("error")
  }

  function Answer(id: string, status: string): Response {
    Response(id, Some(status), None, None, None, None)
  }

  function NewEntry(request: Request): Entry {
    Entry(request, None, None, false, None, None)
  }

  function HideRequest(task: string): Request {
    Request("hide", None, None, None, "", Some(task), false, false)
  }

  function Load(disk: Disk, id: string): Result<Entry> {
    if id in disk && disk[id].Record? then Success(disk[id].entry) else Failure("unreadable queue record")
  }

  /** The reply a hide writes for an entry the receiver does not know yet. */
  function LocalHide(id: string, entry: Entry): (r: Response)
    ensures Final(r) && r.taskId == id
    ensures r.status == Some("cancelled") <==> Reviewable(entry.request)
    ensures entry.request.commentsEnabled ==> r.reviewStatus == Some("cancelled")
    ensures entry.request.commentsEnabled && entry.latest.Some? ==> r.comments == entry.latest.value.comments
  {
    var reply := Answer(id, if Reviewable(entry.request) then "cancelled" else "ok");
    if entry.request.commentsEnabled then
      reply.(reviewStatus := Some("cancelled"),
      comments := if entry.latest.Some? then entry.latest.value.comments else None)
    else
      reply
  }

  datatype LoadOutcome = Refused(reply: Result<Response>) | Hid(response: Response) | Snapshot(entry: Entry)

  /** A handler's first hold of the mutex: read the entry, answer at once, or hide it locally. */
  function HandlerLoad(disk: Disk, id: string, request: Request, saved: bool): (Disk, LoadOutcome) {
    match Load(disk, id)
    case Failure(e) => (disk, Refused(Failure(e)))
    case Success(entry) =>
      if entry.terminal.Some? then (disk, Refused(Success(entry.terminal.value)))
      else if Waiting(request) && !Reviewable(entry.request) then
        (disk, Refused(Failure("only questions and enabled document reviews can be waited on")))
      else if request.command == "hide" && entry.upstream.None? then
        if saved then
          var reply := LocalHide(id, entry);
          (disk[id := Record(entry.(terminal := Some(reply)))], Hid(reply))
        else
          (disk, Refused(Failure("queue persistence")))
      else (disk, Snapshot(entry))
  }

  datatype StoreOutcome = Replied(reply: Result<Response>) | Merged(result: Option<Response>)

  predicate Settles(request: Request, snapshot: Entry, result: Option<Response>) {
    result.Some? && Final(result.value) && (request.command == "hide" || Reviewable(snapshot.request))
  }

  predicate Refreshes(current: Entry, snapshot: Entry, result: Option<Response>) {
    result.Some? && snapshot.request.commentsEnabled && result.value.reviewStatus.Some? && current.latest != result
  }

  /** A handler's second hold of the mutex, after its exchange with the receiver. `saves` is how many
      of its (at most two) writes succeed. */
  function HandlerStore(disk: Disk, id: string, request: Request, snapshot: Entry, result: Option<Response>, saves: nat)
    : (Disk, StoreOutcome)
  {
    match Load(disk, id)
    case Failure(e) => (disk, Replied(Failure(e)))
    case Success(current) =>
      if current.terminal.Some? then (disk, Replied(Success(current.terminal.value))) else
      var settles := Settles(request, snapshot, result);
      var refreshes := Refreshes(current, snapshot, result);
      var needed := (if settles then 1 else 0) + (if refreshes then 1 else 0);
      var settled := if settles && saves > 0 then current.(terminal := result) else current;
      var refreshed := if refreshes && saves >= needed then settled.(latest := result) else settled;
      (disk[id := Record(refreshed)],
       if saves < needed then Replied(Failure("queue persistence"))
       else Merged(if result.Some? then result else snapshot.latest))
  }

  /** What a handler tells its client with the merged result; None means it polls again. */
  function Conclude(id: string, request: Request, snapshot: Entry, result: Option<Response>): Option<Response> {
    if !Waiting(request) then
      Some(if result.Some? then result.value else Answer(id, "pending"))
    else if result.Some? && (Final(result.value)
                             || (request.command == "status" && snapshot.request.commentsEnabled
                                 && result.value.comments.Some? && result.value.comments.value != [])) then
      result
    else
      None
  }

  datatype PickOutcome = Skip | Send(request: Request)

  /** The replay worker's first hold of the mutex: what to send for this queue file, if anything. */
  function WorkerPick(disk: Disk, id: string): PickOutcome {
    match Load(disk, id)
    case Failure(_) => Skip
    case Success(entry) =>
      if entry.pendingHide then
        if entry.upstream.Some? then Send(HideRequest(entry.upstream.value)) else Skip
      else if entry.upstream.Some? || entry.terminal.Some? then Skip
      else Send(entry.request)
  }

  predicate Acceptable(request: Request, response: Response) {
    !IsError(response) || InvalidLegacyCreation(request)
  }

  /** The worker's second hold of the mutex when the delivery failed. */
  function WorkerFail(disk: Disk, id: string, error: string, saved: bool): Disk {
    match Load(disk, id)
    case Failure(_) => disk
    case Success(current) =>
      if saved then disk[id := Record(current.(deliveryError := Some(error)))] else disk
  }

  /** The entry after a creation was answered: rejected for good, or mapped to the receiver's task. A
      hide that arrived meanwhile leaves its clean-up pending. */
  function Delivered(id: string, current: Entry, response: Response): Entry {
    if IsError(response) then
      current.(terminal := if current.terminal.Some? then current.terminal else Some(Answer(id, "error")),
      deliveryError := Some("Malformed legacy request rejected by receiver"),
      pendingHide := false)
    else
      current.(upstream := Some(response.taskId), deliveryError := None, pendingHide := current.terminal.Some?)
  }

  /** The worker's second hold of the mutex when the receiver answered; also whether the pass goes on. */
  function WorkerAck(disk: Disk, id: string, request: Request, response: Response, saved: bool): (Disk, bool) {
    match Load(disk, id)
    case Failure(_) => (disk, true)
    case Success(current) =>
      if request.command == "hide" then
        if !IsError(response) && saved then
          (disk[id := Record(current.(deliveryError := None, pendingHide := false))], true)
        else
          (disk, true)
      else if saved then (disk[id := Record(Delivered(id, current, response))], true)
      else (disk, false)
  }

  /** The queue directory as the program updates it: one file at a time, under the mutex. */
  class Queue {
    var disk: Disk

    constructor ()
      ensures disk == map[]
    {
      disk := map[];
    }

    method Save(id: string, entry: Entry, succeeds: bool) returns (ok: bool)
      modifies this
      ensures ok == succeeds
      ensures disk == if succeeds then old(disk)[id := Record(entry)] else old(disk)
    {
      if succeeds {
        disk := disk[id := Record(entry)];
      }
      ok := succeeds;
    }

    method LoadForHandler(id: string, request: Request, saved: bool) returns (outcome: LoadOutcome)
      modifies this
      ensures (disk, outcome) == HandlerLoad(old(disk), id, request, saved)
    {
      var loaded := Load(disk, id);
      if loaded.Failure? {
        return Refused(Failure(loaded.error));
      }
      var entry := loaded.value;
      if entry.terminal.Some? {
        return Refused(Success(entry.terminal.value));
      }
      if Waiting(request) && !Reviewable(entry.request) {
        return Refused(Failure("only questions and enabled document reviews can be waited on"));
      }
      if request.command == "hide" && entry.upstream.None? {
        var terminal := Answer(id, if Reviewable(entry.request) then "cancelled" else "ok");
        if entry.request.commentsEnabled {
          terminal := terminal.(reviewStatus := Some("cancelled"));
          terminal := terminal.(comments := if entry.latest.Some? then entry.latest.value.comments else None);
        }
        entry := entry.(terminal := Some(terminal));
        var ok := Save(id, entry, saved);
        if !ok {
          return Refused(Failure("queue persistence"));
        }
        return Hid(terminal);
      }
      return Snapshot(entry);
    }

    method StoreForHandler(id: string, request: Request, snapshot: Entry, result: Option<Response>, saves: nat)
      returns (outcome: StoreOutcome)
      modifies this
      ensures (disk, outcome) == HandlerStore(old(disk), id, request, snapshot, result, saves)
    {
      var loaded := Load(disk, id);
      if loaded.Failure? {
        return Replied(Failure(loaded.error));
      }
      var current := loaded.value;
      if current.terminal.Some? {
        return Replied(Success(current.terminal.value));
      }
      var left := saves;
      if result.Some? && Final(result.value) && (request.command == "hide" || Reviewable(snapshot.request)) {
        current := current.(terminal := result);
        var ok := Save(id, current, left > 0);
        if !ok {
          assert old(disk)[id := old(disk)[id]] == old(disk);
          return Replied(Failure("queue persistence"));
        }
        left := left - 1;
      }
      if result.Some? && snapshot.request.commentsEnabled && result.value.reviewStatus.Some? && current.latest != result {
        current := current.(latest := result);
        var ok := Save(id, current, left > 0);
        if !ok {
          assert old(disk)[id := old(disk)[id]] == old(disk);
          return Replied(Failure("queue persistence"));
        }
      }
      assert disk == old(disk)[id := Record(current)];
      return Merged(if result.Some? then result else snapshot.latest);
    }

    method PickForWorker(id: string) returns (outcome: PickOutcome)
      ensures outcome == WorkerPick(disk, id)
    {
      var loaded := Load(disk, id);
      if loaded.Failure? {
        return Skip;
      }
      var entry := loaded.value;
      if entry.pendingHide {
        if entry.upstream.None? {
          return Skip;
        }
        return Send(HideRequest(entry.upstream.value));
      }
      if entry.upstream.Some? || entry.terminal.Some? {
        return Skip;
      }
      return Send(entry.request);
    }

    method FailDelivery(id: string, error: string, saved: bool)
      modifies this
      ensures disk == WorkerFail(old(disk), id, error, saved)
    {
      var loaded := Load(disk, id);
      if loaded.Success? {
        var current := loaded.value.(deliveryError := Some(error));
        var _ := Save(id, current, saved);
      }
    }

    method FinishDelivery(id: string, request: Request, response: Response, saved: bool) returns (proceed: bool)
      modifies this
      ensures (disk, proceed) == WorkerAck(old(disk), id, request, response, saved)
    {
      var loaded := Load(disk, id);
      if loaded.Failure? {
        return true;
      }
      var current := loaded.value.(deliveryError := None);
      if request.command == "hide" {
        if !IsError(response) {
          current := current.(pendingHide := false);
          var _ := Save(id, current, saved);
        }
        return true;
      }
      var cleanup := current.terminal.Some? && !IsError(response);
      if IsError(response) {
        if current.terminal.None? {
          current := current.(terminal := Some(Answer(id, "error")));
        }
        current := current.(deliveryError := Some("Malformed legacy request rejected by receiver"));
      } else {
        current := current.(upstream := Some(response.taskId));
      }
      current := current.(pendingHide := cleanup);
      proceed := Save(id, current, saved);
    }
  }
}
