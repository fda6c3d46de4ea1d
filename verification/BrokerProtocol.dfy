/** The queue protocol of src/broker.rs as a step system: any number of client handlers and one replay
    worker take turns, each step being one hold of the queue mutex or one exchange with the receiver.
    An action that is not enabled changes nothing, so every sequence of actions is a run. */
module BrokerProtocol {
  import opened Wrappers
  import opened BrokerQueue
  import opened QueueOrder

  const MAX_CLIENTS := 64

  /** The receiver's durable receipt for one queue entry: what it accepted and the task it created. */
  datatype Receipt = Receipt(request: Request, task: string)

  /** The receiver: receipts by request ID, the IDs presented so far, and the tasks it has hidden. */
  datatype Receiver = Receiver(receipts: map<string, Receipt>, presented: seq<string>, hidden: set<string>)

  /** How an exchange with the receiver goes. The proposed response is the receiver's choice. */
  datatype Exchange = Unreachable | LostReply(proposed: Response) | Delivery(proposed: Response)

  datatype Phase =
    | Accepted
    | Polling(id: string)
    | Exchanging(id: string, snapshot: Entry)
    | Answered(id: string, snapshot: Entry, result: Option<Response>)
    | Closed

  datatype Handler = Handler(request: Request, phase: Phase)

  datatype WorkerPhase = Picking | Sending(request: Request) | Failed(error: string) | Acknowledged(request: Request, response: Response)

  datatype Worker = Resting | Pass(paths: seq<string>, index: nat, phase: WorkerPhase)

  /** A reply that reached a client for the entry `id`. */
  datatype Reply = Reply(id: string, response: Response)

  /** `replies` and `localHides` are the history: the replies given, and the entries whose terminal
      reply was written by a local hide. */
  datatype State = State(
    disk: Disk,
    handlers: map<nat, Handler>,
    active: nat,
    worker: Worker,
    receiver: Receiver,
    replies: set<Reply>,
    localHides: set<string>)

  const Init := State(map[], map[], 0, Resting, Receiver(map[], [], {}), {}, {})

  datatype Action =
    | Connect(client: nat, request: Request)
    | Enqueue(client: nat, id: string, saved: bool)
    | Begin(client: nat)
    | LoadEntry(client: nat, saved: bool)
    | Ask(client: nat, exchange: Exchange)
    | Store(client: nat, saves: nat)
    | Leave(client: nat)
    | Inherit(path: string, file: File)
    | StartPass(paths: seq<string>)
    | Pick
    | Transmit(exchange: Exchange)
    | Settle(saved: bool)
    | Restart

  predicate IsTask(rc: Receiver, task: string) {
    exists id <- rc.receipts :: rc.receipts[id].task == task
  }

  /** The receiver's side of an exchange. Creations are deduplicated by request ID; a hide that is not
      refused hides the task; anything else only reports. */
  function Receive(rc: Receiver, request: Request, proposed: Response): (Receiver, Response) {
    if IsCreation(request.command) && request.taskId.Some? then
      var id := request.taskId.value;
      if IsError(proposed) then (rc, proposed)
      else if id in rc.receipts then
        if rc.receipts[id].request == request then (rc, proposed.(taskId := rc.receipts[id].task))
        else (rc, Answer("", "error"))
      else if proposed.taskId == "" || IsTask(rc, proposed.taskId) then (rc, Answer("", "error"))
      else
        (rc.(receipts := rc.receipts[id := Receipt(request, proposed.taskId)], presented := rc.presented + [id]),
         proposed)
    else if request.command == "hide" && request.taskId.Some? && !IsError(proposed) then
      (rc.(hidden := rc.hidden + {request.taskId.value}), proposed)
    else (rc, proposed)
  }

  /** `forward_connected` refuses a reply without a task ID unless it reports an error. */
  function Heard(response: Response): Result<Response> {
    if response.taskId == "" && !IsError(response) then Failure("upstream response has no task ID")
    else Success(response)
  }

  function Forward(rc: Receiver, request: Request, exchange: Exchange): (Receiver, Result<Response>) {
    match exchange
    case Unreachable => (rc, Failure("bridge is not connected"))
    case LostReply(proposed) => (Receive(rc, request, proposed).0, Failure("upstream reply lost"))
    case Delivery(proposed) => var (after, response) := Receive(rc, request, proposed); (after, Heard(response))
  }

  function SetPhase(s: State, client: nat, phase: Phase): State
    requires client in s.handlers
  {
    s.(handlers := s.handlers[client := s.handlers[client].(phase := phase)])
  }

  /** Ends a handler with a result; replies about an entry are remembered. */
  function Finish(s: State, client: nat, id: string, reply: Result<Response>): State
    requires client in s.handlers
  {
    var closed := SetPhase(s, client, Closed);
    if reply.Success? then closed.(replies := closed.replies + {Reply(id, reply.value)}) else closed
  }

  /** The tail of the handler's loop: reply, or sleep and poll again. */
  function FinishOrPoll(s: State, client: nat, id: string, snapshot: Entry, result: Option<Response>): State
    requires client in s.handlers
  {
    match Conclude(id, s.handlers[client].request, snapshot, result)
    case Some(response) => Finish(s, client, id, Success(response))
    case None => SetPhase(s, client, Polling(id))
  }

  function DoConnect(s: State, client: nat, request: Request): State {
    if client !in s.handlers && s.active < MAX_CLIENTS then
      s.(handlers := s.handlers[client := Handler(request, Accepted)], active := s.active + 1)
    else s
  }

  /** Queues a new request under a fresh ID; a synchronous caller goes on to wait for it. */
  function DoEnqueue(s: State, client: nat, id: string, saved: bool): State {
    if client !in s.handlers || !s.handlers[client].phase.Accepted? then s else
    var request := s.handlers[client].request;
    if !IsCreation(request.command) || id in s.disk then s
    else if InvalidLegacyCreation(request) || !saved then SetPhase(s, client, Closed)
    else
      var queued := s.(disk := s.disk[id := Record(NewEntry(request.(sync := false, taskId := Some(id))))]);
      if request.sync then
        queued.(handlers := queued.handlers[client :=
          Handler(request.(command := "wait", sync := false, taskId := Some(id)), Polling(id))])
      else Finish(queued, client, id, Success(Answer(id, "pending")))
  }

  function DoBegin(s: State, client: nat): State {
    if client !in s.handlers || !s.handlers[client].phase.Accepted? then s else
    var request := s.handlers[client].request;
    if IsCreation(request.command) then s
    else if (request.command == "status" || request.command == "wait" || request.command == "hide") && request.taskId.Some?
    then SetPhase(s, client, Polling(request.taskId.value))
    else SetPhase(s, client, Closed)
  }

  function DoLoad(s: State, client: nat, saved: bool): State {
    if client !in s.handlers || !s.handlers[client].phase.Polling? then s else
    var Handler(request, Polling(id)) := s.handlers[client];
    var (disk, outcome) := HandlerLoad(s.disk, id, request, saved);
    match outcome
    case Refused(reply) => Finish(s, client, id, reply)
    case Hid(response) => Finish(s.(disk := disk, localHides := s.localHides + {id}), client, id, Success(response))
    case Snapshot(entry) =>
      if entry.upstream.Some? then SetPhase(s, client, Exchanging(id, entry))
      else FinishOrPoll(s, client, id, entry, entry.latest)
  }

  /** What a handler sends about an entry the receiver knows. */
  function ActionRequest(request: Request, upstream: string): Request {
    request.(command := if request.command == "wait" then "status" else request.command, sync := false, taskId := Some(upstream))
  }

  function DoAsk(s: State, client: nat, exchange: Exchange): State {
    if client !in s.handlers || !s.handlers[client].phase.Exchanging? then s else
    var Handler(request, Exchanging(id, snapshot)) := s.handlers[client];
    if snapshot.upstream.None? then s else
    var (receiver, reply) := Forward(s.receiver, ActionRequest(request, snapshot.upstream.value), exchange);
    var result := if reply.Success? then Some(reply.value.(taskId := id)) else None;
    SetPhase(s.(receiver := receiver), client, Answered(id, snapshot, result))
  }

  function DoStore(s: State, client: nat, saves: nat): State {
    if client !in s.handlers || !s.handlers[client].phase.Answered? then s else
    var Handler(request, Answered(id, snapshot, result)) := s.handlers[client];
    var (disk, outcome) := HandlerStore(s.disk, id, request, snapshot, result, saves);
    var stored := s.(disk := disk);
    match outcome
    case Replied(reply) => Finish(stored, client, id, reply)
    case Merged(merged) => FinishOrPoll(stored, client, id, snapshot, merged)
  }

  function DoLeave(s: State, client: nat): State {
    if client in s.handlers && s.active > 0 then s.(handlers := s.handlers - {client}, active := s.active - 1) else s
  }

  /** A file left by an older version: unreadable, or an undelivered creation that names itself. */
  function DoInherit(s: State, path: string, file: File): State {
    if path in s.disk then s
    else if file.Record? && !(IsCreation(file.entry.request.command) && file.entry == NewEntry(file.entry.request)
                              && file.entry.request.taskId == Some(path)) then s
    else s.(disk := s.disk[path := file])
  }

  /** A directory listing in queue order: every file once, none before an older one. */
  predicate Listing(disk: Disk, paths: seq<string>) {
    && (set p <- paths) == disk.Keys
    && |paths| == |disk|
    && forall i, j :: 0 <= i < j < |paths| ==> paths[i] != paths[j] && !Before(OrderOf(paths[j]), OrderOf(paths[i]))
  }

  function DoStartPass(s: State, paths: seq<string>): State {
    if s.worker.Resting? && Listing(s.disk, paths) then s.(worker := Pass(paths, 0, Picking)) else s
  }

  function DoPick(s: State): State {
    if !s.worker.Pass? || !s.worker.phase.Picking? then s
    else if s.worker.index >= |s.worker.paths| then s.(worker := Resting)
    else match WorkerPick(s.disk, s.worker.paths[s.worker.index])
    case Skip => s.(worker := s.worker.(index := s.worker.index + 1))
    case Send(request) => s.(worker := s.worker.(phase := Sending(request)))
  }

  function DoTransmit(s: State, exchange: Exchange): State {
    if !s.worker.Pass? || !s.worker.phase.Sending? then s else
    var request := s.worker.phase.request;
    var (receiver, reply) := Forward(s.receiver, request, exchange);
    var phase := match reply {
      case Failure(error) => Failed(error)
      case Success(response) =>
        if Acceptable(request, response) then Acknowledged(request, response)
        else Failed("Receiver rejected delivery; retained for retry")
    };
    s.(receiver := receiver, worker := s.worker.(phase := phase))
  }

  function DoSettle(s: State, saved: bool): State {
    if !s.worker.Pass? || s.worker.index >= |s.worker.paths| then s else
    var path := s.worker.paths[s.worker.index];
    match s.worker.phase
    case Failed(error) => s.(disk := WorkerFail(s.disk, path, error, saved), worker := Resting)
    case Acknowledged(request, response) =>
      var (disk, proceed) := WorkerAck(s.disk, path, request, response, saved);
      s.(disk := disk, worker := if proceed then Pass(s.worker.paths, s.worker.index + 1, Picking) else Resting)
    case _ => s
  }

  /** The broker stops and starts again: only the files and the receiver survive. */
  function DoRestart(s: State): State {
    s.(handlers := map[], active := 0, worker := Resting)
  }

  function Step(s: State, a: Action): State {
    match a
    case Connect(client, request) => DoConnect(s, client, request)
    case Enqueue(client, id, saved) => DoEnqueue(s, client, id, saved)
    case Begin(client) => DoBegin(s, client)
    case LoadEntry(client, saved) => DoLoad(s, client, saved)
    case Ask(client, exchange) => DoAsk(s, client, exchange)
    case Store(client, saves) => DoStore(s, client, saves)
    case Leave(client) => DoLeave(s, client)
    case Inherit(path, file) => DoInherit(s, path, file)
    case StartPass(paths) => DoStartPass(s, paths)
    case Pick => DoPick(s)
    case Transmit(exchange) => DoTransmit(s, exchange)
    case Settle(saved) => DoSettle(s, saved)
    case Restart => DoRestart(s)
  }

  function Run(s: State, actions: seq<Action>): State
    decreases |actions|
  {
    if actions == [] then s else Run(Step(s, actions[0]), actions[1..])
  }
}
