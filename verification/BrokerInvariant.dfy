/** The invariant of the queue protocol, and that every step keeps it. */
module BrokerInvariant {
  import opened Wrappers
  import opened BrokerQueue
  import opened QueueOrder
  import opened BrokerProtocol

  predicate Readable(disk: Disk, id: string) {
    id in disk && disk[id].Record?
  }

  /** Nothing is left to deliver for this file, or it cannot be read. */
  predicate Settled(disk: Disk, path: string) {
    Readable(disk, path) ==> disk[path].entry.upstream.Some? || disk[path].entry.terminal.Some?
  }

  /** Requests never change; `upstream` and `terminal` keep the first value they get. */
  ghost predicate Grows(before: Disk, after: Disk) {
    && (forall id <- before :: id in after && (before[id].Damaged? ==> after[id].Damaged?))
    && forall id | Readable(before, id) ::
         && Readable(after, id)
         && after[id].entry.request == before[id].entry.request
         && (before[id].entry.upstream.Some? ==> after[id].entry.upstream == before[id].entry.upstream)
         && (before[id].entry.terminal.Some? ==> after[id].entry.terminal == before[id].entry.terminal)
  }

  predicate EntryOk(id: string, e: Entry, rc: Receiver, localHides: set<string>) {
    && e.request.taskId == Some(id)
    && IsCreation(e.request.command)
    && (e.pendingHide ==> e.upstream.Some? && e.terminal.Some?)
    && (e.upstream.Some? ==> id in rc.receipts && rc.receipts[id].task == e.upstream.value)
    && (e.latest.Some? && Final(e.latest.value) ==> e.terminal.Some?)
    && (id in localHides ==> e.terminal.Some?)
    && (id in localHides && e.upstream.Some? ==> e.pendingHide || e.upstream.value in rc.hidden)
  }

  ghost predicate DiskOk(disk: Disk, rc: Receiver, localHides: set<string>) {
    && (forall id | Readable(disk, id) :: EntryOk(id, disk[id].entry, rc, localHides))
    && (forall id <- localHides :: Readable(disk, id))
  }

  /** Receipts match the queue, name different tasks, and each stands for one presentation. */
  ghost predicate ReceiverOk(disk: Disk, rc: Receiver) {
    && (forall id <- rc.receipts :: Readable(disk, id) && rc.receipts[id].request == disk[id].entry.request)
    && (forall a, b | a in rc.receipts && b in rc.receipts && rc.receipts[a].task == rc.receipts[b].task :: a == b)
    && (forall i, j :: 0 <= i < j < |rc.presented| ==> rc.presented[i] != rc.presented[j])
    && (forall id :: id in rc.presented <==> id in rc.receipts)
    && (forall id <- rc.receipts :: rc.receipts[id].task != "")
  }

  predicate Controls(request: Request) {
    request.command == "status" || request.command == "wait" || request.command == "hide"
  }

  predicate SnapshotOk(disk: Disk, id: string, snapshot: Entry) {
    && Readable(disk, id)
    && snapshot.request == disk[id].entry.request
    && snapshot.terminal.None?
    && snapshot.upstream.Some?
    && snapshot.upstream == disk[id].entry.upstream
    && (snapshot.latest.Some? ==> !Final(snapshot.latest.value))
  }

  predicate HandlerOk(disk: Disk, h: Handler) {
    match h.phase
    case Accepted => true
    case Polling(id) => Controls(h.request)
    case Exchanging(id, snapshot) => Controls(h.request) && SnapshotOk(disk, id, snapshot)
    case Answered(id, snapshot, result) => Controls(h.request) && SnapshotOk(disk, id, snapshot)
    case Closed => true
  }

  ghost predicate HandlersOk(disk: Disk, handlers: map<nat, Handler>, active: nat) {
    && (forall client <- handlers :: HandlerOk(disk, handlers[client]))
    && active == |handlers| <= MAX_CLIENTS
  }

  /** What the worker carries is the entry's own undelivered request, or the hide of its task. */
  predicate Carries(disk: Disk, path: string, request: Request) {
    && Readable(disk, path)
    && var e := disk[path].entry;
       if request.command == "hide" then
         e.pendingHide && e.upstream.Some? && request == HideRequest(e.upstream.value)
       else request == e.request && e.upstream.None?
  }

  /** An accepted answer is backed by what the receiver recorded. */
  predicate Backed(rc: Receiver, path: string, request: Request, response: Response) {
    && Acceptable(request, response)
    && (request.command == "hide" ==> request.taskId.Some? && request.taskId.value in rc.hidden)
    && (request.command != "hide" && !IsError(response) ==>
          path in rc.receipts && rc.receipts[path].task == response.taskId)
  }

  ghost predicate WorkerOk(disk: Disk, rc: Receiver, w: Worker) {
    w.Pass? ==>
      && w.index <= |w.paths|
      && (forall path <- w.paths :: path in disk)
      && (!w.phase.Picking? ==> w.index < |w.paths|)
      && (forall j :: 0 <= j < w.index ==> Settled(disk, w.paths[j]))
      && (w.phase.Sending? ==> Carries(disk, w.paths[w.index], w.phase.request))
      && (w.phase.Acknowledged? ==>
            && Carries(disk, w.paths[w.index], w.phase.request)
            && Backed(rc, w.paths[w.index], w.phase.request, w.phase.response))
  }

  predicate ReplyOk(disk: Disk, r: Reply) {
    && Readable(disk, r.id)
    && (Final(r.response) && Reviewable(disk[r.id].entry.request) ==> disk[r.id].entry.terminal == Some(r.response))
  }

  ghost predicate RepliesOk(disk: Disk, replies: set<Reply>) {
    forall r <- replies :: ReplyOk(disk, r)
  }

  ghost predicate Inv(s: State) {
    && DiskOk(s.disk, s.receiver, s.localHides)
    && ReceiverOk(s.disk, s.receiver)
    && HandlersOk(s.disk, s.handlers, s.active)
    && WorkerOk(s.disk, s.receiver, s.worker)
    && RepliesOk(s.disk, s.replies)
  }

  // ---- how the receiver moves

  ghost predicate ReceiverGrows(before: Receiver, after: Receiver) {
    && (forall id <- before.receipts :: id in after.receipts && after.receipts[id] == before.receipts[id])
    && before.hidden <= after.hidden
  }

  lemma ForwardGrows(disk: Disk, rc: Receiver, request: Request, exchange: Exchange)
    requires ReceiverOk(disk, rc)
    requires IsCreation(request.command) && request.taskId.Some? ==>
               Readable(disk, request.taskId.value) && disk[request.taskId.value].entry.request == request
    ensures ReceiverGrows(rc, Forward(rc, request, exchange).0)
    ensures ReceiverOk(disk, Forward(rc, request, exchange).0)
    ensures !IsCreation(request.command) ==> Forward(rc, request, exchange).0.receipts == rc.receipts
  {
    if !exchange.Unreachable? {
      ReceiveGrows(disk, rc, request, exchange.proposed);
    }
  }

  lemma NewReceiptOk(disk: Disk, rc: Receiver, id: string, request: Request, task: string)
    requires ReceiverOk(disk, rc) && id !in rc.receipts && task != "" && !IsTask(rc, task)
    requires Readable(disk, id) && disk[id].entry.request == request
    ensures ReceiverOk(disk, rc.(receipts := rc.receipts[id := Receipt(request, task)], presented := rc.presented + [id]))
  {
    assert id !in rc.presented;
  }

  lemma ReceiveGrows(disk: Disk, rc: Receiver, request: Request, proposed: Response)
    requires ReceiverOk(disk, rc)
    requires IsCreation(request.command) && request.taskId.Some? ==>
               Readable(disk, request.taskId.value) && disk[request.taskId.value].entry.request == request
    ensures ReceiverGrows(rc, Receive(rc, request, proposed).0)
    ensures ReceiverOk(disk, Receive(rc, request, proposed).0)
    ensures !IsCreation(request.command) ==> Receive(rc, request, proposed).0.receipts == rc.receipts
  {
    if Receive(rc, request, proposed).0.receipts != rc.receipts {
      NewReceiptOk(disk, rc, request.taskId.value, request, proposed.taskId);
    }
  }

  // ---- steps that leave the queue alone

  lemma SameDisk(s: State, t: State)
    requires Inv(s)
    requires t.disk == s.disk && t.localHides == s.localHides
    requires ReceiverGrows(s.receiver, t.receiver) && ReceiverOk(s.disk, t.receiver)
    requires HandlersOk(t.disk, t.handlers, t.active) && WorkerOk(t.disk, t.receiver, t.worker)
    requires RepliesOk(t.disk, t.replies)
    ensures Inv(t)
  {
  }

  lemma PhaseKeepsCount(s: State, client: nat, h: Handler)
    requires client in s.handlers
    ensures |s.handlers[client := h]| == |s.handlers|
  {
    assert s.handlers[client := h].Keys == s.handlers.Keys;
  }

  lemma MoveHandler(s: State, client: nat, phase: Phase)
    requires Inv(s) && client in s.handlers
    requires HandlerOk(s.disk, s.handlers[client].(phase := phase))
    ensures Inv(SetPhase(s, client, phase))
  {
    PhaseKeepsCount(s, client, s.handlers[client].(phase := phase));
    SameDisk(s, SetPhase(s, client, phase));
  }

  lemma FinishKeeps(s: State, client: nat, id: string, reply: Result<Response>)
    requires Inv(s) && client in s.handlers
    requires reply.Success? ==> ReplyOk(s.disk, Reply(id, reply.value))
    ensures Inv(Finish(s, client, id, reply))
  {
    MoveHandler(s, client, Closed);
    SameDisk(SetPhase(s, client, Closed), Finish(s, client, id, reply));
  }

  /** A merged result that is final has been persisted as the terminal reply. */
  lemma FinishOrPollKeeps(s: State, client: nat, id: string, snapshot: Entry, result: Option<Response>)
    requires Inv(s) && client in s.handlers && Controls(s.handlers[client].request)
    requires Readable(s.disk, id)
    requires result.Some? ==> ReplyOk(s.disk, Reply(id, result.value))
    ensures Inv(FinishOrPoll(s, client, id, snapshot, result))
  {
    match Conclude(id, s.handlers[client].request, snapshot, result)
    case Some(response) => FinishKeeps(s, client, id, Success(response));
    case None => MoveHandler(s, client, Polling(id));
  }

  lemma ConnectKeeps(s: State, client: nat, request: Request)
    requires Inv(s)
    ensures Inv(DoConnect(s, client, request))
  {
    var t := DoConnect(s, client, request);
    if t != s {
      assert |t.handlers| == |s.handlers| + 1;
      SameDisk(s, t);
    }
  }

  lemma BeginKeeps(s: State, client: nat)
    requires Inv(s)
    ensures Inv(DoBegin(s, client))
  {
    if DoBegin(s, client) != s {
      MoveHandler(s, client, DoBegin(s, client).handlers[client].phase);
      assert DoBegin(s, client).handlers[client] == s.handlers[client].(phase := DoBegin(s, client).handlers[client].phase);
    }
  }

  lemma LeaveKeeps(s: State, client: nat)
    requires Inv(s)
    ensures Inv(DoLeave(s, client))
  {
    if DoLeave(s, client) != s {
      FewerHandlers(s.disk, s.handlers, s.active, client);
      SameDisk(s, DoLeave(s, client));
    }
  }

  lemma FewerHandlers(disk: Disk, handlers: map<nat, Handler>, active: nat, client: nat)
    requires HandlersOk(disk, handlers, active) && client in handlers && active > 0
    ensures HandlersOk(disk, handlers - {client}, active - 1)
  {
    assert handlers.Keys == (handlers - {client}).Keys + {client};
    assert |handlers.Keys| == |(handlers - {client}).Keys| + 1;
  }

  lemma AskKeeps(s: State, client: nat, exchange: Exchange)
    requires Inv(s)
    ensures Inv(DoAsk(s, client, exchange))
  {
    if DoAsk(s, client, exchange) != s {
      var Handler(request, Exchanging(id, snapshot)) := s.handlers[client];
      ForwardGrows(s.disk, s.receiver, ActionRequest(request, snapshot.upstream.value), exchange);
      var told := s.(receiver := Forward(s.receiver, ActionRequest(request, snapshot.upstream.value), exchange).0);
      SameDisk(s, told);
      MoveHandler(told, client, DoAsk(s, client, exchange).handlers[client].phase);
    }
  }

  lemma StartPassKeeps(s: State, paths: seq<string>)
    requires Inv(s)
    ensures Inv(DoStartPass(s, paths))
  {
  }

  lemma PickKeeps(s: State)
    requires Inv(s)
    ensures Inv(DoPick(s))
  {
    if DoPick(s) != s {
      PickedCarries(s);
      SameDisk(s, DoPick(s));
    }
  }

  /** What the worker skips is settled, and what it picks up is the entry's own undelivered work. */
  lemma PickedCarries(s: State)
    requires Inv(s)
    ensures WorkerOk(s.disk, s.receiver, DoPick(s).worker)
  {
    if s.worker.Pass? && s.worker.phase.Picking? && s.worker.index < |s.worker.paths| {
      var path := s.worker.paths[s.worker.index];
      if Readable(s.disk, path) {
        assert EntryOk(path, s.disk[path].entry, s.receiver, s.localHides);
      }
    }
  }

  lemma TransmitKeeps(s: State, exchange: Exchange)
    requires Inv(s)
    ensures Inv(DoTransmit(s, exchange))
  {
    if s.worker.Pass? && s.worker.phase.Sending? {
      var path := s.worker.paths[s.worker.index];
      assert EntryOk(path, s.disk[path].entry, s.receiver, s.localHides);
      ForwardGrows(s.disk, s.receiver, s.worker.phase.request, exchange);
      SentIsBacked(s, path, exchange);
      SameDisk(s, DoTransmit(s, exchange));
    }
  }

  /** An acceptable answer to what the worker sends is backed by the receiver. */
  lemma SentIsBacked(s: State, path: string, exchange: Exchange)
    requires Inv(s) && s.worker.Pass? && s.worker.phase.Sending? && path == s.worker.paths[s.worker.index]
    requires EntryOk(path, s.disk[path].entry, s.receiver, s.localHides)
    ensures var request := s.worker.phase.request;
            var (receiver, reply) := Forward(s.receiver, request, exchange);
            reply.Success? && Acceptable(request, reply.value) ==> Backed(receiver, path, request, reply.value)
  {
  }

  lemma RestartKeeps(s: State)
    requires Inv(s)
    ensures Inv(DoRestart(s))
  {
  }

  // ---- steps that write one queue file

  /** One file is written: its new entry extends the old one and is sound, and unless the worker wrote
      it, the delivery fields stay as they are. */
  predicate Extends(before: Entry, after: Entry) {
    && after.request == before.request
    && (before.upstream.Some? ==> after.upstream == before.upstream)
    && (before.terminal.Some? ==> after.terminal == before.terminal)
  }

  lemma WriteKeepsDisk(disk: Disk, rc: Receiver, hides: set<string>, id: string, e: Entry, hides': set<string>)
    requires DiskOk(disk, rc, hides) && Readable(disk, id)
    requires hides' == hides || hides' == hides + {id}
    requires EntryOk(id, e, rc, hides')
    ensures DiskOk(disk[id := Record(e)], rc, hides')
  {
    var after := disk[id := Record(e)];
    forall other | Readable(after, other) ensures EntryOk(other, after[other].entry, rc, hides') {
      if other != id {
        assert EntryOk(other, disk[other].entry, rc, hides);
      }
    }
  }

  lemma WriteKeepsHandlers(disk: Disk, handlers: map<nat, Handler>, active: nat, id: string, e: Entry)
    requires HandlersOk(disk, handlers, active) && Readable(disk, id)
    requires Extends(disk[id].entry, e)
    ensures HandlersOk(disk[id := Record(e)], handlers, active)
  {
    forall client <- handlers ensures HandlerOk(disk[id := Record(e)], handlers[client]) {
      assert HandlerOk(disk, handlers[client]);
    }
  }

  lemma WriteKeepsReplies(disk: Disk, replies: set<Reply>, id: string, e: Entry)
    requires RepliesOk(disk, replies) && Readable(disk, id)
    requires Extends(disk[id].entry, e)
    ensures RepliesOk(disk[id := Record(e)], replies)
  {
    forall r <- replies ensures ReplyOk(disk[id := Record(e)], r) {
      assert ReplyOk(disk, r);
    }
  }

  lemma WriteKeepsReceiver(disk: Disk, rc: Receiver, id: string, e: Entry)
    requires ReceiverOk(disk, rc) && Readable(disk, id)
    requires Extends(disk[id].entry, e)
    ensures ReceiverOk(disk[id := Record(e)], rc)
    ensures Grows(disk, disk[id := Record(e)])
  {
  }

  lemma WriteKeeps(s: State, id: string, e: Entry, hides: set<string>, w: Worker)
    requires Inv(s) && Readable(s.disk, id)
    requires Extends(s.disk[id].entry, e)
    requires hides == s.localHides || hides == s.localHides + {id}
    requires EntryOk(id, e, s.receiver, hides)
    requires WorkerOk(s.disk[id := Record(e)], s.receiver, w)
    ensures Inv(s.(disk := s.disk[id := Record(e)], localHides := hides, worker := w))
    ensures Grows(s.disk, s.disk[id := Record(e)])
  {
    WriteKeepsDisk(s.disk, s.receiver, s.localHides, id, e, hides);
    WriteKeepsHandlers(s.disk, s.handlers, s.active, id, e);
    WriteKeepsReplies(s.disk, s.replies, id, e);
    WriteKeepsReceiver(s.disk, s.receiver, id, e);
  }

  lemma WorkerKeptByHandler(s: State, id: string, e: Entry)
    requires Inv(s) && Readable(s.disk, id)
    requires Extends(s.disk[id].entry, e)
    requires e.upstream == s.disk[id].entry.upstream && e.pendingHide == s.disk[id].entry.pendingHide
    ensures WorkerOk(s.disk[id := Record(e)], s.receiver, s.worker)
  {
    if s.worker.Pass? {
      forall j | 0 <= j < s.worker.index ensures Settled(s.disk[id := Record(e)], s.worker.paths[j]) {
        assert Settled(s.disk, s.worker.paths[j]);
      }
    }
  }

  lemma HandlerWriteKeeps(s: State, id: string, e: Entry, hides: set<string>)
    requires Inv(s) && Readable(s.disk, id)
    requires Extends(s.disk[id].entry, e)
    requires e.upstream == s.disk[id].entry.upstream && e.pendingHide == s.disk[id].entry.pendingHide
    requires hides == s.localHides || hides == s.localHides + {id}
    requires EntryOk(id, e, s.receiver, hides)
    ensures Inv(s.(disk := s.disk[id := Record(e)], localHides := hides))
    ensures Grows(s.disk, s.disk[id := Record(e)])
  {
    WorkerKeptByHandler(s, id, e);
    WriteKeeps(s, id, e, hides, s.worker);
  }

  lemma NewFileKeeps(s: State, path: string, file: File)
    requires Inv(s) && path !in s.disk
    requires file.Record? ==>
               && IsCreation(file.entry.request.command)
               && file.entry == NewEntry(file.entry.request)
               && file.entry.request.taskId == Some(path)
    ensures Inv(s.(disk := s.disk[path := file]))
    ensures Grows(s.disk, s.disk[path := file])
  {
    var disk := s.disk[path := file];
    assert path !in s.localHides && path !in s.receiver.receipts;
    if s.worker.Pass? {
      forall j | 0 <= j < s.worker.index ensures Settled(disk, s.worker.paths[j]) {
        assert Settled(s.disk, s.worker.paths[j]) && s.worker.paths[j] in s.disk;
      }
    }
    forall r <- s.replies ensures ReplyOk(disk, r) {
      assert ReplyOk(s.disk, r);
    }
  }

  lemma EnqueueKeeps(s: State, client: nat, id: string, saved: bool)
    requires Inv(s)
    ensures Inv(DoEnqueue(s, client, id, saved))
    ensures Grows(s.disk, DoEnqueue(s, client, id, saved).disk)
  {
    if DoEnqueue(s, client, id, saved) != s {
      var request := s.handlers[client].request;
      if InvalidLegacyCreation(request) || !saved {
        MoveHandler(s, client, Closed);
      } else {
        var file := Record(NewEntry(request.(sync := false, taskId := Some(id))));
        NewFileKeeps(s, id, file);
        var queued := s.(disk := s.disk[id := file]);
        if request.sync {
          var waiter := Handler(request.(command := "wait", sync := false, taskId := Some(id)), Polling(id));
          PhaseKeepsCount(queued, client, waiter);
          SameDisk(queued, DoEnqueue(s, client, id, saved));
        } else {
          FinishKeeps(queued, client, id, Success(Answer(id, "pending")));
        }
      }
    }
  }

  lemma InheritKeeps(s: State, path: string, file: File)
    requires Inv(s)
    ensures Inv(DoInherit(s, path, file))
    ensures Grows(s.disk, DoInherit(s, path, file).disk)
  {
    if DoInherit(s, path, file) != s {
      NewFileKeeps(s, path, file);
    }
  }

  /** An entry that the receiver does not know yet is hidden by its own terminal reply. */
  lemma HideKeeps(s: State, client: nat, id: string, response: Response)
    requires Inv(s) && client in s.handlers && Readable(s.disk, id)
    requires s.disk[id].entry.terminal.None? && s.disk[id].entry.upstream.None?
    requires response == LocalHide(id, s.disk[id].entry)
    ensures var disk := s.disk[id := Record(s.disk[id].entry.(terminal := Some(response)))];
            var hid := s.(disk := disk, localHides := s.localHides + {id});
            Inv(Finish(hid, client, id, Success(response))) && Grows(s.disk, Finish(hid, client, id, Success(response)).disk)
  {
    assert EntryOk(id, s.disk[id].entry, s.receiver, s.localHides);
    var e := s.disk[id].entry.(terminal := Some(response));
    HandlerWriteKeeps(s, id, e, s.localHides + {id});
    FinishKeeps(s.(disk := s.disk[id := Record(e)], localHides := s.localHides + {id}), client, id, Success(response));
  }

  /** What the first hold of the mutex can come to, for a readable entry. */
  lemma LoadOutcomes(disk: Disk, id: string, request: Request, saved: bool)
    ensures var (after, outcome) := HandlerLoad(disk, id, request, saved);
            match outcome
            case Refused(reply) =>
              reply.Success? ==> Readable(disk, id) && disk[id].entry.terminal == Some(reply.value)
            case Hid(response) =>
              && Readable(disk, id) && disk[id].entry.terminal.None? && disk[id].entry.upstream.None?
              && response == LocalHide(id, disk[id].entry)
              && after == disk[id := Record(disk[id].entry.(terminal := Some(response)))]
            case Snapshot(entry) => Readable(disk, id) && entry == disk[id].entry && entry.terminal.None?
  {
  }

  lemma LoadKeeps(s: State, client: nat, saved: bool)
    requires Inv(s)
    ensures Inv(DoLoad(s, client, saved))
    ensures Grows(s.disk, DoLoad(s, client, saved).disk)
  {
    if client in s.handlers && s.handlers[client].phase.Polling? {
      var Handler(request, Polling(id)) := s.handlers[client];
      assert HandlerOk(s.disk, s.handlers[client]);
      LoadOutcomes(s.disk, id, request, saved);
      match HandlerLoad(s.disk, id, request, saved).1
      case Refused(reply) => FinishKeeps(s, client, id, reply);
      case Hid(response) => HideKeeps(s, client, id, response);
      case Snapshot(entry) =>
        assert EntryOk(id, entry, s.receiver, s.localHides);
        if entry.upstream.Some? {
          MoveHandler(s, client, Exchanging(id, entry));
        } else {
          FinishOrPollKeeps(s, client, id, entry, entry.latest);
        }
    }
  }

  lemma StoreKeeps(s: State, client: nat, saves: nat)
    requires Inv(s)
    ensures Inv(DoStore(s, client, saves))
    ensures Grows(s.disk, DoStore(s, client, saves).disk)
  {
    if client in s.handlers && s.handlers[client].phase.Answered? {
      var Handler(request, Answered(id, snapshot, result)) := s.handlers[client];
      assert HandlerOk(s.disk, s.handlers[client]);
      var current := s.disk[id].entry;
      assert EntryOk(id, current, s.receiver, s.localHides);
      var (disk, outcome) := HandlerStore(s.disk, id, request, snapshot, result, saves);
      if current.terminal.Some? {
        FinishKeeps(s, client, id, Success(current.terminal.value));
      } else {
        HandlerWriteKeeps(s, id, disk[id].entry, s.localHides);
        var stored := s.(disk := disk);
        assert stored == s.(disk := s.disk[id := Record(disk[id].entry)], localHides := s.localHides);
        match outcome
        case Replied(reply) => FinishKeeps(stored, client, id, reply);
        case Merged(merged) => FinishOrPollKeeps(stored, client, id, snapshot, merged);
      }
    }
  }

  lemma SettleKeeps(s: State, saved: bool)
    requires Inv(s)
    ensures Inv(DoSettle(s, saved))
    ensures Grows(s.disk, DoSettle(s, saved).disk)
  {
    if s.worker.Pass? && s.worker.index < |s.worker.paths| {
      var path := s.worker.paths[s.worker.index];
      if Readable(s.disk, path) {
        assert EntryOk(path, s.disk[path].entry, s.receiver, s.localHides);
      }
      if s.worker.phase.Failed? {
        if saved && Readable(s.disk, path) {
          WriteKeeps(s, path, s.disk[path].entry.(deliveryError := Some(s.worker.phase.error)), s.localHides, Resting);
        }
      } else if s.worker.phase.Acknowledged? {
        AckKeeps(s, saved);
      }
    }
  }

  lemma PassGoesOn(disk: Disk, rc: Receiver, paths: seq<string>, index: nat, phase: WorkerPhase, id: string, e: Entry)
    requires WorkerOk(disk, rc, Pass(paths, index, phase)) && index < |paths|
    requires id == paths[index] && Readable(disk, id) && Extends(disk[id].entry, e)
    requires e.upstream.Some? || e.terminal.Some?
    ensures WorkerOk(disk[id := Record(e)], rc, Pass(paths, index + 1, Picking))
  {
    forall j | 0 <= j < index + 1 ensures Settled(disk[id := Record(e)], paths[j]) {
      assert j < index ==> Settled(disk, paths[j]);
    }
  }

  /** The entry that the worker's second hold of the mutex writes is sound. */
  lemma DeliveredOk(s: State, path: string, request: Request, response: Response, e: Entry)
    requires Inv(s)
    requires Carries(s.disk, path, request) && Backed(s.receiver, path, request, response)
    requires e == if request.command == "hide" then s.disk[path].entry.(deliveryError := None, pendingHide := false)
                  else Delivered(path, s.disk[path].entry, response)
    ensures EntryOk(path, e, s.receiver, s.localHides)
    ensures Extends(s.disk[path].entry, e)
    ensures e.upstream.Some? || e.terminal.Some?
  {
    assert EntryOk(path, s.disk[path].entry, s.receiver, s.localHides);
  }

  /** A hide that was answered but not saved leaves the entry as it is, and the pass goes on. */
  lemma UnsavedHideKeeps(s: State, path: string)
    requires Inv(s) && s.worker.Pass? && s.worker.phase.Acknowledged? && path == s.worker.paths[s.worker.index]
    requires Readable(s.disk, path)
    requires s.disk[path].entry.upstream.Some? || s.disk[path].entry.terminal.Some?
    ensures Inv(s.(worker := Pass(s.worker.paths, s.worker.index + 1, Picking)))
  {
    var current := s.disk[path].entry;
    PassGoesOn(s.disk, s.receiver, s.worker.paths, s.worker.index, s.worker.phase, path, current);
    assert s.disk[path := Record(current)] == s.disk;
    SameDisk(s, s.(worker := Pass(s.worker.paths, s.worker.index + 1, Picking)));
  }

  lemma SavedAckKeeps(s: State, path: string, request: Request, response: Response, e: Entry)
    requires Inv(s) && s.worker.Pass? && s.worker.phase == Acknowledged(request, response)
    requires path == s.worker.paths[s.worker.index] && Readable(s.disk, path)
    requires e == if request.command == "hide" then s.disk[path].entry.(deliveryError := None, pendingHide := false)
                  else Delivered(path, s.disk[path].entry, response)
    ensures var w := Pass(s.worker.paths, s.worker.index + 1, Picking);
            && Inv(s.(disk := s.disk[path := Record(e)], worker := w))
            && Grows(s.disk, s.disk[path := Record(e)])
  {
    DeliveredOk(s, path, request, response, e);
    PassGoesOn(s.disk, s.receiver, s.worker.paths, s.worker.index, s.worker.phase, path, e);
    WriteKeeps(s, path, e, s.localHides, Pass(s.worker.paths, s.worker.index + 1, Picking));
  }

  /** The three ways the worker's second hold can end. */
  lemma AckForms(s: State, saved: bool)
    requires Inv(s) && s.worker.Pass? && s.worker.phase.Acknowledged?
    ensures var Pass(paths, index, Acknowledged(request, response)) := s.worker;
            var path := paths[index];
            var hides := request.command == "hide";
            var e := if hides then s.disk[path].entry.(deliveryError := None, pendingHide := false)
                     else Delivered(path, s.disk[path].entry, response);
            && Readable(s.disk, path)
            && (hides ==> s.disk[path].entry.upstream.Some?)
            && DoSettle(s, saved)
               == if saved then s.(disk := s.disk[path := Record(e)], worker := Pass(paths, index + 1, Picking))
                  else s.(worker := if hides then Pass(paths, index + 1, Picking) else Resting)
  {
  }

  lemma AckKeeps(s: State, saved: bool)
    requires Inv(s)
    requires s.worker.Pass? && s.worker.phase.Acknowledged?
    ensures Inv(DoSettle(s, saved))
    ensures Grows(s.disk, DoSettle(s, saved).disk)
  {
    var Pass(paths, index, Acknowledged(request, response)) := s.worker;
    var path := paths[index];
    AckForms(s, saved);
    var e := if request.command == "hide" then s.disk[path].entry.(deliveryError := None, pendingHide := false)
             else Delivered(path, s.disk[path].entry, response);
    GrowsReflexive(s.disk);
    if saved {
      SavedAckKeeps(s, path, request, response, e);
    } else if request.command == "hide" {
      UnsavedHideKeeps(s, path);
    } else {
      SameDisk(s, DoSettle(s, saved));
    }
  }

  lemma GrowsReflexive(disk: Disk)
    ensures Grows(disk, disk)
  {
  }

  predicate ByClient(a: Action) {
    a.Connect? || a.Enqueue? || a.Begin? || a.LoadEntry? || a.Ask? || a.Store? || a.Leave?
  }

  lemma ClientStepKeeps(s: State, a: Action)
    requires Inv(s) && ByClient(a)
    ensures Inv(Step(s, a))
    ensures Grows(s.disk, Step(s, a).disk)
  {
    GrowsReflexive(s.disk);
    match a
    case Connect(client, request) => ConnectKeeps(s, client, request);
    case Enqueue(client, id, saved) => EnqueueKeeps(s, client, id, saved);
    case Begin(client) => BeginKeeps(s, client);
    case LoadEntry(client, saved) => LoadKeeps(s, client, saved);
    case Ask(client, exchange) => AskKeeps(s, client, exchange);
    case Store(client, saves) => StoreKeeps(s, client, saves);
    case Leave(client) => LeaveKeeps(s, client);
  }

  /** Every step keeps the invariant, and only adds to the queue. */
  lemma StepKeeps(s: State, a: Action)
    requires Inv(s)
    ensures Inv(Step(s, a))
    ensures Grows(s.disk, Step(s, a).disk)
  {
    GrowsReflexive(s.disk);
    match a
    case Inherit(path, file) => InheritKeeps(s, path, file);
    case StartPass(paths) => StartPassKeeps(s, paths);
    case Pick => PickKeeps(s);
    case Transmit(exchange) => TransmitKeeps(s, exchange);
    case Settle(saved) => SettleKeeps(s, saved);
    case Restart => RestartKeeps(s);
    case _ => ClientStepKeeps(s, a);
  }
}
