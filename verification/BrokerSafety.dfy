/** What every run of the queue protocol guarantees: agreement on final replies, clean-up of hides that
    race a delivery, queue order, and one presentation per entry. */
module BrokerSafety {
  import opened Wrappers
  import opened BrokerQueue
  import opened QueueOrder
  import opened BrokerProtocol
  import opened BrokerInvariant

  /** The receiver hides a task only for an entry that recorded it as its `upstream`. */
  ghost predicate HiddenAreMapped(disk: Disk, rc: Receiver) {
    forall id | id in rc.receipts && rc.receipts[id].task in rc.hidden ::
      Readable(disk, id) && disk[id].entry.upstream == Some(rc.receipts[id].task)
  }

  predicate InOrder(paths: seq<string>) {
    forall i, j :: 0 <= i < j < |paths| ==> paths[i] != paths[j] && !Before(OrderOf(paths[j]), OrderOf(paths[i]))
  }

  /** Only tasks that exist are hidden. */
  predicate HidesTasks(rc: Receiver) {
    rc.hidden <= (set id <- rc.receipts :: rc.receipts[id].task)
  }

  ghost predicate Sound(s: State) {
    && Inv(s)
    && HiddenAreMapped(s.disk, s.receiver)
    && (s.worker.Pass? ==> InOrder(s.worker.paths))
    && HidesTasks(s.receiver)
  }

  lemma GrowsKeepsMapped(before: Disk, after: Disk, rc: Receiver)
    requires Grows(before, after) && HiddenAreMapped(before, rc)
    ensures HiddenAreMapped(after, rc)
  {
    forall id | id in rc.receipts && rc.receipts[id].task in rc.hidden
      ensures Readable(after, id) && after[id].entry.upstream == Some(rc.receipts[id].task)
    {
      assert Readable(before, id);
    }
  }

  /** What is sent about a readable entry: its own request, or an action on the task it is mapped to. */
  predicate SentFor(s: State, path: string, request: Request) {
    && Readable(s.disk, path)
    && (request.command == "hide" ==>
          s.disk[path].entry.upstream.Some? && request.taskId == s.disk[path].entry.upstream)
    && (IsCreation(request.command) && request.taskId.Some? ==> request == s.disk[path].entry.request)
  }

  lemma HideIsMapped(s: State, path: string)
    requires Sound(s) && Readable(s.disk, path) && s.disk[path].entry.upstream.Some?
    ensures var rc := s.receiver.(hidden := s.receiver.hidden + {s.disk[path].entry.upstream.value});
            HiddenAreMapped(s.disk, rc) && HidesTasks(rc)
  {
    assert EntryOk(path, s.disk[path].entry, s.receiver, s.localHides);
    var task := s.disk[path].entry.upstream.value;
    assert s.receiver.receipts[path].task == task;
    forall id | id in s.receiver.receipts && s.receiver.receipts[id].task == task ensures id == path {}
  }

  /** A newly accepted task is not one of the hidden ones. */
  lemma NewTaskIsShown(s: State, id: string, request: Request, task: string)
    requires Sound(s) && id !in s.receiver.receipts && !IsTask(s.receiver, task)
    ensures var rc := s.receiver.(receipts := s.receiver.receipts[id := Receipt(request, task)],
                                  presented := s.receiver.presented + [id]);
            HiddenAreMapped(s.disk, rc) && HidesTasks(rc)
  {
    var rc := s.receiver.(receipts := s.receiver.receipts[id := Receipt(request, task)],
                          presented := s.receiver.presented + [id]);
    assert task !in s.receiver.hidden;
    forall t <- rc.hidden ensures t in (set i <- rc.receipts :: rc.receipts[i].task) {
      var i :| i in s.receiver.receipts && s.receiver.receipts[i].task == t;
      assert rc.receipts[i].task == t;
    }
  }

  lemma ReceiveSound(s: State, path: string, request: Request, proposed: Response)
    requires Sound(s) && SentFor(s, path, request)
    ensures HiddenAreMapped(s.disk, Receive(s.receiver, request, proposed).0) && HidesTasks(Receive(s.receiver, request, proposed).0)
  {
    var rc := Receive(s.receiver, request, proposed).0;
    if rc.receipts != s.receiver.receipts {
      NewTaskIsShown(s, request.taskId.value, request, proposed.taskId);
    } else if rc != s.receiver {
      HideIsMapped(s, path);
    }
  }

  /** Whatever is sent about an entry, only mapped and existing tasks are hidden afterwards. */
  lemma ForwardSound(s: State, path: string, request: Request, exchange: Exchange)
    requires Sound(s) && SentFor(s, path, request)
    ensures var rc := Forward(s.receiver, request, exchange).0; HiddenAreMapped(s.disk, rc) && HidesTasks(rc)
  {
    if !exchange.Unreachable? {
      ReceiveSound(s, path, request, exchange.proposed);
    }
  }

  lemma AskSound(s: State, client: nat, exchange: Exchange)
    requires Sound(s)
    ensures var t := DoAsk(s, client, exchange); HiddenAreMapped(t.disk, t.receiver) && HidesTasks(t.receiver)
  {
    if DoAsk(s, client, exchange) != s {
      var Handler(request, Exchanging(id, snapshot)) := s.handlers[client];
      assert HandlerOk(s.disk, s.handlers[client]);
      ForwardSound(s, id, ActionRequest(request, snapshot.upstream.value), exchange);
    }
  }

  lemma TransmitSound(s: State, exchange: Exchange)
    requires Sound(s)
    ensures var t := DoTransmit(s, exchange); HiddenAreMapped(t.disk, t.receiver) && HidesTasks(t.receiver)
  {
    if DoTransmit(s, exchange) != s {
      var path := s.worker.paths[s.worker.index];
      assert EntryOk(path, s.disk[path].entry, s.receiver, s.localHides);
      ForwardSound(s, path, s.worker.phase.request, exchange);
    }
  }

  lemma StepSound(s: State, a: Action)
    requires Sound(s)
    ensures Sound(Step(s, a))
    ensures Grows(s.disk, Step(s, a).disk)
  {
    StepKeeps(s, a);
    if Step(s, a) == s {
      GrowsKeepsMapped(s.disk, s.disk, s.receiver);
    } else if a.Ask? {
      AskSound(s, a.client, a.exchange);
    } else if a.Transmit? {
      TransmitSound(s, a.exchange);
    } else {
      OtherStepsKeepReceiver(s, a);
      GrowsKeepsMapped(s.disk, Step(s, a).disk, s.receiver);
    }
    PathsStayInOrder(s, a);
  }

  lemma OtherStepsKeepReceiver(s: State, a: Action)
    requires !a.Ask? && !a.Transmit?
    ensures Step(s, a).receiver == s.receiver
  {
  }

  lemma PathsStayInOrder(s: State, a: Action)
    requires s.worker.Pass? ==> InOrder(s.worker.paths)
    ensures Step(s, a).worker.Pass? ==> InOrder(Step(s, a).worker.paths)
  {
  }

  lemma {:induction false} RunSound(s: State, actions: seq<Action>)
    requires Sound(s)
    ensures Sound(Run(s, actions))
    ensures Grows(s.disk, Run(s, actions).disk)
    decreases |actions|
  {
    if actions == [] {
      GrowsReflexive(s.disk);
    } else {
      StepSound(s, actions[0]);
      RunSound(Step(s, actions[0]), actions[1..]);
      GrowsTransitive(s.disk, Step(s, actions[0]).disk, Run(s, actions).disk);
    }
  }

  lemma GrowsTransitive(a: Disk, b: Disk, c: Disk)
    requires Grows(a, b) && Grows(b, c)
    ensures Grows(a, c)
  {
    forall id | Readable(a, id) ensures Readable(c, id) && c[id].entry.request == a[id].entry.request {
      assert Readable(b, id);
    }
  }

  lemma Reachable(actions: seq<Action>)
    ensures Sound(Run(Init, actions))
  {
    RunSound(Init, actions);
  }

  lemma {:induction false} RunAppend(s: State, first: seq<Action>, second: seq<Action>)
    ensures Run(s, first + second) == Run(Run(s, first), second)
    decreases |first|
  {
    if first == [] {
      assert first + second == second;
    } else {
      assert (first + second)[1..] == first[1..] + second;
      RunAppend(Step(s, first[0]), first[1..], second);
    }
  }

  // ---- agreement

  /** Every final reply that any client of a question or review ever got is the persisted one. */
  lemma Agreement(actions: seq<Action>, reply: Reply)
    requires reply in Run(Init, actions).replies
    ensures Readable(Run(Init, actions).disk, reply.id)
    ensures var entry := Run(Init, actions).disk[reply.id].entry;
            Final(reply.response) && Reviewable(entry.request) ==> entry.terminal == Some(reply.response)
  {
    Reachable(actions);
    assert ReplyOk(Run(Init, actions).disk, reply);
  }

  /** In every continuation of every run an entry keeps its request, and the first `upstream` and the
      first `terminal` written to it. */
  lemma WrittenOnce(first: seq<Action>, second: seq<Action>, id: string)
    requires Readable(Run(Init, first).disk, id)
    ensures Readable(Run(Init, first + second).disk, id)
    ensures var before, after := Run(Init, first).disk[id].entry, Run(Init, first + second).disk[id].entry;
            && after.request == before.request
            && (before.upstream.Some? ==> after.upstream == before.upstream)
            && (before.terminal.Some? ==> after.terminal == before.terminal)
  {
    Reachable(first);
    RunAppend(Init, first, second);
    RunSound(Run(Init, first), second);
  }

  /** Two clients, at any two moments, cannot be told different final outcomes. */
  lemma ClientsAgree(first: seq<Action>, second: seq<Action>, early: Reply, late: Reply)
    requires early in Run(Init, first).replies && late in Run(Init, first + second).replies
    requires early.id == late.id && Final(early.response) && Final(late.response)
    requires Readable(Run(Init, first).disk, early.id) && Reviewable(Run(Init, first).disk[early.id].entry.request)
    ensures early.response == late.response
  {
    Agreement(first, early);
    WrittenOnce(first, second, early.id);
    Agreement(first + second, late);
  }

  lemma AtMostMaxClients(actions: seq<Action>)
    ensures |Run(Init, actions).handlers| == Run(Init, actions).active <= MAX_CLIENTS
  {
    Reachable(actions);
  }

  // ---- hides

  /** An entry that was hidden locally and is known to the receiver still has its clean-up pending, or
      the receiver has hidden its task; and a pending clean-up always knows its task. */
  lemma RacingHideIsCleanedUp(actions: seq<Action>, id: string)
    requires Readable(Run(Init, actions).disk, id)
    ensures var s := Run(Init, actions);
            var entry := s.disk[id].entry;
            && (id in s.localHides && entry.upstream.Some? ==> entry.pendingHide || entry.upstream.value in s.receiver.hidden)
            && (entry.pendingHide ==> entry.upstream.Some? && entry.terminal.Some?
                                      && WorkerPick(s.disk, id) == Send(HideRequest(entry.upstream.value)))
  {
    Reachable(actions);
    var s := Run(Init, actions);
    assert EntryOk(id, s.disk[id].entry, s.receiver, s.localHides);
  }

  /** The worker is between its two holds of the mutex for this file. */
  predicate InFlight(w: Worker, id: string) {
    w.Pass? && !w.phase.Picking? && w.index < |w.paths| && w.paths[w.index] == id
  }

  predicate GivenUp(s: State, id: string) {
    && Readable(s.disk, id)
    && s.disk[id].entry.terminal.Some?
    && s.disk[id].entry.upstream.None?
    && !InFlight(s.worker, id)
  }

  /** Only the worker's second hold of the mutex writes an `upstream`. */
  lemma HandlersNeverMap(s: State, a: Action, id: string)
    requires Readable(s.disk, id) && !a.Settle?
    ensures Readable(Step(s, a).disk, id)
    ensures Step(s, a).disk[id].entry.upstream == s.disk[id].entry.upstream
  {
    match a
    case LoadEntry(client, saved) =>
    case Store(client, saves) =>
    case Enqueue(client, other, saved) =>
    case Inherit(path, file) =>
    case _ =>
  }

  lemma SettleMapsOnlyInFlight(s: State, saved: bool, id: string)
    requires Sound(s) && Readable(s.disk, id) && !InFlight(s.worker, id)
    ensures Readable(DoSettle(s, saved).disk, id)
    ensures DoSettle(s, saved).disk[id] == s.disk[id]
  {
  }

  lemma NotPickedUp(s: State, a: Action, id: string)
    requires Sound(s) && GivenUp(s, id)
    ensures !InFlight(Step(s, a).worker, id)
  {
    assert EntryOk(id, s.disk[id].entry, s.receiver, s.localHides);
  }

  lemma GivenUpStep(s: State, a: Action, id: string)
    requires Sound(s) && GivenUp(s, id)
    ensures GivenUp(Step(s, a), id)
  {
    StepSound(s, a);
    NotPickedUp(s, a, id);
    if a.Settle? {
      SettleMapsOnlyInFlight(s, a.saved, id);
    } else {
      HandlersNeverMap(s, a, id);
    }
  }

  lemma {:induction false} GivenUpRun(s: State, actions: seq<Action>, id: string)
    requires Sound(s) && GivenUp(s, id)
    ensures Sound(Run(s, actions)) && GivenUp(Run(s, actions), id)
    decreases |actions|
  {
    if actions != [] {
      GivenUpStep(s, actions[0], id);
      StepSound(s, actions[0]);
      GivenUpRun(Step(s, actions[0]), actions[1..], id);
    }
  }

  /** Exactly the locally hidden entries whose delivery was persisted are cleaned up: while the worker
      is not delivering it, such an entry is hidden at the receiver or its hide is the next thing to be
      sent for it if and only if it has an `upstream`. */
  lemma CleanedUpExactlyWhenMapped(actions: seq<Action>, id: string)
    requires id in Run(Init, actions).localHides
    requires !InFlight(Run(Init, actions).worker, id)
    ensures Readable(Run(Init, actions).disk, id)
    ensures var s := Run(Init, actions);
            s.disk[id].entry.upstream.Some? <==>
            (|| (id in s.receiver.receipts && s.receiver.receipts[id].task in s.receiver.hidden)
             || (id in s.receiver.receipts && WorkerPick(s.disk, id) == Send(HideRequest(s.receiver.receipts[id].task))))
  {
    Reachable(actions);
    var s := Run(Init, actions);
    assert EntryOk(id, s.disk[id].entry, s.receiver, s.localHides);
  }

  /** The other half: without an `upstream` a locally hidden entry stays on the receiver's screen in every
      continuation. */
  lemma UnmappedStaysPresented(first: seq<Action>, second: seq<Action>, id: string)
    requires id in Run(Init, first).localHides && !InFlight(Run(Init, first).worker, id)
    requires Readable(Run(Init, first).disk, id) && Run(Init, first).disk[id].entry.upstream.None?
    ensures var t := Run(Init, first + second);
            && Readable(t.disk, id) && t.disk[id].entry.upstream.None?
            && (id in t.receiver.receipts ==> t.receiver.receipts[id].task !in t.receiver.hidden)
  {
    Reachable(first);
    var s := Run(Init, first);
    assert EntryOk(id, s.disk[id].entry, s.receiver, s.localHides);
    RunAppend(Init, first, second);
    GivenUpRun(s, second, id);
  }

  function LostAckRun(request: Request, id: string, task: string): seq<Action> {
    [Connect(0, request), Enqueue(0, id, true), StartPass([id])]
    + ([Pick, Transmit(LostReply(Answer(task, "pending"))), Settle(true)]
       + [Connect(1, HideRequest(id)), Begin(1), LoadEntry(1, true)])
  }

  /** The queue after an alert was accepted but its acknowledgment was lost. */
  function LostAckState(request: Request, id: string, task: string): State {
    var queued := request.(sync := false, taskId := Some(id));
    State(map[id := Record(NewEntry(queued).(deliveryError := Some("upstream reply lost")))],
          map[0 := Handler(request, Closed)], 1, Resting,
          Receiver(map[id := Receipt(queued, task)], [id], {}), {Reply(id, Answer(id, "pending"))}, {})
  }

  lemma LostAckQueued(request: Request, id: string)
    requires request.command == "alert" && !request.sync && !InvalidLegacyCreation(request)
    ensures var queued := request.(sync := false, taskId := Some(id));
            Run(Init, [Connect(0, request), Enqueue(0, id, true), StartPass([id])])
            == State(map[id := Record(NewEntry(queued))], map[0 := Handler(request, Closed)], 1, Pass([id], 0, Picking),
                     Init.receiver, {Reply(id, Answer(id, "pending"))}, {})
  {
    var queued := request.(sync := false, taskId := Some(id));
    var disk := map[id := Record(NewEntry(queued))];
    assert Listing(disk, [id]) by {
      assert (set path <- [id]) == {id};
    }
    Unfold(Init, [Connect(0, request), Enqueue(0, id, true), StartPass([id])]);
    var s2 := DoEnqueue(DoConnect(Init, 0, request), 0, id, true);
    assert s2.disk == disk && s2.handlers == map[0 := Handler(request, Closed)];
  }

  lemma LostAckDelivery(request: Request, id: string, task: string)
    requires request.command == "alert" && !request.sync && !InvalidLegacyCreation(request)
    requires task != ""
    ensures Run(Init, [Connect(0, request), Enqueue(0, id, true), StartPass([id])]
                      + [Pick, Transmit(LostReply(Answer(task, "pending"))), Settle(true)])
         == LostAckState(request, id, task)
  {
    var enqueue := [Connect(0, request), Enqueue(0, id, true), StartPass([id])];
    var deliver := [Pick, Transmit(LostReply(Answer(task, "pending"))), Settle(true)];
    var queued := request.(sync := false, taskId := Some(id));
    LostAckQueued(request, id);
    var s3 := Run(Init, enqueue);
    var s4 := DoPick(s3);
    assert s4.worker == Pass([id], 0, Sending(queued));
    var s5 := DoTransmit(s4, LostReply(Answer(task, "pending")));
    assert s5.receiver == Receiver(map[id := Receipt(queued, task)], [id], {});
    Unfold(s3, deliver);
    RunAppend(Init, enqueue, deliver);
    assert DoSettle(s5, true).disk == LostAckState(request, id, task).disk;
  }

  /** Hiding the alert then only marks its record: the entry has no `upstream` to send the hide to. */
  lemma LostAckHidden(request: Request, id: string, task: string)
    requires request.command == "alert"
    ensures var s := LostAckState(request, id, task);
            var t := Run(s, [Connect(1, HideRequest(id)), Begin(1), LoadEntry(1, true)]);
            && t.localHides == {id} && t.receiver == s.receiver && t.worker == Resting
            && Readable(t.disk, id) && t.disk[id].entry.upstream.None?
  {
    var s := LostAckState(request, id, task);
    Unfold(s, [Connect(1, HideRequest(id)), Begin(1), LoadEntry(1, true)]);
    var s1 := DoConnect(s, 1, HideRequest(id));
    assert s1 == s.(handlers := s.handlers[1 := Handler(HideRequest(id), Accepted)], active := 2);
    var s2 := DoBegin(s1, 1);
    assert s2 == s.(handlers := s.handlers[1 := Handler(HideRequest(id), Polling(id))], active := 2);
  }

  /** The run outside the guarantee: an alert is accepted, its acknowledgment is lost, and then it is
      hidden. The receiver goes on presenting it. */
  lemma LostAcknowledgmentLeavesItPresented(request: Request, id: string, task: string, second: seq<Action>)
    requires request.command == "alert" && !request.sync && !InvalidLegacyCreation(request)
    requires task != ""
    ensures var t := Run(Init, LostAckRun(request, id, task) + second);
            && id in t.localHides && id in t.receiver.receipts
            && t.receiver.receipts[id].task == task && task !in t.receiver.hidden
  {
    var delivery := [Connect(0, request), Enqueue(0, id, true), StartPass([id])]
                    + [Pick, Transmit(LostReply(Answer(task, "pending"))), Settle(true)];
    var hiding := [Connect(1, HideRequest(id)), Begin(1), LoadEntry(1, true)];
    LostAckDelivery(request, id, task);
    RunAppend(Init, delivery, hiding);
    assert LostAckRun(request, id, task) == delivery + hiding;
    LostAckHidden(request, id, task);
    GivenUpForGood(delivery + hiding, second, id);
  }

  /** Hidden locally and unmapped with a receipt: its task is the same and presented in every continuation. */
  lemma GivenUpForGood(first: seq<Action>, second: seq<Action>, id: string)
    requires id in Run(Init, first).localHides && !InFlight(Run(Init, first).worker, id)
    requires Readable(Run(Init, first).disk, id) && Run(Init, first).disk[id].entry.upstream.None?
    requires id in Run(Init, first).receiver.receipts
    ensures var s, t := Run(Init, first), Run(Init, first + second);
            && id in t.localHides && id in t.receiver.receipts
            && t.receiver.receipts[id].task == s.receiver.receipts[id].task
            && t.receiver.receipts[id].task !in t.receiver.hidden
  {
    UnmappedStaysPresented(first, second, id);
    RunAppend(Init, first, second);
    Reachable(first);
    HistoryGrows(Run(Init, first), second);
  }

  lemma Unfold(s: State, actions: seq<Action>)
    requires |actions| == 3
    ensures Run(s, actions) == Step(Step(Step(s, actions[0]), actions[1]), actions[2])
  {
    var s1, s2 := Step(s, actions[0]), Step(Step(s, actions[0]), actions[1]);
    assert Run(s, actions) == Run(s1, actions[1..]);
    assert Run(s1, actions[1..]) == Run(s2, actions[1..][1..]);
    assert Run(s2, actions[1..][1..]) == Run(Step(s2, actions[2]), actions[1..][1..][1..]);
  }

  lemma ForwardHistory(s: State, path: string, request: Request, exchange: Exchange)
    requires Inv(s) && Readable(s.disk, path)
    requires IsCreation(request.command) ==> request == s.disk[path].entry.request
    ensures ReceiverGrows(s.receiver, Forward(s.receiver, request, exchange).0)
  {
    assert EntryOk(path, s.disk[path].entry, s.receiver, s.localHides);
    ForwardGrows(s.disk, s.receiver, request, exchange);
  }

  lemma HistoryStep(s: State, a: Action)
    requires Inv(s)
    ensures ReceiverGrows(s.receiver, Step(s, a).receiver)
    ensures s.localHides <= Step(s, a).localHides
  {
    if Step(s, a) == s {
    } else if a.Transmit? {
      ForwardHistory(s, s.worker.paths[s.worker.index], s.worker.phase.request, a.exchange);
    } else if a.Ask? {
      var Handler(request, Exchanging(id, snapshot)) := s.handlers[a.client];
      assert HandlerOk(s.disk, s.handlers[a.client]);
      ForwardHistory(s, id, ActionRequest(request, snapshot.upstream.value), a.exchange);
    } else {
      OtherStepsKeepReceiver(s, a);
      OtherStepsKeepHides(s, a);
    }
  }

  lemma OtherStepsKeepHides(s: State, a: Action)
    requires !a.Ask? && !a.Transmit?
    ensures s.localHides <= Step(s, a).localHides
  {
  }

  /** Receipts and the record of local hides are never taken back. */
  lemma {:induction false} HistoryGrows(s: State, actions: seq<Action>)
    requires Sound(s)
    ensures ReceiverGrows(s.receiver, Run(s, actions).receiver)
    ensures s.localHides <= Run(s, actions).localHides
    decreases |actions|
  {
    if actions != [] {
      var t := Step(s, actions[0]);
      StepSound(s, actions[0]);
      HistoryStep(s, actions[0]);
      HistoryGrows(t, actions[1..]);
    }
  }

  // ---- order and single presentation

  lemma AcceptedEntry(s: State, exchange: Exchange)
    requires Inv(s) && DoTransmit(s, exchange).receiver.presented != s.receiver.presented
    ensures s.worker.Pass? && s.worker.index < |s.worker.paths|
    ensures DoTransmit(s, exchange).receiver.presented == s.receiver.presented + [s.worker.paths[s.worker.index]]
  {
    var path := s.worker.paths[s.worker.index];
    assert EntryOk(path, s.disk[path].entry, s.receiver, s.localHides);
  }

  /** When a pass gets an entry accepted, every readable entry of that pass's listing that is older in
      queue order is already settled, and so is every one listed before it. */
  lemma AcceptedInQueueOrder(actions: seq<Action>, exchange: Exchange)
    requires Step(Run(Init, actions), Transmit(exchange)).receiver.presented != Run(Init, actions).receiver.presented
    ensures var s, t := Run(Init, actions), Step(Run(Init, actions), Transmit(exchange));
            && s.worker.Pass? && s.worker.index < |s.worker.paths|
            && t.receiver.presented == s.receiver.presented + [s.worker.paths[s.worker.index]]
            && forall j :: 0 <= j < |s.worker.paths|
                 && (j < s.worker.index || Before(OrderOf(s.worker.paths[j]), OrderOf(s.worker.paths[s.worker.index])))
                 ==> Settled(s.disk, s.worker.paths[j])
  {
    Reachable(actions);
    var s := Run(Init, actions);
    AcceptedEntry(s, exchange);
    forall j | 0 <= j < |s.worker.paths| && Before(OrderOf(s.worker.paths[j]), OrderOf(s.worker.paths[s.worker.index]))
      ensures j < s.worker.index
    {
      assert j != s.worker.index;
    }
  }

  /** Sending an accepted entry again, after a lost acknowledgment or a restart, reaches the same task and
      presents nothing: the receiver recognizes the unchanged request. */
  lemma ResendIsRecognized(actions: seq<Action>, proposed: Response, id: string)
    requires var s := Run(Init, actions);
             && s.worker.Pass? && s.worker.index < |s.worker.paths|
             && s.worker.phase.Sending? && s.worker.phase.request.command != "hide"
             && s.worker.paths[s.worker.index] == id && id in s.receiver.receipts
    requires !IsError(proposed)
    ensures var s, t := Run(Init, actions), Step(Run(Init, actions), Transmit(Delivery(proposed)));
            && t.receiver == s.receiver
            && t.worker.Pass? && t.worker.phase.Acknowledged?
            && t.worker.phase.response.taskId == s.receiver.receipts[id].task
  {
    Reachable(actions);
    var s := Run(Init, actions);
    assert EntryOk(id, s.disk[id].entry, s.receiver, s.localHides);
  }

  /** Whatever was ever accepted and presented is of its entry's own stored request, across restarts and
      repeated deliveries, so an entry has one presentation. */
  lemma PresentedOnce(actions: seq<Action>)
    ensures var s := Run(Init, actions);
            && (forall id <- s.receiver.presented ::
                  id in s.receiver.receipts && Readable(s.disk, id)
                  && s.receiver.receipts[id].request == s.disk[id].entry.request)
            && forall i, j :: 0 <= i < j < |s.receiver.presented| ==> s.receiver.presented[i] != s.receiver.presented[j]
  {
    Reachable(actions);
  }
}
