/** The command whose retry is refused, src/cli_request.rs:26: a supervised `reopen` waits for a guard that its
    wire form does not name. */
module GuardedReopen {
  import opened Wrappers
  import opened GuardedCommand
  import opened GuardedReplay
  import opened GuardedRequest
  import opened GuardedSafety

  function ReopenCommand(number: int): Value {
    Object(map["action" := Name(Reopen), "number" := Number(number)])
  }

  /** A supervised reopen is the command that does not name its guard: its wire form leaves an absent
      `if_version` out. */
  lemma ReopenNamesNoGuard(number: int)
    ensures NeedsSnapshot(ReopenCommand(number), true) && Template(ReopenCommand(number), true) == ReopenCommand(number)
    ensures !Named(ReopenCommand(number))
  {
    assert Action(ReopenCommand(number)) == Reopen;
  }

  /** So a supervised reopen whose acknowledgment was lost cannot be retried: although it was applied and its
      receipt is kept, the retry is refused as a different command. */
  lemma ReopenRetryIsRefused(rules: Rules, b: Backend, turns: seq<Turn>, id: string, number: int, filled: Value, nonce: string)
    requires Inv(b) && RecordedEarlier(rules, b, id, ReopenCommand(number), filled)
    requires |turns| >= 2 && turns[0].fate == Delivered && turns[1].fate == Delivered
    ensures Prepare(rules, Link(b, turns, []), Request(Some(id), ReopenCommand(number)), true, nonce).1 == Failure("conflict")
  {
    ReopenNamesNoGuard(number);
    RetryIsReplayed(rules, b, turns, id, ReopenCommand(number), true, filled);
    SnapshotWrites(rules, ReopenCommand(number), true);
  }

  const Quietly := Turn([], Delivered)
  const Losing := Turn([], ReplyLost)

  lemma SendAlone(rules: Rules, link: Link, request: Request, authority: bool)
    requires link.turns != [] && link.turns[0].others == []
    ensures var (after, reply) := Send(rules, link, request, authority);
            && (after.backend, reply) == Deliver(rules, link.backend, link.turns[0].fate, request)
            && after.turns == link.turns[1..]
  {
  }

  /** The guard that the first call of a supervised reopen fills in. */
  function ReopenFilled(rules: Rules, number: int): Value
    requires rules.show(Null, ViewOf(Number(number))).Success?
  {
    With(ReopenCommand(number), "if_version", At(At(rules.show(Null, ViewOf(Number(number))).value, "issue"), "version"))
  }

  lemma ReopenSnapshot(number: int, current: Value)
    ensures SnapshotRead(ReopenCommand(number)) == ViewOf(Number(number))
    ensures Guarded(ReopenCommand(number), current)
         == With(ReopenCommand(number), "if_version", At(At(current, "issue"), "version"))
    ensures Action(ViewOf(Number(number))) == View
  {
  }

  lemma FillByRead(rules: Rules, link: Link, operation: Value, authority: bool)
    requires !Is(operation, "action", Name(Batch))
    ensures var (read, reply) := Send(rules, link, Request(None, SnapshotRead(operation)), authority);
            Fill(rules, link, operation, authority)
            == (read, if reply.Success? then Success(Guarded(operation, reply.value)) else reply)
  {
  }

  lemma ReopenIsFilled(rules: Rules, link: Link, number: int)
    requires link.backend == Empty && link.turns == [Quietly, Losing]
    requires rules.show(Null, ViewOf(Number(number))).Success?
    ensures var (read, filled) := Fill(rules, link, ReopenCommand(number), true);
            filled == Success(ReopenFilled(rules, number)) && read.backend == Empty && read.turns == [Losing]
  {
    SendAlone(rules, link, Request(None, ViewOf(Number(number))), true);
    ReopenSnapshot(number, rules.show(Null, ViewOf(Number(number))).value);
    FillByRead(rules, link, ReopenCommand(number), true);
  }

  lemma NothingRecorded(rules: Rules, link: Link, id: string, template: Value)
    requires link.backend == Empty && link.turns == [Quietly, Quietly, Losing]
    ensures var (looked, early) := Replay(rules, link, Request(Some(id), template), template, true, true);
            early == Success(None) && looked.backend == Empty && looked.turns == [Quietly, Losing]
  {
    SendAlone(rules, link, Request(None, StatusOf(id)), true);
    StatusParts(Empty, id);
  }

  lemma ReopenIsApplied(rules: Rules, link: Link, id: string, filled: Value, template: Value)
    requires link.backend == Empty && link.turns == [Losing]
    requires Action(filled) == Reopen && rules.refuses(Null, filled) == None
    ensures var (wrote, result) := Write(rules, link, Request(Some(id), filled), template, true, true);
            && result == Failure("acknowledgement lost") && wrote.backend.effects == [Effect(Some(id), filled)]
            && id in wrote.backend.receipts && wrote.backend.receipts[id].payload == filled
  {
    SendAlone(rules, link, Request(Some(id), filled), true);
    WriteForms(rules, link, Request(Some(id), filled), template, true, true);
  }

  lemma ReopenPrepares(rules: Rules, link: Link, id: string, number: int, nonce: string)
    ensures Prepare(rules, link, Request(Some(id), ReopenCommand(number)), true, nonce)
         == Automatically(rules, link, Some(id), ReopenCommand(number), true)
    ensures Authority(ReopenCommand(number), true) && Action(ReopenCommand(number)) == Reopen
  {
    ReopenNamesNoGuard(number);
    SnapshotWrites(rules, ReopenCommand(number), true);
  }

  lemma ReopenPayload(rules: Rules, number: int)
    requires rules.show(Null, ViewOf(Number(number))).Success?
    ensures Action(ReopenFilled(rules, number)) == Reopen
    ensures Payload(rules, ReopenFilled(rules, number)) == Some(ReopenFilled(rules, number))
  {
  }

  lemma ReopenFirstCall(rules: Rules, id: string, number: int, nonce: string)
    requires rules.show(Null, ViewOf(Number(number))).Success?
    requires rules.typed(ReopenFilled(rules, number)) && rules.refuses(Null, ReopenFilled(rules, number)) == None
    ensures var (after, r) := Prepare(rules, Link(Empty, [Quietly, Quietly, Losing], []), Request(Some(id), ReopenCommand(number)), true, nonce);
            && r == Failure("acknowledgement lost")
            && after.backend.effects == [Effect(Some(id), ReopenFilled(rules, number))]
            && RecordedEarlier(rules, after.backend, id, ReopenCommand(number), ReopenFilled(rules, number))
  {
    var template, filled := ReopenCommand(number), ReopenFilled(rules, number);
    var link := Link(Empty, [Quietly, Quietly, Losing], []);
    ReopenPrepares(rules, link, id, number, nonce);
    NothingRecorded(rules, link, id, template);
    var looked := Replay(rules, link, Request(Some(id), template), template, true, true).0;
    ReopenIsFilled(rules, looked, number);
    var read := Fill(rules, looked, template, true).0;
    ReopenPayload(rules, number);
    ReopenIsApplied(rules, read, id, filled, template);
    AutomaticStages(rules, link, id, template, true, filled);
  }

  lemma AutomaticStages(rules: Rules, link: Link, id: string, template: Value, supervisor: bool, filled: Value)
    requires var authority := Authority(template, supervisor);
             var (looked, early) := Replay(rules, link, Request(Some(id), template), template, authority, supervisor);
             && early == Success(None) && Fill(rules, looked, template, authority).1 == Success(filled) && rules.typed(filled)
    ensures var authority := Authority(template, supervisor);
            var looked := Replay(rules, link, Request(Some(id), template), template, authority, supervisor).0;
            var read := Fill(rules, looked, template, authority).0;
            Automatically(rules, link, Some(id), template, supervisor)
            == Write(rules, read, Request(Some(id), filled), template, authority, supervisor)
  {
  }

  /** The whole run, for every store that shows the issue and accepts the reopen: the first call applies the
      mutation and loses the acknowledgment; the retry, fully delivered, is refused; the effect stays single. */
  lemma ReopenLosesItsRetry(rules: Rules, id: string, number: int, nonce: string)
    requires rules.show(Null, ViewOf(Number(number))).Success?
    requires rules.typed(ReopenFilled(rules, number)) && rules.refuses(Null, ReopenFilled(rules, number)) == None
    ensures var request := Request(Some(id), ReopenCommand(number));
            var (after, first) := Prepare(rules, Link(Empty, [Quietly, Quietly, Losing], []), request, true, nonce);
            var (_, second) := Prepare(rules, Link(after.backend, [Quietly, Quietly], []), request, true, nonce);
            && first == Failure("acknowledgement lost") && |after.backend.effects| == 1
            && second == Failure("conflict")
  {
    var request := Request(Some(id), ReopenCommand(number));
    ReopenFirstCall(rules, id, number, nonce);
    PrepareKeeps(rules, Link(Empty, [Quietly, Quietly, Losing], []), request, true, nonce);
    var after := Prepare(rules, Link(Empty, [Quietly, Quietly, Losing], []), request, true, nonce).0;
    ReopenRetryIsRefused(rules, after.backend, [Quietly, Quietly], id, number, ReopenFilled(rules, number), nonce);
  }
}
