/** One logical command, one mutation: over any number of calls, src/cli_request.rs:29-188, whoever else writes
    in between and whatever the transport loses. */
module GuardedRuns {
  import opened Wrappers
  import opened GuardedCommand
  import opened GuardedRequest
  import opened GuardedReplay
  import opened GuardedSafety
  import opened GuardedExplicit
  import opened GuardedTrace

  function Ended(rules: Rules, b: Backend, c: Call): Link {
    Prepare(rules, Link(b, c.turns, []), c.request, c.supervisor, c.nonce).0
  }

  /** The payload is of the call's command: outside the guards that are filled in, or exactly. */
  predicate OfCall(rules: Rules, c: Call, payload: Value) {
    var operation := Reassigned(c.request.operation);
    var template := Template(operation, c.supervisor);
    if NeedsSnapshot(template, c.supervisor) then OfCommand(rules, template, payload)
    else Payload(rules, operation) == Some(payload)
  }

  /** A mutation by a call: under the call's own request ID, of its command, and in the store afterwards. */
  predicate CallWrite(rules: Rules, c: Call, before: Backend, after: Backend, e: Exchange) {
    && (c.request.id.Some? ==> e.request.id == c.request.id)
    && Landed(rules, before, after, e) && OfCall(rules, c, Payload(rules, e.request.operation).value)
  }

  lemma KeyedKeepsIds(rules: Rules, c: Call, operation: Value)
    requires c.request.id.Some?
    ensures Identified(c.request, c.nonce).id == c.request.id
    ensures Keyed(rules, Request(c.request.id, operation), c.supervisor).id == c.request.id
  {
  }

  lemma FilledCall(rules: Rules, b: Backend, c: Call)
    requires Inv(b)
    requires var template := Template(Reassigned(c.request.operation), c.supervisor); NeedsSnapshot(template, c.supervisor)
    ensures var template := Template(Reassigned(c.request.operation), c.supervisor);
            var after := Automatically(rules, Link(b, c.turns, []), Identified(c.request, c.nonce).id, template, c.supervisor).0;
            && |Applied(after.trace)| <= 1
            && forall e <- Applied(after.trace) :: CallWrite(rules, c, b, after.backend, e)
  {
    var template := Template(Reassigned(c.request.operation), c.supervisor);
    var id := Identified(c.request, c.nonce).id;
    AppliedAtMostOnce(rules, b, c.turns, id, template, c.supervisor);
    var after := Automatically(rules, Link(b, c.turns, []), id, template, c.supervisor).0;
    forall e <- Applied(after.trace) ensures CallWrite(rules, c, b, after.backend, e) {
      if c.request.id.Some? {
        KeyedKeepsIds(rules, c, e.request.operation);
      }
    }
  }

  lemma PlainCall(rules: Rules, b: Backend, c: Call, sent: Request)
    requires Inv(b) && !NeedsSnapshot(Template(Reassigned(c.request.operation), c.supervisor), c.supervisor)
    requires sent.operation == Reassigned(c.request.operation) && (c.request.id.Some? ==> sent.id == c.request.id)
    ensures var after := Send(rules, Link(b, c.turns, []), sent, c.supervisor).0;
            && |Applied(after.trace)| <= 1
            && forall e <- Applied(after.trace) :: CallWrite(rules, c, b, after.backend, e)
  {
    var link := Link(b, c.turns, []);
    SentTrace(rules, link, sent, c.supervisor);
    var after := Send(rules, link, sent, c.supervisor).0;
    assert Added(link, after) == after.trace;
  }

  lemma ReadingCall(rules: Rules, b: Backend, c: Call)
    requires Inv(b) && !Writes(rules, c.request.operation)
    ensures Applied(Ended(rules, b, c).trace) == []
  {
    var link := Link(b, c.turns, []);
    ReadIsQuiet(rules, link, c.request, c.supervisor);
    var after := Ended(rules, b, c);
    assert Added(link, after) == after.trace;
    NoneApplied(after.trace);
  }

  /** One call mutates the store at most once, under the request ID it was given. */
  lemma CallMutates(rules: Rules, b: Backend, c: Call)
    requires Inv(b)
    ensures var after := Ended(rules, b, c);
            && Later(Link(b, c.turns, []), after) && |Applied(after.trace)| <= 1
            && forall e <- Applied(after.trace) :: CallWrite(rules, c, b, after.backend, e)
  {
    PrepareKeeps(rules, Link(b, c.turns, []), c.request, c.supervisor, c.nonce);
    var operation := Reassigned(c.request.operation);
    if !Writes(rules, c.request.operation) {
      ReadingCall(rules, b, c);
    } else if Refused(operation, c.supervisor) {
      assert Ended(rules, b, c).trace == [];
    } else if NeedsSnapshot(Template(operation, c.supervisor), c.supervisor) {
      FilledCall(rules, b, c);
    } else {
      PlainCall(rules, b, c, Keyed(rules, Identified(c.request, c.nonce).(operation := operation), c.supervisor));
    }
  }

  // ---- runs

  /** A mutation and the call that made it. */
  datatype Mutation = Mutation(call: Call, exchange: Exchange)

  function By(c: Call, exchanges: seq<Exchange>): (r: seq<Mutation>)
    ensures |r| == |exchanges| && forall i :: 0 <= i < |r| ==> r[i] == Mutation(c, exchanges[i])
  {
    seq(|exchanges|, i requires 0 <= i < |exchanges| => Mutation(c, exchanges[i]))
  }

  /** Every mutation that the calls of a run made, in order. */
  function Mutations(rules: Rules, b: Backend, calls: seq<Call>): seq<Mutation>
    decreases |calls|
  {
    if calls == [] then [] else
    var after := Ended(rules, b, calls[0]);
    By(calls[0], Applied(after.trace)) + Mutations(rules, after.backend, calls[1..])
  }

  predicate EachWrites(rules: Rules, before: Backend, after: Backend, ms: seq<Mutation>) {
    forall m <- ms :: CallWrite(rules, m.call, before, after, m.exchange)
  }

  predicate OnePerId(ms: seq<Mutation>) {
    forall i, j :: 0 <= i < j < |ms| && ms[i].exchange.request.id.Some? ==>
                     ms[i].exchange.request.id != ms[j].exchange.request.id
  }

  lemma WritesBetween(rules: Rules, a: Backend, b: Backend, c: Backend, d: Backend, ms: seq<Mutation>)
    requires EachWrites(rules, b, c, ms) && Grows(a, b) && Grows(c, d)
    ensures EachWrites(rules, a, d, ms)
  {
    forall m <- ms ensures CallWrite(rules, m.call, a, d, m.exchange) {
      LandedBetween(rules, a, b, c, d, m.exchange);
    }
  }

  /** A mutation that landed before the others has another request ID. */
  lemma FirstIsOther(rules: Rules, b: Backend, middle: Backend, after: Backend, first: seq<Mutation>, rest: seq<Mutation>)
    requires Inv(middle) && |first| <= 1
    requires EachWrites(rules, b, middle, first) && EachWrites(rules, middle, after, rest) && OnePerId(rest)
    ensures OnePerId(first + rest)
  {
    if first != [] && first[0].exchange.request.id.Some? {
      var m := first[0];
      assert CallWrite(rules, m.call, b, middle, m.exchange);
      assert m.exchange.request.id.value in middle.receipts;
      forall j | 0 <= j < |rest| ensures rest[j].exchange.request.id != m.exchange.request.id {
        assert CallWrite(rules, rest[j].call, middle, after, rest[j].exchange);
      }
    }
  }

  lemma {:induction false} RunMutates(rules: Rules, b: Backend, calls: seq<Call>)
    requires Inv(b)
    ensures OnePerId(Mutations(rules, b, calls))
    ensures EachWrites(rules, b, RunCalls(rules, b, calls), Mutations(rules, b, calls))
    decreases |calls|
  {
    if calls != [] {
      var c, after := calls[0], Ended(rules, b, calls[0]);
      var last := RunCalls(rules, after.backend, calls[1..]);
      var first, rest := By(c, Applied(after.trace)), Mutations(rules, after.backend, calls[1..]);
      CallMutates(rules, b, c);
      RunMutates(rules, after.backend, calls[1..]);
      RunKeeps(rules, after.backend, calls[1..]);
      FirstIsOther(rules, b, after.backend, last, first, rest);
      WritesBetween(rules, b, b, after.backend, last, first);
      WritesBetween(rules, b, after.backend, last, last, rest);
    }
  }

  /** The mutations of the calls that were given one request ID. */
  function Under(ms: seq<Mutation>, id: string): (r: seq<Mutation>)
    ensures forall m <- r :: m in ms && m.call.request.id == Some(id)
  {
    if ms == [] then [] else (if ms[0].call.request.id == Some(id) then [ms[0]] else []) + Under(ms[1..], id)
  }

  lemma NoneUnder(rules: Rules, before: Backend, after: Backend, ms: seq<Mutation>, id: string)
    requires EachWrites(rules, before, after, ms) && forall m <- ms :: m.exchange.request.id != Some(id)
    ensures Under(ms, id) == []
  {
    forall m <- ms ensures m.call.request.id != Some(id) {
      assert CallWrite(rules, m.call, before, after, m.exchange);
    }
    if Under(ms, id) != [] {
      assert Under(ms, id)[0] in Under(ms, id);
    }
  }

  lemma {:induction false} UnderIsOne(rules: Rules, before: Backend, after: Backend, ms: seq<Mutation>, id: string)
    requires OnePerId(ms) && EachWrites(rules, before, after, ms)
    ensures |Under(ms, id)| <= 1
    decreases |ms|
  {
    if ms != [] {
      if ms[0].call.request.id == Some(id) {
        assert CallWrite(rules, ms[0].call, before, after, ms[0].exchange);
        forall m <- ms[1..] ensures m.exchange.request.id != Some(id) {
          var i :| 0 <= i < |ms[1..]| && ms[1..][i] == m;
          assert ms[i + 1] == m;
        }
        NoneUnder(rules, before, after, ms[1..], id);
      } else {
        forall i | 0 <= i < |ms| - 1 ensures ms[1..][i] == ms[i + 1] {}
        UnderIsOne(rules, before, after, ms[1..], id);
      }
    }
  }

  lemma RecordedIsNotUnder(rules: Rules, before: Backend, after: Backend, ms: seq<Mutation>, id: string)
    requires EachWrites(rules, before, after, ms) && id in before.receipts
    ensures Under(ms, id) == []
  {
    forall m <- ms ensures m.exchange.request.id != Some(id) {
      assert CallWrite(rules, m.call, before, after, m.exchange);
    }
    NoneUnder(rules, before, after, ms, id);
  }

  /** What a request ID stands for after a run: the payload of one effect, and of the receipt kept for it. */
  ghost predicate OnlyEffect(b: Backend, id: string, payload: Value) {
    && (forall e <- b.effects :: e.id == Some(id) ==> e.payload == payload)
    && (exists i :: 0 <= i < |b.effects| && b.effects[i].id == Some(id)
                    && forall j :: 0 <= j < |b.effects| && b.effects[j].id == Some(id) ==> j == i)
    && id in b.receipts && b.receipts[id].payload == payload
  }

  lemma ReceiptIsOnly(b: Backend, id: string)
    requires Inv(b) && id in b.receipts
    ensures OnlyEffect(b, id, b.receipts[id].payload)
  {
    var i :| 0 <= i < |b.effects| && b.effects[i].id == Some(id);
    assert Kept(b.receipts, b.effects[i]);
  }

  lemma LandedIsOnly(rules: Rules, before: Backend, after: Backend, e: Exchange, id: string)
    requires Inv(after) && Landed(rules, before, after, e) && e.request.id == Some(id)
    ensures OnlyEffect(after, id, Payload(rules, e.request.operation).value)
  {
    var effect := Effect(Some(id), Payload(rules, e.request.operation).value);
    assert effect in after.effects && Kept(after.receipts, effect);
    ReceiptIsOnly(after, id);
  }

  /** Any number of calls with one request ID mutate the store at most once, whatever other calls and other
      clients do in between and whatever the transport loses, and not at all once the ID is on record. The one
      mutation is sent under that ID, is of its own call's command, and is the only effect the ID ever has. */
  lemma CallsMutateOnce(rules: Rules, b: Backend, calls: seq<Call>, id: string)
    requires Inv(b)
    ensures var ms := Under(Mutations(rules, b, calls), id);
            && |ms| <= 1 && (id in b.receipts ==> ms == [])
            && forall m <- ms :: m.exchange.request.id == Some(id) && Payload(rules, m.exchange.request.operation).Some?
                 && var payload := Payload(rules, m.exchange.request.operation).value;
                    OfCall(rules, m.call, payload) && OnlyEffect(RunCalls(rules, b, calls), id, payload)
  {
    var all, after := Mutations(rules, b, calls), RunCalls(rules, b, calls);
    RunMutates(rules, b, calls);
    RunKeeps(rules, b, calls);
    UnderIsOne(rules, b, after, all, id);
    if id in b.receipts {
      RecordedIsNotUnder(rules, b, after, all, id);
    }
    forall m <- Under(all, id)
      ensures m.exchange.request.id == Some(id) && Payload(rules, m.exchange.request.operation).Some?
           && OfCall(rules, m.call, Payload(rules, m.exchange.request.operation).value)
           && OnlyEffect(after, id, Payload(rules, m.exchange.request.operation).value)
    {
      assert CallWrite(rules, m.call, b, after, m.exchange);
      LandedIsOnly(rules, b, after, m.exchange, id);
    }
  }

  /** And a call that succeeds under its request ID has exactly one effect in the store, whose response it hands
      out. */
  lemma SuccessIsOneEffect(rules: Rules, b: Backend, c: Call)
    requires Inv(b) && c.request.id.Some? && Writes(rules, c.request.operation)
    ensures var id := c.request.id.value;
            var (after, r) := Prepare(rules, Link(b, c.turns, []), c.request, c.supervisor, c.nonce);
            r.Success? ==> Recorded(after.backend, id, r.value) && OnlyEffect(after.backend, id, after.backend.receipts[id].payload)
  {
    var id := c.request.id.value;
    PrepareKeeps(rules, Link(b, c.turns, []), c.request, c.supervisor, c.nonce);
    PreparedSuccessIsRecorded(rules, Link(b, c.turns, []), id, c.request.operation, c.supervisor, c.nonce);
    var (after, r) := Prepare(rules, Link(b, c.turns, []), c.request, c.supervisor, c.nonce);
    if r.Success? {
      ReceiptIsOnly(after.backend, id);
    }
  }
}
