/** The command with its automatic guards written out, src/cli_request.rs: every filled command agrees with it
    outside these guards, whether the caller's wire form names them or not. */
module GuardedExplicit {
  import opened Wrappers
  import opened GuardedCommand
  import opened GuardedReplay
  import opened GuardedRequest
  import opened GuardedSafety

  function ExplicitArtifact(v: Value): Value {
    if Is(v, "command", Name(Import)) && v.Object? && "operation" in v.fields then
      With(v, "operation", ExplicitArtifact(v.fields["operation"]))
    else OrNull(v, "if_version")
  }

  function ExplicitEdits(edits: seq<Value>): (r: seq<Value>)
    ensures |r| == |edits|
  {
    if edits == [] then [] else [OrNull(edits[0], "if_version")] + ExplicitEdits(edits[1..])
  }

  /** The command with the guards that are to be filled in as explicit nulls. */
  function Explicit(template: Value): Value {
    if Is(template, "action", Name(Artifact)) then
      With(template, "operation", ExplicitArtifact(At(template, "operation")))
    else if Matching(template) then OrNull(template, "if_order_version")
    else if Is(template, "action", Name(Batch)) && At(template, "edits").List? then
      With(template, "edits", List(ExplicitEdits(At(template, "edits").items)))
    else if Is(template, "action", Name(Ready)) || Is(template, "action", Name(Close)) then OrNull(template, "guard")
    else if Is(template, "action", Name(Move)) then OrNull(template, "if_order_version")
    else OrNull(template, "if_version")
  }

  /** The payload is of this command: it agrees with it everywhere but at the guards that are filled in. */
  predicate OfCommand(rules: Rules, template: Value, payload: Value) {
    && Payload(rules, Explicit(template)).Some?
    && Same(payload, Payload(rules, Explicit(template)).value, Explicit(template))
  }

  lemma NullReads(v: Value, key: string, other: string)
    ensures At(OrNull(v, key), other) == At(v, other)
    ensures Has(OrNull(v, key), key)
  {
  }

  lemma NullIsOverwritten(v: Value, key: string, x: Value)
    ensures With(OrNull(v, key), key, x) == With(v, key, x)
  {
    if v.Object? {
      assert OrNull(v, key).fields[key := x] == v.fields[key := x];
    }
  }

  lemma {:induction false} ArtifactIsExplicit(v: Value, version: Value)
    ensures Innermost(ExplicitArtifact(v)) == OrNull(Innermost(v), "if_version")
    ensures WithArtifactVersion(ExplicitArtifact(v), version) == WithArtifactVersion(v, version)
    ensures At(ExplicitArtifact(v), "command") == At(v, "command")
    decreases v
  {
    if Is(v, "command", Name(Import)) && v.Object? && "operation" in v.fields {
      var inner := v.fields["operation"];
      ArtifactIsExplicit(inner, version);
      assert v.fields["operation" := ExplicitArtifact(inner)]["operation" := WithArtifactVersion(inner, version)]
          == v.fields["operation" := WithArtifactVersion(inner, version)];
    } else {
      NullReads(v, "if_version", "command");
      NullIsOverwritten(v, "if_version", version);
    }
  }

  lemma {:induction false} EditsAreNamed(edits: seq<Value>)
    ensures forall edit <- ExplicitEdits(edits) :: EditNamed(edit)
    decreases |edits|
  {
    if edits != [] {
      NullReads(edits[0], "if_version", "if_version");
      EditsAreNamed(edits[1..]);
    }
  }

  lemma {:induction false} EditsStayMissing(edits: seq<Value>, i: nat)
    requires i < |edits| && Missing(At(edits[i], "if_version"))
    ensures Missing(At(ExplicitEdits(edits)[i], "if_version"))
    decreases |edits|
  {
    if i == 0 {
      NullReads(edits[0], "if_version", "if_version");
    } else {
      EditsStayMissing(edits[1..], i - 1);
    }
  }

  /** What becomes of the first edit, and then of the others. */
  lemma FirstEdit(rules: Rules, link: Link, first: Value, edits: seq<Value>, authority: bool)
    ensures var (read, reply) := Send(rules, link, Request(None, ViewOf(At(first, "number"))), authority);
            FillEdits(rules, link, [first] + edits, authority)
            == if !Missing(At(first, "if_version")) then After([first], FillEdits(rules, link, edits, authority))
               else if reply.Failure? then (read, Failure(reply.error))
               else After([With(first, "if_version", At(At(reply.value, "issue"), "version"))],
                          FillEdits(rules, read, edits, authority))
  {
    assert ([first] + edits)[1..] == edits;
  }

  lemma {:induction false} EditsAreExplicit(rules: Rules, link: Link, edits: seq<Value>, authority: bool)
    ensures FillEdits(rules, link, ExplicitEdits(edits), authority) == FillEdits(rules, link, edits, authority)
    decreases |edits|
  {
    if edits != [] {
      var first, rest := OrNull(edits[0], "if_version"), ExplicitEdits(edits[1..]);
      NullReads(edits[0], "if_version", "if_version");
      NullReads(edits[0], "if_version", "number");
      FirstEdit(rules, link, first, rest, authority);
      FirstEdit(rules, link, edits[0], edits[1..], authority);
      assert [edits[0]] + edits[1..] == edits;
      var (read, reply) := Send(rules, link, Request(None, ViewOf(At(edits[0], "number"))), authority);
      EditsAreExplicit(rules, link, edits[1..], authority);
      EditsAreExplicit(rules, read, edits[1..], authority);
      if reply.Success? {
        NullIsOverwritten(edits[0], "if_version", At(At(reply.value, "issue"), "version"));
      }
    }
  }

  lemma ArtifactKind(template: Value, supervisor: bool, current: Value)
    requires NeedsSnapshot(template, supervisor) && Is(template, "action", Name(Artifact))
    ensures NeedsSnapshot(Explicit(template), supervisor) && Named(Explicit(template))
    ensures Is(Explicit(template), "action", Name(Artifact))
    ensures SnapshotRead(Explicit(template)) == SnapshotRead(template)
    ensures Guarded(Explicit(template), current) == Guarded(template, current)
  {
    var inner := At(template, "operation");
    var version := At(At(current, "artifact"), "version");
    var explicit := Explicit(template);
    ArtifactIsExplicit(inner, version);
    assert At(explicit, "action") == Name(Artifact) && At(explicit, "operation") == ExplicitArtifact(inner);
    NullReads(Innermost(inner), "if_version", "if_version");
    NullReads(Innermost(inner), "if_version", "command");
    NullReads(Innermost(inner), "if_version", "id");
    assert template.fields["operation" := ExplicitArtifact(inner)]["operation" := WithArtifactVersion(inner, version)]
        == template.fields["operation" := WithArtifactVersion(inner, version)];
  }

  /** Commands without a list of edits or an artifact edit wait for one guard of their own. */
  predicate OwnGuard(template: Value) {
    !Is(template, "action", Name(Artifact)) && (Matching(template) || !Is(template, "action", Name(Batch)))
  }

  function GuardKey(template: Value): string {
    if Matching(template) || Is(template, "action", Name(Move)) then "if_order_version"
    else if Is(template, "action", Name(Ready)) || Is(template, "action", Name(Close)) then "guard"
    else "if_version"
  }

  function GuardValue(template: Value, current: Value): Value {
    if Matching(template) || Is(template, "action", Name(Move)) then At(current, "order_version")
    else if Is(template, "action", Name(Ready)) || Is(template, "action", Name(Close)) then At(current, "ready_guard")
    else At(At(current, "issue"), "version")
  }

  lemma OwnGuardForms(template: Value, current: Value)
    requires OwnGuard(template)
    ensures Explicit(template) == OrNull(template, GuardKey(template))
    ensures Guarded(template, current) == With(template, GuardKey(template), GuardValue(template, current))
    ensures Named(template) <==> Has(template, GuardKey(template))
  {
  }

  /** Two commands that read alike wherever the choice of a guard looks. */
  predicate ReadAlike(a: Value, b: Value) {
    && At(a, "action") == At(b, "action") && At(a, "matching") == At(b, "matching") && At(a, "draft") == At(b, "draft")
    && At(a, "number") == At(b, "number") && At(a, "if_version") == At(b, "if_version")
    && At(a, "if_order_version") == At(b, "if_order_version") && At(a, "guard") == At(b, "guard")
  }

  lemma NullReadsAlike(v: Value, key: string)
    ensures ReadAlike(OrNull(v, key), v)
  {
    NullReads(v, key, "action");
    NullReads(v, key, "matching");
    NullReads(v, key, "draft");
    NullReads(v, key, "number");
    NullReads(v, key, "if_version");
    NullReads(v, key, "if_order_version");
    NullReads(v, key, "guard");
  }

  lemma ReadAlikeGuards(a: Value, b: Value)
    requires ReadAlike(a, b) && OwnGuard(b)
    ensures Matching(a) == Matching(b) && OwnGuard(a) && GuardKey(a) == GuardKey(b)
    ensures SnapshotRead(a) == SnapshotRead(b)
  {
  }

  lemma ReadAlikeValues(a: Value, b: Value, current: Value)
    requires ReadAlike(a, b)
    ensures GuardValue(a, current) == GuardValue(b, current)
  {
  }

  lemma ReadAlikeNeeds(a: Value, b: Value, supervisor: bool)
    requires ReadAlike(a, b) && OwnGuard(b) && NeedsSnapshot(b, supervisor)
    ensures NeedsSnapshot(a, supervisor)
  {
    assert Action(a) == Action(b) && Action(b) != Artifact;
  }

  lemma OneGuard(template: Value, supervisor: bool, current: Value)
    requires NeedsSnapshot(template, supervisor) && OwnGuard(template)
    ensures NeedsSnapshot(Explicit(template), supervisor) && Named(Explicit(template)) && OwnGuard(Explicit(template))
    ensures SnapshotRead(Explicit(template)) == SnapshotRead(template)
    ensures Guarded(Explicit(template), current) == Guarded(template, current)
  {
    var key := GuardKey(template);
    var explicit := OrNull(template, key);
    NullReadsAlike(template, key);
    ReadAlikeGuards(explicit, template);
    ReadAlikeValues(explicit, template, current);
    ReadAlikeNeeds(explicit, template, supervisor);
    OwnGuardForms(template, current);
    OwnGuardForms(explicit, current);
    NullReads(template, key, key);
    NullIsOverwritten(template, key, GuardValue(template, current));
  }

  lemma FilledByRead(rules: Rules, link: Link, operation: Value, authority: bool)
    requires Is(operation, "action", Name(Artifact)) || OwnGuard(operation)
    ensures var (read, reply) := Send(rules, link, Request(None, SnapshotRead(operation)), authority);
            Fill(rules, link, operation, authority)
            == (read, if reply.Success? then Success(Guarded(operation, reply.value)) else reply)
  {
  }

  lemma BatchKind(template: Value, supervisor: bool)
    requires NeedsSnapshot(template, supervisor) && Is(template, "action", Name(Batch)) && !Matching(template)
    ensures NeedsSnapshot(Explicit(template), supervisor) && Named(Explicit(template))
  {
    var edits := At(template, "edits").items;
    var i :| 0 <= i < |edits| && Missing(At(edits[i], "if_version"));
    EditsStayMissing(edits, i);
    EditsAreNamed(edits);
    BatchNamed(template, ExplicitEdits(edits), i, supervisor);
  }

  lemma BatchNamed(template: Value, edits: seq<Value>, i: nat, supervisor: bool)
    requires Is(template, "action", Name(Batch)) && !Matching(template)
    requires i < |edits| && Missing(At(edits[i], "if_version"))
    requires forall edit <- edits :: EditNamed(edit)
    ensures var t := With(template, "edits", List(edits)); NeedsSnapshot(t, supervisor) && Named(t)
  {
    var t := With(template, "edits", List(edits));
    assert Action(t) == Batch && !Matching(t) && At(t, "edits").items == edits;
  }

  lemma BatchAlike(rules: Rules, link: Link, template: Value, authority: bool)
    requires Is(template, "action", Name(Batch)) && !Matching(template) && At(template, "edits").List?
    ensures Fill(rules, link, Explicit(template), authority) == Fill(rules, link, template, authority)
  {
    var edits := At(template, "edits").items;
    EditsAreExplicit(rules, link, edits, authority);
    BatchFills(rules, link, template, List(edits), authority);
    BatchFills(rules, link, template, List(ExplicitEdits(edits)), authority);
    assert With(template, "edits", List(edits)) == template;
  }

  lemma BatchFills(rules: Rules, link: Link, template: Value, edits: Value, authority: bool)
    requires Is(template, "action", Name(Batch)) && !Matching(template) && edits.List?
    ensures var t := With(template, "edits", edits);
            var (read, filled) := FillEdits(rules, link, edits.items, authority);
            Fill(rules, link, t, authority)
            == (read, if filled.Success? then Success(With(template, "edits", List(filled.value))) else Failure(filled.error))
  {
    var filled := FillEdits(rules, link, edits.items, authority).1;
    if filled.Success? {
      assert template.fields["edits" := edits]["edits" := List(filled.value)] == template.fields["edits" := List(filled.value)];
    }
  }

  /** Writing the guards out changes neither what is read for them nor what is sent. */
  lemma FilledAlike(rules: Rules, link: Link, template: Value, supervisor: bool, authority: bool)
    requires NeedsSnapshot(template, supervisor)
    ensures NeedsSnapshot(Explicit(template), supervisor) && Named(Explicit(template))
    ensures Fill(rules, link, Explicit(template), authority) == Fill(rules, link, template, authority)
  {
    if Is(template, "action", Name(Batch)) && !Matching(template) {
      BatchKind(template, supervisor);
      BatchAlike(rules, link, template, authority);
    } else {
      var reply := Send(rules, link, Request(None, SnapshotRead(template)), authority).1;
      var current := if reply.Success? then reply.value else Null;
      if Is(template, "action", Name(Artifact)) {
        ArtifactKind(template, supervisor, current);
      } else {
        OneGuard(template, supervisor, current);
      }
      FilledByRead(rules, link, template, authority);
      FilledByRead(rules, link, Explicit(template), authority);
    }
  }

  /** What is filled in and sent is of the command, for every command. */
  lemma FilledIsOfCommand(rules: Rules, link: Link, template: Value, supervisor: bool, authority: bool)
    requires NeedsSnapshot(template, supervisor) && Fill(rules, link, template, authority).1.Success?
    ensures var filled := Fill(rules, link, template, authority).1.value;
            Payload(rules, filled).Some? ==> OfCommand(rules, template, Payload(rules, filled).value)
  {
    FilledAlike(rules, link, template, supervisor, authority);
    if Payload(rules, Fill(rules, link, template, authority).1.value).Some? {
      FilledMatches(rules, link, Explicit(template), supervisor, authority);
    }
  }
}
