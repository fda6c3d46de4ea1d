/** When a repeated command finds its own receipt, src/cli_request.rs: filling in guards keeps the command the
    same exactly when the command already names the guard. */
module GuardedReplay {
  import opened Wrappers
  import opened GuardedCommand
  import opened GuardedRequest

  // ---- commands that differ only in their guards

  lemma {:induction false} SameAsItself(v: Value, template: Value)
    ensures Same(v, v, template)
    decreases template
  {
    match (v, template)
    case (Object(x), Object(t)) =>
      forall key | key in x && key in t ensures Same(x[key], x[key], t[key]) { SameAsItself(x[key], t[key]); }
    case (List(x), List(t)) =>
      forall i | 0 <= i < |x| && i < |t| ensures Same(x[i], x[i], t[i]) { SameAsItself(x[i], t[i]); }
    case _ =>
  }

  /** Whether setting the key adds nothing to an object. */
  predicate Has(v: Value, key: string) {
    v.Object? ==> key in v.fields
  }

  /** Filling a guard keeps the command exactly when the guard was written out, as null or zero. */
  lemma GuardFilled(v: Value, key: string, x: Value)
    requires key == "if_version" || key == "guard" || key == "if_order_version"
    requires Automatic(key, At(v, key))
    ensures Same(With(v, key, x), v, v) <==> Has(v, key)
  {
    if v.Object? {
      forall k | k in v.fields ensures Same(v.fields[k], v.fields[k], v.fields[k]) { SameAsItself(v.fields[k], v.fields[k]); }
      if key !in v.fields {
        assert key in With(v, key, x).fields && !Ignored(key, v.fields);
      }
    } else {
      SameAsItself(v, v);
    }
  }

  /** A change inside a field that is no guard. */
  lemma FieldChanged(v: Value, key: string, x: Value)
    requires v.Object? && key in v.fields && !Ignored(key, v.fields)
    ensures Same(With(v, key, x), v, v) <==> Same(x, v.fields[key], v.fields[key])
  {
    var a := With(v, key, x);
    forall k | k in v.fields && k != key ensures Same(a.fields[k], v.fields[k], v.fields[k]) {
      SameAsItself(v.fields[k], v.fields[k]);
    }
    SameFields(a.fields, v.fields, v.fields, key);
  }

  lemma {:induction false} ArtifactFilled(v: Value, version: Value)
    requires Missing(At(Innermost(v), "if_version"))
    ensures Same(WithArtifactVersion(v, version), v, v) <==> Has(Innermost(v), "if_version")
    decreases v
  {
    if Is(v, "command", Name(Import)) && v.Object? && "operation" in v.fields {
      ArtifactFilled(v.fields["operation"], version);
      FieldChanged(v, "operation", WithArtifactVersion(v.fields["operation"], version));
    } else {
      GuardFilled(v, "if_version", version);
    }
  }

  predicate EditNamed(edit: Value) {
    Missing(At(edit, "if_version")) ==> Has(edit, "if_version")
  }

  /** Whether the command writes out every guard that is to be filled in. */
  predicate Named(template: Value) {
    if Is(template, "action", Name(Artifact)) then Has(Innermost(At(template, "operation")), "if_version")
    else if Matching(template) then Has(template, "if_order_version")
    else if Is(template, "action", Name(Batch)) && At(template, "edits").List? then
      forall edit <- At(template, "edits").items :: EditNamed(edit)
    else if Is(template, "action", Name(Ready)) || Is(template, "action", Name(Close)) then Has(template, "guard")
    else if Is(template, "action", Name(Move)) then Has(template, "if_order_version")
    else Has(template, "if_version")
  }

  lemma {:induction false} EditsFilled(rules: Rules, link: Link, edits: seq<Value>, authority: bool)
    requires FillEdits(rules, link, edits, authority).1.Success?
    ensures var filled := FillEdits(rules, link, edits, authority).1.value;
            && |filled| == |edits|
            && forall i :: 0 <= i < |edits| ==> (Same(filled[i], edits[i], edits[i]) <==> EditNamed(edits[i]))
    decreases |edits|
  {
    if edits != [] {
      if Missing(At(edits[0], "if_version")) {
        var (read, reply) := Send(rules, link, Request(None, ViewOf(At(edits[0], "number"))), authority);
        GuardFilled(edits[0], "if_version", At(At(reply.value, "issue"), "version"));
        EditsFilled(rules, read, edits[1..], authority);
      } else {
        SameAsItself(edits[0], edits[0]);
        EditsFilled(rules, link, edits[1..], authority);
      }
      forall i | 1 <= i < |edits| ensures edits[i] == edits[1..][i - 1] {}
    }
  }

  lemma GuardedIsSame(template: Value, supervisor: bool, current: Value)
    requires NeedsSnapshot(template, supervisor) && (Matching(template) || !Is(template, "action", Name(Batch)))
    ensures Same(Guarded(template, current), template, template) <==> Named(template)
  {
    if Is(template, "action", Name(Artifact)) {
      var version := At(At(current, "artifact"), "version");
      ArtifactFilled(At(template, "operation"), version);
      FieldChanged(template, "operation", WithArtifactVersion(At(template, "operation"), version));
    } else if Matching(template) {
      GuardFilled(template, "if_order_version", At(current, "order_version"));
    } else if Is(template, "action", Name(Ready)) || Is(template, "action", Name(Close)) {
      GuardFilled(template, "guard", At(current, "ready_guard"));
    } else if Is(template, "action", Name(Move)) {
      GuardFilled(template, "if_order_version", At(current, "order_version"));
    } else {
      GuardFilled(template, "if_version", At(At(current, "issue"), "version"));
    }
  }

  lemma ListFilled(template: Value, filled: seq<Value>)
    requires template.Object? && "edits" in template.fields && template.fields["edits"].List?
    requires |filled| == |template.fields["edits"].items|
    requires forall i :: 0 <= i < |filled| ==>
               var edit := template.fields["edits"].items[i]; Same(filled[i], edit, edit) <==> EditNamed(edit)
    ensures Same(With(template, "edits", List(filled)), template, template)
       <==> forall edit <- template.fields["edits"].items :: EditNamed(edit)
  {
    FieldChanged(template, "edits", List(filled));
  }

  /** Filling in guards changes nothing else, and leaves the command the same one if and only if the command
      names its guards. */
  lemma FilledIsSame(rules: Rules, link: Link, template: Value, supervisor: bool, authority: bool)
    requires NeedsSnapshot(template, supervisor) && Fill(rules, link, template, authority).1.Success?
    ensures Same(Fill(rules, link, template, authority).1.value, template, template) <==> Named(template)
  {
    if Is(template, "action", Name(Batch)) && !Matching(template) {
      var edits := At(template, "edits").items;
      EditsFilled(rules, link, edits, authority);
      ListFilled(template, FillEdits(rules, link, edits, authority).1.value);
    } else {
      var reply := Send(rules, link, Request(None, SnapshotRead(template)), authority).1;
      GuardedIsSame(template, supervisor, reply.value);
    }
  }

  // ---- payloads

  /** Two values for one field that is no guard. */
  lemma FieldsChanged(v: Value, key: string, x: Value, y: Value)
    requires v.Object? && key in v.fields && !Ignored(key, v.fields)
    ensures Same(With(v, key, x), With(v, key, y), v) <==> Same(x, y, v.fields[key])
  {
    var a, b := With(v, key, x), With(v, key, y);
    forall k | k in v.fields && k != key ensures a.fields[k] == b.fields[k] && Same(a.fields[k], b.fields[k], v.fields[k]) {
      SameAsItself(v.fields[k], v.fields[k]);
    }
    SameFields(a.fields, b.fields, v.fields, key);
  }

  lemma SameFields(a: map<string, Value>, b: map<string, Value>, t: map<string, Value>, key: string)
    requires a.Keys == b.Keys == t.Keys && key in t && !Ignored(key, t)
    requires forall k | k in t && k != key :: Same(a[k], b[k], t[k])
    ensures Same(Object(a), Object(b), Object(t)) <==> Same(a[key], b[key], t[key])
  {
  }

  /** Replacing the uploaded bytes by their digests on both sides does not affect the comparison. */
  lemma FilesReplaced(v: Value, edit: Value, files: Value)
    requires v.Object? && "operation" in v.fields && "files" in v.fields
    ensures Same(With(With(v, "operation", edit), "files", files), With(v, "files", files), v)
       <==> Same(edit, v.fields["operation"], v.fields["operation"])
  {
    var a, b := With(With(v, "operation", edit), "files", files), With(v, "files", files);
    forall k | k in v.fields && k != "operation" ensures Same(a.fields[k], b.fields[k], v.fields[k]) {
      SameAsItself(b.fields[k], v.fields[k]);
    }
    SameFields(a.fields, b.fields, v.fields, "operation");
  }

  /** What decides how the store treats an operation is not a guard. */
  ghost predicate SameKind(rules: Rules, a: Value, b: Value) {
    && At(a, "action") == At(b, "action")
    && (Is(b, "action", Name(Artifact)) ==> At(At(a, "operation"), "command") == At(At(b, "operation"), "command"))
    && (IsImport(b) ==> Files(a) == Files(b))
    && (Writes(rules, a) <==> Writes(rules, b))
  }

  lemma FilledKind(rules: Rules, link: Link, template: Value, supervisor: bool, authority: bool)
    requires NeedsSnapshot(template, supervisor) && Fill(rules, link, template, authority).1.Success?
    ensures SameKind(rules, Fill(rules, link, template, authority).1.value, template)
  {
    if Is(template, "action", Name(Batch)) && !Matching(template) {
      SnapshotKinds(template, supervisor);
      WritesByKind(rules, Fill(rules, link, template, authority).1.value, template);
    } else {
      var reply := Send(rules, link, Request(None, SnapshotRead(template)), authority).1;
      GuardedKind(rules, template, supervisor, reply.value);
    }
  }

  /** Commands that wait for a guard are not of the kinds whose own commands decide whether they write. */
  lemma SnapshotKinds(v: Value, supervisor: bool)
    requires NeedsSnapshot(v, supervisor)
    ensures !Action(v).Deciding?
  {
  }

  lemma WritesByKind(rules: Rules, a: Value, b: Value)
    requires At(a, "action") == At(b, "action") && !Action(b).Deciding?
    requires Is(b, "action", Name(Artifact)) ==> At(At(a, "operation"), "command") == At(At(b, "operation"), "command")
    ensures Writes(rules, a) <==> Writes(rules, b)
  {
  }

  lemma ArtifactKind(v: Value, version: Value)
    ensures At(WithArtifactVersion(v, version), "command") == At(v, "command")
    ensures At(WithArtifactVersion(v, version), "files") == At(v, "files")
  {
  }

  lemma GuardedKind(rules: Rules, template: Value, supervisor: bool, current: Value)
    requires NeedsSnapshot(template, supervisor) && (Matching(template) || !Is(template, "action", Name(Batch)))
    ensures SameKind(rules, Guarded(template, current), template)
  {
    var filled := Guarded(template, current);
    if Is(template, "action", Name(Artifact)) {
      ArtifactKind(At(template, "operation"), At(At(current, "artifact"), "version"));
    }
    assert At(filled, "action") == At(template, "action");
    SnapshotKinds(template, supervisor);
    WritesByKind(rules, filled, template);
  }

  lemma ImportLayout(template: Value, base: Value, edit: Value)
    requires IsImport(template) && base == At(template, "operation") && base.Object?
    ensures var filled := With(template, "operation", With(base, "operation", edit));
            && IsImport(filled) && Files(filled) == Files(template)
            && forall files :: WithFiles(filled, files)
                               == With(template, "operation", With(With(base, "operation", edit), "files", files))
  {
  }

  lemma ImportFilled(rules: Rules, template: Value, base: Value, edit: Value)
    requires IsImport(template) && Payload(rules, template).Some?
    requires base == At(template, "operation") && base.Object? && "operation" in base.fields
    ensures var filled := With(template, "operation", With(base, "operation", edit));
            && Payload(rules, filled).Some?
            && (Same(Payload(rules, filled).value, Payload(rules, template).value, template)
                <==> Same(filled, template, template))
  {
    var inner := With(base, "operation", edit);
    var filled := With(template, "operation", inner);
    ImportLayout(template, base, edit);
    var files := List(FilePayloads(rules, Files(template).items).value);
    FieldsChanged(template, "operation", With(inner, "files", files), With(base, "files", files));
    FilesReplaced(base, edit, files);
    FieldChanged(template, "operation", inner);
    FieldChanged(base, "operation", edit);
  }

  lemma ImportPayload(rules: Rules, template: Value, version: Value)
    requires IsImport(template) && MissingArtifactVersion(template) && Payload(rules, template).Some?
    ensures var filled := With(template, "operation", WithArtifactVersion(At(template, "operation"), version));
            && Payload(rules, filled).Some?
            && (Same(Payload(rules, filled).value, Payload(rules, template).value, template)
                <==> Same(filled, template, template))
  {
    var base := At(template, "operation");
    assert "operation" in base.fields;
    var edit := WithArtifactVersion(base.fields["operation"], version);
    ImportFilled(rules, template, base, edit);
  }

  /** The receipt of a filled command compares equal to the command itself if and only if the command names
      its guards. */
  lemma ReceiptIsRecognized(rules: Rules, link: Link, template: Value, supervisor: bool, authority: bool)
    requires NeedsSnapshot(template, supervisor) && Fill(rules, link, template, authority).1.Success?
    requires Payload(rules, template).Some?
    ensures var filled := Fill(rules, link, template, authority).1.value;
            && Payload(rules, filled).Some?
            && var saved, wanted := Payload(rules, filled).value, Payload(rules, template).value;
               (LogicalCommand(saved, template) == LogicalCommand(wanted, template)) <==> Named(template)
  {
    FilledIsSame(rules, link, template, supervisor, authority);
    FilledKind(rules, link, template, supervisor, authority);
    var filled := Fill(rules, link, template, authority).1.value;
    if IsImport(template) {
      var reply := Send(rules, link, Request(None, SnapshotRead(template)), authority).1;
      ImportPayload(rules, template, At(At(reply.value, "artifact"), "version"));
    }
    ComparisonIsExact(Payload(rules, filled).value, Payload(rules, template).value, template);
  }

  // ---- saved commands

  lemma SnapshotWrites(rules: Rules, v: Value, supervisor: bool)
    requires NeedsSnapshot(v, supervisor)
    ensures Writes(rules, v) && Action(v) != RequestStatus
  {
  }

  lemma SameName(a: Value, b: Value, template: Value, key: string)
    requires Same(a, b, template) && At(template, key).Name? && At(b, key) == At(template, key)
    requires b.Object? && template.Object?
    ensures a.Object? && At(a, key) == At(template, key)
  {
    assert !Ignored(key, template.fields);
    assert key in b.fields && key in template.fields;
    assert key in a.fields;
    assert Same(a.fields[key], b.fields[key], template.fields[key]);
  }

  lemma SavedCommand(rules: Rules, saved: Value, template: Value, supervisor: bool)
    requires NeedsSnapshot(template, supervisor) && Is(template, "action", Name(Artifact))
    requires Payload(rules, template).Some? && Same(saved, Payload(rules, template).value, template)
    ensures At(At(saved, "operation"), "command") == At(At(template, "operation"), "command")
  {
    var wanted, t := Payload(rules, template).value, At(template, "operation");
    assert "operation" in wanted.fields && !Ignored("operation", template.fields);
    assert "operation" in saved.fields && Same(saved.fields["operation"], wanted.fields["operation"], t);
    SameName(At(saved, "operation"), At(wanted, "operation"), t, "command");
  }

  lemma RestoredFields(saved: Value, template: Value)
    ensures At(Restored(saved, template), "action") == At(saved, "action")
    ensures At(At(Restored(saved, template), "operation"), "command") == At(At(saved, "operation"), "command")
  {
  }

  /** A saved command that agrees with the repeated one is of its kind, so resubmitting it reaches its receipt. */
  lemma RestoredKind(rules: Rules, saved: Value, template: Value, supervisor: bool)
    requires NeedsSnapshot(template, supervisor) && Payload(rules, template).Some?
    requires Same(saved, Payload(rules, template).value, template)
    ensures Writes(rules, Restored(saved, template)) && Action(Restored(saved, template)) != RequestStatus
  {
    SnapshotWrites(rules, template, supervisor);
    SnapshotKinds(template, supervisor);
    SameName(saved, Payload(rules, template).value, template, "action");
    if Is(template, "action", Name(Artifact)) {
      SavedCommand(rules, saved, template, supervisor);
    }
    RestoredFields(saved, template);
    WritesByKind(rules, Restored(saved, template), template);
  }

  /** Restoring the uploaded bytes into the receipt of a filled command gives that command back. */
  lemma RestoredIsFilled(rules: Rules, link: Link, template: Value, supervisor: bool, authority: bool)
    requires NeedsSnapshot(template, supervisor) && Fill(rules, link, template, authority).1.Success?
    requires Payload(rules, Fill(rules, link, template, authority).1.value).Some?
    ensures var filled := Fill(rules, link, template, authority).1.value;
            Restored(Payload(rules, filled).value, template) == filled
  {
    FilledKind(rules, link, template, supervisor, authority);
    var filled := Fill(rules, link, template, authority).1.value;
    if IsImport(template) {
      FilesKept(rules, link, template, supervisor, authority);
      FilesRestored(filled, List(FilePayloads(rules, Files(filled).items).value));
    }
  }

  lemma FilesKept(rules: Rules, link: Link, template: Value, supervisor: bool, authority: bool)
    requires NeedsSnapshot(template, supervisor) && Fill(rules, link, template, authority).1.Success?
    requires IsImport(template) && Files(template).List?
    ensures var filled := Fill(rules, link, template, authority).1.value;
            filled.Object? && At(filled, "operation").Object? && "files" in At(filled, "operation").fields
  {
    var reply := Send(rules, link, Request(None, SnapshotRead(template)), authority).1;
    ArtifactKind(At(template, "operation"), At(At(reply.value, "artifact"), "version"));
  }

  lemma FilesRestored(v: Value, files: Value)
    requires v.Object? && At(v, "operation").Object? && "files" in At(v, "operation").fields
    ensures WithFiles(WithFiles(v, files), Files(v)) == v
  {
    var inner := At(v, "operation");
    assert inner.fields["files" := files]["files" := inner.fields["files"]] == inner.fields;
    assert v.fields["operation" := With(inner, "files", files)]["operation" := inner] == v.fields;
  }
}
