/** Commands as JSON values, src/cli_request.rs: which of them wait for a revision guard, and when a saved
    command is the same one as a repeated command. */
module GuardedCommand {
  /** The names of operations, and of artifact commands, that matter here. Of the others, some only read, some
      have commands of their own that decide it, and the rest write. */
  datatype Verb =
    | Assign | Transfer | HoldAttempt | ReconcileAttempt | SetYolo | Edit | Undraft | Move | Reopen | SetBlockers
    | Ready | Close | Batch | Artifact | Unassign
    | View | ListAll | RequestStatus
    | Import | Archive | Delete | Preview | Links
    | Reading(name: string) | Deciding(name: string) | Writing(name: string)

  /** A JSON value. A number that is no 64-bit integer keeps its spelling, and the names of operations are
      told from other texts. */
  datatype Value =
    | Null
    | Bool(truth: bool)
    | Number(n: int)
    | Fraction(digits: string)
    | Text(text: string)
    | Name(verb: Verb)
    | List(items: seq<Value>)
    | Object(fields: map<string, Value>)

  /** Indexing reads null where there is nothing. */
  function At(v: Value, key: string): Value {
    if v.Object? && key in v.fields then v.fields[key] else Null
  }

  function With(v: Value, key: string, x: Value): Value {
    if v.Object? then Object(v.fields[key := x]) else v
  }

  predicate Is(v: Value, key: string, x: Value) {
    At(v, key) == x
  }

  function Action(v: Value): Verb {
    if At(v, "action").Name? then At(v, "action").verb else Writing("")
  }

  /** A version guard that is to be filled in. */
  predicate Missing(v: Value) {
    v == Null || v == Number(0)
  }

  /** The artifact edit inside any number of imports. */
  function Innermost(v: Value): Value {
    if Is(v, "command", Name(Import)) && v.Object? && "operation" in v.fields then Innermost(v.fields["operation"]) else v
  }

  predicate MissingArtifactVersion(v: Value) {
    var inner := Innermost(At(v, "operation"));
    (Is(inner, "command", Name(Edit)) || Is(inner, "command", Name(Archive)) || Is(inner, "command", Name(Delete)))
    && Missing(At(inner, "if_version"))
  }

  predicate NeedsSnapshot(v: Value, supervisor: bool) {
    match Action(v)
    case Assign | Transfer | HoldAttempt | ReconcileAttempt | SetYolo => Missing(At(v, "if_version"))
    case Edit => At(v, "if_version") == Null && (supervisor || At(v, "draft") == Bool(true))
    case Undraft => At(v, "if_version") == Null
    case Move => At(v, "if_order_version") == Null
    case Reopen | SetBlockers => supervisor && At(v, "if_version") == Null
    case Ready => At(v, "guard") == Null
    case Close => supervisor && At(v, "guard") == Null
    case Batch =>
      if At(v, "matching") != Null then At(v, "if_order_version") == Null
      else At(v, "edits").List? && exists edit <- At(v, "edits").items :: Missing(At(edit, "if_version"))
    case Artifact => MissingArtifactVersion(v)
    case _ => false
  }

  // ---- the command without its automatic guards

  /** A position of the template that is filled in automatically. */
  predicate Automatic(key: string, expected: Value) {
    (key == "if_version" && Missing(expected)) || ((key == "guard" || key == "if_order_version") && expected == Null)
  }

  predicate Ignored(key: string, template: map<string, Value>) {
    key in template && Automatic(key, template[key])
  }

  function LogicalCommand(v: Value, template: Value): Value
    decreases template
  {
    if v.Object? && template.Object? then
      Object(map key | key in v.fields && !Ignored(key, template.fields) ::
               if key in template.fields then LogicalCommand(v.fields[key], template.fields[key]) else v.fields[key])
    else if v.List? && template.List? then
      List(seq(|v.items|, i requires 0 <= i < |v.items| =>
        if i < |template.items| then LogicalCommand(v.items[i], template.items[i]) else v.items[i]))
    else v
  }

  /** The program's form: keys of the template are removed or descended into one by one. */
  method Strip(v: Value, template: Value) returns (r: Value)
    ensures r == LogicalCommand(v, template)
    decreases template
  {
    r := v;
    if v.Object? && template.Object? {
      var fields := v.fields;
      var keys := template.fields.Keys;
      while keys != {}
        invariant keys <= template.fields.Keys
        invariant forall key :: key in fields <==>
                    key in v.fields && !(key !in keys && Ignored(key, template.fields))
        invariant forall key <- fields :: fields[key] ==
                    if key in template.fields && key !in keys then LogicalCommand(v.fields[key], template.fields[key])
                    else v.fields[key]
        decreases |keys|
      {
        var key :| key in keys;
        var expected := template.fields[key];
        if Automatic(key, expected) {
          fields := fields - {key};
        } else if key in fields {
          var inner := Strip(fields[key], expected);
          fields := fields[key := inner];
        }
        keys := keys - {key};
      }
      r := Object(fields);
      assert fields == LogicalCommand(v, template).fields;
    } else if v.List? && template.List? {
      var items := v.items;
      var n := if |items| < |template.items| then |items| else |template.items|;
      for i := 0 to n
        invariant |items| == |v.items|
        invariant forall j :: 0 <= j < |items| ==>
                    items[j] == if j < i then LogicalCommand(v.items[j], template.items[j]) else v.items[j]
      {
        var inner := Strip(items[i], template.items[i]);
        items := items[i := inner];
      }
      r := List(items);
      assert items == LogicalCommand(v, template).items;
    }
  }

  /** Two commands agree everywhere but at the template's automatic guards. */
  predicate Same(a: Value, b: Value, template: Value)
    decreases template
  {
    match (a, b, template)
    case (Object(x), Object(y), Object(t)) =>
      && (forall key <- x :: !Ignored(key, t) ==> key in y)
      && (forall key <- y :: !Ignored(key, t) ==> key in x)
      && (forall key <- x | key in y && !Ignored(key, t) ::
            if key in t then Same(x[key], y[key], t[key]) else x[key] == y[key])
    case (List(x), List(y), List(t)) =>
      |x| == |y| && forall i :: 0 <= i < |x| ==> if i < |t| then Same(x[i], y[i], t[i]) else x[i] == y[i]
    case _ => a == b
  }

  /** The comparison of stripped commands succeeds exactly when the commands agree outside the guards. */
  lemma {:induction false} ComparisonIsExact(a: Value, b: Value, template: Value)
    ensures LogicalCommand(a, template) == LogicalCommand(b, template) <==> Same(a, b, template)
    decreases template
  {
    if a.Object? && b.Object? && template.Object? {
      forall key | key in a.fields && key in b.fields && key in template.fields
        ensures LogicalCommand(a.fields[key], template.fields[key]) == LogicalCommand(b.fields[key], template.fields[key])
           <==> Same(a.fields[key], b.fields[key], template.fields[key])
      {
        ComparisonIsExact(a.fields[key], b.fields[key], template.fields[key]);
      }
      ObjectsCompare(a.fields, b.fields, template.fields);
    } else if a.List? && b.List? && template.List? {
      forall i | 0 <= i < |a.items| && i < |b.items| && i < |template.items|
        ensures LogicalCommand(a.items[i], template.items[i]) == LogicalCommand(b.items[i], template.items[i])
           <==> Same(a.items[i], b.items[i], template.items[i])
      {
        ComparisonIsExact(a.items[i], b.items[i], template.items[i]);
      }
      ListsCompare(a.items, b.items, template.items);
    }
  }

  lemma ObjectsCompare(a: map<string, Value>, b: map<string, Value>, t: map<string, Value>)
    requires forall key | key in a && key in b && key in t ::
               LogicalCommand(a[key], t[key]) == LogicalCommand(b[key], t[key]) <==> Same(a[key], b[key], t[key])
    ensures LogicalCommand(Object(a), Object(t)) == LogicalCommand(Object(b), Object(t))
       <==> Same(Object(a), Object(b), Object(t))
  {
    var x, y := LogicalCommand(Object(a), Object(t)).fields, LogicalCommand(Object(b), Object(t)).fields;
    if Same(Object(a), Object(b), Object(t)) {
      assert x.Keys == y.Keys;
      assert x == y;
    }
    if x == y {
      forall key | key in a && !Ignored(key, t) ensures key in b { assert key in x; assert key in y; }
      forall key | key in b && !Ignored(key, t) ensures key in a { assert key in y; assert key in x; }
      forall key | key in a && key in b && !Ignored(key, t)
        ensures if key in t then Same(a[key], b[key], t[key]) else a[key] == b[key]
      {
        assert x[key] == y[key];
      }
    }
  }

  lemma ListsCompare(a: seq<Value>, b: seq<Value>, t: seq<Value>)
    requires forall i | 0 <= i < |a| && i < |b| && i < |t| ::
               LogicalCommand(a[i], t[i]) == LogicalCommand(b[i], t[i]) <==> Same(a[i], b[i], t[i])
    ensures LogicalCommand(List(a), List(t)) == LogicalCommand(List(b), List(t)) <==> Same(List(a), List(b), List(t))
  {
    var x, y := LogicalCommand(List(a), List(t)).items, LogicalCommand(List(b), List(t)).items;
    if Same(List(a), List(b), List(t)) {
      assert x == y;
    }
    if x == y {
      assert |a| == |x| == |y| == |b|;
      forall i | 0 <= i < |a| ensures if i < |t| then Same(a[i], b[i], t[i]) else a[i] == b[i] {
        assert x[i] == y[i];
      }
    }
  }
}
