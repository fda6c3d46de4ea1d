/** Editing settings text in place, src/agent_permissions.rs: an object's properties are located by their
    byte spans, and one property is replaced or inserted without touching any other byte. */
module JsonEdit {
  import opened Wrappers
  import opened JsonSyntax
  import opened JsonParsing
  import opened JsonStrings

  /** A raw property value: where it starts in the source, and its text. */
  datatype Span = Span(start: nat, raw: string)

  /** An object's properties by decoded key; None when a key repeats or does not decode. */
  function Values(members: Members): Option<map<string, Json>>
    requires ValidMembers(members)
  {
    match members
    case NoMembers => Some(map[])
    case MoreMembers(_, key, _, _, value, _, rest) =>
      match (Decode(key), Values(rest))
      case (Some(name), Some(others)) => if name in others then None else Some(others[name := value])
      case _ => None
  }

  /** The same properties as spans of a source in which the members begin at `at`. */
  function Spans(members: Members, at: nat): Option<map<string, Span>>
    requires ValidMembers(members)
  {
    match members
    case NoMembers => Some(map[])
    case MoreMembers(_, key, _, _, value, after, rest) =>
      var start := at + |KeyText(members)|;
      match (Decode(key), Spans(rest, start + |Print(value)| + |after| + 1))
      case (Some(name), Some(others)) =>
        if name in others then None else Some(others[name := Span(start, Print(value))])
      case _ => None
  }

  /** What an object of the source promises to an edit: every span is in the source and holds its text,
      and there is an opening brace. */
  ghost predicate Describes(source: string, fields: map<string, Span>) {
    && '{' in source
    && forall key <- fields :: Holds(source, fields[key])
  }

  ghost predicate Holds(source: string, span: Span) {
    span.start + |span.raw| <= |source| && source[span.start..span.start + |span.raw|] == span.raw
  }

  /** The object a text holds, with unique keys. */
  function ReadObject(source: string): (r: Result<map<string, Span>>)
    ensures r.Success? ==> Describes(source, r.value)
  {
    match ParseDocument(source)
    case None => Failure("invalid JSON")
    case Some(d) =>
      DocumentSound(source);
      if !d.value.Object? then Failure("not an object") else
      match Spans(d.value.members, |d.before| + 1)
      case None => Failure("duplicate key")
      case Some(fields) =>
        SpansDescribe(source, d);
        Success(fields)
  }

  /** The same object by value: its members' trees, which print back their source bytes. */
  ghost function Contents(source: string): (r: Option<map<string, Json>>)
    ensures r.Some? ==> forall key <- r.value :: Valid(r.value[key])
  {
    match ParseDocument(source)
    case None => None
    case Some(d) =>
      DocumentSound(source);
      if !d.value.Object? then None else
      if Values(d.value.members).Some? then
        ValuesAreValid(d.value.members);
        Values(d.value.members)
      else None
  }

  /** The spans are exactly the members' values. */
  lemma {:induction false} SpansAreValues(members: Members, at: nat)
    requires ValidMembers(members)
    ensures Spans(members, at).Some? <==> Values(members).Some?
    ensures Spans(members, at).Some? ==>
              var spans, values := Spans(members, at).value, Values(members).value;
              spans.Keys == values.Keys && forall key <- values :: spans[key].raw == Print(values[key])
  {
    if members.MoreMembers? {
      SpansAreValues(members.rest, at + |KeyText(members)| + |Print(members.value)| + |members.after| + 1);
    }
  }

  lemma NextText(members: Members, end: string)
    requires members.MoreMembers? && members.rest.MoreMembers?
    ensures members.after + AfterMember(members.rest, end)
         == members.after + ("," + (PrintMembers(members.rest) + ("}" + end)))
  {
  }

  lemma FirstValue(source: string, members: Members, at: nat, end: string)
    requires members.MoreMembers? && at <= |source| && source[at..] == PrintMembers(members) + ("}" + end)
    ensures var start := at + |KeyText(members)|;
            && Holds(source, Span(start, Print(members.value)))
            && source[start + |Print(members.value)|..] == members.after + AfterMember(members.rest, end)
  {
    MembersText(members, end);
    Third(source, at, KeyText(members), Print(members.value), members.after + AfterMember(members.rest, end));
  }

  /** Where the first member's value and the next member are. */
  lemma FirstMember(source: string, members: Members, at: nat, end: string)
    requires members.MoreMembers? && at <= |source| && source[at..] == PrintMembers(members) + ("}" + end)
    ensures var start := at + |KeyText(members)|;
            var next := start + |Print(members.value)| + |members.after| + 1;
            && Holds(source, Span(start, Print(members.value)))
            && (members.rest.MoreMembers? ==>
                  next <= |source| && source[next..] == PrintMembers(members.rest) + ("}" + end))
  {
    FirstValue(source, members, at, end);
    if members.rest.MoreMembers? {
      NextText(members, end);
      Third(source, at + |KeyText(members)| + |Print(members.value)|, members.after, ",",
            PrintMembers(members.rest) + ("}" + end));
    }
  }

  lemma {:induction false} SpansHold(source: string, members: Members, at: nat, end: string)
    requires ValidMembers(members) && Spans(members, at).Some?
    requires at <= |source| && source[at..] == PrintMembers(members) + ("}" + end)
    ensures forall key <- Spans(members, at).value :: Holds(source, Spans(members, at).value[key])
  {
    if members.MoreMembers? {
      FirstMember(source, members, at, end);
      if members.rest.MoreMembers? {
        SpansHold(source, members.rest, at + |KeyText(members)| + |Print(members.value)| + |members.after| + 1, end);
      }
    }
  }

  lemma Third(source: string, at: nat, a: string, b: string, c: string)
    requires at <= |source| && source[at..] == a + (b + c)
    ensures at + |a| + |b| <= |source|
    ensures source[at + |a|..at + |a| + |b|] == b && source[at + |a| + |b|..] == c
  {
    assert source[at + |a|..] == source[at..][|a|..] == b + c;
    assert source[at + |a| + |b|..] == source[at + |a|..][|b|..];
  }

  lemma SpansDescribe(source: string, d: Document)
    requires ParseDocument(source) == Some(d) && d.value.Object?
    requires ValidDocument(d) && Spans(d.value.members, |d.before| + 1).Some?
    ensures Describes(source, Spans(d.value.members, |d.before| + 1).value)
  {
    DocumentSound(source);
    var Object(space, members) := d.value;
    ObjectLayout(d);
    if members.MoreMembers? {
      Third(source, 0, d.before, "{", PrintMembers(members) + ("}" + d.after));
      SpansHold(source, members, |d.before| + 1, d.after);
    }
    assert source[|d.before|] == '{';
  }

  /** An object's text: what precedes its members, the members, and what follows. */
  lemma ObjectLayout(d: Document)
    requires d.value.Object?
    ensures var Object(space, members) := d.value;
            PrintDocument(d) == d.before + ("{" + (space + (PrintMembers(members) + ("}" + d.after))))
    ensures d.value.space == "" ==>
              PrintDocument(d) == d.before + ("{" + (PrintMembers(d.value.members) + ("}" + d.after)))
    ensures d.value.members.NoMembers? ==> PrintDocument(d) == d.before + ("{" + (d.value.space + ("}" + d.after)))
  {
    var Object(space, members) := d.value;
    BracketLayout("{", space, PrintMembers(members), "}", d.after);
  }

  // ---- one property replaced or inserted

  function Find(source: string, c: char): (n: nat)
    requires c in source
    ensures n < |source| && source[n] == c && c !in source[..n]
  {
    if source[0] == c then 0 else
    assert source == [source[0]] + source[1..];
    1 + Find(source[1..], c)
  }

  /** What the program inserts for a property that is not there yet. */
  function NewProperty(key: string, value: string, last: bool): string {
    "\n  \"" + key + "\": " + value + (if last then "" else ",") + "\n"
  }

  /** The source with `length` bytes from `start` exchanged for a text. */
  function Splice(source: string, start: nat, length: nat, text: string): string
    requires start + length <= |source|
  {
    source[..start] + text + source[start + length..]
  }

  function SetProperty(source: string, fields: map<string, Span>, key: string, value: string): string
    requires Describes(source, fields)
  {
    if key in fields then
      var Span(start, raw) := fields[key];
      assert Holds(source, fields[key]);
      Splice(source, start, |raw|, value)
    else
      var start := Find(source, '{') + 1;
      Splice(source, start, 0, NewProperty(key, value, fields == map[]))
  }

  /** The members with the value of one key exchanged. */
  ghost function Exchange(members: Members, key: string, value: Json): Members
    requires ValidMembers(members)
  {
    match members
    case NoMembers => NoMembers
    case MoreMembers(before, k, beforeColon, afterColon, old', after, rest) =>
      if Decode(k) == Some(key) then MoreMembers(before, k, beforeColon, afterColon, value, after, rest)
      else MoreMembers(before, k, beforeColon, afterColon, old', after, Exchange(rest, key, value))
  }

  lemma {:induction false} ExchangeKeeps(members: Members, key: string, value: Json)
    requires ValidMembers(members) && Valid(value)
    ensures ValidMembers(Exchange(members, key, value))
    ensures Exchange(members, key, value).MoreMembers? == members.MoreMembers?
  {
    if members.MoreMembers? {
      ExchangeKeeps(members.rest, key, value);
    }
  }

  lemma {:induction false} ExchangeValues(members: Members, key: string, value: Json)
    requires ValidMembers(members) && Valid(value)
    requires Values(members).Some? && key in Values(members).value
    ensures ValidMembers(Exchange(members, key, value))
    ensures Values(Exchange(members, key, value)) == Some(Values(members).value[key := value])
  {
    ExchangeKeeps(members, key, value);
    var rest := Values(members.rest).value;
    var name := Decode(members.key).value;
    if name != key {
      ExchangeValues(members.rest, key, value);
      assert rest[name := members.value][key := value] == rest[key := value][name := members.value];
    } else {
      assert rest[name := members.value][key := value] == rest[key := value];
    }
  }

  /** Exchanging a span in the source gives these members after what stands before `at`. */
  predicate Exchanged(source: string, at: nat, end: string, span: Span, text: string, members: Members) {
    at <= |source| && span.start + |span.raw| <= |source|
    && Splice(source, span.start, |span.raw|, text) == source[..at] + (PrintMembers(members) + ("}" + end))
  }

  lemma ExchangeHere(source: string, members: Members, at: nat, end: string, value: Json)
    requires members.MoreMembers? && at <= |source| && source[at..] == PrintMembers(members) + ("}" + end)
    ensures Exchanged(source, at, end, Span(at + |KeyText(members)|, Print(members.value)), Print(value),
                      members.(value := value))
  {
    MembersText(members, end);
    MembersText(members.(value := value), end);
    ReplaceFirst(source, at, KeyText(members), Print(members.value), members.after + AfterMember(members.rest, end),
                 Print(value));
  }

  lemma ExchangeLater(source: string, members: Members, at: nat, end: string, span: Span, text: string, rest: Members)
    requires members.MoreMembers? && at <= |source| && source[at..] == PrintMembers(members) + ("}" + end)
    requires members.rest.MoreMembers? && rest.MoreMembers?
    requires var next := at + |KeyText(members)| + |Print(members.value)| + |members.after| + 1;
             Exchanged(source, next, end, span, text, rest)
    ensures Exchanged(source, at, end, span, text, members.(rest := rest))
  {
    var next := at + |KeyText(members)| + |Print(members.value)| + |members.after| + 1;
    MembersText(members, end);
    MembersText(members.(rest := rest), end);
    NextText(members, end);
    NextText(members.(rest := rest), end);
    ReplaceLater(source, at, next, KeyText(members), Print(members.value), members.after,
                 PrintMembers(members.rest) + ("}" + end), PrintMembers(rest) + ("}" + end));
  }

  lemma ExchangeOf(members: Members, key: string, value: Json)
    requires ValidMembers(members) && members.MoreMembers?
    ensures Exchange(members, key, value)
         == if Decode(members.key) == Some(key) then members.(value := value)
            else members.(rest := Exchange(members.rest, key, value))
  {
  }

  lemma SpanOf(members: Members, at: nat, key: string)
    requires ValidMembers(members) && Spans(members, at).Some? && key in Spans(members, at).value
    ensures members.MoreMembers?
    ensures var start := at + |KeyText(members)|;
            var rest := Spans(members.rest, start + |Print(members.value)| + |members.after| + 1);
            if Decode(members.key) == Some(key) then Spans(members, at).value[key] == Span(start, Print(members.value))
            else rest.Some? && key in rest.value && Spans(members, at).value[key] == rest.value[key]
  {
  }

  /** In the text, exchanging a value replaces its span and nothing else. */
  lemma {:induction false} ExchangeText(source: string, members: Members, at: nat, end: string, key: string, value: Json)
    requires ValidMembers(members) && Valid(value)
    requires Spans(members, at).Some? && key in Spans(members, at).value
    requires at <= |source| && source[at..] == PrintMembers(members) + ("}" + end)
    ensures Exchanged(source, at, end, Spans(members, at).value[key], Print(value), Exchange(members, key, value))
  {
    SpanOf(members, at, key);
    ExchangeOf(members, key, value);
    if Decode(members.key) == Some(key) {
      ExchangeHere(source, members, at, end, value);
    } else {
      FirstMember(source, members, at, end);
      var next := at + |KeyText(members)| + |Print(members.value)| + |members.after| + 1;
      ExchangeText(source, members.rest, next, end, key, value);
      ExchangeKeeps(members.rest, key, value);
      ExchangeLater(source, members, at, end, Spans(members, at).value[key], Print(value), Exchange(members.rest, key, value));
    }
  }

  lemma ReplaceFirst(source: string, at: nat, a: string, b: string, c: string, b': string)
    requires at <= |source| && source[at..] == a + (b + c)
    ensures at + |a| + |b| <= |source|
    ensures Splice(source, at + |a|, |b|, b') == source[..at] + (a + (b' + c))
  {
    Third(source, at, a, b, c);
    assert source[..at + |a|] == source[..at] + source[at..][..|a|] == source[..at] + a;
  }

  lemma ReplaceLater(source: string, at: nat, next: nat, a: string, b: string, c: string, d: string, d': string)
    requires at <= |source| && source[at..] == a + (b + (c + ("," + d)))
    requires next == at + |a| + |b| + |c| + 1
    ensures next <= |source| && source[..next] + d' == source[..at] + (a + (b + (c + ("," + d'))))
  {
    assert source[..next] == source[..at] + source[at..][..next - at];
    assert source[at..] == (a + (b + (c + ","))) + d;
    assert source[at..][..next - at] == a + (b + (c + ","));
  }

  /** The members with a new one in front, laid out as the program does. */
  ghost function Inserted(space: string, members: Members, key: string, value: Json): Members {
    match members
    case NoMembers => MoreMembers("\n  ", Plains(key), "", " ", value, "\n" + space, NoMembers)
    case MoreMembers(_, _, _, _, _, _, _) =>
      MoreMembers("\n  ", Plains(key), "", " ", value, "", members.(before := "\n" + members.before))
  }

  lemma InsertedValues(space: string, members: Members, key: string, value: Json)
    requires AllSpace(space) && ValidMembers(members) && PlainName(key) && Valid(value)
    requires Values(members).Some? && key !in Values(members).value
    ensures ValidMembers(Inserted(space, members, key, value))
    ensures Values(Inserted(space, members, key, value)) == Some(Values(members).value[key := value])
  {
    PlainsRead(key);
  }

  lemma MovedText(members: Members)
    requires members.MoreMembers?
    ensures PrintMembers(members.(before := "\n" + members.before)) == "\n" + PrintMembers(members)
  {
    var more := Print(members.value) + (members.after + MembersTail(members.rest));
    var colon := Quote(members.key) + (members.beforeColon + (":" + members.afterColon));
    Prepend("\n", members.before, colon);
    Prepend("\n", members.before + colon, more);
  }

  lemma NewKeyText(key: string)
    requires PlainName(key)
    ensures PrintKey("\n  ", Plains(key), "", " ") == "\n  \"" + key + "\": "
  {
    PlainsRead(key);
  }

  lemma InsertedText(space: string, members: Members, key: string, value: Json, end: string)
    requires PlainName(key) && (members.MoreMembers? ==> space == "")
    ensures NewProperty(key, Print(value), members.NoMembers?) + (space + (PrintMembers(members) + ("}" + end)))
         == PrintMembers(Inserted(space, members, key, value)) + ("}" + end)
  {
    NewKeyText(key);
    MembersText(Inserted(space, members, key, value), end);
    var head := "\n  \"" + key + "\": ";
    if members.MoreMembers? {
      MovedText(members);
      Nothing(PrintMembers(members) + ("}" + end));
      Nothing("," + ("\n" + (PrintMembers(members) + ("}" + end))));
      Prepend("\n", PrintMembers(members), "}" + end);
      Chain(head, Print(value), ",", "\n", PrintMembers(members) + ("}" + end));
    } else {
      Nothing("}" + end);
      Nothing("\n" + (space + ("}" + end)));
      Prepend("\n", space, "}" + end);
      Chain(head, Print(value), "", "\n", space + ("}" + end));
    }
  }

  lemma Chain(a: string, b: string, c: string, d: string, e: string)
    ensures (a + b + c + d) + e == a + (b + (c + (d + e)))
  {
  }

  // ---- the edit is one update of the object

  /** The program's table and the contents agree: same keys, and each span is its value's text. */
  lemma FieldsAreContents(source: string)
    ensures ReadObject(source).Success? <==> Contents(source).Some?
    ensures ReadObject(source).Success? ==>
              var fields, values := ReadObject(source).value, Contents(source).value;
              fields.Keys == values.Keys && forall key <- values :: fields[key].raw == Print(values[key]) && Valid(values[key])
  {
    if ParseDocument(source).Some? {
      var d := ParseDocument(source).value;
      DocumentSound(source);
      if d.value.Object? {
        SpansAreValues(d.value.members, |d.before| + 1);
        if Values(d.value.members).Some? {
          ValuesAreValid(d.value.members);
        }
      }
    }
  }

  lemma {:induction false} ValuesAreValid(members: Members)
    requires ValidMembers(members) && Values(members).Some?
    ensures forall key <- Values(members).value :: Valid(Values(members).value[key])
  {
    if members.MoreMembers? {
      ValuesAreValid(members.rest);
    }
  }

  /** A text with these contents. */
  lemma PrintedContents(d: Document)
    requires ValidDocument(d) && d.value.Object?
    ensures Contents(PrintDocument(d)) == Values(d.value.members)
  {
    DocumentComplete(d);
  }

  /** The document whose object has other members. */
  function WithMembers(d: Document, members: Members): Document {
    Document(d.before, Object("", members), d.after)
  }

  predicate IsObject(d: Document) {
    ValidDocument(d) && d.value.Object?
  }

  lemma NoFields(members: Members, at: nat)
    requires ValidMembers(members) && Spans(members, at).Some?
    ensures Spans(members, at).value == map[] <==> members.NoMembers?
  {
    if members.MoreMembers? {
      assert Decode(members.key).value in Spans(members, at).value;
    }
  }

  lemma ReplaceText(d: Document, fields: map<string, Span>, key: string, value: Json)
    requires IsObject(d) && Spans(d.value.members, |d.before| + 1) == Some(fields)
    requires Describes(PrintDocument(d), fields) && key in fields && Valid(value)
    ensures SetProperty(PrintDocument(d), fields, key, Print(value))
         == PrintDocument(WithMembers(d, Exchange(d.value.members, key, value)))
  {
    var source, members := PrintDocument(d), d.value.members;
    var changed := Exchange(members, key, value);
    NoFields(members, |d.before| + 1);
    ObjectLayout(d);
    ObjectLayout(WithMembers(d, changed));
    BeforeObject(source, d.before, PrintMembers(members) + ("}" + d.after));
    ExchangeText(source, members, |d.before| + 1, d.after, key, value);
    Prepend(d.before, "{", PrintMembers(changed) + ("}" + d.after));
  }

  lemma BeforeObject(source: string, before: string, more: string)
    requires source == before + ("{" + more)
    ensures source[..|before| + 1] == before + "{" && source[|before| + 1..] == more
  {
    Prepend(before, "{", more);
  }

  lemma FirstBrace(before: string, more: string)
    requires AllSpace(before)
    ensures '{' in before + ("{" + more) && Find(before + ("{" + more), '{') == |before|
  {
    var text := before + ("{" + more);
    assert text[|before|] == '{';
    var n := Find(text, '{');
    assert forall i | 0 <= i < |before| :: before[i] in before && text[i] == before[i];
    assert forall i | 0 <= i < n :: text[..n][i] == text[i];
  }

  lemma InsertText(d: Document, fields: map<string, Span>, key: string, value: Json)
    requires IsObject(d) && Spans(d.value.members, |d.before| + 1) == Some(fields)
    requires Describes(PrintDocument(d), fields) && key !in fields && Valid(value) && PlainName(key)
    ensures SetProperty(PrintDocument(d), fields, key, Print(value))
         == PrintDocument(WithMembers(d, Inserted(d.value.space, d.value.members, key, value)))
  {
    var source, space, members := PrintDocument(d), d.value.space, d.value.members;
    var changed := Inserted(space, members, key, value);
    ObjectLayout(d);
    ObjectLayout(WithMembers(d, changed));
    var inside := space + (PrintMembers(members) + ("}" + d.after));
    FirstBrace(d.before, inside);
    BeforeObject(source, d.before, inside);
    NoFields(members, |d.before| + 1);
    InsertedText(space, members, key, value, d.after);
    var added := NewProperty(key, Print(value), members.NoMembers?);
    Prepend(d.before + "{", added, inside);
    Prepend(d.before, "{", added + inside);
  }

  lemma DocumentUpdates(d: Document, fields: map<string, Span>, key: string, value: Json) returns (edited: Document)
    requires IsObject(d) && Spans(d.value.members, |d.before| + 1) == Some(fields)
    requires Values(d.value.members).Some? && Values(d.value.members).value.Keys == fields.Keys
    requires Describes(PrintDocument(d), fields) && PlainName(key) && Valid(value)
    ensures IsObject(edited) && edited.before == d.before && edited.after == d.after
    ensures Values(edited.value.members) == Some(Values(d.value.members).value[key := value])
    ensures SetProperty(PrintDocument(d), fields, key, Print(value)) == PrintDocument(edited)
  {
    if key in fields {
      ReplaceText(d, fields, key, value);
      ExchangeValues(d.value.members, key, value);
      edited := WithMembers(d, Exchange(d.value.members, key, value));
    } else {
      InsertText(d, fields, key, value);
      InsertedValues(d.value.space, d.value.members, key, value);
      edited := WithMembers(d, Inserted(d.value.space, d.value.members, key, value));
    }
  }

  /** The document behind a text that was read as an object. */
  lemma ObjectRead(source: string, fields: map<string, Span>) returns (d: Document)
    requires ReadObject(source) == Success(fields)
    ensures IsObject(d) && PrintDocument(d) == source && Spans(d.value.members, |d.before| + 1) == Some(fields)
    ensures Values(d.value.members).Some? && Contents(source) == Values(d.value.members)
    ensures Values(d.value.members).value.Keys == fields.Keys
  {
    d := ParseDocument(source).value;
    DocumentSound(source);
    SpansAreValues(d.value.members, |d.before| + 1);
  }

  /** Editing the text of an object changes its contents at one key and nowhere else: every other member
      keeps its tree, hence its bytes, and the result is a well-formed object with unique keys. */
  lemma SetPropertyUpdates(source: string, fields: map<string, Span>, key: string, value: Json)
    requires ReadObject(source) == Success(fields) && PlainName(key) && Valid(value)
    ensures Contents(source).Some?
    ensures Contents(SetProperty(source, fields, key, Print(value))) == Some(Contents(source).value[key := value])
  {
    var d := ObjectRead(source, fields);
    var edited := DocumentUpdates(d, fields, key, value);
    PrintedContents(edited);
  }
}
