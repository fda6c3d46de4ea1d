/** What merging rules into Claude settings does to their meaning, whatever the text looks like. */
module SettingsMerge {
  import opened Wrappers
  import opened JsonSyntax
  import opened JsonParsing
  import opened JsonStrings
  import opened JsonEdit
  import opened AgentPermissions

  /** What a settings text says: its root and its permissions without the list that is merged, and that list. */
  datatype Settings = Settings(root: map<string, Json>, permissions: map<string, Json>, allow: seq<string>)

  ghost function ListAt(values: map<string, Json>, key: string): Option<seq<string>>
    requires forall k <- values :: Valid(values[k])
  {
    if key in values then Strings(values[key]) else Some([])
  }

  ghost function Permissions(root: map<string, Json>): Option<map<string, Json>> {
    if "permissions" in root then Contents(Print(root["permissions"])) else Some(map[])
  }

  ghost function Meaning(source: string): Option<Settings> {
    match Contents(source)
    case None => None
    case Some(root) =>
      match Permissions(root)
      case None => None
      case Some(permissions) => SettingsOf(root, permissions)
  }

  ghost function SettingsOf(root: map<string, Json>, permissions: map<string, Json>): Option<Settings>
    requires forall k <- permissions :: Valid(permissions[k])
  {
    if ListAt(permissions, "deny").None? || ListAt(permissions, "ask").None? then None else
    match ListAt(permissions, "allow")
    case None => None
    case Some(allow) => Some(Settings(root - {"permissions"}, permissions - {"allow"}, allow))
  }

  // ---- lists of rules as text

  /** The added rules as elements: each after a comma and a space, the first after `before`. */
  function RuleItems(before: string, rules: seq<string>): Items
    decreases |rules|
  {
    if rules == [] then NoItems else MoreItems(before, Text(Encode(rules[0])), "", RuleItems(" ", rules[1..]))
  }

  function Append(items: Items, more: Items): Items {
    match items
    case NoItems => more
    case MoreItems(before, value, after, rest) => MoreItems(before, value, after, Append(rest, more))
  }

  lemma {:induction false} RuleItemsRead(before: string, rules: seq<string>)
    requires AllSpace(before)
    ensures ValidItems(RuleItems(before, rules)) && ItemStrings(RuleItems(before, rules)) == Some(rules)
    decreases |rules|
  {
    if rules != [] {
      RuleItemsRead(" ", rules[1..]);
      DecodeEncode(rules[0]);
      assert [rules[0]] + rules[1..] == rules;
    }
  }

  lemma {:induction false} RuleItemsText(before: string, rules: seq<string>)
    requires rules != []
    ensures PrintItems(RuleItems(before, rules)) == before + Join(rules, ", ")
    decreases |rules|
  {
    var rest := RuleItems(" ", rules[1..]);
    Nothing(ItemsTail(rest));
    if |rules| > 1 {
      RuleItemsText(" ", rules[1..]);
      Prepend(",", " ", Join(rules[1..], ", "));
    } else {
      assert Serialize(rules[0]) + "" == Serialize(rules[0]);
    }
  }

  lemma {:induction false} AppendRead(items: Items, more: Items)
    requires ValidItems(items) && ValidItems(more)
    requires ItemStrings(items).Some? && ItemStrings(more).Some?
    ensures ValidItems(Append(items, more))
    ensures ItemStrings(Append(items, more)) == Some(ItemStrings(items).value + ItemStrings(more).value)
  {
    if items.MoreItems? {
      AppendRead(items.rest, more);
      assert Valid(items.value);
      var first := Decode(items.value.pieces).value;
      assert ([first] + ItemStrings(items.rest).value) + ItemStrings(more).value
          == [first] + (ItemStrings(items.rest).value + ItemStrings(more).value);
    } else {
      assert [] + ItemStrings(more).value == ItemStrings(more).value;
    }
  }

  lemma {:induction false} AppendText(items: Items, more: Items)
    requires items.MoreItems? && more.MoreItems?
    ensures PrintItems(Append(items, more)) == PrintItems(items) + ("," + PrintItems(more))
  {
    var tail := "," + PrintItems(more);
    if items.rest.MoreItems? {
      AppendText(items.rest, more);
      Prepend(",", PrintItems(items.rest), tail);
    } else {
      Nothing(tail);
    }
    assert ItemsTail(Append(items.rest, more)) == ItemsTail(items.rest) + tail;
    Regroup(items.before, Print(items.value), items.after, ItemsTail(items.rest), tail);
  }

  lemma BeforeLast(text: string, c: char, added: string)
    ensures c in text + [c] && FindLast(text + [c], c) == |text|
    ensures Splice(text + [c], |text|, 0, added) == text + added + [c]
  {
    var whole := text + [c];
    assert whole[|text|] == c;
    assert whole[|text|..] == [c] && whole[..|text|] == text;
    var n := FindLast(whole, c);
  }

  function Merged(list: Json, rules: seq<string>): Json
    requires list.Array?
  {
    Array("", if list.items.NoItems? then RuleItems(list.space, rules) else Append(list.items, RuleItems("", rules)))
  }

  lemma ListText(space: string, items: Items)
    ensures Print(Array(space, items)) == ("[" + (space + PrintItems(items))) + [']']
    ensures items.NoItems? ==> Print(Array(space, items)) == ("[" + space) + [']']
  {
    assert space + "" == space;
  }

  /** Inserting the rules before the last bracket of a list of strings appends exactly these strings. */
  lemma MergedText(list: Json, rules: seq<string>)
    requires Valid(list) && Strings(list).Some? && rules != []
    ensures ']' in Print(list)
    ensures Print(Merged(list, rules)) == AddRules(Print(list), Strings(list).value == [], rules)
  {
    var Array(space, items) := list;
    ListText(space, items);
    ListText("", Merged(list, rules).items);
    var inside := "[" + (space + PrintItems(items));
    var added := (if items.NoItems? then "" else ",") + Join(rules, ", ");
    BeforeLast(inside, ']', added);
    if items.NoItems? {
      RuleItemsText(space, rules);
      EmptyLayout(space, Join(rules, ", "));
    } else {
      RuleItemsText("", rules);
      AppendText(items, RuleItems("", rules));
      FullLayout(PrintItems(items), Join(rules, ", "));
    }
  }

  lemma EmptyLayout(space: string, added: string)
    ensures ("[" + (space + "")) + ("" + added) == "[" + ("" + (space + added))
  {
  }

  lemma FullLayout(items: string, added: string)
    ensures ("[" + ("" + items)) + ("," + added) == "[" + ("" + (items + ("," + ("" + added))))
  {
  }

  lemma MergedRead(list: Json, rules: seq<string>)
    requires Valid(list) && Strings(list).Some? && rules != []
    ensures Valid(Merged(list, rules)) && Strings(Merged(list, rules)) == Some(Strings(list).value + rules)
  {
    if list.items.NoItems? {
      RuleItemsRead(list.space, rules);
      assert [] + rules == rules;
    } else {
      RuleItemsRead("", rules);
      AppendRead(list.items, RuleItems("", rules));
    }
  }

  // ---- the merge

  lemma RawReads(j: Json)
    requires Valid(j)
    ensures ParseDocument(Print(j)) == Some(Document("", j, ""))
    ensures ReadStrings(Print(j)) == Strings(j)
    ensures Contents(Print(j)) == if j.Object? then Values(j.members) else None
  {
    var d := Document("", j, "");
    assert "" + (Print(j) + "") == Print(j);
    DocumentComplete(d);
  }

  ghost predicate Agree(fields: map<string, Span>, values: map<string, Json>) {
    fields.Keys == values.Keys && forall key <- values :: Valid(values[key]) && fields[key].raw == Print(values[key])
  }

  lemma ListsAgree(fields: map<string, Span>, values: map<string, Json>, key: string)
    requires Agree(fields, values)
    ensures ReadList(fields, key) == ListAt(values, key)
  {
    if key in values {
      RawReads(values[key]);
    }
  }

  const NoList := Array("", NoItems)
  const NoObject := Object("", NoMembers)

  function ValueOr(values: map<string, Json>, key: string, default: Json): Json {
    if key in values then values[key] else default
  }

  /** The list and the permissions object that the program starts from, present or not. */
  lemma Defaults()
    ensures Valid(NoList) && Print(NoList) == "[]" && Strings(NoList) == Some([])
    ensures Valid(NoObject) && Print(NoObject) == "{}" && Contents("{}") == Some(map[])
  {
    RawReads(NoObject);
  }

  lemma RulesAreMerged(permissions: Json, fields: map<string, Span>, rules: seq<string>)
      returns (merged: Json, list: Json)
    requires Valid(permissions) && ReadObject(Print(permissions)) == Success(fields)
    requires ReadList(fields, "allow").Some? && rules != []
    ensures Contents(Print(permissions)).Some? && ListAt(Contents(Print(permissions)).value, "allow").Some?
    ensures var values := Contents(Print(permissions)).value;
            var allowed := ListAt(values, "allow").value;
            && Agree(fields, values) && ReadList(fields, "allow") == Some(allowed)
            && Valid(merged) && ']' in RawOr(fields, "allow", "[]")
            && SetProperty(Print(permissions), fields, "allow", AddRules(RawOr(fields, "allow", "[]"), allowed == [], rules))
            == Print(merged)
            && Valid(list) && Strings(list) == Some(allowed + rules)
            && Contents(Print(merged)) == Some(values["allow" := list])
  {
    FieldsAreContents(Print(permissions));
    list := ListMerged(fields, Contents(Print(permissions)).value, rules);
    merged := ObjectEdited(permissions, fields, "allow", list);
  }

  lemma ListMerged(fields: map<string, Span>, values: map<string, Json>, rules: seq<string>) returns (list: Json)
    requires Agree(fields, values) && ReadList(fields, "allow").Some? && rules != []
    ensures ListAt(values, "allow") == ReadList(fields, "allow") && ']' in RawOr(fields, "allow", "[]")
    ensures var allowed := ListAt(values, "allow").value;
            && Valid(list) && Strings(list) == Some(allowed + rules)
            && Print(list) == AddRules(RawOr(fields, "allow", "[]"), allowed == [], rules)
  {
    ListsAgree(fields, values, "allow");
    Defaults();
    var start := ValueOr(values, "allow", NoList);
    MergedText(start, rules);
    MergedRead(start, rules);
    list := Merged(start, rules);
  }

  /** Editing the text of one object value gives the text of one object value. */
  lemma ObjectEdited(j: Json, fields: map<string, Span>, key: string, value: Json) returns (edited: Json)
    requires Valid(j) && ReadObject(Print(j)) == Success(fields) && PlainName(key) && Valid(value)
    ensures Contents(Print(j)).Some? && Valid(edited)
    ensures SetProperty(Print(j), fields, key, Print(value)) == Print(edited)
    ensures Contents(Print(edited)) == Some(Contents(Print(j)).value[key := value])
  {
    var d := ObjectRead(Print(j), fields);
    ParsesOnce(d, j);
    var document := DocumentUpdates(d, fields, key, value);
    edited := document.value;
    assert "" + (Print(edited) + "") == Print(edited);
    RawReads(edited);
  }

  lemma ParsesOnce(d: Document, j: Json)
    requires ValidDocument(d) && Valid(j) && PrintDocument(d) == Print(j)
    ensures d == Document("", j, "")
  {
    DocumentComplete(d);
    RawReads(j);
  }

  predicate ListsRead(fields: map<string, Span>) {
    ReadList(fields, "deny").Some? && ReadList(fields, "ask").Some? && ReadList(fields, "allow").Some?
  }

  /** The program's reading of a text: the permissions object it works on, and its fields. */
  lemma Reading(source: string) returns (permissions: Json)
    requires ReadObject(source).Success?
    ensures Contents(source).Some? && Agree(ReadObject(source).value, Contents(source).value)
    ensures Valid(permissions) && Print(permissions) == RawOr(ReadObject(source).value, "permissions", "{}")
    ensures Permissions(Contents(source).value) == Contents(Print(permissions))
  {
    FieldsAreContents(source);
    Defaults();
    permissions := ValueOr(Contents(source).value, "permissions", NoObject);
  }

  lemma ReadableLists(source: string, fields: map<string, Span>)
    requires ReadObject(source) == Success(fields)
    ensures Contents(source).Some?
    ensures var values := Contents(source).value;
            && ReadList(fields, "deny") == ListAt(values, "deny")
            && ReadList(fields, "ask") == ListAt(values, "ask")
            && ReadList(fields, "allow") == ListAt(values, "allow")
  {
    FieldsAreContents(source);
    var values := Contents(source).value;
    ListsAgree(fields, values, "deny");
    ListsAgree(fields, values, "ask");
    ListsAgree(fields, values, "allow");
  }

  lemma MeaningOf(source: string, permissions: Json)
    requires Contents(source).Some? && Valid(permissions)
    requires Permissions(Contents(source).value) == Contents(Print(permissions))
    ensures Meaning(source).Some? <==>
              && ReadObject(Print(permissions)).Success?
              && ListsRead(ReadObject(Print(permissions)).value)
    ensures Meaning(source).Some? ==>
              var values := Contents(Print(permissions)).value;
              && ListAt(values, "allow") == ReadList(ReadObject(Print(permissions)).value, "allow")
              && Meaning(source).value
                 == Settings(Contents(source).value - {"permissions"}, values - {"allow"}, ListAt(values, "allow").value)
  {
    FieldsAreContents(Print(permissions));
    if ReadObject(Print(permissions)).Success? {
      ReadableLists(Print(permissions), ReadObject(Print(permissions)).value);
    }
  }

  /** The meaning after the two edits. */
  lemma EditedMeaning(source: string, result: string, permissions: Json, merged: Json, list: Json)
    requires Contents(source).Some? && Valid(permissions) && Valid(merged) && Valid(list)
    requires Permissions(Contents(source).value) == Contents(Print(permissions))
    requires Meaning(source).Some? && Strings(list).Some?
    requires Contents(Print(permissions)).Some?
    requires Contents(Print(merged)) == Some(Contents(Print(permissions)).value["allow" := list])
    requires Contents(result) == Some(Contents(source).value["permissions" := merged])
    ensures Meaning(result) == Some(Meaning(source).value.(allow := Strings(list).value))
  {
    var root, values := Contents(source).value, Contents(Print(permissions)).value;
    EditedSettings(root, values, merged, list);
    assert Permissions(root["permissions" := merged]) == Contents(Print(merged));
  }

  lemma EditedSettings(root: map<string, Json>, values: map<string, Json>, merged: Json, list: Json)
    requires (forall k <- values :: Valid(values[k])) && Valid(list) && Strings(list).Some?
    requires SettingsOf(root, values).Some?
    ensures SettingsOf(root["permissions" := merged], values["allow" := list])
         == Some(SettingsOf(root, values).value.(allow := Strings(list).value))
  {
    assert root["permissions" := merged] - {"permissions"} == root - {"permissions"};
    assert values["allow" := list] - {"allow"} == values - {"allow"};
  }

  lemma MergedUpdates(source: string, root: map<string, Span>, fields: map<string, Span>, first: bool, rules: seq<string>,
                      merged: Json)
    requires ReadObject(source) == Success(root) && Describes(RawOr(root, "permissions", "{}"), fields)
    requires ReadList(fields, "allow").Some? && rules != [] && Valid(merged)
    requires SetProperty(RawOr(root, "permissions", "{}"), fields, "allow",
                         AddRules(RawOr(fields, "allow", "[]"), first, rules)) == Print(merged)
    ensures Contents(source).Some?
    ensures Contents(WithRules(source, root, fields, first, rules)) == Some(Contents(source).value["permissions" := merged])
  {
    SetPropertyUpdates(source, root, "permissions", merged);
  }

  /** The second edit puts the merged permissions into the text. */
  lemma RulesAdded(source: string, root: map<string, Span>, fields: map<string, Span>, permissions: Json,
                   rules: seq<string>)
    requires ReadObject(source) == Success(root) && Valid(permissions) && Meaning(source).Some?
    requires Print(permissions) == RawOr(root, "permissions", "{}")
    requires Contents(source).Some? && Permissions(Contents(source).value) == Contents(Print(permissions))
    requires ReadObject(Print(permissions)) == Success(fields) && ReadList(fields, "allow").Some? && rules != []
    requires Meaning(source).value.allow == ReadList(fields, "allow").value
    ensures var m := Meaning(source).value;
            Meaning(WithRules(source, root, fields, m.allow == [], rules)) == Some(m.(allow := m.allow + rules))
  {
    var merged, list := RulesAreMerged(permissions, fields, rules);
    var first := Meaning(source).value.allow == [];
    MergedUpdates(source, root, fields, first, rules, merged);
    EditedMeaning(source, WithRules(source, root, fields, first, rules), permissions, merged, list);
  }

  lemma MergeIntoAdds(source: string, root: map<string, Span>, fields: map<string, Span>, commands: seq<string>,
                      m: Settings)
    requires Describes(source, root) && Describes(RawOr(root, "permissions", "{}"), fields)
    requires ListsRead(fields) && m.allow == ReadList(fields, "allow").value && Meaning(source) == Some(m)
    requires var rules := Missing(m.allow, commands);
             rules != [] ==> Meaning(WithRules(source, root, fields, m.allow == [], rules))
                             == Some(m.(allow := m.allow + rules))
    ensures var r := MergeInto(source, root, fields, commands);
            r.Success? && Meaning(r.value) == Some(m.(allow := m.allow + Missing(m.allow, commands)))
  {
    assert m.allow + [] == m.allow;
  }

  /** Merging succeeds for exactly the texts that are settings, and changes their meaning in one place: the
      allowed rules are the old list followed by the missing ones. Every other member of the root and of the
      permissions keeps its tree, hence its bytes. */
  lemma MergeAddsMissingRules(source: string, commands: seq<string>)
    ensures ClaudeSettings(source, commands).Success? <==> Meaning(source).Some?
    ensures Meaning(source).Some? ==>
              var allowed := Meaning(source).value.allow;
              Meaning(ClaudeSettings(source, commands).value)
              == Some(Meaning(source).value.(allow := allowed + Missing(allowed, commands)))
  {
    FieldsAreContents(source);
    if ReadObject(source).Success? {
      var permissions := Reading(source);
      MeaningOf(source, permissions);
      if Meaning(source).Some? {
        var fields := ReadObject(Print(permissions)).value;
        var m := Meaning(source).value;
        if Missing(m.allow, commands) != [] {
          RulesAdded(source, ReadObject(source).value, fields, permissions, Missing(m.allow, commands));
        }
        MergeIntoAdds(source, ReadObject(source).value, fields, commands, m);
      }
    }
  }

  lemma {:induction false} NothingMissing(allowed: seq<string>, commands: seq<string>)
    ensures Missing(allowed, commands) == [] <==> forall c <- commands :: Granted(allowed, c)
  {
    if commands != [] {
      NothingMissing(allowed, commands[1..]);
      assert commands == [commands[0]] + commands[1..];
    }
  }

  lemma {:induction false} MissingGrants(allowed: seq<string>, commands: seq<string>)
    ensures forall c <- commands :: Granted(allowed + Missing(allowed, commands), c)
  {
    if commands != [] {
      MissingGrants(allowed, commands[1..]);
      assert commands == [commands[0]] + commands[1..];
      assert Granted(allowed + Missing(allowed, commands), commands[0]) by {
        if !Granted(allowed, commands[0]) { assert Missing(allowed, commands)[0] == Rule(commands[0]); }
      }
    }
  }

  /** After a merge every command is granted, and merging again changes nothing. */
  lemma MergeIsStable(source: string, commands: seq<string>)
    requires ClaudeSettings(source, commands).Success?
    ensures var t := ClaudeSettings(source, commands).value;
            && ClaudeSettings(t, commands) == Success(t)
            && Meaning(t).Some? && forall c <- commands :: Granted(Meaning(t).value.allow, c)
  {
    MergeAddsMissingRules(source, commands);
    var t := ClaudeSettings(source, commands).value;
    var allowed := Meaning(source).value.allow;
    MissingGrants(allowed, commands);
    NothingMissing(Meaning(t).value.allow, commands);
    FieldsAreContents(t);
    var permissions := Reading(t);
    MeaningOf(t, permissions);
  }

  // ---- nothing of the source is lost

  /** Whether a text is the source with something inserted at one place. */
  ghost predicate Inserts(source: string, text: string) {
    exists at: nat, added: string :: at <= |source| && text == Splice(source, at, 0, added)
  }

  lemma NestedInsert(source: string, start: nat, raw: string, text: string)
    requires Holds(source, Span(start, raw)) && Inserts(raw, text)
    ensures Inserts(source, Splice(source, start, |raw|, text))
  {
    var at: nat, added: string :| at <= |raw| && text == Splice(raw, at, 0, added);
    assert source == source[..start] + raw + source[start + |raw|..];
    assert source[..start + at] == source[..start] + raw[..at];
    assert source[start + at..] == raw[at..] + source[start + |raw|..];
    assert Splice(source, start, |raw|, text) == Splice(source, start + at, 0, added);
  }

  lemma EditInserts(source: string, fields: map<string, Span>, key: string, default: string, text: string)
    requires Describes(source, fields) && Inserts(RawOr(fields, key, default), text)
    ensures Inserts(source, SetProperty(source, fields, key, text))
  {
    if key in fields {
      assert Holds(source, fields[key]);
      NestedInsert(source, fields[key].start, fields[key].raw, text);
    }
  }

  lemma RulesInsert(source: string, root: map<string, Span>, fields: map<string, Span>, first: bool, rules: seq<string>)
    requires Describes(source, root) && Describes(RawOr(root, "permissions", "{}"), fields)
    requires ReadList(fields, "allow").Some? && rules != []
    ensures Inserts(source, WithRules(source, root, fields, first, rules))
  {
    var permissions := RawOr(root, "permissions", "{}");
    var updated := AddRules(RawOr(fields, "allow", "[]"), first, rules);
    EditInserts(permissions, fields, "allow", "[]", updated);
    EditInserts(source, root, "permissions", "{}", SetProperty(permissions, fields, "allow", updated));
  }

  /** A merge only inserts, at one place: every byte of the source survives, in order. */
  lemma MergeOnlyInserts(source: string, commands: seq<string>)
    requires ClaudeSettings(source, commands).Success?
    ensures Inserts(source, ClaudeSettings(source, commands).value)
  {
    var root := ReadObject(source).value;
    var fields := ReadObject(RawOr(root, "permissions", "{}")).value;
    var allowed := ReadList(fields, "allow").value;
    var rules := Missing(allowed, commands);
    if rules == [] {
      assert source == Splice(source, 0, 0, "");
    } else {
      RulesInsert(source, root, fields, allowed == [], rules);
    }
  }
}
