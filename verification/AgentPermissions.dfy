/** The permission files of src/agent_permissions.rs: Claude settings, merged into existing JSON text, and
    the managed Codex rules file, rewritten as a whole. */
module AgentPermissions {
  import opened Wrappers
  import opened JsonSyntax
  import opened JsonParsing
  import opened JsonStrings
  import opened JsonEdit

  // ---- lists of strings

  function ItemStrings(items: Items): Option<seq<string>>
    requires ValidItems(items)
  {
    match items
    case NoItems => Some([])
    case MoreItems(_, value, _, rest) =>
      if !value.Text? then None else
      assert Valid(value);
      match (Decode(value.pieces), ItemStrings(rest))
      case (Some(first), Some(more)) => Some([first] + more)
      case _ => None
  }

  function Strings(j: Json): Option<seq<string>>
    requires Valid(j)
  {
    if j.Array? then ItemStrings(j.items) else None
  }

  function ReadStrings(text: string): (r: Option<seq<string>>)
    ensures r.Some? ==> ']' in text
  {
    match ParseDocument(text)
    case None => None
    case Some(d) =>
      DocumentSound(text);
      ClosingBracket(d);
      Strings(d.value)
  }

  lemma ClosingBracket(d: Document)
    ensures d.value.Array? ==> ']' in PrintDocument(d)
  {
    if d.value.Array? {
      BracketLayout("[", d.value.space, PrintItems(d.value.items), "]", d.after);
      var before := d.before + ("[" + (d.value.space + PrintItems(d.value.items)));
      assert PrintDocument(d) == before + ("]" + d.after);
      assert PrintDocument(d)[|before|] == ']';
    }
  }

  // ---- Claude settings

  function Rule(command: string): string {
    "Bash(" + command + " *)"
  }

  function OldRule(command: string): string {
    "Bash(" + command + ":*)"
  }

  predicate Granted(allowed: seq<string>, command: string) {
    Rule(command) in allowed || OldRule(command) in allowed
  }

  /** The rules to add, in the order of the commands. */
  function Missing(allowed: seq<string>, commands: seq<string>): seq<string> {
    if commands == [] then []
    else (if Granted(allowed, commands[0]) then [] else [Rule(commands[0])]) + Missing(allowed, commands[1..])
  }

  function Serialize(value: string): string {
    Quote(Encode(value))
  }

  function Join(values: seq<string>, separator: string): string
    requires values != []
  {
    if |values| == 1 then Serialize(values[0]) else Serialize(values[0]) + (separator + Join(values[1..], separator))
  }

  function FindLast(text: string, c: char): (n: nat)
    requires c in text
    ensures n < |text| && text[n] == c && c !in text[n + 1..]
    decreases |text|
  {
    if text[|text| - 1] == c then |text| - 1
    else
      assert text == text[..|text| - 1] + [text[|text| - 1]];
      var n := FindLast(text[..|text| - 1], c);
      assert text[n + 1..] == text[..|text| - 1][n + 1..] + [text[|text| - 1]];
      n
  }

  function AddRules(list: string, first: bool, rules: seq<string>): string
    requires ']' in list && rules != []
  {
    Splice(list, FindLast(list, ']'), 0, (if first then "" else ",") + Join(rules, ", "))
  }

  function ReadList(fields: map<string, Span>, key: string): Option<seq<string>> {
    if key in fields then ReadStrings(fields[key].raw) else Some([])
  }

  function RawOr(fields: map<string, Span>, key: string, default: string): string {
    if key in fields then fields[key].raw else default
  }

  function ClaudeSettings(source: string, commands: seq<string>): Result<string> {
    match ReadObject(source)
    case Failure(e) => Failure(e)
    case Success(root) =>
      match ReadObject(RawOr(root, "permissions", "{}"))
      case Failure(e) => Failure(e)
      case Success(fields) => MergeInto(source, root, fields, commands)
  }

  /** The merge, with the root and the permissions read. */
  function MergeInto(source: string, root: map<string, Span>, fields: map<string, Span>, commands: seq<string>)
    : Result<string>
    requires Describes(source, root) && Describes(RawOr(root, "permissions", "{}"), fields)
  {
    if ReadList(fields, "deny").None? || ReadList(fields, "ask").None? then Failure("invalid list") else
    match ReadList(fields, "allow")
    case None => Failure("invalid list")
    case Some(allowed) =>
      var rules := Missing(allowed, commands);
      if rules == [] then Success(source) else
      var result := WithRules(source, root, fields, allowed == [], rules);
      if ParseDocument(result).None? then Failure("invalid JSON") else Success(result)
  }

  /** The source with rules added to the list of its permissions. */
  function WithRules(source: string, root: map<string, Span>, fields: map<string, Span>, first: bool, rules: seq<string>)
    : string
    requires Describes(source, root) && Describes(RawOr(root, "permissions", "{}"), fields)
    requires ReadList(fields, "allow").Some? && rules != []
  {
    var updated := AddRules(RawOr(fields, "allow", "[]"), first, rules);
    SetProperty(source, root, "permissions", SetProperty(RawOr(root, "permissions", "{}"), fields, "allow", updated))
  }

  /** The program's form of the edit: the text is copied and changed in place. */
  method EditProperty(source: string, fields: map<string, Span>, key: string, value: string) returns (result: string)
    requires Describes(source, fields)
    ensures result == SetProperty(source, fields, key, value)
    ensures ReadObject(source) == Success(fields) && PlainName(key) ==>
              forall v :: Valid(v) && Print(v) == value ==> Contents(source).Some? && Contents(result) == Some(Contents(source).value[key := v])
  {
    if ReadObject(source) == Success(fields) && PlainName(key) {
      forall v | Valid(v) && Print(v) == value
        ensures Contents(source).Some?
             && Contents(SetProperty(source, fields, key, value)) == Some(Contents(source).value[key := v])
      {
        SetPropertyUpdates(source, fields, key, v);
      }
    }
    result := source;
    if key in fields {
      assert Holds(source, fields[key]);
      var start := fields[key].start;
      result := result[..start] + value + result[start + |fields[key].raw|..];
    } else {
      var start := Find(source, '{') + 1;
      var comma := if fields == map[] then "" else ",";
      result := result[..start] + ("\n  \"" + key + "\": " + value + comma + "\n") + result[start..];
    }
  }

  method MissingRules(allowed: seq<string>, commands: seq<string>) returns (additions: seq<string>)
    ensures additions == Missing(allowed, commands)
  {
    additions := [];
    for i := 0 to |commands|
      invariant additions + Missing(allowed, commands[i..]) == Missing(allowed, commands)
    {
      var rule := Rule(commands[i]);
      if rule !in allowed && OldRule(commands[i]) !in allowed {
        additions := additions + [rule];
      }
      assert commands[i..][1..] == commands[i + 1..];
      assert commands[i..][0] == commands[i];
    }
  }

  method ListsAreReadable(fields: map<string, Span>) returns (ok: bool)
    ensures ok <==> ReadList(fields, "deny").Some? && ReadList(fields, "ask").Some?
  {
    var keys := ["deny", "ask"];
    for k := 0 to |keys|
      invariant forall i :: 0 <= i < k ==> ReadList(fields, keys[i]).Some?
    {
      if keys[k] in fields && ReadStrings(fields[keys[k]].raw).None? {
        return false;
      }
    }
    assert ReadList(fields, keys[0]).Some? && ReadList(fields, keys[1]).Some?;
    return true;
  }

  method MergeSettings(source: string, commands: seq<string>) returns (r: Result<string>)
    ensures r == ClaudeSettings(source, commands)
  {
    var root := ReadObject(source);
    if root.Failure? { return Failure(root.error); }
    var permissions := RawOr(root.value, "permissions", "{}");
    var fields := ReadObject(permissions);
    if fields.Failure? { return Failure(fields.error); }
    var readable := ListsAreReadable(fields.value);
    if !readable { return Failure("invalid list"); }
    var existing := ReadList(fields.value, "allow");
    if existing.None? { return Failure("invalid list"); }
    var allow := RawOr(fields.value, "allow", "[]");
    var additions := MissingRules(existing.value, commands);
    if additions == [] { return Success(source); }
    var comma := if existing.value == [] then "" else ",";
    var at := FindLast(allow, ']');
    var updated := allow[..at] + (comma + Join(additions, ", ")) + allow[at..];
    assert updated == AddRules(allow, existing.value == [], additions);
    var changed := EditProperty(permissions, fields.value, "allow", updated);
    var result := EditProperty(source, root.value, "permissions", changed);
    r := if ParseDocument(result).None? then Failure("invalid JSON") else Success(result);
  }
}
