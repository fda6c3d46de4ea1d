/** The managed Codex rules file of src/agent_permissions.rs: which files are recognized as managed, and
    what is written in their place. */
module CodexRules {
  import opened Wrappers
  import opened JsonSyntax
  import opened JsonParsing
  import opened JsonStrings
  import opened AgentPermissions

  const HEADER := "# Managed by hey-boss configure-agents.\n"
  const RULE_START := "prefix_rule(pattern = ["
  const RULE_END := "], decision = \"allow\")"
  const GIT_WORDS := "\"git\"" + ", \"commit\", \"--no-verify\""
  const GIT_COMMIT_NO_VERIFY_RULE := RULE_START + (GIT_WORDS + RULE_END)
  const LAST_LINE := GIT_COMMIT_NO_VERIFY_RULE + "\n"

  // ---- commands

  predicate IsControl(c: char) {
    c < ' ' || 0x7f <= c as int <= 0x9f
  }

  /** The parts of a path between slashes, without empty and `.` parts. */
  function Parts(path: string): seq<string>
    decreases |path|
  {
    if path == "" then [] else
    var n := UpTo(path, '/');
    var part := path[..n];
    (if part == "" || part == "." then [] else [part]) + (if n == |path| then [] else Parts(path[n + 1..]))
  }

  function UpTo(text: string, c: char): (n: nat)
    ensures n <= |text| && c !in text[..n] && (n < |text| ==> text[n] == c)
  {
    if text == "" || text[0] == c then 0
    else
      assert text[..1 + UpTo(text[1..], c)] == [text[0]] + text[1..][..UpTo(text[1..], c)];
      1 + UpTo(text[1..], c)
  }

  function FileName(path: string): Option<string> {
    var parts := Parts(path);
    if parts == [] || parts[|parts| - 1] == ".." then None else Some(parts[|parts| - 1])
  }

  predicate ValidCommand(command: string) {
    && (command == "hey-boss" || ("/" <= command && FileName(command) == Some("hey-boss")))
    && forall c <- command :: !IsControl(c) && c != '*'
  }

  // ---- the file

  function DropReturn(line: string): string {
    if line != "" && line[|line| - 1] == '\r' then line[..|line| - 1] else line
  }

  /** The lines of a text, ended by LF or CR LF; the last one may lack its end. */
  function Lines(text: string): seq<string>
    decreases |text|
  {
    if text == "" then [] else
    var n := UpTo(text, '\n');
    if n == |text| then [text] else [DropReturn(text[..n])] + Lines(text[n + 1..])
  }

  /** The command of a rule line, if the line is one the program could have written. */
  function RuleCommand(line: string): Option<string> {
    if !(RULE_START <= line) then None else
    var rest := line[|RULE_START|..];
    if |rest| < |RULE_END| || rest[|rest| - |RULE_END|..] != RULE_END then None else
    ParseString(rest[..|rest| - |RULE_END|])
  }

  function ParseString(text: string): Option<string> {
    match ParseDocument(text)
    case None => None
    case Some(d) =>
      DocumentSound(text);
      if d.value.Text? then Decode(d.value.pieces) else None
  }

  predicate Managed(line: string) {
    line == GIT_COMMIT_NO_VERIFY_RULE || (RuleCommand(line).Some? && ValidCommand(RuleCommand(line).value))
  }

  function RuleLine(command: string): string {
    RULE_START + (Serialize(command) + RULE_END)
  }

  function RuleLines(commands: seq<string>): string {
    if commands == [] then "" else RuleLine(commands[0]) + ("\n" + RuleLines(commands[1..]))
  }

  function RulesFile(commands: seq<string>): string {
    HEADER + (RuleLines(commands) + LAST_LINE)
  }

  function Rules(source: Option<string>, commands: seq<string>): Result<string> {
    if source.Some? && !(HEADER <= source.value) then Failure("not managed by hey-boss")
    else if source.Some? && exists line <- Lines(source.value[|HEADER|..]) :: !Managed(line) then Failure("custom edits")
    else Success(RulesFile(commands))
  }

  method WriteRules(source: Option<string>, commands: seq<string>) returns (r: Result<string>)
    ensures r == Rules(source, commands)
  {
    if source.Some? {
      if !(HEADER <= source.value) { return Failure("not managed by hey-boss"); }
      var lines := Lines(source.value[|HEADER|..]);
      for i := 0 to |lines|
        invariant forall j :: 0 <= j < i ==> Managed(lines[j])
      {
        if lines[i] == GIT_COMMIT_NO_VERIFY_RULE { continue; }
        var command := RuleCommand(lines[i]);
        if command.None? || !ValidCommand(command.value) {
          assert lines[i] in lines && !Managed(lines[i]);
          return Failure("custom edits");
        }
      }
    }
    var result := HEADER;
    for i := 0 to |commands|
      invariant result + (RuleLines(commands[i..]) + LAST_LINE) == RulesFile(commands)
    {
      assert commands[i..][0] == commands[i] && commands[i..][1..] == commands[i + 1..];
      LineOut(result, RuleLine(commands[i]), RuleLines(commands[i + 1..]), LAST_LINE);
      result := result + (RULE_START + (Serialize(commands[i]) + (RULE_END + "\n")));
      LineText(commands[i]);
    }
    assert "" + LAST_LINE == LAST_LINE;
    result := result + LAST_LINE;
    r := Success(result);
  }

  lemma LineOut(result: string, line: string, more: string, tail: string)
    ensures result + ((line + ("\n" + more)) + tail) == (result + (line + "\n")) + (more + tail)
  {
  }

  lemma LineText(command: string)
    ensures RULE_START + (Serialize(command) + (RULE_END + "\n")) == RuleLine(command) + "\n"
  {
  }

  // ---- the program's own files

  lemma LineEnd(line: string, more: string)
    requires OneLine(line)
    ensures UpTo(line + ("\n" + more), '\n') == |line|
  {
    var text := line + ("\n" + more);
    var n := UpTo(text, '\n');
    assert text[|line|] == '\n';
    assert forall i | 0 <= i < |line| :: line[i] in line && text[i] == line[i];
    assert forall i | 0 <= i < n :: text[..n][i] == text[i];
  }

  /** A line without control characters, as every written line is. */
  lemma LinesOf(line: string, more: string)
    requires OneLine(line)
    ensures Lines(line + ("\n" + more)) == [line] + Lines(more)
  {
    LineEnd(line, more);
    var text := line + ("\n" + more);
    assert text[..|line|] == line && text[|line| + 1..] == more;
    assert DropReturn(line) == line by {
      assert line != "" ==> line[|line| - 1] in line;
    }
  }

  lemma FrameIsOneLine(inside: string)
    requires OneLine(inside)
    ensures OneLine(RULE_START + (inside + RULE_END))
  {
    OneLineAppend(inside, RULE_END);
    OneLineAppend(RULE_START, inside + RULE_END);
  }

  lemma SerializedIsOneLine(command: string)
    ensures OneLine(Serialize(command))
  {
    EncodedIsOneLine(command);
    OneLineAppend(PrintPieces(Encode(command)), "\"");
    OneLineAppend("\"", PrintPieces(Encode(command)) + "\"");
  }

  lemma SerializedReads(command: string)
    ensures ParseString(Serialize(command)) == Some(command)
  {
    DecodeEncode(command);
    var d := Document("", Text(Encode(command)), "");
    assert "" + (Serialize(command) + "") == Serialize(command);
    DocumentComplete(d);
  }

  /** A written line is read back as its command. */
  lemma RuleLineReads(command: string)
    ensures RuleCommand(RuleLine(command)) == Some(command)
  {
    SerializedReads(command);
    Framed(Serialize(command));
  }

  /** The fixed rule names three words, so it is no command line. */
  lemma GitRuleIsNoCommand()
    ensures RuleCommand(GIT_COMMIT_NO_VERIFY_RULE).None?
  {
    var git := [Plain('g'), Plain('i'), Plain('t')];
    var more := ", \"commit\", \"--no-verify\"";
    assert Quote(git) == "\"git\"" by {
      assert git[1..] == [Plain('i'), Plain('t')] && git[1..][1..] == [Plain('t')];
    }
    Framed(GIT_WORDS);
    TextComplete(git, more);
    assert SpaceCount(GIT_WORDS) == 0 && GIT_WORDS[0..] == GIT_WORDS;
    assert more[0] in more && !IsSpace(more[0]);
  }

  lemma Framed(inside: string)
    ensures RuleCommand(RULE_START + (inside + RULE_END)) == ParseString(inside)
  {
    var rest := inside + RULE_END;
    assert (RULE_START + rest)[|RULE_START|..] == rest;
    assert rest[|rest| - |RULE_END|..] == RULE_END && rest[..|rest| - |RULE_END|] == inside;
  }

  lemma WrittenLineIsManaged(command: string)
    ensures Managed(RuleLine(command)) <==> ValidCommand(command)
  {
    RuleLineReads(command);
    GitRuleIsNoCommand();
  }

  lemma LastLine()
    ensures Lines(LAST_LINE) == [GIT_COMMIT_NO_VERIFY_RULE]
  {
    assert OneLine(GIT_WORDS);
    FrameIsOneLine(GIT_WORDS);
    LinesOf(GIT_COMMIT_NO_VERIFY_RULE, "");
    assert "\n" + "" == "\n";
  }

  lemma NextLine(command: string, more: string)
    ensures Lines((RuleLine(command) + ("\n" + more)) + LAST_LINE) == [RuleLine(command)] + Lines(more + LAST_LINE)
  {
    SerializedIsOneLine(command);
    FrameIsOneLine(Serialize(command));
    LinesOf(RuleLine(command), more + LAST_LINE);
    assert (RuleLine(command) + ("\n" + more)) + LAST_LINE == RuleLine(command) + ("\n" + (more + LAST_LINE));
  }

  predicate AllManaged(lines: seq<string>) {
    forall line <- lines :: Managed(line)
  }

  predicate AllValid(commands: seq<string>) {
    forall c <- commands :: ValidCommand(c)
  }

  lemma FirstAndRest(commands: seq<string>, lines: seq<string>, first: string)
    requires commands != []
    ensures AllValid(commands) <==> ValidCommand(commands[0]) && AllValid(commands[1..])
    ensures AllManaged([first] + lines) <==> Managed(first) && AllManaged(lines)
  {
    assert commands == [commands[0]] + commands[1..];
  }

  lemma {:induction false} LinesWritten(commands: seq<string>)
    ensures AllManaged(Lines(RuleLines(commands) + LAST_LINE)) <==> AllValid(commands)
    decreases |commands|
  {
    if commands == [] {
      LastLine();
      Nothing(LAST_LINE);
    } else {
      var more := RuleLines(commands[1..]);
      NextLine(commands[0], more);
      LinesWritten(commands[1..]);
      WrittenLineIsManaged(commands[0]);
      FirstAndRest(commands, Lines(more + LAST_LINE), RuleLine(commands[0]));
    }
  }

  /** The program recognizes its own output exactly when the commands in it are valid, whatever is written
      next, and then writes the same file as without it. */
  lemma OwnFileIsManaged(written: seq<string>, commands: seq<string>)
    ensures Rules(Some(RulesFile(written)), commands).Success? <==> AllValid(written)
    ensures AllValid(written) ==>
              Rules(Some(RulesFile(written)), commands) == Rules(None, commands)
  {
    var source := RulesFile(written);
    assert source[|HEADER|..] == RuleLines(written) + LAST_LINE;
    LinesWritten(written);
  }
}
