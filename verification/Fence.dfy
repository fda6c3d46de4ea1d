/** Review files as Markdown (src/document.rs): the fence that is printed around a source file, and the
    fenced code blocks of CommonMark 0.31.2 section 4.5 that read it back. */
module Fence {
  import opened Wrappers

  /** The number of markers at the end of a text. */
  function RunAtEnd(text: string, marker: char): nat {
    if text == "" || text[|text| - 1] != marker then 0 else 1 + RunAtEnd(text[..|text| - 1], marker)
  }

  function LongestRun(text: string, marker: char): (longest: nat)
    ensures longest >= RunAtEnd(text, marker)
  {
    if text == "" then 0
    else if RunAtEnd(text, marker) > LongestRun(text[..|text| - 1], marker) then RunAtEnd(text, marker)
    else LongestRun(text[..|text| - 1], marker)
  }

  method CountRun(text: string, marker: char) returns (max: nat)
    ensures max == LongestRun(text, marker)
  {
    max := 0;
    var current := 0;
    for i := 0 to |text|
      invariant max == LongestRun(text[..i], marker)
      invariant current == RunAtEnd(text[..i], marker)
    {
      assert text[..i + 1][..i] == text[..i];
      if text[i] == marker {
        current := current + 1;
        max := if current > max then current else max;
      } else {
        current := 0;
      }
    }
    assert text[..|text|] == text;
  }

  function Repeat(c: char, count: nat): string {
    seq(count, _ => c)
  }

  function FenceOf(text: string): (fence: (char, nat))
    ensures fence.0 == '`' || fence.0 == '~'
    ensures fence.1 >= 3 && fence.1 > LongestRun(text, fence.0)
  {
    var backticks := LongestRun(text, '`');
    var tildes := LongestRun(text, '~');
    var (marker, length) := if backticks <= tildes then ('`', backticks) else ('~', tildes);
    (marker, if length + 1 > 3 then length + 1 else 3)
  }

  function Language(extension: string): (language: string)
    ensures language != "" && forall c <- language :: 'a' <= c <= 'z'
  {
    if extension == "rs" then "rust"
    else if extension in {"js", "mjs", "cjs"} then "javascript"
    else if extension == "ts" then "typescript"
    else if extension == "py" then "python"
    else if extension == "yml" then "yaml"
    else if extension == "rb" then "ruby"
    else if extension == "sh" then "bash"
    else if extension == "h" then "c"
    else if extension in {"cc", "cxx"} then "cpp"
    else if extension in {"swift", "json", "jsonc", "yaml", "toml", "html", "xml", "svg", "css", "sql",
                          "go", "java", "kotlin", "diff"} then extension
    else "text"
  }

  function Print(text: string, language: string): string {
    var (marker, length) := FenceOf(text);
    Repeat(marker, length) + language + "\n" + text + "\n" + Repeat(marker, length)
  }

  /** `read_file` on a text file that is not Markdown itself. */
  method Render(text: string, extension: string) returns (document: string)
    ensures document == Print(text, Language(extension))
  {
    var backticks := CountRun(text, '`');
    var tildes := CountRun(text, '~');
    var marker, length := '~', tildes;
    if backticks <= tildes {
      marker, length := '`', backticks;
    }
    var fence := Repeat(marker, if length + 1 > 3 then length + 1 else 3);
    document := fence + Language(extension) + "\n" + text + "\n" + fence;
  }

  // ---- fenced code blocks

  predicate IsEnding(c: char) {
    c == '\n' || c == '\r'
  }

  /** Where the line that starts here stops, before its line ending. */
  function LineStop(doc: string, from: nat): (stop: nat)
    requires from <= |doc|
    ensures from <= stop <= |doc|
    ensures forall i :: from <= i < stop ==> !IsEnding(doc[i])
    ensures stop < |doc| ==> IsEnding(doc[stop])
    decreases |doc| - from
  {
    if from == |doc| || IsEnding(doc[from]) then from else LineStop(doc, from + 1)
  }

  /** The start of the next line: after a line feed, a carriage return, or both together. */
  function AfterLine(doc: string, stop: nat): nat
    requires stop <= |doc|
  {
    if stop == |doc| then stop
    else if doc[stop] == '\r' && stop + 1 < |doc| && doc[stop + 1] == '\n' then stop + 2
    else stop + 1
  }

  function Leading(line: string, c: char): (count: nat)
    ensures count <= |line|
    ensures forall i :: 0 <= i < count ==> line[i] == c
    ensures count < |line| ==> line[count] != c
  {
    if line == "" || line[0] != c then 0 else 1 + Leading(line[1..], c)
  }

  predicate OnlySpaces(text: string) {
    forall c <- text :: c == ' ' || c == '\t'
  }

  function TrimLeft(text: string): string {
    if text != "" && (text[0] == ' ' || text[0] == '\t') then TrimLeft(text[1..]) else text
  }

  function TrimRight(text: string): string {
    if text != "" && (text[|text| - 1] == ' ' || text[|text| - 1] == '\t') then TrimRight(text[..|text| - 1]) else text
  }

  datatype Opening = Opening(indent: nat, marker: char, length: nat, info: string)

  /** An opening fence: at most three spaces, at least three markers, and an info string, which after
      backticks may not contain a backtick. */
  function OpeningFence(line: string): Option<Opening> {
    var indent := Leading(line, ' ');
    var rest := line[indent..];
    if indent > 3 || rest == "" || (rest[0] != '`' && rest[0] != '~') then None else
    var length := Leading(rest, rest[0]);
    var info := rest[length..];
    if length < 3 || (rest[0] == '`' && '`' in info) then None
    else Some(Opening(indent, rest[0], length, TrimRight(TrimLeft(info))))
  }

  predicate ClosingFence(line: string, open: Opening) {
    var indent := Leading(line, ' ');
    var rest := line[indent..];
    indent <= 3 && Leading(rest, open.marker) >= open.length && OnlySpaces(rest[Leading(rest, open.marker)..])
  }

  /** A content line loses as much of its indentation as the opening fence has. */
  function Outdent(line: string, indent: nat): string {
    var spaces := Leading(line, ' ');
    line[if spaces < indent then spaces else indent..]
  }

  /** The contents up to the closing fence or the end of the document, and what follows the block. */
  function Contents(doc: string, from: nat, open: Opening): (string, string)
    requires from <= |doc|
    decreases |doc| - from
  {
    if from == |doc| then ("", "") else
    var stop := LineStop(doc, from);
    var next := AfterLine(doc, stop);
    if ClosingFence(doc[from..stop], open) then ("", doc[next..])
    else
      var (more, rest) := Contents(doc, next, open);
      (Outdent(doc[from..stop], open.indent) + doc[stop..next] + more, rest)
  }

  datatype Block = Block(info: string, contents: string, rest: string)

  function ParseFenced(doc: string): Option<Block> {
    var stop := LineStop(doc, 0);
    match OpeningFence(doc[..stop])
    case None => None
    case Some(open) =>
      var (contents, rest) := Contents(doc, AfterLine(doc, stop), open);
      Some(Block(open.info, contents, rest))
  }

  // ---- the round trip

  lemma {:induction false} RunBound(text: string, marker: char, i: nat, n: nat)
    requires i + n <= |text| && forall k :: i <= k < i + n ==> text[k] == marker
    ensures n <= LongestRun(text, marker)
    decreases |text|
  {
    if i + n < |text| {
      RunBound(text[..|text| - 1], marker, i, n);
    } else if n > 0 {
      EndBound(text, marker, n);
    }
  }

  lemma {:induction false} EndBound(text: string, marker: char, n: nat)
    requires n <= |text| && forall k :: |text| - n <= k < |text| ==> text[k] == marker
    ensures n <= RunAtEnd(text, marker)
  {
    if n > 0 {
      EndBound(text[..|text| - 1], marker, n - 1);
    }
  }

  lemma LeadingIs(line: string, c: char, n: nat)
    requires n <= |line| && (forall i :: 0 <= i < n ==> line[i] == c) && (n < |line| ==> line[n] != c)
    ensures Leading(line, c) == n
  {
  }

  lemma LineStopIs(doc: string, from: nat, stop: nat)
    requires from <= stop <= |doc| && (forall i :: from <= i < stop ==> !IsEnding(doc[i]))
    requires stop < |doc| ==> IsEnding(doc[stop])
    ensures LineStop(doc, from) == stop
  {
  }

  /** No line of the text can close a fence that is longer than every run in the text. */
  lemma TextLineDoesNotClose(text: string, from: nat, stop: nat, open: Opening)
    requires from <= stop <= |text| && open.length > LongestRun(text, open.marker)
    ensures !ClosingFence(text[from..stop], open)
  {
    var indent := Leading(text[from..stop], ' ');
    var rest := text[from + indent..stop];
    assert text[from..stop][indent..] == rest;
    var length := Leading(rest, open.marker);
    forall k | from + indent <= k < from + indent + length ensures text[k] == open.marker {
      assert rest[k - from - indent] == text[k];
    }
    RunBound(text, open.marker, from + indent, length);
  }

  lemma FenceCloses(open: Opening)
    requires open.indent == 0 && (open.marker == '`' || open.marker == '~') && open.length > 0
    ensures ClosingFence(Repeat(open.marker, open.length), open)
  {
    var line := Repeat(open.marker, open.length);
    LeadingIs(line, ' ', 0);
    LeadingIs(line, open.marker, open.length);
    assert line[0..] == line;
  }

  /** The document between its first line and its closing fence. */
  function Tail(text: string, open: Opening): string {
    text + "\n" + Repeat(open.marker, open.length)
  }

  predicate Encloses(open: Opening, text: string) {
    open.indent == 0 && (open.marker == '`' || open.marker == '~') && open.length > LongestRun(text, open.marker)
  }

  /** A line that starts inside the text ends inside it, or with the final line ending. */
  lemma LineInText(text: string, from: nat, open: Opening)
    requires Encloses(open, text) && from <= |text|
    ensures var doc := Tail(text, open);
            var stop := LineStop(doc, from);
            && stop <= |text| && AfterLine(doc, stop) <= |text| + 1
            && from < AfterLine(doc, stop)
            && doc[from..stop] == text[from..stop]
            && doc[stop..AfterLine(doc, stop)] == (text + "\n")[stop..AfterLine(doc, stop)]
  {
    var doc := Tail(text, open);
    var stop := LineStop(doc, from);
    assert doc[|text|] == '\n';
    if stop < |text| && doc[stop] == '\r' && doc[stop + 1] == '\n' {
      assert AfterLine(doc, stop) == stop + 2;
    }
  }

  lemma LastLineIsFence(text: string, open: Opening)
    requires Encloses(open, text)
    ensures Contents(Tail(text, open), |text| + 1, open) == ("", "")
  {
    var doc, fence := Tail(text, open), Repeat(open.marker, open.length);
    assert forall i :: |text| + 1 <= i < |doc| ==> doc[i] == open.marker;
    LineStopIs(doc, |text| + 1, |doc|);
    assert doc[|text| + 1..|doc|] == fence;
    assert doc[|doc|..] == "";
    FenceCloses(open);
  }

  lemma ContentsStep(doc: string, body: string, from: nat, stop: nat, next: nat, open: Opening)
    requires from < |doc| && stop == LineStop(doc, from) && next == AfterLine(doc, stop)
    requires !ClosingFence(doc[from..stop], open) && open.indent == 0
    requires next <= |body| && doc[from..stop] == body[from..stop] && doc[stop..next] == body[stop..next]
    requires Contents(doc, next, open) == (body[next..], "")
    ensures Contents(doc, from, open) == (body[from..], "")
  {
    OutdentNothing(body[from..stop]);
    ThreeParts(body, from, stop, next);
  }

  lemma OutdentNothing(line: string)
    ensures Outdent(line, 0) == line
  {
  }

  lemma ThreeParts(body: string, from: nat, stop: nat, next: nat)
    requires from <= stop <= next <= |body|
    ensures body[from..stop] + body[stop..next] + body[next..] == body[from..]
  {
  }

  /** Reading the contents from any line start inside the text gives the rest of the text. */
  lemma {:induction false} ContentsAreText(text: string, from: nat, open: Opening)
    requires Encloses(open, text) && from <= |text| + 1
    ensures Contents(Tail(text, open), from, open) == ((text + "\n")[from..], "")
    decreases |text| + 1 - from
  {
    var doc, body := Tail(text, open), text + "\n";
    if from == |text| + 1 {
      LastLineIsFence(text, open);
      assert body[from..] == "";
    } else {
      LineInText(text, from, open);
      var stop := LineStop(doc, from);
      var next := AfterLine(doc, stop);
      TextLineDoesNotClose(text, from, stop, open);
      ContentsAreText(text, next, open);
      assert body[from..stop] == text[from..stop];
      ContentsStep(doc, body, from, stop, next, open);
    }
  }

  /** Two documents that go on alike from two places. */
  predicate Alike(doc: string, from: nat, other: string, start: nat) {
    from <= |doc| && start <= |other| && doc[from..] == other[start..]
  }

  lemma AlikeLater(doc: string, from: nat, other: string, start: nat, n: nat)
    requires Alike(doc, from, other, start) && from + n <= |doc|
    ensures Alike(doc, from + n, other, start + n) && doc[from..from + n] == other[start..start + n]
    ensures n > 0 ==> doc[from + n - 1] == other[start + n - 1]
  {
    assert doc[from..][n..] == doc[from + n..] && other[start..][n..] == other[start + n..];
    assert doc[from..][..n] == doc[from..from + n] && other[start..][..n] == other[start..start + n];
    if n > 0 {
      assert doc[from..][n - 1] == other[start..][n - 1];
    }
  }

  lemma {:induction false} StopAlike(doc: string, from: nat, other: string, start: nat)
    requires Alike(doc, from, other, start)
    ensures LineStop(doc, from) - from == LineStop(other, start) - start
    decreases |doc| - from
  {
    if from < |doc| {
      AlikeLater(doc, from, other, start, 1);
      StopAlike(doc, from + 1, other, start + 1);
    }
  }

  lemma AfterAlike(doc: string, from: nat, other: string, start: nat)
    requires Alike(doc, from, other, start)
    ensures AfterLine(doc, from) - from == AfterLine(other, start) - start
    ensures from <= AfterLine(doc, from) <= |doc|
  {
    if from < |doc| { AlikeLater(doc, from, other, start, 1); }
    if from + 1 < |doc| { AlikeLater(doc, from, other, start, 2); }
  }

  /** Contents agree when the first lines and what follows them do. */
  lemma ContentsLine(doc: string, from: nat, stop: nat, next: nat, other: string, start: nat, end: nat, after: nat,
                     open: Opening)
    requires from < |doc| && start < |other| && stop == LineStop(doc, from) && end == LineStop(other, start)
    requires next == AfterLine(doc, stop) && after == AfterLine(other, end)
    requires doc[from..stop] == other[start..end] && doc[stop..next] == other[end..after] && doc[next..] == other[after..]
    requires Contents(doc, next, open) == Contents(other, after, open)
    ensures Contents(doc, from, open) == Contents(other, start, open)
  {
  }

  /** The first lines are alike, with their ends, and so is what follows. */
  lemma LineAlike(doc: string, from: nat, other: string, start: nat)
    returns (stop: nat, next: nat, end: nat, after: nat)
    requires Alike(doc, from, other, start) && from < |doc|
    ensures stop == LineStop(doc, from) && next == AfterLine(doc, stop) && from < next <= |doc| && start < |other|
    ensures end == LineStop(other, start) && after == AfterLine(other, end)
    ensures doc[from..stop] == other[start..end] && doc[stop..next] == other[end..after]
    ensures Alike(doc, next, other, after)
  {
    stop, end := LineStop(doc, from), LineStop(other, start);
    StopAlike(doc, from, other, start);
    AlikeLater(doc, from, other, start, stop - from);
    next, after := AfterLine(doc, stop), AfterLine(other, end);
    AfterAlike(doc, stop, other, end);
    AlikeLater(doc, stop, other, end, next - stop);
  }

  /** Where contents begin does not matter, only what follows. */
  lemma {:induction false} ContentsAlike(doc: string, from: nat, other: string, start: nat, open: Opening)
    requires Alike(doc, from, other, start)
    ensures Contents(doc, from, open) == Contents(other, start, open)
    decreases |doc| - from
  {
    if from < |doc| {
      var stop, next, end, after := LineAlike(doc, from, other, start);
      ContentsAlike(doc, next, other, after, open);
      ContentsLine(doc, from, stop, next, other, start, end, after, open);
    }
  }

  lemma OpeningIsRead(marker: char, length: nat, language: string)
    requires (marker == '`' || marker == '~') && length >= 3
    requires language != "" && forall c <- language :: 'a' <= c <= 'z'
    ensures OpeningFence(Repeat(marker, length) + language) == Some(Opening(0, marker, length, language))
  {
    var line := Repeat(marker, length) + language;
    assert line[0] == marker;
    LeadingIs(line, ' ', 0);
    assert line[0..] == line;
    assert language[0] in language && language[|language| - 1] in language;
    assert line[length] == language[0];
    LeadingIs(line, marker, length);
    assert line[length..] == language;
    assert TrimLeft(language) == language && TrimRight(language) == language;
  }

  lemma FirstLine(line: string, tail: string)
    requires forall c <- line :: !IsEnding(c)
    ensures LineStop(line + "\n" + tail, 0) == |line|
    ensures AfterLine(line + "\n" + tail, |line|) == |line| + 1
  {
    var doc := line + "\n" + tail;
    assert forall i :: 0 <= i < |line| ==> doc[i] == line[i] && line[i] in line;
    assert doc[|line|] == '\n';
    LineStopIs(doc, 0, |line|);
  }

  lemma PrintShape(text: string, language: string)
    ensures var (marker, length) := FenceOf(text);
            Print(text, language) == Repeat(marker, length) + language + "\n" + Tail(text, Opening(0, marker, length, language))
  {
  }

  lemma OpenedBlock(doc: string, line: string, next: nat, open: Opening)
    requires |line| <= |doc| && LineStop(doc, 0) == |line| && AfterLine(doc, |line|) == next
    requires doc[..|line|] == line && OpeningFence(line) == Some(open)
    ensures ParseFenced(doc) == Some(Block(open.info, Contents(doc, next, open).0, Contents(doc, next, open).1))
  {
  }

  lemma HeadLine(marker: char, language: string, length: nat)
    requires (marker == '`' || marker == '~') && forall c <- language :: 'a' <= c <= 'z'
    ensures forall c <- Repeat(marker, length) + language :: !IsEnding(c)
  {
    forall c <- Repeat(marker, length) + language ensures !IsEnding(c) {
      assert c in Repeat(marker, length) || c in language;
    }
  }

  lemma DocumentIsBlock(marker: char, length: nat, language: string, tail: string)
    requires (marker == '`' || marker == '~') && length >= 3
    requires language != "" && forall c <- language :: 'a' <= c <= 'z'
    ensures var open := Opening(0, marker, length, language);
            ParseFenced(Repeat(marker, length) + language + "\n" + tail)
            == Some(Block(language, Contents(tail, 0, open).0, Contents(tail, 0, open).1))
  {
    var line := Repeat(marker, length) + language;
    var head := line + "\n";
    HeadLine(marker, language, length);
    FirstLine(line, tail);
    OpeningIsRead(marker, length, language);
    assert (head + tail)[..|line|] == line;
    OpenedBlock(head + tail, line, |head|, Opening(0, marker, length, language));
    assert (head + tail)[|head|..] == tail[0..];
    ContentsAlike(head + tail, |head|, tail, 0, Opening(0, marker, length, language));
  }

  /** For every text and every file extension the printed document is one fenced code block, whose info
      string is the language and whose contents are exactly the text and its final line ending. */
  lemma FenceRoundTrip(text: string, extension: string)
    ensures ParseFenced(Print(text, Language(extension))) == Some(Block(Language(extension), text + "\n", ""))
  {
    var (marker, length) := FenceOf(text);
    var open := Opening(0, marker, length, Language(extension));
    PrintShape(text, Language(extension));
    DocumentIsBlock(marker, length, Language(extension), Tail(text, open));
    ContentsAreText(text, 0, open);
    assert (text + "\n")[0..] == text + "\n";
  }
}
