/** JSON texts after RFC 8259 (sections 2 to 5 and 7), with everything a text contains: white space, escapes
    and number spellings are part of the tree, so a tree stands for exactly one text. */
module JsonSyntax {
  import opened Wrappers

  /** One character of a string token as it is spelled: itself, a short escape, or a code unit. */
  datatype Piece = Plain(c: char) | Escape(c: char) | Unit(hex: string)

  datatype Json =
    | Literal(word: string)
    | Number(digits: string)
    | Text(pieces: seq<Piece>)
    | Array(space: string, items: Items)
    | Object(space: string, members: Members)

  datatype Items = NoItems | MoreItems(before: string, value: Json, after: string, rest: Items)

  datatype Members =
    | NoMembers
    | MoreMembers(before: string, key: seq<Piece>, beforeColon: string, afterColon: string, value: Json, after: string,
                  rest: Members)

  predicate IsSpace(c: char) {
    c == ' ' || c == '\t' || c == '\n' || c == '\r'
  }

  predicate AllSpace(text: string) {
    forall c <- text :: IsSpace(c)
  }

  predicate IsDigit(c: char) {
    '0' <= c <= '9'
  }

  predicate IsHex(c: char) {
    IsDigit(c) || 'a' <= c <= 'f' || 'A' <= c <= 'F'
  }

  predicate NumberChar(c: char) {
    IsDigit(c) || c == '-' || c == '+' || c == '.' || c == 'e' || c == 'E'
  }

  predicate Digits(text: string) {
    text != "" && forall c <- text :: IsDigit(c)
  }

  /** The longest prefix of digits. */
  function DigitCount(text: string): (n: nat)
    ensures n <= |text|
  {
    if text == "" || !IsDigit(text[0]) then 0 else 1 + DigitCount(text[1..])
  }

  predicate ValidExponent(text: string) {
    text == "" ||
    ((text[0] == 'e' || text[0] == 'E')
     && Digits(if |text| > 1 && (text[1] == '+' || text[1] == '-') then text[2..] else text[1..]))
  }

  predicate ValidFraction(text: string) {
    if text != "" && text[0] == '.' then
      DigitCount(text[1..]) > 0 && ValidExponent(text[1..][DigitCount(text[1..])..])
    else ValidExponent(text)
  }

  predicate ValidNumber(text: string) {
    var unsigned := if text != "" && text[0] == '-' then text[1..] else text;
    var n := DigitCount(unsigned);
    n > 0 && (unsigned[0] == '0' ==> n == 1) && ValidFraction(unsigned[n..])
  }

  predicate IsEscape(c: char) {
    c == '"' || c == '\\' || c == '/' || c == 'b' || c == 'f' || c == 'n' || c == 'r' || c == 't'
  }

  predicate ValidPiece(p: Piece) {
    match p
    case Plain(c) => c >= ' ' && c != '"' && c != '\\'
    case Escape(c) => IsEscape(c)
    case Unit(hex) => |hex| == 4 && forall c <- hex :: IsHex(c)
  }

  predicate ValidPieces(pieces: seq<Piece>) {
    forall p <- pieces :: ValidPiece(p)
  }

  predicate IsWord(word: string) {
    word == "true" || word == "false" || word == "null"
  }

  predicate Valid(j: Json) {
    match j
    case Literal(word) => IsWord(word)
    case Number(digits) => ValidNumber(digits) && forall c <- digits :: NumberChar(c)
    case Text(pieces) => ValidPieces(pieces)
    case Array(space, items) => AllSpace(space) && (items.MoreItems? ==> space == "") && ValidItems(items)
    case Object(space, members) => AllSpace(space) && (members.MoreMembers? ==> space == "") && ValidMembers(members)
  }

  predicate ValidItems(items: Items) {
    match items
    case NoItems => true
    case MoreItems(before, value, after, rest) => AllSpace(before) && Valid(value) && AllSpace(after) && ValidItems(rest)
  }

  predicate ValidMembers(members: Members) {
    match members
    case NoMembers => true
    case MoreMembers(before, key, beforeColon, afterColon, value, after, rest) =>
      && AllSpace(before) && ValidPieces(key) && AllSpace(beforeColon) && AllSpace(afterColon)
      && Valid(value) && AllSpace(after) && ValidMembers(rest)
  }

  function PrintPiece(p: Piece): string {
    match p
    case Plain(c) => [c]
    case Escape(c) => ['\\', c]
    case Unit(hex) => "\\u" + hex
  }

  function PrintPieces(pieces: seq<Piece>): string {
    if pieces == [] then "" else PrintPiece(pieces[0]) + PrintPieces(pieces[1..])
  }

  function Quote(pieces: seq<Piece>): string {
    "\"" + (PrintPieces(pieces) + "\"")
  }

  function Print(j: Json): string
    decreases j, 0
  {
    match j
    case Literal(word) => word
    case Number(digits) => digits
    case Text(pieces) => Quote(pieces)
    case Array(space, items) => "[" + (space + PrintItems(items) + "]")
    case Object(space, members) => "{" + (space + PrintMembers(members) + "}")
  }

  function PrintItems(items: Items): string
    decreases items, 0
  {
    match items
    case NoItems => ""
    case MoreItems(before, value, after, rest) =>
      before + (Print(value) + (after + ItemsTail(rest)))
  }

  function ItemsTail(rest: Items): string
    decreases rest, 1
  {
    if rest.NoItems? then "" else "," + PrintItems(rest)
  }

  /** What stands before the value of a member. */
  function PrintKey(before: string, key: seq<Piece>, beforeColon: string, afterColon: string): string {
    before + (Quote(key) + (beforeColon + (":" + afterColon)))
  }

  function PrintMembers(members: Members): string
    decreases members, 0
  {
    match members
    case NoMembers => ""
    case MoreMembers(before, key, beforeColon, afterColon, value, after, rest) =>
      PrintKey(before, key, beforeColon, afterColon)
      + (Print(value) + (after + MembersTail(rest)))
  }

  function MembersTail(rest: Members): string
    decreases rest, 1
  {
    if rest.NoMembers? then "" else "," + PrintMembers(rest)
  }

  /** A whole document: one value with white space around it. */
  datatype Document = Document(before: string, value: Json, after: string)

  predicate ValidDocument(d: Document) {
    AllSpace(d.before) && Valid(d.value) && AllSpace(d.after)
  }

  function PrintDocument(d: Document): string {
    d.before + (Print(d.value) + d.after)
  }

  // ---- the parser

  datatype Parsed<+T> = NoParse | Parsed(value: T, rest: string)

  function SpaceCount(s: string): (n: nat)
    ensures n <= |s|
    ensures AllSpace(s[..n])
    ensures n < |s| ==> !IsSpace(s[n])
  {
    if s == "" || !IsSpace(s[0]) then 0
    else
      assert s[..1 + SpaceCount(s[1..])] == [s[0]] + s[1..][..SpaceCount(s[1..])];
      1 + SpaceCount(s[1..])
  }

  function NumberCount(s: string): (n: nat)
    ensures n <= |s|
    ensures forall c <- s[..n] :: NumberChar(c)
    ensures n < |s| ==> !NumberChar(s[n])
  {
    if s == "" || !NumberChar(s[0]) then 0
    else
      assert s[..1 + NumberCount(s[1..])] == [s[0]] + s[1..][..NumberCount(s[1..])];
      1 + NumberCount(s[1..])
  }

  /** One piece of a string; the caller has seen that the string does not end here. */
  function ParsePiece(s: string): Parsed<Piece> {
    if s == "" || s[0] < ' ' || s[0] == '"' then NoParse
    else if s[0] != '\\' then Parsed(Plain(s[0]), s[1..])
    else if |s| < 2 then NoParse
    else if IsEscape(s[1]) then Parsed(Escape(s[1]), s[2..])
    else if s[1] == 'u' && |s| >= 6 && (forall c <- s[2..6] :: IsHex(c)) then Parsed(Unit(s[2..6]), s[6..])
    else NoParse
  }

  /** The pieces up to and including the closing quotation mark. */
  function ParsePieces(s: string): Parsed<seq<Piece>>
    decreases |s|
  {
    if s != "" && s[0] == '"' then Parsed([], s[1..]) else
    match ParsePiece(s)
    case NoParse => NoParse
    case Parsed(p, rest) =>
      match ParsePieces(rest)
      case NoParse => NoParse
      case Parsed(more, rest') => Parsed([p] + more, rest')
  }

  function ParseWord(s: string): Parsed<Json> {
    if "true" <= s then Parsed(Literal("true"), s[4..])
    else if "false" <= s then Parsed(Literal("false"), s[5..])
    else if "null" <= s then Parsed(Literal("null"), s[4..])
    else NoParse
  }

  function ParseNumber(s: string): Parsed<Json> {
    var n := NumberCount(s);
    if ValidNumber(s[..n]) then Parsed(Number(s[..n]), s[n..]) else NoParse
  }

  lemma {:induction false} PiecesShrink(s: string)
    ensures ParsePieces(s).Parsed? ==> |ParsePieces(s).rest| < |s|
    decreases |s|
  {
    if s != "" && s[0] != '"' && ParsePiece(s).Parsed? {
      PiecesShrink(ParsePiece(s).rest);
    }
  }

  function ParseValue(s: string): (r: Parsed<Json>)
    ensures r.Parsed? ==> |r.rest| < |s|
    decreases |s|, 0
  {
    if s == "" then NoParse
    else if s[0] == '"' then
      PiecesShrink(s[1..]);
      (match ParsePieces(s[1..])
       case NoParse => NoParse
       case Parsed(pieces, rest) => Parsed(Text(pieces), rest))
    else if s[0] == '[' then ParseArray(s[1..])
    else if s[0] == '{' then ParseObject(s[1..])
    else if IsDigit(s[0]) || s[0] == '-' then
      assert NumberCount(s) > 0;
      ParseNumber(s)
    else ParseWord(s)
  }

  /** What follows an opening bracket. */
  function ParseArray(s: string): (r: Parsed<Json>)
    ensures r.Parsed? ==> |r.rest| < |s|
    decreases |s|, 2
  {
    var n := SpaceCount(s);
    if n < |s| && s[n] == ']' then Parsed(Array(s[..n], NoItems), s[n + 1..]) else
    match ParseItems(s)
    case NoParse => NoParse
    case Parsed(items, rest) => Parsed(Array("", items), rest)
  }

  /** What follows an opening brace. */
  function ParseObject(s: string): (r: Parsed<Json>)
    ensures r.Parsed? ==> |r.rest| < |s|
    decreases |s|, 2
  {
    var n := SpaceCount(s);
    if n < |s| && s[n] == '}' then Parsed(Object(s[..n], NoMembers), s[n + 1..]) else
    match ParseMembers(s)
    case NoParse => NoParse
    case Parsed(members, rest) => Parsed(Object("", members), rest)
  }

  /** One or more array elements, up to and including the closing bracket. */
  function ParseItems(s: string): (r: Parsed<Items>)
    ensures r.Parsed? ==> |r.rest| < |s|
    decreases |s|, 1
  {
    var n := SpaceCount(s);
    match ParseValue(s[n..])
    case NoParse => NoParse
    case Parsed(value, t) =>
      var m := SpaceCount(t);
      if m == |t| then NoParse
      else if t[m] == ']' then Parsed(MoreItems(s[..n], value, t[..m], NoItems), t[m + 1..])
      else if t[m] == ',' then
        match ParseItems(t[m + 1..])
        case NoParse => NoParse
        case Parsed(more, rest) => Parsed(MoreItems(s[..n], value, t[..m], more), rest)
      else NoParse
  }

  /** A key, up to and including the white space after its colon. */
  function ParseKey(s: string): (r: Parsed<(string, seq<Piece>, string, string)>)
    ensures r.Parsed? ==> |r.rest| < |s|
  {
    var n := SpaceCount(s);
    if n == |s| || s[n] != '"' then NoParse else
    PiecesShrink(s[n + 1..]);
    match ParsePieces(s[n + 1..])
    case NoParse => NoParse
    case Parsed(key, t) =>
      var k := SpaceCount(t);
      if k == |t| || t[k] != ':' then NoParse else
      var l := SpaceCount(t[k + 1..]);
      Parsed((s[..n], key, t[..k], t[k + 1..][..l]), t[k + 1..][l..])
  }

  /** One or more object members, up to and including the closing brace. */
  function ParseMembers(s: string): (r: Parsed<Members>)
    ensures r.Parsed? ==> |r.rest| < |s|
    decreases |s|, 1
  {
    match ParseKey(s)
    case NoParse => NoParse
    case Parsed((before, key, beforeColon, afterColon), u) =>
      match ParseValue(u)
      case NoParse => NoParse
      case Parsed(value, t) =>
        var m := SpaceCount(t);
        if m == |t| then NoParse
        else if t[m] == '}' then
          Parsed(MoreMembers(before, key, beforeColon, afterColon, value, t[..m], NoMembers), t[m + 1..])
        else if t[m] == ',' then
          match ParseMembers(t[m + 1..])
          case NoParse => NoParse
          case Parsed(more, rest) =>
            Parsed(MoreMembers(before, key, beforeColon, afterColon, value, t[..m], more), rest)
        else NoParse
  }

  function ParseDocument(s: string): Option<Document> {
    var n := SpaceCount(s);
    match ParseValue(s[n..])
    case NoParse => None
    case Parsed(value, rest) => if AllSpace(rest) then Some(Document(s[..n], value, rest)) else None
  }
}
