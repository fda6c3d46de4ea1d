/** String values: what the characters of a string token stand for (section 7 of RFC 8259, with UTF-16
    surrogate pairs), and the spelling the serializer chooses. */
module JsonStrings {
  import opened Wrappers
  import opened JsonSyntax

  function HexDigit(c: char): (n: nat)
    requires IsHex(c)
    ensures n < 16
  {
    if IsDigit(c) then c as int - '0' as int
    else if 'a' <= c <= 'f' then c as int - 'a' as int + 10
    else c as int - 'A' as int + 10
  }

  /** The code unit that four hexadecimal digits spell. */
  function CodeUnit(hex: string): (n: nat)
    requires ValidPiece(Unit(hex))
    ensures n < 0x1_0000
  {
    ((HexDigit(hex[0]) * 16 + HexDigit(hex[1])) * 16 + HexDigit(hex[2])) * 16 + HexDigit(hex[3])
  }

  function Unescape(c: char): char
    requires IsEscape(c)
  {
    match c
    case 'b' => 0x08 as char
    case 'f' => 0x0c as char
    case 'n' => '\n'
    case 'r' => '\r'
    case 't' => '\t'
    case _ => c
  }

  predicate High(n: nat) {
    0xd800 <= n <= 0xdbff
  }

  predicate Low(n: nat) {
    0xdc00 <= n <= 0xdfff
  }

  /** The character a surrogate pair stands for. */
  function Pair(high: nat, low: nat): char
    requires High(high) && Low(low)
  {
    (0x1_0000 + (high - 0xd800) * 0x400 + (low - 0xdc00)) as char
  }

  /** The value of a string token; None for a surrogate without its partner. */
  function Decode(pieces: seq<Piece>): Option<string>
    requires ValidPieces(pieces)
    decreases |pieces|
  {
    if pieces == [] then Some("") else
    assert ValidPiece(pieces[0]);
    match pieces[0]
    case Plain(c) => Put(c, Decode(pieces[1..]))
    case Escape(c) => Put(Unescape(c), Decode(pieces[1..]))
    case Unit(hex) =>
      var n := CodeUnit(hex);
      if Low(n) then None
      else if High(n) then
        if |pieces| > 1 && pieces[1].Unit? && Low(CodeUnit(pieces[1].hex))
        then Put(Pair(n, CodeUnit(pieces[1].hex)), Decode(pieces[2..]))
        else None
      else Put(n as char, Decode(pieces[1..]))
  }

  function Put(c: char, more: Option<string>): Option<string> {
    if more.Some? then Some([c] + more.value) else None
  }

  function LowerHex(n: nat): char
    requires n < 16
  {
    "0123456789abcdef"[n]
  }

  /** How the serializer spells a character. */
  function EncodeChar(c: char): Piece {
    if c == '"' || c == '\\' then Escape(c)
    else if c as int == 0x08 then Escape('b')
    else if c as int == 0x0c then Escape('f')
    else if c == '\n' then Escape('n')
    else if c == '\r' then Escape('r')
    else if c == '\t' then Escape('t')
    else if c < ' ' then Unit(['0', '0', LowerHex(c as int / 16), LowerHex(c as int % 16)])
    else Plain(c)
  }

  function Encode(value: string): (pieces: seq<Piece>)
    ensures |pieces| == |value|
  {
    if value == "" then [] else [EncodeChar(value[0])] + Encode(value[1..])
  }

  lemma ControlUnit(n: nat)
    requires n < 32
    ensures ValidPiece(Unit(['0', '0', LowerHex(n / 16), LowerHex(n % 16)]))
    ensures CodeUnit(['0', '0', LowerHex(n / 16), LowerHex(n % 16)]) == n
  {
    assert forall k: nat | k < 16 :: IsHex(LowerHex(k)) && HexDigit(LowerHex(k)) == k;
  }

  lemma EncodedCharDecodes(c: char, more: seq<Piece>)
    requires ValidPieces(more)
    ensures ValidPieces([EncodeChar(c)] + more)
    ensures Decode([EncodeChar(c)] + more) == Put(c, Decode(more))
  {
    if c < ' ' {
      ControlUnit(c as int);
    }
    assert ValidPiece(EncodeChar(c));
    assert ([EncodeChar(c)] + more)[1..] == more;
  }

  /** Reading an encoded value gives the value back, for every string. */
  lemma {:induction false} DecodeEncode(value: string)
    ensures ValidPieces(Encode(value))
    ensures Decode(Encode(value)) == Some(value)
  {
    if value != "" {
      DecodeEncode(value[1..]);
      EncodedCharDecodes(value[0], Encode(value[1..]));
      assert [value[0]] + value[1..] == value;
    }
  }

  predicate OneLine(text: string) {
    forall c <- text :: c >= ' '
  }

  lemma EncodedCharIsOneLine(c: char)
    ensures OneLine(PrintPiece(EncodeChar(c)))
  {
    if c < ' ' {
      var n := c as int;
      var (high, low) := (LowerHex(n / 16), LowerHex(n % 16));
      assert high >= ' ' && low >= ' ';
      assert "\\u" + ['0', '0', high, low] == ['\\', 'u', '0', '0', high, low];
    }
  }

  lemma OneLineAppend(a: string, b: string)
    requires OneLine(a) && OneLine(b)
    ensures OneLine(a + b)
  {
  }

  /** An encoded value spans no lines: its text has no control character below the space. */
  lemma {:induction false} EncodedIsOneLine(value: string)
    ensures OneLine(PrintPieces(Encode(value)))
  {
    if value != "" {
      EncodedIsOneLine(value[1..]);
      var p := EncodeChar(value[0]);
      EncodedCharIsOneLine(value[0]);
      assert Encode(value)[1..] == Encode(value[1..]);
      OneLineAppend(PrintPiece(p), PrintPieces(Encode(value[1..])));
    }
  }

  /** The pieces of a name that needs no escapes. */
  function Plains(name: string): seq<Piece> {
    if name == "" then [] else [Plain(name[0])] + Plains(name[1..])
  }

  predicate PlainName(name: string) {
    forall c <- name :: 'a' <= c <= 'z'
  }

  lemma {:induction false} PlainsRead(name: string)
    requires PlainName(name)
    ensures ValidPieces(Plains(name)) && Decode(Plains(name)) == Some(name) && PrintPieces(Plains(name)) == name
  {
    if name != "" {
      assert PlainName(name[1..]) by {
        forall c <- name[1..] ensures 'a' <= c <= 'z' { assert c in name; }
      }
      PlainsRead(name[1..]);
      assert name[0] in name;
      assert ValidPiece(Plain(name[0]));
      assert Plains(name)[1..] == Plains(name[1..]);
      assert [name[0]] + name[1..] == name;
    }
  }
}
