/** Names of queue files (src/broker.rs): the printed task ID and the order parsed back from it. */
module QueueOrder {
  import opened Wrappers

  const U128_LIMIT := 0x1_0000_0000_0000_0000_0000_0000_0000_0000
  const U64_LIMIT := 0x1_0000_0000_0000_0000

  function DigitChar(d: nat): char
    requires d < 10
  {
    '0' + d as char
  }

  predicate IsDigit(c: char) {
    '0' <= c <= '9'
  }

  predicate Numeral(text: string) {
    text != "" && forall c <- text :: IsDigit(c)
  }

  function Value(text: string): nat
    requires forall c <- text :: IsDigit(c)
  {
    if text == "" then 0 else
    assert IsDigit(text[|text| - 1]);
    10 * Value(text[..|text| - 1]) + (text[|text| - 1] as int - '0' as int)
  }

  function Decimal(n: nat): (text: string)
    ensures Numeral(text)
    ensures Value(text) == n
  {
    if n < 10 then [DigitChar(n)] else Decimal(n / 10) + [DigitChar(n % 10)]
  }

  /** The format `{:020}`: decimal, filled up with zeros to at least twenty characters. */
  function Padded(text: string): (r: string)
    requires Numeral(text)
    ensures Numeral(r)
    ensures Value(r) == Value(text)
    decreases 20 - |text|
  {
    if |text| >= 20 then text else
    ZeroInFront(text);
    Padded("0" + text)
  }

  lemma {:induction false} ZeroInFront(text: string)
    requires forall c <- text :: IsDigit(c)
    ensures Value("0" + text) == Value(text)
  {
    if text != "" {
      ZeroInFront(text[..|text| - 1]);
      assert ("0" + text)[..|text|] == "0" + text[..|text| - 1];
    }
  }

  function QueueName(nanos: nat, pid: nat, sequence: nat): string {
    "remote-" + Padded(Decimal(nanos)) + "-" + Decimal(pid) + "-" + Padded(Decimal(sequence))
  }

  /** The parts of a text between its hyphens. */
  function Split(text: string): (parts: seq<string>)
    ensures |parts| >= 1
  {
    if text == "" then [""] else
    var rest := Split(text[1..]);
    if text[0] == '-' then [""] + rest else [[text[0]] + rest[0]] + rest[1..]
  }

  /** Parsing an unsigned integer: an optional plus sign, digits, and no overflow. */
  function Parse(text: string, limit: nat): Option<nat> {
    var digits := if text != "" && text[0] == '+' then text[1..] else text;
    if Numeral(digits) && Value(digits) < limit then Some(Value(digits)) else None
  }

  type Order = (nat, nat, nat)

  function Part(parts: seq<string>, index: nat, limit: nat): nat {
    if index < |parts| then
      match Parse(parts[index], limit) { case Some(n) => n case None => 0 }
    else 0
  }

  function OrderOf(stem: string): Order {
    var parts := Split(stem);
    (Part(parts, 1, U128_LIMIT), Part(parts, 2, U64_LIMIT), Part(parts, 3, U64_LIMIT))
  }

  predicate Before(a: Order, b: Order) {
    a.0 < b.0 || (a.0 == b.0 && (a.1 < b.1 || (a.1 == b.1 && a.2 < b.2)))
  }

  lemma {:induction false} SplitWhole(text: string)
    requires '-' !in text
    ensures Split(text) == [text]
  {
    if text != "" {
      SplitWhole(text[1..]);
      assert [text[0]] + text[1..] == text;
    }
  }

  lemma {:induction false} SplitFirst(head: string, tail: string)
    requires '-' !in head
    ensures Split(head + "-" + tail) == [head] + Split(tail)
  {
    var text := head + "-" + tail;
    if head == "" {
      assert text[1..] == tail;
    } else {
      SplitFirst(head[1..], tail);
      assert text[1..] == head[1..] + "-" + tail;
      assert [head[0]] + head[1..] == head;
    }
  }

  lemma Regroup(a: string, b: string, c: string)
    ensures "remote-" + a + "-" + b + "-" + c == "remote" + "-" + (a + "-" + (b + "-" + c))
  {
    assert "remote-" == "remote" + "-";
  }

  lemma SplitName(a: string, b: string, c: string)
    requires '-' !in a && '-' !in b && '-' !in c
    ensures Split("remote-" + a + "-" + b + "-" + c) == ["remote", a, b, c]
  {
    Regroup(a, b, c);
    SplitWhole(c);
    SplitFirst(b, c);
    SplitFirst(a, b + "-" + c);
    SplitFirst("remote", a + "-" + (b + "-" + c));
  }

  lemma ParseNumeral(text: string, limit: nat)
    requires Numeral(text) && Value(text) < limit
    ensures Parse(text, limit) == Some(Value(text))
    ensures '-' !in text
  {
    assert IsDigit(text[0]);
  }

  /** Any three numerals in range are read back as their values, padded or not, so names written by
      older and by current versions share one order. */
  lemma NumeralsAreRecovered(a: string, b: string, c: string)
    requires Numeral(a) && Numeral(b) && Numeral(c)
    requires Value(a) < U128_LIMIT && Value(b) < U64_LIMIT && Value(c) < U64_LIMIT
    ensures OrderOf("remote-" + a + "-" + b + "-" + c) == (Value(a), Value(b), Value(c))
  {
    ParseNumeral(a, U128_LIMIT);
    ParseNumeral(b, U64_LIMIT);
    ParseNumeral(c, U64_LIMIT);
    SplitName(a, b, c);
  }

  lemma QueueOrderRoundTrip(nanos: nat, pid: nat, sequence: nat)
    requires nanos < U128_LIMIT && pid < U64_LIMIT && sequence < U64_LIMIT
    ensures OrderOf(QueueName(nanos, pid, sequence)) == (nanos, pid, sequence)
  {
    NumeralsAreRecovered(Padded(Decimal(nanos)), Decimal(pid), Padded(Decimal(sequence)));
  }
}
