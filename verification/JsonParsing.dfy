/** The parser and the printer of JSON texts are inverse to each other: a parsed tree prints back the text
    it was read from, and every printed tree is read back, whatever follows it. */
module JsonParsing {
  import opened Wrappers
  import opened JsonSyntax

  // ---- what is parsed prints back

  lemma {:induction false} PiecesSound(s: string)
    requires ParsePieces(s).Parsed?
    ensures ValidPieces(ParsePieces(s).value)
    ensures PrintPieces(ParsePieces(s).value) + ("\"" + ParsePieces(s).rest) == s
    decreases |s|
  {
    if s != "" && s[0] == '"' {
      assert s == ['"'] + s[1..];
    } else {
      var Parsed(p, rest) := ParsePiece(s);
      PieceSound(s);
      PiecesSound(rest);
      var Parsed(more, rest') := ParsePieces(rest);
      assert ([p] + more)[1..] == more;
      Prepend(PrintPiece(p), PrintPieces(more), "\"" + rest');
    }
  }

  lemma PieceSound(s: string)
    requires ParsePiece(s).Parsed?
    ensures ValidPiece(ParsePiece(s).value)
    ensures PrintPiece(ParsePiece(s).value) + ParsePiece(s).rest == s
  {
    if s[0] != '\\' {
      assert s == [s[0]] + s[1..];
    } else if IsEscape(s[1]) {
      assert s == ['\\', s[1]] + s[2..];
    } else {
      assert s == ("\\u" + s[2..6]) + s[6..];
    }
  }

  lemma Split(s: string, n: nat)
    requires n <= |s|
    ensures s == s[..n] + s[n..]
  {
  }

  lemma SplitMark(s: string, n: nat)
    requires n < |s|
    ensures s == s[..n] + ([s[n]] + s[n + 1..])
  {
  }

  lemma Regroup(a: string, b: string, c: string, d: string, e: string)
    ensures (a + (b + (c + d))) + e == a + (b + (c + (d + e)))
  {
  }

  /** What stands after a value in an array: its end, or a comma and the other elements. */
  function AfterItem(more: Items, rest: string): string {
    if more.NoItems? then "]" + rest else "," + (PrintItems(more) + ("]" + rest))
  }

  function AfterMember(more: Members, rest: string): string {
    if more.NoMembers? then "}" + rest else "," + (PrintMembers(more) + ("}" + rest))
  }

  lemma ItemsTailText(more: Items, rest: string)
    ensures ItemsTail(more) + ("]" + rest) == AfterItem(more, rest)
  {
    Prepend(",", PrintItems(more), "]" + rest);
    Nothing("]" + rest);
  }

  lemma MembersTailText(more: Members, rest: string)
    ensures MembersTail(more) + ("}" + rest) == AfterMember(more, rest)
  {
    Prepend(",", PrintMembers(more), "}" + rest);
    Nothing("}" + rest);
  }

  lemma Prepend(a: string, b: string, c: string)
    ensures (a + b) + c == a + (b + c)
  {
  }

  lemma Nothing(a: string)
    ensures "" + a == a
  {
  }

  lemma ItemsText(items: Items, rest: string)
    requires items.MoreItems?
    ensures PrintItems(items) + ("]" + rest)
         == items.before + (Print(items.value) + (items.after + AfterItem(items.rest, rest)))
  {
    Regroup(items.before, Print(items.value), items.after, ItemsTail(items.rest), "]" + rest);
    ItemsTailText(items.rest, rest);
  }

  /** What stands before the value of the first member. */
  function KeyText(members: Members): string
    requires members.MoreMembers?
  {
    PrintKey(members.before, members.key, members.beforeColon, members.afterColon)
  }

  lemma MembersText(members: Members, rest: string)
    requires members.MoreMembers?
    ensures PrintMembers(members) + ("}" + rest)
         == KeyText(members) + (Print(members.value) + (members.after + AfterMember(members.rest, rest)))
  {
    Regroup(KeyText(members), Print(members.value), members.after, MembersTail(members.rest), "}" + rest);
    MembersTailText(members.rest, rest);
  }

  lemma KeyLayout(before: string, key: seq<Piece>, beforeColon: string, afterColon: string, rest: string)
    ensures PrintKey(before, key, beforeColon, afterColon) + rest
         == before + ("\"" + (PrintPieces(key) + ("\"" + (beforeColon + (":" + (afterColon + rest))))))
  {
    var colon := beforeColon + (":" + afterColon);
    assert colon + rest == beforeColon + (":" + (afterColon + rest));
    assert Quote(key) + (colon + rest) == "\"" + (PrintPieces(key) + ("\"" + (colon + rest)));
    assert (before + (Quote(key) + colon)) + rest == before + (Quote(key) + (colon + rest));
  }

  lemma BracketLayout(open: string, space: string, inside: string, close: string, rest: string)
    ensures (open + (space + inside + close)) + rest == open + (space + (inside + (close + rest)))
    ensures inside == "" ==> open + (space + (inside + (close + rest))) == open + (space + (close + rest))
    ensures space == "" ==> open + (space + (inside + (close + rest))) == open + (inside + (close + rest))
  {
    assert "" + (close + rest) == close + rest;
    assert "" + (inside + (close + rest)) == inside + (close + rest);
  }

  lemma TextSound(s: string)
    requires s != "" && s[0] == '"' && ParsePieces(s[1..]).Parsed?
    ensures Valid(ParseValue(s).value) && Print(ParseValue(s).value) + ParseValue(s).rest == s
  {
    PiecesSound(s[1..]);
    var Parsed(pieces, rest) := ParsePieces(s[1..]);
    assert s == "\"" + s[1..];
    QuoteText(pieces, rest);
  }

  lemma QuoteText(pieces: seq<Piece>, rest: string)
    ensures Quote(pieces) + rest == "\"" + (PrintPieces(pieces) + ("\"" + rest))
  {
    Prepend("\"", PrintPieces(pieces) + "\"", rest);
    Prepend(PrintPieces(pieces), "\"", rest);
  }

  lemma NumberSound(s: string)
    requires ParseNumber(s).Parsed?
    ensures Valid(ParseNumber(s).value) && Print(ParseNumber(s).value) + ParseNumber(s).rest == s
  {
    Split(s, NumberCount(s));
  }

  lemma WordSound(s: string)
    requires ParseWord(s).Parsed?
    ensures Valid(ParseWord(s).value) && Print(ParseWord(s).value) + ParseWord(s).rest == s
  {
    Split(s, 4);
    if "false" <= s { Split(s, 5); }
  }

  lemma ScalarSound(s: string)
    requires s != "" && s[0] != '"' && s[0] != '[' && s[0] != '{' && ParseValue(s).Parsed?
    ensures Valid(ParseValue(s).value) && Print(ParseValue(s).value) + ParseValue(s).rest == s
  {
    if IsDigit(s[0]) || s[0] == '-' {
      NumberSound(s);
    } else {
      WordSound(s);
    }
  }

  lemma ArraySound(s: string)
    requires ParseArray(s).Parsed?
    requires var r := ParseItems(s);
             r.Parsed? ==> ValidItems(r.value) && PrintItems(r.value) + ("]" + r.rest) == s
    ensures Valid(ParseArray(s).value) && Print(ParseArray(s).value) + ParseArray(s).rest == "[" + s
  {
    var Parsed(Array(space, items), rest) := ParseArray(s);
    BracketLayout("[", space, PrintItems(items), "]", rest);
    var n := SpaceCount(s);
    if n < |s| {
      SplitMark(s, n);
    }
  }

  lemma ObjectSound(s: string)
    requires ParseObject(s).Parsed?
    requires var r := ParseMembers(s);
             r.Parsed? ==> ValidMembers(r.value) && PrintMembers(r.value) + ("}" + r.rest) == s
    ensures Valid(ParseObject(s).value) && Print(ParseObject(s).value) + ParseObject(s).rest == "{" + s
  {
    var Parsed(Object(space, members), rest) := ParseObject(s);
    BracketLayout("{", space, PrintMembers(members), "}", rest);
    var n := SpaceCount(s);
    if n < |s| {
      SplitMark(s, n);
    }
  }

  lemma {:induction false} ValueSound(s: string)
    requires ParseValue(s).Parsed?
    ensures Valid(ParseValue(s).value) && Print(ParseValue(s).value) + ParseValue(s).rest == s
    decreases |s|, 0
  {
    if s[0] == '"' {
      TextSound(s);
    } else if s[0] == '[' {
      if ParseItems(s[1..]).Parsed? { ItemsSound(s[1..]); }
      ArraySound(s[1..]);
      assert s == "[" + s[1..];
    } else if s[0] == '{' {
      if ParseMembers(s[1..]).Parsed? { MembersSound(s[1..]); }
      ObjectSound(s[1..]);
      assert s == "{" + s[1..];
    } else {
      ScalarSound(s);
    }
  }

  /** What reading elements takes apart. */
  lemma ItemsRead(s: string)
    requires ParseItems(s).Parsed?
    ensures var Parsed(items, rest) := ParseItems(s);
            var v := ParseValue(s[SpaceCount(s)..]);
            && items.MoreItems? && items.before == s[..SpaceCount(s)]
            && v.Parsed? && items.value == v.value
            && SpaceCount(v.rest) < |v.rest| && items.after == v.rest[..SpaceCount(v.rest)]
            && var mark, next := v.rest[SpaceCount(v.rest)], v.rest[SpaceCount(v.rest) + 1..];
               if mark == ']' then items.rest == NoItems && rest == next
               else mark == ',' && ParseItems(next) == Parsed(items.rest, rest) && items.rest.MoreItems?
  {
  }

  lemma {:induction false} ItemsSound(s: string)
    requires ParseItems(s).Parsed?
    ensures ParseItems(s).value.MoreItems? && ValidItems(ParseItems(s).value)
    ensures PrintItems(ParseItems(s).value) + ("]" + ParseItems(s).rest) == s
    decreases |s|, 1
  {
    ItemsRead(s);
    var n := SpaceCount(s);
    ValueSound(s[n..]);
    var t := ParseValue(s[n..]).rest;
    var m := SpaceCount(t);
    if t[m] == ',' {
      ItemsSound(t[m + 1..]);
    }
    Split(s, n);
    SplitMark(t, m);
    ItemsText(ParseItems(s).value, ParseItems(s).rest);
  }

  lemma KeySound(s: string)
    requires ParseKey(s).Parsed?
    ensures var Parsed((before, key, beforeColon, afterColon), rest) := ParseKey(s);
            && AllSpace(before) && ValidPieces(key) && AllSpace(beforeColon) && AllSpace(afterColon)
            && PrintKey(before, key, beforeColon, afterColon) + rest == s
  {
    var n := SpaceCount(s);
    PiecesSound(s[n + 1..]);
    var Parsed(key, t) := ParsePieces(s[n + 1..]);
    var k := SpaceCount(t);
    var u := t[k + 1..];
    SplitMark(s, n);
    SplitMark(t, k);
    Split(u, SpaceCount(u));
    KeyLayout(s[..n], key, t[..k], u[..SpaceCount(u)], u[SpaceCount(u)..]);
  }

  lemma {:induction false} MembersSound(s: string)
    requires ParseMembers(s).Parsed?
    ensures ParseMembers(s).value.MoreMembers? && ValidMembers(ParseMembers(s).value)
    ensures PrintMembers(ParseMembers(s).value) + ("}" + ParseMembers(s).rest) == s
    decreases |s|, 1
  {
    KeySound(s);
    var u := ParseKey(s).rest;
    ValueSound(u);
    var t := ParseValue(u).rest;
    var m := SpaceCount(t);
    if t[m] == ',' {
      MembersSound(t[m + 1..]);
    }
    SplitMark(t, m);
    MembersText(ParseMembers(s).value, ParseMembers(s).rest);
  }

  /** Everything a document's text contains is in the tree: it prints back exactly. */
  lemma DocumentSound(s: string)
    requires ParseDocument(s).Some?
    ensures ValidDocument(ParseDocument(s).value) && PrintDocument(ParseDocument(s).value) == s
  {
    ValueSound(s[SpaceCount(s)..]);
    assert s == s[..SpaceCount(s)] + s[SpaceCount(s)..];
  }

  // ---- what is printed parses back

  lemma {:induction false} SpaceStops(space: string, rest: string)
    requires AllSpace(space) && (rest == "" || !IsSpace(rest[0]))
    ensures SpaceCount(space + rest) == |space|
    ensures (space + rest)[..|space|] == space && (space + rest)[|space|..] == rest
  {
    if space == "" {
      assert space + rest == rest;
    } else {
      assert (space + rest)[1..] == space[1..] + rest;
      SpaceStops(space[1..], rest);
    }
  }

  lemma {:induction false} NumberStops(digits: string, rest: string)
    requires forall c <- digits :: NumberChar(c)
    requires rest == "" || !NumberChar(rest[0])
    ensures NumberCount(digits + rest) == |digits|
    ensures (digits + rest)[..|digits|] == digits && (digits + rest)[|digits|..] == rest
  {
    if digits == "" {
      assert digits + rest == rest;
    } else {
      assert (digits + rest)[1..] == digits[1..] + rest;
      NumberStops(digits[1..], rest);
    }
  }

  lemma PieceComplete(p: Piece, rest: string)
    requires ValidPiece(p)
    ensures PrintPiece(p) != "" && PrintPiece(p)[0] != '"'
    ensures ParsePiece(PrintPiece(p) + rest) == Parsed(p, rest)
  {
    var s := PrintPiece(p) + rest;
    match p
    case Plain(c) => assert s[1..] == rest;
    case Escape(c) => assert s[2..] == rest;
    case Unit(hex) => assert s[2..6] == hex && s[6..] == rest;
  }

  lemma {:induction false} PiecesComplete(pieces: seq<Piece>, rest: string)
    requires ValidPieces(pieces)
    ensures ParsePieces(PrintPieces(pieces) + ("\"" + rest)) == Parsed(pieces, rest)
    decreases |pieces|
  {
    var s := PrintPieces(pieces) + ("\"" + rest);
    if pieces == [] {
      assert s[0] == '"' && s[1..] == rest;
    } else {
      var more := PrintPieces(pieces[1..]) + ("\"" + rest);
      assert s == PrintPiece(pieces[0]) + more;
      PieceComplete(pieces[0], more);
      forall p <- pieces[1..] ensures ValidPiece(p) { assert p in pieces; }
      PiecesComplete(pieces[1..], rest);
      assert [pieces[0]] + pieces[1..] == pieces;
    }
  }

  /** The text after a value: it must not go on with a number. */
  predicate Ends(rest: string) {
    rest == "" || !NumberChar(rest[0])
  }

  lemma PrintStarts(j: Json)
    requires Valid(j)
    ensures Print(j) != "" && !IsSpace(Print(j)[0]) && Print(j)[0] != ']' && Print(j)[0] != '}'
  {
  }

  lemma NumberComplete(digits: string, rest: string)
    requires Valid(Number(digits)) && Ends(rest)
    ensures ParseValue(digits + rest) == Parsed(Number(digits), rest)
  {
    NumberStops(digits, rest);
    var s := digits + rest;
    assert s[0] == digits[0];
    assert digits[0] == '-' || IsDigit(digits[0]);
    assert s[..NumberCount(s)] == digits;
  }

  lemma WordComplete(word: string, rest: string)
    requires IsWord(word)
    ensures ParseValue(word + rest) == Parsed(Literal(word), rest)
  {
    var s := word + rest;
    assert s[|word|..] == rest && word <= s;
    assert s[0] == word[0] && s[1] == word[1];
  }

  lemma {:induction false} ValueComplete(j: Json, rest: string)
    requires Valid(j) && Ends(rest)
    ensures ParseValue(Print(j) + rest) == Parsed(j, rest)
    decreases j, 0
  {
    match j
    case Literal(word) => WordComplete(word, rest);
    case Number(digits) => NumberComplete(digits, rest);
    case Text(pieces) => TextComplete(pieces, rest);
    case Array(space, items) =>
      if items.MoreItems? {
        ItemsStart(items, rest);
        ItemsComplete(items, rest);
      }
      ArrayComplete(space, items, rest);
    case Object(space, members) =>
      if members.MoreMembers? {
        MembersStart(members, rest);
        MembersComplete(members, rest);
      }
      ObjectComplete(space, members, rest);
  }

  lemma TextStep(t: string, pieces: seq<Piece>, rest: string)
    requires ParsePieces(t) == Parsed(pieces, rest)
    ensures ParseValue(['"'] + t) == Parsed(Text(pieces), rest)
  {
    assert (['"'] + t)[1..] == t;
  }

  lemma TextComplete(pieces: seq<Piece>, rest: string)
    requires ValidPieces(pieces)
    ensures ParseValue(Quote(pieces) + rest) == Parsed(Text(pieces), rest)
  {
    PiecesComplete(pieces, rest);
    TextStep(PrintPieces(pieces) + ("\"" + rest), pieces, rest);
    assert Quote(pieces) + rest == ['"'] + (PrintPieces(pieces) + ("\"" + rest));
  }

  lemma ArrayComplete(space: string, items: Items, rest: string)
    requires AllSpace(space) && (items.MoreItems? ==> space == "")
    requires var t := PrintItems(items) + ("]" + rest);
             items.MoreItems? ==> SpaceCount(t) < |t| && t[SpaceCount(t)] != ']' && ParseItems(t) == Parsed(items, rest)
    ensures ParseValue(Print(Array(space, items)) + rest) == Parsed(Array(space, items), rest)
  {
    BracketLayout("[", space, PrintItems(items), "]", rest);
    var t := if items.NoItems? then space + ("]" + rest) else PrintItems(items) + ("]" + rest);
    if items.NoItems? {
      AfterValue(space, ']', rest);
    }
    assert ParseArray(t) == Parsed(Array(space, items), rest);
    assert (['['] + t)[1..] == t;
  }

  lemma ObjectStep(t: string, members: Members, rest: string)
    requires SpaceCount(t) < |t| && t[SpaceCount(t)] == '"' && ParseMembers(t) == Parsed(members, rest)
    ensures ParseObject(t) == Parsed(Object("", members), rest)
  {
  }

  lemma ObjectOpens(t: string, j: Json, rest: string)
    requires ParseObject(t) == Parsed(j, rest)
    ensures ParseValue(['{'] + t) == Parsed(j, rest)
  {
    assert (['{'] + t)[1..] == t;
  }

  lemma ObjectComplete(space: string, members: Members, rest: string)
    requires AllSpace(space) && (members.MoreMembers? ==> space == "")
    requires var t := PrintMembers(members) + ("}" + rest);
             members.MoreMembers? ==>
               SpaceCount(t) < |t| && t[SpaceCount(t)] == '"' && ParseMembers(t) == Parsed(members, rest)
    ensures ParseValue(Print(Object(space, members)) + rest) == Parsed(Object(space, members), rest)
  {
    BracketLayout("{", space, PrintMembers(members), "}", rest);
    var t := if members.NoMembers? then space + ("}" + rest) else PrintMembers(members) + ("}" + rest);
    if members.NoMembers? {
      AfterValue(space, '}', rest);
    } else {
      ObjectStep(t, members, rest);
    }
    ObjectOpens(t, Object(space, members), rest);
  }

  lemma ItemsStart(items: Items, rest: string)
    requires items.MoreItems? && ValidItems(items)
    ensures var s := PrintItems(items) + ("]" + rest); SpaceCount(s) < |s| && s[SpaceCount(s)] != ']'
  {
    PrintStarts(items.value);
    ItemsText(items, rest);
    var text := Print(items.value) + (items.after + AfterItem(items.rest, rest));
    SpaceStops(items.before, text);
    assert text[0] == (items.before + text)[|items.before|];
  }

  lemma MembersStart(members: Members, rest: string)
    requires members.MoreMembers? && ValidMembers(members)
    ensures var s := PrintMembers(members) + ("}" + rest); SpaceCount(s) < |s| && s[SpaceCount(s)] == '"'
  {
    MembersText(members, rest);
    var value := Print(members.value) + (members.after + AfterMember(members.rest, rest));
    KeyLayout(members.before, members.key, members.beforeColon, members.afterColon, value);
    var text := "\"" + (PrintPieces(members.key)
                + ("\"" + (members.beforeColon + (":" + (members.afterColon + value)))));
    SpaceStops(members.before, text);
    assert text[0] == (members.before + text)[|members.before|];
  }

  /** After a value: white space, then the separator or the closing mark. */
  lemma AfterValue(after: string, mark: char, rest: string)
    requires AllSpace(after) && !IsSpace(mark) && !NumberChar(mark)
    ensures var t := after + ([mark] + rest);
            Ends(t) && SpaceCount(t) == |after| && t[..|after|] == after && t[|after|] == mark && t[|after| + 1..] == rest
  {
    SpaceStops(after, [mark] + rest);
    var t := after + ([mark] + rest);
    assert t[|after| + 1..] == t[|after|..][1..];
  }

  /** Reading an element and then the rest reads both. */
  lemma ItemsStep(s: string, items: Items, t: string, mark: char, next: string)
    requires items.MoreItems?
    requires SpaceCount(s) == |items.before| && s[..|items.before|] == items.before
    requires ParseValue(s[|items.before|..]) == Parsed(items.value, t)
    requires SpaceCount(t) == |items.after| < |t| && t[..|items.after|] == items.after
    requires t[|items.after|] == mark && t[|items.after| + 1..] == next
    requires items.rest.NoItems? ==> mark == ']'
    requires items.rest.MoreItems? ==> mark == ',' && ParseItems(next).Parsed? && ParseItems(next).value == items.rest
    ensures ParseItems(s) == Parsed(items, if items.rest.NoItems? then next else ParseItems(next).rest)
  {
  }

  lemma ItemsAssemble(items: Items, mark: char, next: string, rest: string)
    requires items.MoreItems? && AllSpace(items.before) && AllSpace(items.after) && Valid(items.value)
    requires AfterItem(items.rest, rest) == [mark] + next
    requires items.rest.NoItems? ==> mark == ']' && next == rest
    requires items.rest.MoreItems? ==> mark == ',' && ParseItems(next) == Parsed(items.rest, rest)
    requires var t := items.after + ([mark] + next); ParseValue(Print(items.value) + t) == Parsed(items.value, t)
    ensures ParseItems(PrintItems(items) + ("]" + rest)) == Parsed(items, rest)
  {
    var t := items.after + ([mark] + next);
    AfterValue(items.after, mark, next);
    ItemsText(items, rest);
    PrintStarts(items.value);
    SpaceStops(items.before, Print(items.value) + t);
    ItemsStep(items.before + (Print(items.value) + t), items, t, mark, next);
  }

  lemma {:induction false} ItemsComplete(items: Items, rest: string)
    requires items.MoreItems? && ValidItems(items)
    ensures ParseItems(PrintItems(items) + ("]" + rest)) == Parsed(items, rest)
    decreases items, 1
  {
    if items.rest.MoreItems? {
      ItemsComplete(items.rest, rest);
      var next := PrintItems(items.rest) + ("]" + rest);
      AfterValue(items.after, ',', next);
      ValueComplete(items.value, items.after + ([','] + next));
      ItemsAssemble(items, ',', next, rest);
    } else {
      AfterValue(items.after, ']', rest);
      ValueComplete(items.value, items.after + ([']'] + rest));
      ItemsAssemble(items, ']', rest, rest);
    }
  }

  lemma KeyComplete(before: string, key: seq<Piece>, beforeColon: string, afterColon: string, rest: string)
    requires AllSpace(before) && ValidPieces(key) && AllSpace(beforeColon) && AllSpace(afterColon)
    requires rest == "" || !IsSpace(rest[0])
    ensures ParseKey(PrintKey(before, key, beforeColon, afterColon) + rest)
         == Parsed((before, key, beforeColon, afterColon), rest)
  {
    KeyLayout(before, key, beforeColon, afterColon, rest);
    var u := afterColon + rest;
    var t := beforeColon + (":" + u);
    PiecesComplete(key, t);
    AfterValue(before, '"', PrintPieces(key) + ("\"" + t));
    AfterValue(beforeColon, ':', u);
    SpaceStops(afterColon, rest);
  }

  lemma MembersStep(s: string, members: Members, u: string, t: string, mark: char, next: string)
    requires members.MoreMembers?
    requires ParseKey(s) == Parsed((members.before, members.key, members.beforeColon, members.afterColon), u)
    requires ParseValue(u) == Parsed(members.value, t)
    requires SpaceCount(t) == |members.after| < |t| && t[..|members.after|] == members.after
    requires t[|members.after|] == mark && t[|members.after| + 1..] == next
    requires members.rest.NoMembers? ==> mark == '}'
    requires members.rest.MoreMembers? ==>
               mark == ',' && ParseMembers(next).Parsed? && ParseMembers(next).value == members.rest
    ensures ParseMembers(s) == Parsed(members, if members.rest.NoMembers? then next else ParseMembers(next).rest)
  {
  }

  lemma MemberComplete(members: Members, t: string)
    requires members.MoreMembers? && ValidMembers(members)
    requires ParseValue(Print(members.value) + t) == Parsed(members.value, t)
    ensures ParseKey(KeyText(members) + (Print(members.value) + t))
         == Parsed((members.before, members.key, members.beforeColon, members.afterColon), Print(members.value) + t)
  {
    PrintStarts(members.value);
    KeyComplete(members.before, members.key, members.beforeColon, members.afterColon, Print(members.value) + t);
  }

  lemma MembersAssemble(members: Members, mark: char, next: string, rest: string)
    requires members.MoreMembers? && ValidMembers(members)
    requires AfterMember(members.rest, rest) == [mark] + next
    requires members.rest.NoMembers? ==> mark == '}' && next == rest
    requires members.rest.MoreMembers? ==> mark == ',' && ParseMembers(next) == Parsed(members.rest, rest)
    requires var t := members.after + ([mark] + next); ParseValue(Print(members.value) + t) == Parsed(members.value, t)
    ensures ParseMembers(PrintMembers(members) + ("}" + rest)) == Parsed(members, rest)
  {
    var t := members.after + ([mark] + next);
    AfterValue(members.after, mark, next);
    MembersText(members, rest);
    MemberComplete(members, t);
    MembersStep(KeyText(members) + (Print(members.value) + t), members, Print(members.value) + t, t, mark, next);
  }

  lemma {:induction false} MembersComplete(members: Members, rest: string)
    requires members.MoreMembers? && ValidMembers(members)
    ensures ParseMembers(PrintMembers(members) + ("}" + rest)) == Parsed(members, rest)
    decreases members, 1
  {
    if members.rest.MoreMembers? {
      MembersComplete(members.rest, rest);
      var next := PrintMembers(members.rest) + ("}" + rest);
      AfterValue(members.after, ',', next);
      ValueComplete(members.value, members.after + ([','] + next));
      MembersAssemble(members, ',', next, rest);
    } else {
      AfterValue(members.after, '}', rest);
      ValueComplete(members.value, members.after + (['}'] + rest));
      MembersAssemble(members, '}', rest, rest);
    }
  }

  /** Every printed document is read back as the tree it was printed from. */
  lemma DocumentComplete(d: Document)
    requires ValidDocument(d)
    ensures ParseDocument(PrintDocument(d)) == Some(d)
  {
    PrintStarts(d.value);
    SpaceStops(d.before, Print(d.value) + d.after);
    assert Ends(d.after) by {
      assert d.after != "" ==> IsSpace(d.after[0]);
    }
    ValueComplete(d.value, d.after);
  }
}
