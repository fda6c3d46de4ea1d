/** Paging through a saved conversation by byte offset (src/agent_conversations.rs): backward, forward and
    around a saved invocation, while the file grows. */
module ConversationPaging {
  import opened Wrappers
  import opened Transcript

  const PAGE_BYTES: nat := 1024 * 1024
  const ENTRY_BYTES: nat := 8 * 1024 * 1024

  function Minus(a: nat, b: nat): nat {
    if a <= b then 0 else a - b
  }

  function Min(a: nat, b: nat): nat {
    if a < b then a else b
  }

  /** The byte range of the page that ends at `before`, or of the latest page. */
  function RecentRange(file: seq<Byte>, size: nat, before: Option<nat>): Result<(nat, nat)>
    requires size <= |file|
  {
    var boundary := if before.Some? then before.value else size;
    if boundary > size then Failure("Invalid earlier-history cursor")
    else if boundary == 0 then Success((0, 0))
    else
      var base := Minus(boundary, PAGE_BYTES + ENTRY_BYTES);
      var bytes := file[base..boundary];
      if before.Some? && bytes[|bytes| - 1] != NEWLINE then Failure("Invalid earlier-history cursor") else
      var end := LastBreak(bytes);
      var target := Minus(end, PAGE_BYTES);
      var start := LastBreak(bytes[..target]);
      if base > 0 && start == 0 then Failure("A saved conversation entry exceeds 8 MiB")
      else Success((base + start, base + end))
  }

  datatype Window = Window(cursor: nat, before: Option<nat>, latest: bool, at: Option<nat>)

  predicate Historical(w: Window) {
    w.latest || w.before.Some? || w.at.Some?
  }

  /** Where reading starts and where it may stop. */
  function WindowRange(file: seq<Byte>, size: nat, w: Window): Result<(nat, nat)>
    requires size <= |file|
  {
    if w.cursor > size then Failure("Conversation changed. Reload its history.")
    else if w.at.Some? then
      if w.at.value > size then Failure("The saved invocation is outside this conversation") else
      match RecentRange(file, w.at.value, None) {
        case Failure(e) => Failure(e)
        case Success((start, _)) => Success((start, Min(size, w.at.value + PAGE_BYTES / 2)))
      }
    else if Historical(w) then RecentRange(file, size, w.before)
    else Success((w.cursor, size))
  }

  datatype Scanned = Scanned(lines: seq<Line>, end: nat, complete: bool)

  predicate Continues(position: nat, start: nat, boundary: nat, historical: bool) {
    position < boundary && (historical || position - start < PAGE_BYTES)
  }

  /** Reading lines from `position` until the boundary, a partial line, or the end of the file. */
  function Scan(file: seq<Byte>, wellFormed: seq<Byte> -> bool, position: nat, start: nat, boundary: nat, historical: bool)
    : Result<Scanned>
    requires start <= position <= |file|
    decreases |file| - position
  {
    if !Continues(position, start, boundary, historical) || position == |file| then Success(Scanned([], position, true))
    else
      var next := NextLine(file, position);
      if next - position > ENTRY_BYTES then Failure("A saved conversation entry exceeds 8 MiB")
      else if file[next - 1] != NEWLINE then Success(Scanned([], position, false))
      else if !wellFormed(file[position..next]) then Failure("invalid record")
      else match Scan(file, wellFormed, next, start, boundary, historical)
      case Failure(e) => Failure(e)
      case Success(rest) => Success(rest.(lines := [Line(position, file[position..next])] + rest.lines))
  }

  function Prepend(lines: seq<Line>, result: Result<Scanned>): Result<Scanned> {
    match result
    case Failure(e) => Failure(e)
    case Success(rest) => Success(rest.(lines := lines + rest.lines))
  }

  lemma PrependTwice(a: seq<Line>, b: seq<Line>, result: Result<Scanned>)
    ensures Prepend(a, Prepend(b, result)) == Prepend(a + b, result)
  {
    if result.Success? {
      assert a + (b + result.value.lines) == (a + b) + result.value.lines;
    }
  }

  datatype Page = Page(lines: seq<Line>, cursor: nat, hasMore: bool, olderCursor: Option<nat>)

  /** One request: `size` was measured before reading, and the file may have grown since. */
  function WindowPage(file: seq<Byte>, size: nat, wellFormed: seq<Byte> -> bool, w: Window): Result<Page>
    requires size <= |file|
  {
    match WindowRange(file, size, w)
    case Failure(e) => Failure(e)
    case Success((start, boundary)) =>
      if start > |file| || !LineStart(file, start) then Failure("Invalid conversation cursor")
      else match Scan(file, wellFormed, start, start, boundary, Historical(w))
      case Failure(e) => Failure(e)
      case Success(s) =>
        Success(Page(s.lines, s.end, (!Historical(w) || w.at.Some?) && s.end < size && s.complete,
                     if Historical(w) then Some(start) else None))
  }

  /** The reading loop of `window_page`: a reader that moves from line to line, and steps back before a
      partial one. */
  method ReadLines(file: seq<Byte>, wellFormed: seq<Byte> -> bool, start: nat, boundary: nat, historical: bool)
    returns (result: Result<Scanned>)
    requires start <= |file|
    ensures result == Scan(file, wellFormed, start, start, boundary, historical)
  {
    var position := start;
    var lines: seq<Line> := [];
    var complete := true;
    ghost var all := Scan(file, wellFormed, start, start, boundary, historical);
    assert all == Prepend([], all) by {
      assert all.Success? ==> [] + all.value.lines == all.value.lines;
    }
    while Continues(position, start, boundary, historical)
      invariant start <= position <= |file|
      invariant complete
      invariant all == Prepend(lines, Scan(file, wellFormed, position, start, boundary, historical))
      decreases |file| - position
    {
      var offset := position;
      var limit := Min(NextLine(file, position), position + ENTRY_BYTES + 1);
      var line := file[position..limit];
      position := limit;
      if line == [] {
        break;
      }
      if |line| > ENTRY_BYTES {
        return Failure("A saved conversation entry exceeds 8 MiB");
      }
      if line[|line| - 1] != NEWLINE {
        position := offset;
        complete := false;
        break;
      }
      if !wellFormed(line) {
        return Failure("invalid record");
      }
      PrependTwice(lines, [Line(offset, line)], Scan(file, wellFormed, position, start, boundary, historical));
      lines := lines + [Line(offset, line)];
    }
    assert lines + [] == lines;
    return Success(Scanned(lines, position, complete));
  }

  /** A complete line within `size` that records a call starts here. */
  predicate CallAt(file: seq<Byte>, size: nat, isCall: seq<Byte> -> bool, offset: nat)
    requires size <= |file|
  {
    && LineStart(file, offset) && offset < size
    && NextLine(file, offset) <= size && file[NextLine(file, offset) - 1] == NEWLINE
    && isCall(file[offset..NextLine(file, offset)])
  }

  /** The tail scan of `creation_context_at`: the offset of the last complete line that records a call. The
      first, possibly cut, line of a tail that does not start at the beginning is skipped. */
  method TailScan(file: seq<Byte>, size: nat, isCall: seq<Byte> -> bool) returns (found: Option<nat>)
    requires size <= |file|
    ensures found.Some? ==> CallAt(file, size, isCall, found.value)
    ensures forall p: nat :: (p > size - ENTRY_BYTES || size <= ENTRY_BYTES) && CallAt(file, size, isCall, p)
                             ==> found.Some? && p <= found.value
  {
    var base := Minus(size, ENTRY_BYTES);
    var offset := base;
    if base > 0 {
      offset := Min(NextLine(file, base), size);
    }
    found := None;
    while offset < size
      invariant base <= offset <= size
      invariant offset < size ==> LineStart(file, offset)
      invariant LastCall(file, size, isCall, base, offset, found)
      decreases size - offset
    {
      var recordOffset := offset;
      var line := file[offset..Min(NextLine(file, offset), size)];
      if line[|line| - 1] != NEWLINE {
        NoFurtherCall(file, size, isCall, offset);
        break;
      }
      OneRecord(file, size, isCall, base, offset, found);
      offset := offset + |line|;
      if isCall(line) {
        found := Some(recordOffset);
      }
    }
  }

  /** The last call that starts between `base` and `offset`; a cut first line does not count. */
  ghost predicate LastCall(file: seq<Byte>, size: nat, isCall: seq<Byte> -> bool, base: nat, offset: nat, found: Option<nat>)
    requires size <= |file|
  {
    && (found.Some? ==> CallAt(file, size, isCall, found.value))
    && forall p: nat :: base <= p < offset && (p != base || base == 0) && CallAt(file, size, isCall, p)
         ==> found.Some? && p <= found.value
  }

  lemma InsideLine(file: seq<Byte>, offset: nat, p: nat)
    requires offset <= |file| && offset < p < NextLine(file, offset)
    ensures !LineStart(file, p)
  {
  }

  lemma CallHere(file: seq<Byte>, size: nat, isCall: seq<Byte> -> bool, offset: nat)
    requires offset < size <= |file| && LineStart(file, offset)
    requires file[Min(NextLine(file, offset), size) - 1] == NEWLINE
    ensures NextLine(file, offset) <= size && file[NextLine(file, offset) - 1] == NEWLINE
    ensures CallAt(file, size, isCall, offset) <==> isCall(file[offset..NextLine(file, offset)])
  {
  }

  lemma OneRecord(file: seq<Byte>, size: nat, isCall: seq<Byte> -> bool, base: nat, offset: nat, found: Option<nat>)
    requires base <= offset < size <= |file| && LineStart(file, offset)
    requires LastCall(file, size, isCall, base, offset, found)
    requires file[Min(NextLine(file, offset), size) - 1] == NEWLINE
    ensures NextLine(file, offset) <= size && file[NextLine(file, offset) - 1] == NEWLINE
    ensures LastCall(file, size, isCall, base, NextLine(file, offset),
                     if isCall(file[offset..NextLine(file, offset)]) then Some(offset) else found)
  {
    CallHere(file, size, isCall, offset);
    var next := NextLine(file, offset);
    var last := if isCall(file[offset..next]) then Some(offset) else found;
    forall p: nat | base <= p < next && (p != base || base == 0) && CallAt(file, size, isCall, p)
      ensures last.Some? && p <= last.value
    {
      if p > offset {
        InsideLine(file, offset, p);
      }
    }
  }

  lemma NoFurtherCall(file: seq<Byte>, size: nat, isCall: seq<Byte> -> bool, offset: nat)
    requires offset < size <= |file| && LineStart(file, offset)
    requires file[Min(NextLine(file, offset), size) - 1] != NEWLINE
    ensures forall p: nat :: offset <= p ==> !CallAt(file, size, isCall, p)
  {
  }
}
