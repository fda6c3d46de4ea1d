/** What following the cursors of a conversation yields: pages that tile the file, forward and backward, and
    windows that show the saved invocation. */
module ConversationHistory {
  import opened Wrappers
  import opened Transcript
  import opened ConversationPaging

  /** Every line that starts before `bound` fits in one entry, its newline included. */
  ghost predicate LinesFit(file: seq<Byte>, bound: nat) {
    forall p: nat :: p < bound <= |file| && LineStart(file, p) ==> NextLine(file, p) - p <= ENTRY_BYTES
  }

  ghost predicate AllWellFormed(file: seq<Byte>, wellFormed: seq<Byte> -> bool, from: nat, upto: nat) {
    forall p: nat :: from <= p < upto <= |file| && LineStart(file, p) ==> wellFormed(file[p..NextLine(file, p)])
  }

  /** Both ends of a range are line boundaries; a page that continues backward is adjacent to the later one,
      and not empty. */
  lemma RangeIsAligned(file: seq<Byte>, size: nat, before: Option<nat>)
    requires size <= |file| && RecentRange(file, size, before).Success?
    ensures var (start, end) := RecentRange(file, size, before).value;
            && start <= end <= size && LineStart(file, start) && LineStart(file, end)
            && (before.Some? ==> end == before.value)
            && (before.None? ==> forall i :: end <= i < size ==> file[i] != NEWLINE)
            && (end > 0 ==> start < end)
            && (start == 0 || end - start >= PAGE_BYTES)
  {
    var boundary := if before.Some? then before.value else size;
    if boundary > 0 {
      var base := Minus(boundary, PAGE_BYTES + ENTRY_BYTES);
      var bytes := file[base..boundary];
      var end := LastBreak(bytes);
      var start := LastBreak(bytes[..Minus(end, PAGE_BYTES)]);
      if start > 0 {
        assert bytes[..Minus(end, PAGE_BYTES)][start - 1] == file[base + start - 1];
      }
      if end > 0 {
        assert bytes[end - 1] == file[base + end - 1];
      }
      forall i | base + end <= i < boundary ensures file[i] != NEWLINE {
        assert bytes[i - base] == file[i];
      }
    }
  }

  /** Where lines fit, every stretch as long as an entry contains a newline. */
  lemma FitMeansNewline(file: seq<Byte>, bound: nat, base: nat)
    requires bound <= |file| && LineStart(file, bound) && LinesFit(file, bound)
    requires base + ENTRY_BYTES <= bound
    ensures exists i :: base <= i < base + ENTRY_BYTES && file[i] == NEWLINE
  {
    var p := LastBreak(file[..base]);
    if p > 0 {
      assert file[..base][p - 1] == file[p - 1];
    }
    assert LineStart(file, p);
    var next := NextLine(file, p);
    NextLineWithin(file, p, bound);
    forall i | p <= i < base ensures file[i] != NEWLINE {
      assert file[..base][i] == file[i];
    }
    assert base <= next - 1 < base + ENTRY_BYTES;
  }

  /** A page before a line boundary is refused exactly when the bytes just before it hold no newline, that is,
      when one line is longer than an entry. */
  lemma BeforeFailsExactly(file: seq<Byte>, size: nat, before: nat)
    requires before <= size <= |file| && LineStart(file, before)
    ensures RecentRange(file, size, Some(before)).Failure? <==>
            before > PAGE_BYTES + ENTRY_BYTES
            && forall i :: before - PAGE_BYTES - ENTRY_BYTES <= i < before - PAGE_BYTES ==> file[i] != NEWLINE
  {
    if before > 0 {
      var base := Minus(before, PAGE_BYTES + ENTRY_BYTES);
      var bytes := file[base..before];
      assert bytes[|bytes| - 1] == file[before - 1];
      assert LastBreak(bytes) == |bytes|;
      var target := Minus(|bytes|, PAGE_BYTES);
      var start := LastBreak(bytes[..target]);
      if base > 0 {
        forall i | base <= i < base + ENTRY_BYTES ensures file[i] == bytes[..target][i - base] {
        }
        if start > 0 {
          assert file[base + start - 1] == NEWLINE;
        }
      }
    }
  }

  lemma BeforeSucceeds(file: seq<Byte>, size: nat, before: nat)
    requires before <= size <= |file| && LineStart(file, before) && LinesFit(file, before)
    ensures RecentRange(file, size, Some(before)).Success?
  {
    BeforeFailsExactly(file, size, before);
    if before > PAGE_BYTES + ENTRY_BYTES {
      FitMeansNewline(file, before, before - PAGE_BYTES - ENTRY_BYTES);
    }
  }

  /** Reading between two line boundaries returns exactly the lines between them. */
  lemma {:induction false} ScanReadsLines(file: seq<Byte>, wellFormed: seq<Byte> -> bool, position: nat, start: nat, boundary: nat)
    requires start <= position <= boundary <= |file| && LineStart(file, position) && LineStart(file, boundary)
    requires LinesFit(file, boundary) && AllWellFormed(file, wellFormed, position, boundary)
    ensures Scan(file, wellFormed, position, start, boundary, true) == Success(Scanned(Lines(file, position, boundary), boundary, true))
    decreases boundary - position
  {
    if position < boundary {
      NextLineWithin(file, position, boundary);
      ScanReadsLines(file, wellFormed, NextLine(file, position), start, boundary);
    }
  }

  /** The page a reader gets for the history before a line boundary. */
  lemma BeforePage(file: seq<Byte>, size: nat, wellFormed: seq<Byte> -> bool, before: nat)
    requires before <= size <= |file| && LineStart(file, before)
    requires LinesFit(file, before) && AllWellFormed(file, wellFormed, 0, before)
    ensures var w := Window(0, Some(before), false, None);
            var r := WindowPage(file, size, wellFormed, w);
            && r.Success? && r.value.olderCursor.Some?
            && var start := r.value.olderCursor.value;
               && start <= before && LineStart(file, start) && (before > 0 ==> start < before)
               && (start == 0 || before - start >= PAGE_BYTES)
               && r.value.lines == Lines(file, start, before) && r.value.cursor == before
  {
    BeforeSucceeds(file, size, before);
    RangeIsAligned(file, size, Some(before));
    var (start, end) := RecentRange(file, size, Some(before)).value;
    ScanReadsLines(file, wellFormed, start, start, before);
  }

  lemma PrefixKeepsBoundary(file: seq<Byte>, longer: seq<Byte>, bound: nat)
    requires file <= longer && bound <= |file| && LineStart(file, bound)
    ensures LineStart(longer, bound)
    ensures LinesFit(file, bound) ==> LinesFit(longer, bound)
  {
    if LinesFit(file, bound) {
      forall p: nat | p < bound && LineStart(longer, p) ensures NextLine(longer, p) - p <= ENTRY_BYTES {
        assert LineStart(file, p);
        NextLineStable(file, longer, p, bound);
      }
    }
  }

  lemma PrefixKeepsWellFormed(file: seq<Byte>, longer: seq<Byte>, wellFormed: seq<Byte> -> bool, bound: nat)
    requires file <= longer && bound <= |file| && LineStart(file, bound)
    requires AllWellFormed(file, wellFormed, 0, bound)
    ensures AllWellFormed(longer, wellFormed, 0, bound)
  {
    forall p: nat | p < bound && LineStart(longer, p) ensures wellFormed(longer[p..NextLine(longer, p)]) {
      assert LineStart(file, p);
      NextLineStable(file, longer, p, bound);
      NextLineWithin(file, p, bound);
      assert longer[p..NextLine(longer, p)] == file[p..NextLine(file, p)];
    }
  }

  // ---- backward

  /** Follows `older_cursor` until the beginning. Each request may see a longer file; `files` are what the
      successive requests see. The lines are collected oldest first. */
  function Backward(files: seq<seq<Byte>>, wellFormed: seq<Byte> -> bool, before: nat): Result<(seq<Line>, nat)>
    decreases |files|
  {
    if before == 0 || files == [] then Success(([], before)) else
    match WindowPage(files[0], |files[0]|, wellFormed, Window(0, Some(before), false, None))
    case Failure(e) => Failure(e)
    case Success(page) =>
      if page.olderCursor.None? then Failure("no older cursor") else
      match Backward(files[1..], wellFormed, page.olderCursor.value)
      case Failure(e) => Failure(e)
      case Success((older, start)) => Success((older + page.lines, start))
  }

  /** The same page in terms of the shorter file, whatever was appended since. */
  lemma BackwardPage(file: seq<Byte>, f: seq<Byte>, wellFormed: seq<Byte> -> bool, before: nat)
    requires 0 < before <= |file| && LineStart(file, before) && file <= f
    requires LinesFit(file, before) && AllWellFormed(file, wellFormed, 0, before)
    ensures var r := WindowPage(f, |f|, wellFormed, Window(0, Some(before), false, None));
            && r.Success? && r.value.olderCursor.Some?
            && var start := r.value.olderCursor.value;
               && start < before && LineStart(file, start)
               && (start == 0 || before - start >= PAGE_BYTES)
               && r.value.lines == Lines(file, start, before)
               && LinesFit(file, start) && AllWellFormed(file, wellFormed, 0, start)
  {
    PrefixKeepsBoundary(file, f, before);
    PrefixKeepsWellFormed(file, f, wellFormed, before);
    BeforePage(f, |f|, wellFormed, before);
    var start := WindowPage(f, |f|, wellFormed, Window(0, Some(before), false, None)).value.olderCursor.value;
    LinesStable(file, f, start, before);
  }

  lemma BackwardStep(files: seq<seq<Byte>>, wellFormed: seq<Byte> -> bool, before: nat, page: Page, older: seq<Line>, first: nat)
    requires before != 0 && files != []
    requires WindowPage(files[0], |files[0]|, wellFormed, Window(0, Some(before), false, None)) == Success(page)
    requires page.olderCursor.Some? && Backward(files[1..], wellFormed, page.olderCursor.value) == Success((older, first))
    ensures Backward(files, wellFormed, before) == Success((older + page.lines, first))
  {
  }

  ghost predicate ReadableUpTo(file: seq<Byte>, wellFormed: seq<Byte> -> bool, bound: nat) {
    bound <= |file| && LineStart(file, bound) && LinesFit(file, bound) && AllWellFormed(file, wellFormed, 0, bound)
  }

  lemma BackwardPageOf(file: seq<Byte>, f: seq<Byte>, wellFormed: seq<Byte> -> bool, before: nat) returns (page: Page, start: nat)
    requires 0 < before && ReadableUpTo(file, wellFormed, before) && file <= f
    ensures WindowPage(f, |f|, wellFormed, Window(0, Some(before), false, None)) == Success(page)
    ensures page.olderCursor == Some(start) && start < before && ReadableUpTo(file, wellFormed, start)
    ensures start == 0 || before - start >= PAGE_BYTES
    ensures page.lines == Lines(file, start, before)
  {
    BackwardPage(file, f, wellFormed, before);
    page := WindowPage(f, |f|, wellFormed, Window(0, Some(before), false, None)).value;
    start := page.olderCursor.value;
  }

  ghost predicate Tiled(file: seq<Byte>, wellFormed: seq<Byte> -> bool, count: nat, before: nat, result: Result<(seq<Line>, nat)>) {
    && ReadableUpTo(file, wellFormed, before)
    && result.Success?
    && var (lines, start) := result.value;
       && start <= before && LineStart(file, start)
       && lines == Lines(file, start, before)
       && (start == 0 || start + count * PAGE_BYTES <= before)
  }

  lemma TiledStep(file: seq<Byte>, wellFormed: seq<Byte> -> bool, count: nat, before: nat, start: nat, older: Result<(seq<Line>, nat)>)
    requires ReadableUpTo(file, wellFormed, before) && start < before
    requires start == 0 || before - start >= PAGE_BYTES
    requires Tiled(file, wellFormed, count, start, older)
    ensures Tiled(file, wellFormed, count + 1, before, Success((older.value.0 + Lines(file, start, before), older.value.1)))
  {
    LinesSplit(file, older.value.1, start, before);
    assert (count + 1) * PAGE_BYTES == count * PAGE_BYTES + PAGE_BYTES;
  }

  lemma AllLonger(file: seq<Byte>, files: seq<seq<Byte>>)
    requires files != [] && forall f <- files :: file <= f
    ensures file <= files[0] && forall f <- files[1..] :: file <= f
  {
    assert files[0] in files;
    forall f <- files[1..] ensures file <= f {
      assert f in files;
    }
  }

  lemma TiledMore(file: seq<Byte>, files: seq<seq<Byte>>, wellFormed: seq<Byte> -> bool, before: nat, page: Page, start: nat)
    requires before != 0 && files != [] && ReadableUpTo(file, wellFormed, before)
    requires WindowPage(files[0], |files[0]|, wellFormed, Window(0, Some(before), false, None)) == Success(page)
    requires page.olderCursor == Some(start) && start < before && (start == 0 || before - start >= PAGE_BYTES)
    requires page.lines == Lines(file, start, before)
    requires Tiled(file, wellFormed, |files| - 1, start, Backward(files[1..], wellFormed, start))
    ensures Tiled(file, wellFormed, |files|, before, Backward(files, wellFormed, before))
  {
    var (older, first) := Backward(files[1..], wellFormed, start).value;
    TiledStep(file, wellFormed, |files| - 1, before, start, Success((older, first)));
    BackwardStep(files, wellFormed, before, page, older, first);
  }

  /** Following older cursors never fails while lines fit and reads exactly the lines between where it
      got to and where it began, each once; every step moves a whole page unless it reaches the beginning. */
  lemma {:induction false} BackwardTiles(file: seq<Byte>, files: seq<seq<Byte>>, wellFormed: seq<Byte> -> bool, before: nat)
    requires ReadableUpTo(file, wellFormed, before)
    requires forall f <- files :: file <= f
    ensures Tiled(file, wellFormed, |files|, before, Backward(files, wellFormed, before))
    decreases |files|
  {
    if before != 0 && files != [] {
      AllLonger(file, files);
      var page, start := BackwardPageOf(file, files[0], wellFormed, before);
      BackwardTiles(file, files[1..], wellFormed, start);
      TiledMore(file, files, wellFormed, before, page, start);
    }
  }

  // ---- forward

  /** A forward request reads lines from the cursor; it ends at a line boundary, and reports nothing more
      only when no complete line follows. */
  lemma {:induction false} ForwardScan(file: seq<Byte>, wellFormed: seq<Byte> -> bool, position: nat, start: nat, size: nat)
    requires start <= position <= |file| && size <= |file| && LineStart(file, position)
    requires Scan(file, wellFormed, position, start, size, false).Success?
    ensures var s := Scan(file, wellFormed, position, start, size, false).value;
            && position <= s.end <= |file| && LineStart(file, s.end)
            && s.lines == Lines(file, position, s.end)
            && (!s.complete ==> forall i :: s.end <= i < |file| ==> file[i] != NEWLINE)
            && (s.end < size && s.complete ==> s.end - start >= PAGE_BYTES)
    decreases |file| - position
  {
    if Continues(position, start, size, false) && position < |file| {
      var next := NextLine(file, position);
      if file[next - 1] == NEWLINE {
        ForwardScan(file, wellFormed, next, start, size);
        var s := Scan(file, wellFormed, next, start, size, false).value;
        LinesFromLine(file, position, s.end);
      } else {
        assert next == |file|;
      }
    }
  }

  lemma LinesFromLine(file: seq<Byte>, position: nat, end: nat)
    requires position < |file| && file[NextLine(file, position) - 1] == NEWLINE
    requires NextLine(file, position) <= end <= |file| && LineStart(file, end)
    ensures Lines(file, position, end) == [Line(position, file[position..NextLine(file, position)])] + Lines(file, NextLine(file, position), end)
  {
  }

  /** Polls forward from a cursor; each request may see a longer file, and a size measured a little earlier. */
  function Forward(files: seq<(seq<Byte>, nat)>, wellFormed: seq<Byte> -> bool, cursor: nat): Result<(seq<Line>, nat)>
    requires forall f <- files :: f.1 <= |f.0|
    decreases |files|
  {
    if files == [] then Success(([], cursor)) else
    match WindowPage(files[0].0, files[0].1, wellFormed, Window(cursor, None, false, None))
    case Failure(e) => Failure(e)
    case Success(page) =>
      match Forward(files[1..], wellFormed, page.cursor)
      case Failure(e) => Failure(e)
      case Success((newer, end)) => Success((page.lines + newer, end))
  }

  /** The files seen by successive polls only grow. */
  ghost predicate Growing(files: seq<(seq<Byte>, nat)>) {
    && (forall f <- files :: f.1 <= |f.0|)
    && forall i, j :: 0 <= i < j < |files| ==> files[i].0 <= files[j].0
  }

  /** Successful polls read exactly the lines between the first and the last cursor, each once. */
  lemma {:induction false} ForwardReadsOnce(files: seq<(seq<Byte>, nat)>, wellFormed: seq<Byte> -> bool, cursor: nat)
    requires files != [] && Growing(files)
    requires cursor <= |files[0].0| && LineStart(files[0].0, cursor)
    requires Forward(files, wellFormed, cursor).Success?
    ensures var file := files[|files| - 1].0;
            var (lines, end) := Forward(files, wellFormed, cursor).value;
            && cursor <= end <= |file| && LineStart(file, end)
            && LineStart(file, cursor) && lines == Lines(file, cursor, end)
    decreases |files|
  {
    var file := files[0].0;
    var page := PolledPage(file, files[0].1, wellFormed, cursor);
    if |files| > 1 {
      var last := files[|files| - 1].0;
      assert file <= files[1].0 && file <= last;
      assert LineStart(files[1].0, page.cursor);
      ForwardReadsOnce(files[1..], wellFormed, page.cursor);
      var (newer, end) := Forward(files[1..], wellFormed, page.cursor).value;
      LinesStable(file, last, cursor, page.cursor);
      LinesSplit(last, cursor, page.cursor, end);
    }
  }

  /** One poll reads the lines between its two cursors. */
  lemma PolledPage(file: seq<Byte>, size: nat, wellFormed: seq<Byte> -> bool, cursor: nat) returns (page: Page)
    requires cursor <= |file| && size <= |file| && LineStart(file, cursor)
    requires WindowPage(file, size, wellFormed, Window(cursor, None, false, None)).Success?
    ensures WindowPage(file, size, wellFormed, Window(cursor, None, false, None)) == Success(page)
    ensures cursor <= page.cursor <= |file| && LineStart(file, page.cursor)
    ensures page.lines == Lines(file, cursor, page.cursor)
  {
    page := WindowPage(file, size, wellFormed, Window(cursor, None, false, None)).value;
    ForwardScan(file, wellFormed, cursor, cursor, size);
  }

  /** A poll that reports nothing more has left no complete line of the file it measured unread. */
  lemma NothingMoreMeansCaughtUp(file: seq<Byte>, size: nat, wellFormed: seq<Byte> -> bool, cursor: nat)
    requires size <= |file| && cursor <= size && LineStart(file, cursor)
    requires WindowPage(file, size, wellFormed, Window(cursor, None, false, None)).Success?
    ensures var page := WindowPage(file, size, wellFormed, Window(cursor, None, false, None)).value;
            !page.hasMore ==> forall i :: page.cursor <= i < size ==> file[i] != NEWLINE
  {
    ForwardScan(file, wellFormed, cursor, cursor, size);
  }

  /** The latest window: the lines up to the last line break, and cursors at its two ends. */
  lemma LatestPage(file: seq<Byte>, wellFormed: seq<Byte> -> bool) returns (start: nat, end: nat)
    requires WindowPage(file, |file|, wellFormed, Window(0, None, true, None)).Success?
    requires ReadableUpTo(file, wellFormed, LastBreak(file))
    ensures var page := WindowPage(file, |file|, wellFormed, Window(0, None, true, None)).value;
            && start <= end == LastBreak(file) && LineStart(file, start)
            && page.olderCursor == Some(start) && page.cursor == end && page.lines == Lines(file, start, end)
  {
    RangeIsAligned(file, |file|, None);
    start, end := RecentRange(file, |file|, None).value.0, RecentRange(file, |file|, None).value.1;
    BreakIsUnique(file, end);
    ScanReadsLines(file, wellFormed, start, start, end);
  }

  /** The latest window, everything older reached backward, and everything newer polled forward make up the
      whole file: each complete line once, in order. */
  lemma ConversationIsReadOnce(file: seq<Byte>, older: seq<seq<Byte>>, newer: seq<(seq<Byte>, nat)>,
                               wellFormed: seq<Byte> -> bool)
    requires (forall f <- older :: file <= f) && newer != [] && Growing(newer) && file <= newer[0].0
    requires ReadableUpTo(file, wellFormed, LastBreak(file))
    requires WindowPage(file, |file|, wellFormed, Window(0, None, true, None)).Success?
    requires |older| * PAGE_BYTES >= LastBreak(file)
    requires var page := WindowPage(file, |file|, wellFormed, Window(0, None, true, None)).value;
             Forward(newer, wellFormed, page.cursor).Success?
    ensures var page := WindowPage(file, |file|, wellFormed, Window(0, None, true, None)).value;
            page.olderCursor.Some?
            && var before := Backward(older, wellFormed, page.olderCursor.value);
               var (after, end) := Forward(newer, wellFormed, page.cursor).value;
               var whole := newer[|newer| - 1].0;
               && before.Success? && before.value.1 == 0
               && end <= |whole| && LineStart(whole, end)
               && before.value.0 + page.lines + after == Lines(whole, 0, end)
  {
    var start, end := LatestPage(file, wellFormed);
    var whole := newer[|newer| - 1].0;
    assert file <= whole;
    BackwardTiles(file, older, wellFormed, start);
    ForwardReadsOnce(newer, wellFormed, end);
    var (after, last) := Forward(newer, wellFormed, end).value;
    LinesStable(file, whole, 0, start);
    LinesStable(file, whole, start, end);
    LinesSplit(whole, 0, start, end);
    LinesSplit(whole, 0, end, last);
  }

  lemma BreakIsUnique(file: seq<Byte>, end: nat)
    requires end <= |file| && LineStart(file, end)
    requires forall i :: end <= i < |file| ==> file[i] != NEWLINE
    ensures end == LastBreak(file)
  {
  }

  // ---- around a saved invocation

  lemma {:induction false} ScanReaches(file: seq<Byte>, wellFormed: seq<Byte> -> bool, position: nat, start: nat, boundary: nat, at: nat)
    requires start <= position <= at < boundary <= |file| && LineStart(file, position) && LineStart(file, at)
    requires file[NextLine(file, at) - 1] == NEWLINE
    requires Scan(file, wellFormed, position, start, boundary, true).Success?
    ensures var s := Scan(file, wellFormed, position, start, boundary, true).value;
            Line(at, file[at..NextLine(file, at)]) in s.lines && NextLine(file, at) <= s.end
    decreases at - position
  {
    var next := NextLine(file, position);
    if position < at {
      NextLineWithin(file, position, at);
      ScanReaches(file, wellFormed, next, start, boundary, at);
    } else {
      ScanEndGrows(file, wellFormed, next, start, boundary);
    }
  }

  lemma {:induction false} ScanEndGrows(file: seq<Byte>, wellFormed: seq<Byte> -> bool, position: nat, start: nat, boundary: nat)
    requires start <= position <= |file| && Scan(file, wellFormed, position, start, boundary, true).Success?
    ensures position <= Scan(file, wellFormed, position, start, boundary, true).value.end
    decreases |file| - position
  {
    if Continues(position, start, boundary, true) && position < |file| {
      var next := NextLine(file, position);
      if file[next - 1] == NEWLINE {
        ScanEndGrows(file, wellFormed, next, start, boundary);
      }
    }
  }

  /** The offset that the tail scan saved is shown, with its complete record, by every later successful
      window around it, however much the file has grown. */
  lemma SavedInvocationIsShown(captured: seq<Byte>, isCall: seq<Byte> -> bool, at: nat,
                               file: seq<Byte>, size: nat, wellFormed: seq<Byte> -> bool)
    requires CallAt(captured, |captured|, isCall, at)
    requires captured <= file && |captured| <= size <= |file|
    requires WindowPage(file, size, wellFormed, Window(0, None, false, Some(at))).Success?
    ensures var page := WindowPage(file, size, wellFormed, Window(0, None, false, Some(at))).value;
            && NextLine(file, at) == NextLine(captured, at) <= page.cursor
            && Line(at, captured[at..NextLine(captured, at)]) in page.lines
  {
    var record := NextLine(captured, at);
    SavedStart(captured, isCall, at, file);
    AnchoredRange(file, size, at);
    var (start, boundary) := WindowRange(file, size, Window(0, None, false, Some(at))).value;
    ScanReaches(file, wellFormed, start, start, boundary, at);
    assert file[at..record] == captured[at..record];
  }

  lemma SavedStart(captured: seq<Byte>, isCall: seq<Byte> -> bool, at: nat, file: seq<Byte>)
    requires CallAt(captured, |captured|, isCall, at) && captured <= file
    ensures at < |file| && LineStart(file, at)
    ensures NextLine(file, at) == NextLine(captured, at) && file[NextLine(file, at) - 1] == NEWLINE
  {
    NextLineStable(captured, file, at, NextLine(captured, at));
  }

  lemma AnchoredRange(file: seq<Byte>, size: nat, at: nat)
    requires at < size <= |file| && LineStart(file, at)
    requires WindowRange(file, size, Window(0, None, false, Some(at))).Success?
    ensures var (start, boundary) := WindowRange(file, size, Window(0, None, false, Some(at))).value;
            start <= at < boundary <= size && LineStart(file, start)
  {
    RangeIsAligned(file, at, None);
  }

  /** Finding the start of that window cannot fail where lines fit. */
  lemma AnchorSucceeds(file: seq<Byte>, size: nat, at: nat)
    requires at <= size <= |file| && LineStart(file, at) && LinesFit(file, at)
    ensures WindowRange(file, size, Window(0, None, false, Some(at))).Success?
  {
    BeforeSucceeds(file, at, at);
  }
}
