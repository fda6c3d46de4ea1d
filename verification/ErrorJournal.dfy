/** The rotated journal of src/error_inbox.rs: a base file and three older ones. */
module ErrorJournal {
  import opened Wrappers

  /** A journal row is its serialized text; in the file it is followed by a line feed. */
  type Row = string

  /** File 0 is the base file, file n the one with suffix `.n`; a missing file is not in the map. */
  type Files = map<nat, seq<Row>>

  function Size(rows: seq<Row>): nat {
    if rows == [] then 0 else Size(rows[..|rows| - 1]) + |rows[|rows| - 1]| + 1
  }

  function Rows(files: Files, index: nat): seq<Row> {
    if index in files then files[index] else []
  }

  /** The files read from the oldest to the newest. */
  function Contents(files: Files): seq<Row> {
    Rows(files, 3) + Rows(files, 2) + Rows(files, 1) + Rows(files, 0)
  }

  /** Renaming a file over its older neighbour; nothing happens when it does not exist. */
  function Shift(files: Files, index: nat): Files
    requires index > 0
  {
    if index - 1 in files then files[index := files[index - 1]] - {index - 1} else files
  }

  /** The first `steps` renames of a rotation, oldest file first. */
  function Rotate(files: Files, steps: nat): Files
    requires steps <= 3
  {
    if steps == 0 then files else Shift(Rotate(files, steps - 1), 4 - steps)
  }

  predicate NeedsRotation(files: Files, row: Row, limit: nat) {
    Size(Rows(files, 0)) + |row| + 1 > limit
  }

  function Written(files: Files, row: Row): Files {
    files[0 := Rows(files, 0) + [row]]
  }

  function AppendRow(files: Files, row: Row, limit: nat): Files {
    Written(if NeedsRotation(files, row, limit) then Rotate(files, 3) else files, row)
  }

  function AppendRows(files: Files, rows: seq<Row>, limit: nat): Files
    decreases |rows|
  {
    if rows == [] then files
    else AppendRow(AppendRows(files, rows[..|rows| - 1], limit), rows[|rows| - 1], limit)
  }

  class Journal {
    var files: Files

    constructor ()
      ensures files == map[]
    {
      files := map[];
    }

    method Append(rows: seq<Row>, limit: nat)
      modifies this
      ensures files == AppendRows(old(files), rows, limit)
    {
      for n := 0 to |rows|
        invariant files == AppendRows(old(files), rows[..n], limit)
      {
        assert rows[..n + 1][..n] == rows[..n];
        var row := rows[n];
        if Size(Rows(files, 0)) + |row| + 1 > limit {
          ghost var before := files;
          var index := 3;
          while index >= 1
            invariant 0 <= index <= 3
            invariant files == Rotate(before, 3 - index)
          {
            if index - 1 in files {
              files := files[index := files[index - 1]] - {index - 1};
            }
            index := index - 1;
          }
        }
        files := files[0 := Rows(files, 0) + [row]];
      }
      assert rows[..|rows|] == rows;
    }
  }

  // ---- what every run of appends and crashes keeps

  predicate IsSuffix(part: seq<Row>, whole: seq<Row>) {
    |part| <= |whole| && whole[|whole| - |part|..] == part
  }

  ghost predicate AtMostFour(files: Files) {
    forall index <- files :: index <= 3
  }

  ghost predicate WithinLimit(files: Files, limit: nat) {
    forall index <- files :: Size(files[index]) <= limit
  }

  /** Appending one row completely, or crashing before the write after some of the renames. */
  datatype Event = Append(row: Row) | Crash(row: Row, renames: nat)

  datatype History = History(files: Files, written: seq<Row>)

  function Step(h: History, e: Event, limit: nat): History {
    match e
    case Append(row) => History(AppendRow(h.files, row, limit), h.written + [row])
    case Crash(row, renames) =>
      if renames <= 3 && NeedsRotation(h.files, row, limit) then h.(files := Rotate(h.files, renames)) else h
  }

  function Run(events: seq<Event>, limit: nat): History
    decreases |events|
  {
    if events == [] then History(map[], []) else Step(Run(events[..|events| - 1], limit), events[|events| - 1], limit)
  }

  lemma ShiftOldest(files: Files)
    ensures 2 !in Shift(files, 3) && IsSuffix(Contents(Shift(files, 3)), Contents(files))
  {
    var f := Shift(files, 3);
    assert Rows(f, 1) == Rows(files, 1) && Rows(f, 0) == Rows(files, 0);
    if 2 in files {
      assert Rows(f, 3) == Rows(files, 2) && Rows(f, 2) == [];
      var rest := Rows(files, 2) + Rows(files, 1) + Rows(files, 0);
      assert Contents(files) == Rows(files, 3) + rest;
      assert Contents(f) == rest;
    } else {
      assert Contents(files)[0..] == Contents(files);
    }
  }

  /** Moving a file to a free place changes nothing for a reader. */
  lemma ShiftIntoGap(files: Files, index: nat)
    requires (index == 1 || index == 2) && index !in files
    ensures index - 1 !in Shift(files, index) && Contents(Shift(files, index)) == Contents(files)
  {
    var f := Shift(files, index);
    assert Rows(f, 3) == Rows(files, 3);
    assert Rows(f, index) == Rows(files, index - 1) && Rows(f, index - 1) == Rows(files, index) == [];
    if index == 2 {
      assert Rows(f, 0) == Rows(files, 0);
    } else {
      assert Rows(f, 2) == Rows(files, 2);
    }
  }

  /** A rotation only ever loses the oldest file. */
  lemma RotateKeepsSuffix(files: Files, steps: nat)
    requires steps <= 3
    ensures IsSuffix(Contents(Rotate(files, steps)), Contents(files))
    ensures steps > 0 ==> 3 - steps !in Rotate(files, steps)
  {
    if steps == 0 {
      assert Contents(files)[0..] == Contents(files);
    } else if steps == 1 {
      assert Rotate(files, 0) == files;
      ShiftOldest(files);
    } else {
      RotateKeepsSuffix(files, steps - 1);
      ShiftIntoGap(Rotate(files, steps - 1), 4 - steps);
    }
  }

  lemma RotateKeepsBounds(files: Files, steps: nat, limit: nat)
    requires steps <= 3 && AtMostFour(files)
    ensures AtMostFour(Rotate(files, steps))
    ensures WithinLimit(files, limit) ==> WithinLimit(Rotate(files, steps), limit)
  {
    if steps > 0 {
      RotateKeepsBounds(files, steps - 1, limit);
    }
  }

  lemma SuffixTransitive(a: seq<Row>, b: seq<Row>, c: seq<Row>)
    requires IsSuffix(a, b) && IsSuffix(b, c)
    ensures IsSuffix(a, c)
  {
    assert c[|c| - |a|..] == c[|c| - |b|..][|b| - |a|..];
  }

  lemma WriteExtends(files: Files, row: Row)
    ensures Contents(Written(files, row)) == Contents(files) + [row]
  {
  }

  function RowOf(e: Event): Row {
    e.row
  }

  /** Whatever was appended and wherever the program crashed, the files read in order are the latest rows:
      nothing is lost in the middle. There are never more than four files, and each is within the limit when
      every row, with its line feed, is. */
  lemma {:induction false} JournalIsSuffix(events: seq<Event>, limit: nat)
    ensures IsSuffix(Contents(Run(events, limit).files), Run(events, limit).written)
    ensures AtMostFour(Run(events, limit).files)
    ensures (forall e <- events :: |RowOf(e)| + 1 <= limit) ==> WithinLimit(Run(events, limit).files, limit)
    decreases |events|
  {
    if events != [] {
      var init, last := events[..|events| - 1], events[|events| - 1];
      JournalIsSuffix(init, limit);
      var h := Run(init, limit);
      assert forall e <- init :: e in events;
      var steps := if last.Append? then 3 else if last.renames <= 3 then last.renames else 0;
      RotateKeepsSuffix(h.files, steps);
      RotateKeepsBounds(h.files, steps, limit);
      SuffixTransitive(Contents(Rotate(h.files, steps)), Contents(h.files), h.written);
      if last.Append? {
        AppendKeeps(h, last.row, limit);
        if forall e <- events :: |RowOf(e)| + 1 <= limit {
          assert |RowOf(last)| + 1 <= limit;
        }
      }
    }
  }

  lemma SuffixExtends(part: seq<Row>, whole: seq<Row>, row: Row)
    requires IsSuffix(part, whole)
    ensures IsSuffix(part + [row], whole + [row])
  {
    assert (whole + [row])[|whole| - |part|..] == whole[|whole| - |part|..] + [row];
  }

  lemma AppendKeeps(h: History, row: Row, limit: nat)
    requires IsSuffix(Contents(h.files), h.written) && AtMostFour(h.files)
    ensures IsSuffix(Contents(AppendRow(h.files, row, limit)), h.written + [row])
    ensures AtMostFour(AppendRow(h.files, row, limit))
    ensures |row| + 1 <= limit && WithinLimit(h.files, limit) ==> WithinLimit(AppendRow(h.files, row, limit), limit)
  {
    var ready := if NeedsRotation(h.files, row, limit) then Rotate(h.files, 3) else h.files;
    RotateKeepsSuffix(h.files, 3);
    RotateKeepsBounds(h.files, 3, limit);
    SuffixTransitive(Contents(Rotate(h.files, 3)), Contents(h.files), h.written);
    WriteExtends(ready, row);
    SuffixExtends(Contents(ready), h.written, row);
    BaseWithinLimit(ready, row, limit);
  }

  lemma BaseWithinLimit(ready: Files, row: Row, limit: nat)
    requires Size(Rows(ready, 0)) + |row| + 1 <= limit || 0 !in ready
    ensures |row| + 1 <= limit && WithinLimit(ready, limit) ==> WithinLimit(Written(ready, row), limit)
  {
    var rows := Rows(ready, 0) + [row];
    assert rows[..|rows| - 1] == Rows(ready, 0);
  }
}
