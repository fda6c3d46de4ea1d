/** Append-only files of newline-terminated records: line boundaries and the lines between them. */
module Transcript {

  type Byte = b: int | 0 <= b < 256

  const NEWLINE: Byte := 10

  datatype Line = Line(offset: nat, bytes: seq<Byte>)

  /** The position after the first newline at or after `from`; the end of the file if there is none. */
  function NextLine(file: seq<Byte>, from: nat): (next: nat)
    requires from <= |file|
    ensures from <= next <= |file|
    ensures from < |file| ==> from < next
    ensures forall i :: from <= i < next - 1 ==> file[i] != NEWLINE
    ensures next < |file| ==> next > 0 && file[next - 1] == NEWLINE
    decreases |file| - from
  {
    if from == |file| then from
    else if file[from] == NEWLINE then from + 1
    else NextLine(file, from + 1)
  }

  /** The position after the last newline, or zero. */
  function LastBreak(bytes: seq<Byte>): (end: nat)
    ensures end <= |bytes|
    ensures end > 0 ==> bytes[end - 1] == NEWLINE
    ensures forall i :: end <= i < |bytes| ==> bytes[i] != NEWLINE
  {
    if bytes == [] then 0
    else if bytes[|bytes| - 1] == NEWLINE then |bytes|
    else LastBreak(bytes[..|bytes| - 1])
  }

  predicate LineStart(file: seq<Byte>, offset: nat) {
    offset <= |file| && (offset > 0 ==> file[offset - 1] == NEWLINE)
  }

  /** The lines between two line boundaries. */
  function Lines(file: seq<Byte>, from: nat, upto: nat): (lines: seq<Line>)
    requires from <= upto <= |file|
    requires LineStart(file, upto)
    ensures forall line <- lines :: line.bytes != [] && line.bytes[|line.bytes| - 1] == NEWLINE
    decreases upto - from
  {
    if from == upto then [] else
    NextLineWithin(file, from, upto);
    var next := NextLine(file, from);
    [Line(from, file[from..next])] + Lines(file, next, upto)
  }

  lemma NextLineWithin(file: seq<Byte>, from: nat, upto: nat)
    requires from < upto <= |file| && file[upto - 1] == NEWLINE
    ensures NextLine(file, from) <= upto
    ensures file[NextLine(file, from) - 1] == NEWLINE
  {
  }

  lemma {:induction false} LinesSplit(file: seq<Byte>, from: nat, middle: nat, upto: nat)
    requires from <= middle <= upto <= |file|
    requires LineStart(file, middle) && LineStart(file, upto)
    ensures Lines(file, from, middle) + Lines(file, middle, upto) == Lines(file, from, upto)
    decreases middle - from
  {
    if from < middle {
      NextLineWithin(file, from, middle);
      LinesSplit(file, NextLine(file, from), middle, upto);
    }
  }

  lemma {:induction false} NextLineStable(file: seq<Byte>, longer: seq<Byte>, from: nat, upto: nat)
    requires file <= longer && from < upto <= |file| && file[upto - 1] == NEWLINE
    ensures NextLine(file, from) == NextLine(longer, from)
    decreases upto - from
  {
    if file[from] != NEWLINE {
      NextLineStable(file, longer, from + 1, upto);
    }
  }

  /** Complete lines stay what they are when the file grows. */
  lemma {:induction false} LinesStable(file: seq<Byte>, longer: seq<Byte>, from: nat, upto: nat)
    requires file <= longer && from <= upto <= |file| && LineStart(file, upto)
    ensures Lines(file, from, upto) == Lines(longer, from, upto)
    decreases upto - from
  {
    if from < upto {
      NextLineStable(file, longer, from, upto);
      NextLineWithin(file, from, upto);
      LinesStable(file, longer, NextLine(file, from), upto);
      assert file[from..NextLine(file, from)] == longer[from..NextLine(file, from)];
    }
  }
}
