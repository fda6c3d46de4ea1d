/** The bounded line reader of src/agents.rs: it reads one record from a stream that arrives in chunks of
    any size, and never holds more than 4 MiB of it. */
module LineReader {
  import opened Transcript

  const MAX_EVENT_BYTES: nat := 4 * 1024 * 1024

  /** A buffered stream: `data` in all, `at` bytes consumed, and a buffer that reaches up to `filled`. How
      much each refill adds is up to `plan`, at least one byte. */
  class Source {
    const data: seq<Byte>
    const plan: nat -> nat
    var at: nat
    var filled: nat
    var turn: nat

    constructor (data: seq<Byte>, offset: nat, plan: nat -> nat)
      requires offset <= |data|
      ensures this.data == data && this.plan == plan && Valid() && at == offset
    {
      this.data, this.plan := data, plan;
      at, filled, turn := offset, offset, 0;
    }

    ghost predicate Valid()
      reads this
    {
      at <= filled <= |data|
    }

    method FillBuffer() returns (available: seq<Byte>)
      requires Valid()
      modifies this
      ensures Valid() && at == old(at)
      ensures available == data[at..filled]
      ensures available == [] <==> at == |data|
    {
      if at == filled && at < |data| {
        filled := if at + 1 + plan(turn) < |data| then at + 1 + plan(turn) else |data|;
        turn := turn + 1;
      }
      available := data[at..filled];
    }

    method Consume(count: nat)
      requires Valid() && at + count <= filled
      modifies this`at
      ensures Valid() && at == old(at) + count
    {
      at := at + count;
    }
  }

  /** A growable buffer and the memory reserved for it. */
  class Buffer {
    var bytes: seq<Byte>
    var capacity: nat

    constructor ()
      ensures bytes == [] && capacity == 0
    {
      bytes, capacity := [], 0;
    }

    ghost predicate Bounded()
      reads this
    {
      |bytes| <= capacity <= MAX_EVENT_BYTES
    }

    method Extend(more: seq<Byte>)
      requires Bounded() && |bytes| + |more| <= MAX_EVENT_BYTES
      modifies this
      ensures Bounded() && bytes == old(bytes) + more && old(capacity) <= capacity
    {
      var needed := |bytes| + |more|;
      if capacity < needed {
        var rounded := NextPowerOfTwo(needed);
        capacity := if rounded < MAX_EVENT_BYTES then rounded else MAX_EVENT_BYTES;
      }
      bytes := bytes + more;
    }
  }

  method NextPowerOfTwo(n: nat) returns (power: nat)
    ensures power >= n && power >= 1
    ensures power > 1 ==> power / 2 < n
  {
    power := 1;
    while power < n
      invariant power >= 1
      invariant power > 1 ==> power / 2 < n
      decreases n - power
    {
      power := power * 2;
    }
  }

  /** The length of the record that starts here, up to and including its newline. */
  function RecordLength(data: seq<Byte>, at: nat): nat
    requires at <= |data|
  {
    NextLine(data, at) - at
  }

  predicate IsComplete(data: seq<Byte>, at: nat)
    requires at <= |data|
  {
    at < NextLine(data, at) && data[NextLine(data, at) - 1] == NEWLINE
  }

  function IndexOf(bytes: seq<Byte>): (index: nat)
    ensures index <= |bytes|
    ensures index < |bytes| ==> bytes[index] == NEWLINE
    ensures forall i :: 0 <= i < index ==> bytes[i] != NEWLINE
  {
    if bytes == [] || bytes[0] == NEWLINE then 0 else 1 + IndexOf(bytes[1..])
  }

  /** What the buffer holds of the part of a record that was read so far. */
  function Kept(part: seq<Byte>): seq<Byte> {
    if |part| <= MAX_EVENT_BYTES then part else []
  }

  /** Adds a chunk to the record, or gives the record up when it has become too long. */
  method Absorb(line: Buffer, chunk: seq<Byte>, oversized: bool, ghost part: seq<Byte>) returns (over: bool)
    requires line.Bounded() && line.bytes == Kept(part) && oversized == (|part| > MAX_EVENT_BYTES)
    modifies line
    ensures line.Bounded() && line.bytes == Kept(part + chunk)
    ensures over == (|part + chunk| > MAX_EVENT_BYTES)
  {
    over := oversized;
    if !over {
      if |line.bytes| + |chunk| > MAX_EVENT_BYTES {
        over := true;
        line.bytes := [];
      } else {
        line.Extend(chunk);
      }
    }
  }

  /** Whatever the chunks, one call takes exactly one record off the stream; it returns the bytes of the
      record if they fit and nothing otherwise, and its buffer stays bounded throughout. */
  method ReadEventLine(source: Source, line: Buffer) returns (total: nat, complete: bool)
    requires source.Valid() && line.Bounded()
    modifies source, line
    ensures source.Valid() && line.Bounded()
    ensures total == RecordLength(source.data, old(source.at))
    ensures complete == IsComplete(source.data, old(source.at))
    ensures source.at == old(source.at) + total
    ensures line.bytes == if total <= MAX_EVENT_BYTES then source.data[old(source.at)..source.at] else []
  {
    line.bytes := [];
    total := 0;
    complete := false;
    var oversized := false;
    ghost var start := source.at;
    var count := 1;
    while !complete && count > 0
      invariant source.Valid() && line.Bounded()
      invariant source.at == start + total && line.bytes == Kept(source.data[start..source.at])
      invariant oversized == (total > MAX_EVENT_BYTES)
      invariant if complete then Ends(source.data, start, source.at) else NoBreak(source.data, start, source.at)
      invariant count == 0 ==> source.at == |source.data|
      decreases |source.data| - source.at, count, !complete
    {
      count, oversized, complete := TakeChunk(source, line, oversized, start);
      total := total + count;
    }
    if !complete {
      EndsWithoutNewline(source.data, start);
    }
  }

  /** The part of the record that is available now, up to its newline. */
  method Peek(source: Source, ghost start: nat) returns (chunk: seq<Byte>, complete: bool)
    requires source.Valid() && NoBreak(source.data, start, source.at)
    modifies source
    ensures source.Valid() && source.at == old(source.at) && source.at + |chunk| <= source.filled
    ensures source.data[start..source.at] + chunk == source.data[start..source.at + |chunk|]
    ensures if complete then Ends(source.data, start, source.at + |chunk|) else NoBreak(source.data, start, source.at + |chunk|)
    ensures chunk == [] <==> source.at == |source.data|
    ensures complete ==> chunk != []
  {
    var available := source.FillBuffer();
    var newline := IndexOf(available);
    Chunk(source.data, start, source.at, source.filled);
    complete := newline < |available|;
    chunk := if complete then available[..newline + 1] else available;
  }

  /** Takes that part off the stream; nothing is taken exactly at the end. */
  method TakeChunk(source: Source, line: Buffer, oversized: bool, ghost start: nat)
    returns (count: nat, over: bool, complete: bool)
    requires source.Valid() && line.Bounded() && NoBreak(source.data, start, source.at)
    requires line.bytes == Kept(source.data[start..source.at]) && oversized == (source.at - start > MAX_EVENT_BYTES)
    modifies source, line
    ensures source.Valid() && line.Bounded() && source.at == old(source.at) + count
    ensures line.bytes == Kept(source.data[start..source.at]) && over == (source.at - start > MAX_EVENT_BYTES)
    ensures if complete then Ends(source.data, start, source.at) else NoBreak(source.data, start, source.at)
    ensures count == 0 <==> old(source.at) == |source.data|
    ensures complete ==> count > 0
  {
    var chunk: seq<Byte>;
    chunk, complete := Peek(source, start);
    over := Absorb(line, chunk, oversized, source.data[start..source.at]);
    count := |chunk|;
    source.Consume(count);
  }

  /** A complete record. */
  ghost predicate Ends(data: seq<Byte>, start: nat, end: nat) {
    start <= end <= |data| && NextLine(data, start) == end && IsComplete(data, start)
  }

  /** No newline in this part of the stream. */
  ghost predicate NoBreak(data: seq<Byte>, start: nat, end: nat) {
    start <= end <= |data| && forall i :: start <= i < end ==> data[i] != NEWLINE
  }

  /** What the part of a chunk up to its first newline adds to the record. */
  lemma Chunk(data: seq<Byte>, start: nat, before: nat, filled: nat)
    requires NoBreak(data, start, before) && before <= filled <= |data|
    ensures var available := data[before..filled];
            var newline := IndexOf(available);
            if newline < |available| then
              Ends(data, start, before + newline + 1)
              && data[start..before] + available[..newline + 1] == data[start..before + newline + 1]
            else NoBreak(data, start, filled) && data[start..before] + available == data[start..filled]
  {
    var newline := IndexOf(data[before..filled]);
    forall i | before <= i < before + newline ensures data[i] != NEWLINE {
      assert data[before..filled][i - before] == data[i];
    }
    if newline < filled - before {
      EndsAtNewline(data, start, before + newline + 1);
    }
  }

  lemma {:induction false} EndsAtNewline(data: seq<Byte>, start: nat, end: nat)
    requires start < end <= |data| && data[end - 1] == NEWLINE
    requires forall i :: start <= i < end - 1 ==> data[i] != NEWLINE
    ensures NextLine(data, start) == end
  {
    NextLineWithin(data, start, end);
  }

  lemma EndsWithoutNewline(data: seq<Byte>, start: nat)
    requires start <= |data| && forall i :: start <= i < |data| ==> data[i] != NEWLINE
    ensures NextLine(data, start) == |data| && !IsComplete(data, start)
  {
  }
}
