/** The incremental session reader of src/agents.rs: its cache agrees with reading the whole file again. */
module SessionCache {
  import opened Wrappers
  import opened Transcript
  import opened LineReader
  import opened AgentSummary

  type Decoder = seq<Byte> -> Option<Event>

  /** A session file as one read sees it: `length` and `modified` were measured before its contents. */
  datatype FileView = FileView(inode: nat, modified: nat, length: nat, content: seq<Byte>)

  datatype Cached = Cached(inode: nat, modified: nat, offset: nat, summary: Agent, internal: bool)

  /** The folded state: the summary, and whether the session is internal and therefore not followed. */
  datatype Fold = Fold(agent: Agent, internal: bool)

  function ApplyLine(f: Fold, bytes: seq<Byte>, decode: Decoder): Fold {
    if bytes == [] || |bytes| > MAX_EVENT_BYTES then f else
    match decode(bytes)
    case None => f
    case Some(e) =>
      var internal := if e.category == "session_meta" then e.internalSource else f.internal;
      Fold(if internal then f.agent else ApplyEvent(f.agent, e), internal)
  }

  function FoldLines(f: Fold, lines: seq<Line>, decode: Decoder): Fold
    decreases |lines|
  {
    if lines == [] then f
    else ApplyLine(FoldLines(f, lines[..|lines| - 1], decode), lines[|lines| - 1].bytes, decode)
  }

  predicate Reusable(previous: Cached, file: FileView) {
    && previous.inode == file.inode
    && previous.offset <= file.length
    && (previous.offset < file.length || previous.modified == file.modified)
  }

  function Resume(agent: Agent, previous: Cached): Agent {
    previous.summary.(id := agent.id, pid := agent.pid, evidence := agent.evidence)
  }

  /** Older caches lack the repository: it is restored from the first record of the same session. */
  function RestoreGit(agent: Agent, content: seq<Byte>, decode: Decoder): Agent {
    var header := if |content| <= MAX_EVENT_BYTES then content else content[..MAX_EVENT_BYTES];
    if agent.kind == "Codex" && agent.git.None? && IsComplete(header, 0) then
      match decode(header[..NextLine(header, 0)])
      case Some(e) => if e.category == "session_meta" && e.payloadId == agent.sessionId then SavedCodexGit(agent, e) else agent
      case None => agent
    else agent
  }

  function StartOf(agent: Agent, entry: Option<Cached>, file: FileView, decode: Decoder): (Fold, nat) {
    if entry.Some? && Reusable(entry.value, file) then
      var resumed := Resume(agent, entry.value);
      (Fold(if entry.value.offset > 0 then RestoreGit(resumed, file.content, decode) else resumed, entry.value.internal),
       entry.value.offset)
    else (Fold(agent, false), 0)
  }

  function Finish(f: Fold, file: FileView, offset: nat): Cached {
    Cached(file.inode, file.modified, offset,
           f.agent.(updatedAt := Some(file.modified / 1_000_000_000), state := Opened(f.agent.state)), f.internal)
  }

  class Cache {
    var entries: map<string, Cached>

    constructor ()
      ensures entries == map[]
    {
      entries := map[];
    }

    /** Reads what is new in a session file; also whether the session should be shown. `plan` is how the
        operating system splits the bytes it delivers. */
    method ReadSession(agent: Agent, path: string, file: Option<FileView>, decode: Decoder, plan: nat -> nat)
      returns (result: Agent, shown: bool)
      requires file.Some? ==> file.value.length <= |file.value.content|
      modifies this
      ensures file.None? ==> result == agent && shown && entries == old(entries)
      ensures file.Some? ==>
                var previous := if path in old(entries) then Some(old(entries)[path]) else None;
                var (start, offset) := StartOf(agent, previous, file.value, decode);
                var end := LastBreak(file.value.content);
                offset <= end && LineStart(file.value.content, offset) ==>
                  && path in entries && entries == old(entries)[path := entries[path]]
                  && entries[path] == Finish(FoldLines(start, Lines(file.value.content, offset, end), decode), file.value, end)
                  && result == entries[path].summary && shown == !entries[path].internal
    {
      if file.None? {
        return agent, true;
      }
      var view := file.value;
      var content := view.content;
      var offset := 0;
      var current := agent;
      var internal := false;
      if path in entries && Reusable(entries[path], view) {
        offset := entries[path].offset;
        internal := entries[path].internal;
        current := Resume(agent, entries[path]);
        if offset > 0 && current.kind == "Codex" && current.git.None? {
          current := ReadHeader(current, content, decode, plan);
        }
      }
      if offset <= |content| {
        current, internal, offset := ReadRecords(content, offset, current, internal, decode, plan);
      }
      current := current.(updatedAt := Some(view.modified / 1_000_000_000), state := Opened(current.state));
      entries := entries[path := Cached(view.inode, view.modified, offset, current, internal)];
      return current, !internal;
    }
  }

  /** The reading loop: folds every complete record from `from` on. */
  method ReadRecords(content: seq<Byte>, from: nat, agent: Agent, wasInternal: bool, decode: Decoder, plan: nat -> nat)
    returns (current: Agent, internal: bool, offset: nat)
    requires from <= |content|
    ensures from <= LastBreak(content) && LineStart(content, from) ==>
              && offset == LastBreak(content)
              && Fold(current, internal) == FoldLines(Fold(agent, wasInternal), Lines(content, from, offset), decode)
  {
    ghost var start := Fold(agent, wasInternal);
    NothingRead(start, content, from, decode);
    var source := new Source(content, from, plan);
    var line := new Buffer();
    current, internal, offset := agent, wasInternal, from;
    while true
      invariant source.Valid() && line.Bounded()
      invariant source.data == content && source.at == offset && from <= offset
      invariant Folding(start, content, from, offset, decode, Fold(current, internal))
      decreases |content| - offset
    {
      var bytes, complete := ReadEventLine(source, line);
      if bytes == 0 || !complete {
        FoldingEnds(start, content, from, offset, decode, Fold(current, internal));
        break;
      }
      FoldingGoesOn(start, content, from, offset, decode, Fold(current, internal), offset + bytes, line.bytes);
      offset := offset + bytes;
      current, internal := ApplyRecord(current, internal, line.bytes, decode);
    }
  }

  /** The records between two line starts, folded. */
  ghost predicate FoldedTo(start: Fold, content: seq<Byte>, from: nat, offset: nat, decode: Decoder, f: Fold) {
    && from <= offset <= LastBreak(content) && LineStart(content, from) && LineStart(content, offset)
    && f == FoldLines(start, Lines(content, from, offset), decode)
  }

  lemma NothingRead(start: Fold, content: seq<Byte>, from: nat, decode: Decoder)
    requires from <= |content|
    ensures Folding(start, content, from, from, decode, start)
  {
  }

  /** What the loop keeps, when it starts at the beginning of a complete line. */
  ghost predicate Folding(start: Fold, content: seq<Byte>, from: nat, offset: nat, decode: Decoder, f: Fold)
    requires from <= |content|
  {
    from <= LastBreak(content) && LineStart(content, from) ==> FoldedTo(start, content, from, offset, decode, f)
  }

  lemma FoldingGoesOn(start: Fold, content: seq<Byte>, from: nat, offset: nat, decode: Decoder, f: Fold, next: nat, bytes: seq<Byte>)
    requires from <= offset <= |content| && Folding(start, content, from, offset, decode, f) && IsComplete(content, offset)
    requires next == NextLine(content, offset)
    requires bytes == if next - offset <= MAX_EVENT_BYTES then content[offset..next] else []
    ensures Folding(start, content, from, next, decode, ApplyLine(f, bytes, decode))
  {
    if from <= LastBreak(content) && LineStart(content, from) {
      FoldOneMore(start, content, from, offset, decode, f);
    }
  }

  lemma FoldingEnds(start: Fold, content: seq<Byte>, from: nat, offset: nat, decode: Decoder, f: Fold)
    requires from <= offset <= |content| && Folding(start, content, from, offset, decode, f) && !IsComplete(content, offset)
    ensures from <= LastBreak(content) && LineStart(content, from) ==>
              offset == LastBreak(content) && f == FoldLines(start, Lines(content, from, offset), decode)
  {
    BreakOrEnd(content, offset);
  }

  method ApplyRecord(agent: Agent, wasInternal: bool, bytes: seq<Byte>, decode: Decoder) returns (current: Agent, internal: bool)
    ensures Fold(current, internal) == ApplyLine(Fold(agent, wasInternal), bytes, decode)
    requires |bytes| <= MAX_EVENT_BYTES
  {
    current, internal := agent, wasInternal;
    if bytes != [] {
      var event := decode(bytes);
      if event.Some? {
        if event.value.category == "session_meta" {
          internal := event.value.internalSource;
        }
        if !internal {
          current := ApplyEvent(current, event.value);
        }
      }
    }
  }

  method ReadHeader(agent: Agent, content: seq<Byte>, decode: Decoder, plan: nat -> nat) returns (restored: Agent)
    requires agent.kind == "Codex" && agent.git.None?
    ensures restored == RestoreGit(agent, content, decode)
  {
    var source := new Source(if |content| <= MAX_EVENT_BYTES then content else content[..MAX_EVENT_BYTES], 0, plan);
    var line := new Buffer();
    var _, complete := ReadEventLine(source, line);
    restored := agent;
    if complete {
      assert line.bytes == source.data[..NextLine(source.data, 0)];
      var event := decode(line.bytes);
      if event.Some? && event.value.category == "session_meta" && event.value.payloadId == agent.sessionId {
        restored := SavedCodexGit(agent, event.value);
      }
    }
  }

  /** Where no complete record follows, everything up to the last newline has been read. */
  lemma BreakOrEnd(content: seq<Byte>, offset: nat)
    requires offset <= |content| && !IsComplete(content, offset)
    ensures offset <= LastBreak(content) && LineStart(content, offset) ==> offset == LastBreak(content)
  {
    if offset < LastBreak(content) {
      NextLineWithin(content, offset, LastBreak(content));
    }
  }

  lemma OneMoreLine(content: seq<Byte>, from: nat, offset: nat)
    requires from <= offset <= LastBreak(content) && LineStart(content, from) && LineStart(content, offset)
    requires IsComplete(content, offset)
    ensures var next := NextLine(content, offset);
            && next <= LastBreak(content) && LineStart(content, next)
            && Lines(content, from, next) == Lines(content, from, offset) + [Line(offset, content[offset..next])]
  {
    var next := NextLine(content, offset);
    assert content[next - 1] == NEWLINE;
    LinesSplit(content, from, offset, next);
    assert Lines(content, next, next) == [];
    assert Lines(content, offset, next) == [Line(offset, content[offset..next])];
  }

  /** Folding the next complete record, which the reader hands over empty when it is too long. */
  lemma FoldOneMore(start: Fold, content: seq<Byte>, from: nat, offset: nat, decode: Decoder, f: Fold)
    requires FoldedTo(start, content, from, offset, decode, f) && IsComplete(content, offset)
    ensures var next := NextLine(content, offset);
            var bytes := if next - offset <= MAX_EVENT_BYTES then content[offset..next] else [];
            FoldedTo(start, content, from, next, decode, ApplyLine(f, bytes, decode))
  {
    OneMoreLine(content, from, offset);
    var lines := Lines(content, from, NextLine(content, offset));
    assert lines[..|lines| - 1] == Lines(content, from, offset);
  }

  // ---- the cache against a full read

  lemma {:induction false} FoldSplit(f: Fold, first: seq<Line>, second: seq<Line>, decode: Decoder)
    ensures FoldLines(FoldLines(f, first, decode), second, decode) == FoldLines(f, first + second, decode)
    decreases |second|
  {
    if second == [] {
      assert first + second == first;
    } else {
      var init := second[..|second| - 1];
      assert (first + second)[..|first + second| - 1] == first + init;
      FoldSplit(f, first, init, decode);
    }
  }

  predicate SameFold(f: Fold, g: Fold) {
    Same(f.agent, g.agent) && f.internal == g.internal
  }

  lemma {:induction false} FoldPreservesSameness(f: Fold, g: Fold, lines: seq<Line>, decode: Decoder)
    requires SameFold(f, g)
    ensures SameFold(FoldLines(f, lines, decode), FoldLines(g, lines, decode))
    decreases |lines|
  {
    if lines != [] {
      var f', g' := FoldLines(f, lines[..|lines| - 1], decode), FoldLines(g, lines[..|lines| - 1], decode);
      FoldPreservesSameness(f, g, lines[..|lines| - 1], decode);
      match decode(lines[|lines| - 1].bytes)
      case None =>
      case Some(e) => EventsPreserveSameness(f'.agent, g'.agent, e);
    }
  }

  /** One read of the whole file by a fresh agent. */
  function FullRead(agent: Agent, content: seq<Byte>, decode: Decoder): Fold {
    FoldLines(Fold(agent, false), Lines(content, 0, LastBreak(content)), decode)
  }

  /** The cache entry says exactly what a full read of this content would say. */
  ghost predicate Agrees(entry: Cached, base: Agent, content: seq<Byte>, decode: Decoder) {
    && entry.offset == LastBreak(content)
    && SameFold(Fold(entry.summary, entry.internal), FullRead(base, content, decode))
    && entry.summary.state == Opened(FullRead(base, content, decode).agent.state)
  }

  /** What one read leaves in the cache. */
  function ReadOnce(agent: Agent, entry: Option<Cached>, file: FileView, decode: Decoder): Option<Cached> {
    var (start, offset) := StartOf(agent, entry, file, decode);
    var end := LastBreak(file.content);
    if offset <= end && LineStart(file.content, offset) then
      Some(Finish(FoldLines(start, Lines(file.content, offset, end), decode), file, end))
    else None
  }

  /** Successive reads of one file, by agents that differ in their process and repository only. */
  datatype Visit = Visit(agent: Agent, file: FileView)

  function ReadAll(entry: Option<Cached>, visits: seq<Visit>, decode: Decoder): Option<Cached>
    decreases |visits|
  {
    if visits == [] then entry else
    var before := ReadAll(entry, visits[..|visits| - 1], decode);
    ReadOnce(visits[|visits| - 1].agent, before, visits[|visits| - 1].file, decode)
  }

  ghost predicate Appending(visits: seq<Visit>, base: Agent) {
    && (forall i, j :: 0 <= i < j < |visits| ==> visits[i].file.content <= visits[j].file.content)
    && forall v <- visits :: v.file.length <= |v.file.content| && Same(v.agent, base)
  }

  lemma BreakGrows(content: seq<Byte>, longer: seq<Byte>)
    requires content <= longer
    ensures LastBreak(content) <= LastBreak(longer) && LineStart(longer, LastBreak(content))
  {
  }

  lemma RestoreGitKeepsSameness(a: Agent, content: seq<Byte>, decode: Decoder)
    ensures Same(RestoreGit(a, content, decode), a)
    ensures RestoreGit(a, content, decode) == a.(git := RestoreGit(a, content, decode).git)
  {
  }

  lemma ResumedStart(visit: Visit, entry: Cached, base: Agent, earlier: seq<Byte>, decode: Decoder)
    requires Same(visit.agent, base) && Agrees(entry, base, earlier, decode) && Reusable(entry, visit.file)
    ensures var (start, offset) := StartOf(visit.agent, Some(entry), visit.file, decode);
            offset == LastBreak(earlier) && SameFold(start, FullRead(base, earlier, decode))
  {
    RestoreGitKeepsSameness(Resume(visit.agent, entry), visit.file.content, decode);
  }

  /** Folding what was appended on top of a full read of the shorter file gives a full read of the longer one. */
  lemma FoldedFurther(start: Fold, base: Agent, earlier: seq<Byte>, content: seq<Byte>, decode: Decoder)
    requires earlier <= content && SameFold(start, FullRead(base, earlier, decode))
    ensures LastBreak(earlier) <= LastBreak(content) && LineStart(content, LastBreak(earlier))
    ensures SameFold(FoldLines(start, Lines(content, LastBreak(earlier), LastBreak(content)), decode),
                     FullRead(base, content, decode))
  {
    var offset, end := LastBreak(earlier), LastBreak(content);
    BreakGrows(earlier, content);
    LinesStable(earlier, content, 0, offset);
    LinesSplit(content, 0, offset, end);
    FoldSplit(Fold(base, false), Lines(content, 0, offset), Lines(content, offset, end), decode);
    FoldPreservesSameness(start, FullRead(base, earlier, decode), Lines(content, offset, end), decode);
  }

  lemma FinishAgrees(f: Fold, file: FileView, base: Agent, decode: Decoder)
    requires SameFold(f, FullRead(base, file.content, decode))
    ensures Agrees(Finish(f, file, LastBreak(file.content)), base, file.content, decode)
  {
  }

  lemma ReadAgrees(visit: Visit, entry: Option<Cached>, base: Agent, earlier: seq<Byte>, decode: Decoder)
    requires earlier <= visit.file.content && Same(visit.agent, base)
    requires entry.Some? ==> Agrees(entry.value, base, earlier, decode)
    ensures ReadOnce(visit.agent, entry, visit.file, decode).Some?
    ensures Agrees(ReadOnce(visit.agent, entry, visit.file, decode).value, base, visit.file.content, decode)
  {
    var content := visit.file.content;
    var end := LastBreak(content);
    var (start, offset) := StartOf(visit.agent, entry, visit.file, decode);
    if entry.Some? && Reusable(entry.value, visit.file) {
      ResumedStart(visit, entry.value, base, earlier, decode);
      FoldedFurther(start, base, earlier, content, decode);
    } else {
      FoldPreservesSameness(start, Fold(base, false), Lines(content, 0, end), decode);
    }
    FinishAgrees(FoldLines(start, Lines(content, offset, end), decode), visit.file, base, decode);
  }

  /** For every append-only file and every schedule of reads, with cuts anywhere inside a line, the cached
      summary and the cached `internal` mark equal those of one full read of the latest content. */
  lemma {:induction false} CacheEqualsFullRead(visits: seq<Visit>, base: Agent, decode: Decoder)
    requires visits != [] && Appending(visits, base)
    ensures ReadAll(None, visits, decode).Some?
    ensures Agrees(ReadAll(None, visits, decode).value, base, visits[|visits| - 1].file.content, decode)
    decreases |visits|
  {
    var init, last := visits[..|visits| - 1], visits[|visits| - 1];
    assert last in visits;
    if init == [] {
      ReadAgrees(last, None, base, [], decode);
    } else {
      forall v <- init ensures v.file.length <= |v.file.content| && Same(v.agent, base) {
        assert v in visits;
      }
      CacheEqualsFullRead(init, base, decode);
      ReadAgrees(last, ReadAll(None, init, decode), base, init[|init| - 1].file.content, decode);
    }
  }

  /** The reader keeps its own process identity, and the summary carries the time of the last change. */
  lemma {:induction false} IdentityIsTheReaders(agent: Agent, lines: seq<Line>, internal: bool, decode: Decoder)
    ensures var r := FoldLines(Fold(agent, internal), lines, decode).agent;
            r.id == agent.id && r.pid == agent.pid && r.evidence == agent.evidence && r.kind == agent.kind
    decreases |lines|
  {
    if lines != [] {
      IdentityIsTheReaders(agent, lines[..|lines| - 1], internal, decode);
      match decode(lines[|lines| - 1].bytes)
      case None =>
      case Some(e) =>
        var before := FoldLines(Fold(agent, internal), lines[..|lines| - 1], decode).agent;
        EventsPreserveSameness(before, before, e);
    }
  }
}
