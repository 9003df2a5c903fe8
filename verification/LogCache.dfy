/**
 * Incremental reads of append-only logs. The state kept for a file says how
 * far its lines were read; a later read parses only what was appended since.
 * Every read is proved to give what one full parse of the file gives.
 */
module LogCache {
  import opened Common
  import opened LogLines

  const TAIL_BYTES := 64
  const CHUNK_BYTES := 1048576
  const MEMORY_FILES := 128

  datatype FileState = FileState(ino: int, mtimeMs: int, offset: nat, lineNo: nat, tail: Bytes, entries: seq<Entry>)

  type Entries = seq<Entry>

  const EMPTY_STATE := FileState(0, 0, 0, 0, [], [])

  function TailBefore(bytes: Bytes, offset: nat): Bytes
    requires offset <= |bytes|
  {
    bytes[Max(0, offset - TAIL_BYTES)..offset]
  }

  /** `state` is what parsing the first `state.offset` bytes of `bytes` left, and these are whole lines. */
  ghost predicate StateOf(spec: LineSpec, state: FileState, bytes: Bytes) {
    && state.offset <= |bytes|
    && WholeLines(bytes[..state.offset])
    && ParseLines(spec, bytes[..state.offset], START) == Parsed(state.entries, state.lineNo)
    && state.tail == TailBefore(bytes, state.offset)
  }

  /** A state of this very file is a state of what it holds now. */
  ghost predicate Trusted(spec: LineSpec, state: FileState, ino: int, bytes: Bytes) {
    state.offset == 0 || state.ino == ino ==> StateOf(spec, state, bytes)
  }

  lemma EmptyIsTrusted(spec: LineSpec, ino: int, bytes: Bytes)
    ensures Trusted(spec, EMPTY_STATE, ino, bytes)
  {
    assert bytes[..0] == [];
  }

  /** Appending to a file leaves every state of it a state of it. */
  lemma AppendKeepsTrust(spec: LineSpec, state: FileState, ino: int, before: Bytes, after: Bytes)
    requires Trusted(spec, state, ino, before) && before <= after
    ensures Trusted(spec, state, ino, after)
  {
    if StateOf(spec, state, before) {
      assert after[..state.offset] == before[..state.offset];
      assert TailBefore(after, state.offset) == TailBefore(before, state.offset);
    }
  }

  /** A file put in the place of another, under an inode no state has, is read from the start. */
  lemma ReplacingKeepsTrust(spec: LineSpec, state: FileState, ino: int, before: Bytes, newIno: int, after: Bytes)
    requires Trusted(spec, state, ino, before) && state.ino != newIno
    ensures Trusted(spec, state, newIno, after)
  {
    if state.offset == 0 {
      assert before[..0] == after[..0];
    }
  }

  // ---- which states are read on from ----

  /** The file still ends, before the offset, with the bytes last read there. */
  predicate Continues(state: FileState, ino: int, bytes: Bytes) {
    || state.offset == 0
    || (state.ino == ino && state.offset <= |bytes| && TailBefore(bytes, state.offset) == state.tail)
  }

  predicate Unchanged(state: FileState, ino: int, mtimeMs: int, bytes: Bytes) {
    state.ino == ino && state.offset == |bytes| && state.mtimeMs == mtimeMs
  }

  /** The state a read starts from. */
  function StartingState(state: FileState, ino: int, mtimeMs: int, bytes: Bytes): FileState {
    if Unchanged(state, ino, mtimeMs, bytes) || Continues(state, ino, bytes) then state else EMPTY_STATE
  }

  /** Reading on from `state`: what it kept, the lines after its offset, and a last line without a newline. */
  function ReadOn(spec: LineSpec, state: FileState, bytes: Bytes): seq<Entry>
    requires state.offset <= |bytes|
  {
    var unread := bytes[state.offset..];
    WithRest(spec, ParseLines(spec, unread, Parsed(state.entries, state.lineNo)), unread[LinesLength(unread)..])
  }

  /** The state after reading on: the lines ended by now, and the bytes before the new offset. */
  function NextState(spec: LineSpec, state: FileState, ino: int, mtimeMs: int, bytes: Bytes): FileState
    requires state.offset <= |bytes|
  {
    var unread := bytes[state.offset..];
    var parsed, offset := ParseLines(spec, unread, Parsed(state.entries, state.lineNo)), state.offset + LinesLength(unread);
    FileState(ino, mtimeMs, offset, parsed.lineNo, if offset == state.offset then state.tail else TailBefore(bytes, offset), parsed.entries)
  }

  lemma {:induction false} ParseExtends(spec: LineSpec, bytes: Bytes, from: nat, start: Parsed)
    requires from <= |bytes| && WholeLines(bytes[..from])
    ensures ParseLines(spec, bytes, start) == ParseLines(spec, bytes[from..], ParseLines(spec, bytes[..from], start))
    ensures LinesLength(bytes) == from + LinesLength(bytes[from..])
  {
    assert bytes == bytes[..from] + bytes[from..];
    ParseConcat(spec, bytes[..from], bytes[from..], start);
  }

  /** Reading on from a state of the file gives a full parse of the file. */
  lemma ReadingOnIsFullParse(spec: LineSpec, state: FileState, bytes: Bytes)
    requires StateOf(spec, state, bytes)
    ensures ReadOn(spec, state, bytes) == FullParse(spec, bytes)
  {
    ParseExtends(spec, bytes, state.offset, START);
    var unread := bytes[state.offset..];
    assert unread[LinesLength(unread)..] == bytes[LinesLength(bytes)..];
  }

  /** A trusted state is read on from or dropped; either way the read is a full parse. */
  lemma TrustedReadsFully(spec: LineSpec, state: FileState, ino: int, mtimeMs: int, bytes: Bytes)
    requires Trusted(spec, state, ino, bytes)
    ensures var from := StartingState(state, ino, mtimeMs, bytes);
      StateOf(spec, from, bytes) && ReadOn(spec, from, bytes) == FullParse(spec, bytes)
  {
    EmptyIsTrusted(spec, ino, bytes);
    ReadingOnIsFullParse(spec, StartingState(state, ino, mtimeMs, bytes), bytes);
  }

  /**
   * A file rewritten in place keeps its inode. When it shrank below the
   * offset, or the bytes before the offset are others, the state is dropped
   * and the read is a full parse, unless size and time both stayed as the
   * state has them.
   */
  lemma RewritingIsNoticed(spec: LineSpec, state: FileState, ino: int, mtimeMs: int, bytes: Bytes)
    requires state.offset > 0
    requires |bytes| < state.offset || TailBefore(bytes, state.offset) != state.tail
    requires state.offset != |bytes| || state.mtimeMs != mtimeMs
    ensures StartingState(state, ino, mtimeMs, bytes) == EMPTY_STATE
    ensures ReadOn(spec, EMPTY_STATE, bytes) == FullParse(spec, bytes)
  {
    EmptyIsTrusted(spec, ino, bytes);
    ReadingOnIsFullParse(spec, EMPTY_STATE, bytes);
  }

  /** A parser that keeps each line as an entry. */
  const EVERY_LINE := LineSpec(Parser([], (line: Bytes, lineNo: nat) => Some(Entry("", line))), false)

  /** The state kept after reading a file of one line. */
  function OneLineState(line: Bytes): FileState {
    FileState(1, 0, |line| + 1, 1, TailBefore(line + [NEWLINE], |line| + 1), [Entry("", line)])
  }

  /**
   * A rewrite the check cannot see: a line changed only where it is far
   * before the offset. The old entries are kept, so the read is not a full
   * parse of what the file holds now.
   */
  lemma FarRewriteIsMissed(before: Bytes, after: Bytes)
    requires PlainLine(before) && PlainLine(after)
    requires |before| == |after| >= TAIL_BYTES && before != after
    requires before[|before| - TAIL_BYTES + 1..] == after[|after| - TAIL_BYTES + 1..]
    ensures var state, now := OneLineState(before), after + [NEWLINE];
      && StateOf(EVERY_LINE, state, before + [NEWLINE])
      && StartingState(state, 1, 1, now) == state
      && ReadOn(EVERY_LINE, state, now) != FullParse(EVERY_LINE, now)
  {
    OneLineStateHolds(before);
    SameTail(before, after);
    OldLineIsKept(before, after);
  }

  lemma OneLineStateHolds(line: Bytes)
    requires PlainLine(line)
    ensures StateOf(EVERY_LINE, OneLineState(line), line + [NEWLINE])
  {
    OnlyLine(line + [NEWLINE], line);
    ReadWhole(EVERY_LINE, OneLineState(line), line + [NEWLINE]);
  }

  lemma OldLineIsKept(before: Bytes, after: Bytes)
    requires PlainLine(before) && PlainLine(after) && |before| == |after| && before != after
    ensures ReadOn(EVERY_LINE, OneLineState(before), after + [NEWLINE]) != FullParse(EVERY_LINE, after + [NEWLINE])
  {
    OnlyLine(after + [NEWLINE], after);
    NothingUnread(EVERY_LINE, OneLineState(before), after + [NEWLINE]);
    Differ(before, after);
  }

  lemma Differ(before: Bytes, after: Bytes)
    requires before != after
    ensures [Entry("", before)] != [Entry("", after)]
  {
    assert [Entry("", before)][0].payload != [Entry("", after)][0].payload;
  }

  lemma ReadWhole(spec: LineSpec, state: FileState, bytes: Bytes)
    requires state.offset == |bytes| && WholeLines(bytes)
    requires ParseLines(spec, bytes, START) == Parsed(state.entries, state.lineNo)
    requires state.tail == TailBefore(bytes, |bytes|)
    ensures StateOf(spec, state, bytes)
  {
    assert bytes[..state.offset] == bytes;
  }

  lemma SameTail(before: Bytes, after: Bytes)
    requires |before| == |after| >= TAIL_BYTES
    requires before[|before| - TAIL_BYTES + 1..] == after[|after| - TAIL_BYTES + 1..]
    ensures TailBefore(before + [NEWLINE], |before| + 1) == TailBefore(after + [NEWLINE], |after| + 1)
  {
    var from := |before| - TAIL_BYTES + 1;
    assert TailBefore(before + [NEWLINE], |before| + 1) == before[from..] + [NEWLINE];
    assert TailBefore(after + [NEWLINE], |after| + 1) == after[from..] + [NEWLINE];
  }

  lemma NothingUnread(spec: LineSpec, state: FileState, bytes: Bytes)
    requires state.offset == |bytes|
    ensures ReadOn(spec, state, bytes) == state.entries
  {
    assert bytes[state.offset..] == [];
  }

  /** Such a rewrite: one byte of a line of seventy. */
  lemma RewritingCanBeMissed() returns (before: Bytes, after: Bytes)
    ensures |before| == |after| == 70 && before[0] != after[0] && before[1..] == after[1..]
    ensures var state, now := OneLineState(before), after + [NEWLINE];
      && StateOf(EVERY_LINE, state, before + [NEWLINE])
      && StartingState(state, 1, 1, now) == state
      && ReadOn(EVERY_LINE, state, now) != FullParse(EVERY_LINE, now)
  {
    before := seq(70, i => if i == 0 then 66 else 65);
    after := seq(70, i => 65);
    assert before[0] != after[0];
    assert forall i :: 1 <= i < 70 ==> before[i] == after[i];
    assert before[7..] == after[7..];
    NoNewlineIn(before);
    NoNewlineIn(after);
    FarRewriteIsMissed(before, after);
  }

  /** The check by which a state is kept: by size and time, or by the bytes before the offset. */
  predicate LooksUnchanged(state: FileState, mtimeMs: int, before: Bytes, bytes: Bytes) {
    || (|bytes| == state.offset && mtimeMs == state.mtimeMs)
    || (state.offset <= |before| && state.offset <= |bytes| && TailBefore(bytes, state.offset) == TailBefore(before, state.offset))
  }

  /** The lines before the offset are the ones that were there. */
  predicate SameLinesTo(offset: nat, before: Bytes, bytes: Bytes) {
    offset <= |before| && offset <= |bytes| && FullParse(EVERY_LINE, bytes[..offset]) == FullParse(EVERY_LINE, before[..offset])
  }

  /**
   * A file rewritten in place is read rightly exactly when the rewrite is
   * noticed, by size and time or by the bytes compared, or when it left every
   * line before the offset as it was read. Here every line is an entry, so
   * that each change of a line shows.
   */
  lemma RewriteIsReadIff(state: FileState, mtimeMs: int, before: Bytes, bytes: Bytes)
    requires StateOf(EVERY_LINE, state, before) && state.offset > 0
    ensures StartingState(state, state.ino, mtimeMs, bytes) == state <==> LooksUnchanged(state, mtimeMs, before, bytes)
    ensures var start := StartingState(state, state.ino, mtimeMs, bytes);
      start.offset <= |bytes|
      && (ReadOn(EVERY_LINE, start, bytes) == FullParse(EVERY_LINE, bytes) <==> !LooksUnchanged(state, mtimeMs, before, bytes) || SameLinesTo(state.offset, before, bytes))
  {
    if LooksUnchanged(state, mtimeMs, before, bytes) {
      WholeLinesParse(EVERY_LINE, before[..state.offset]);
      if |bytes| == state.offset {
        NothingUnread(EVERY_LINE, state, bytes);
        assert bytes[..state.offset] == bytes;
      } else {
        LastByteIsSame(before, bytes, state.offset);
        ReadsAfterPrefix(state, bytes);
      }
    } else {
      EmptyIsTrusted(EVERY_LINE, state.ino, bytes);
      ReadingOnIsFullParse(EVERY_LINE, EMPTY_STATE, bytes);
    }
  }

  lemma LastByteIsSame(before: Bytes, bytes: Bytes, offset: nat)
    requires 0 < offset <= |before| && offset <= |bytes| && TailBefore(bytes, offset) == TailBefore(before, offset)
    ensures bytes[offset - 1] == before[offset - 1]
  {
    var n := offset - Max(0, offset - TAIL_BYTES);
    assert TailBefore(bytes, offset)[n - 1] == bytes[offset - 1] && TailBefore(before, offset)[n - 1] == before[offset - 1];
  }

  lemma WholeLinesParse(spec: LineSpec, bytes: Bytes)
    requires WholeLines(bytes)
    ensures FullParse(spec, bytes) == ParseLines(spec, bytes, START).entries
  {
    ParseConcat(spec, bytes, [], START);
    assert bytes + [] == bytes && bytes[|bytes|..] == [];
  }

  /** The entries of bytes, read from the start of a line. */
  function EntriesOf(bytes: Bytes): Entries {
    WithRest(EVERY_LINE, ParseLines(EVERY_LINE, bytes, START), bytes[LinesLength(bytes)..])
  }

  lemma ReadsEntriesAfter(state: FileState, bytes: Bytes)
    requires state.offset <= |bytes|
    ensures ReadOn(EVERY_LINE, state, bytes) == state.entries + EntriesOf(bytes[state.offset..])
  {
    var unread := bytes[state.offset..];
    EveryLineAppends(unread, unread[LinesLength(unread)..], Parsed(state.entries, state.lineNo));
  }

  lemma ParsesOn(spec: LineSpec, prefix: Bytes, unread: Bytes)
    requires WholeLines(prefix)
    ensures FullParse(spec, prefix + unread)
      == WithRest(spec, ParseLines(spec, unread, ParseLines(spec, prefix, START)), unread[LinesLength(unread)..])
  {
    ParseConcat(spec, prefix, unread, START);
    DropJoined(prefix, unread, LinesLength(unread));
  }

  lemma ParsesEntriesAfter(prefix: Bytes, unread: Bytes)
    requires WholeLines(prefix)
    ensures FullParse(EVERY_LINE, prefix + unread) == FullParse(EVERY_LINE, prefix) + EntriesOf(unread)
  {
    ParsesOn(EVERY_LINE, prefix, unread);
    WholeLinesParse(EVERY_LINE, prefix);
    EveryLineAppends(unread, unread[LinesLength(unread)..], ParseLines(EVERY_LINE, prefix, START));
  }

  lemma ReadsAfterPrefix(state: FileState, bytes: Bytes)
    requires state.offset <= |bytes| && WholeLines(bytes[..state.offset])
    ensures ReadOn(EVERY_LINE, state, bytes) == FullParse(EVERY_LINE, bytes) <==> FullParse(EVERY_LINE, bytes[..state.offset]) == state.entries
  {
    var prefix, unread := bytes[..state.offset], bytes[state.offset..];
    ReadsEntriesAfter(state, bytes);
    ParsesEntriesAfter(prefix, unread);
    assert prefix + unread == bytes;
    SuffixCancels(state.entries, FullParse(EVERY_LINE, prefix), EntriesOf(unread));
  }

  lemma DropJoined(a: Bytes, b: Bytes, n: nat)
    requires n <= |b|
    ensures (a + b)[|a| + n..] == b[n..]
  {
  }

  lemma SuffixCancels(a: Entries, b: Entries, suffix: Entries)
    ensures a + suffix == b + suffix <==> a == b
  {
    if a + suffix == b + suffix {
      assert a == (a + suffix)[..|a|] && b == (b + suffix)[..|b|];
    }
  }

  /** The lines that end in `bytes`, each an entry. */
  function EveryLine(bytes: Bytes): Entries
    decreases |bytes|
  {
    if !HasNewline(bytes) then []
    else AsSeq(EntryOf(EVERY_LINE.parser, bytes[..LineEnd(bytes)], 0)) + EveryLine(bytes[LineEnd(bytes) + 1..])
  }

  /** With every line an entry, what is read on comes after what was kept, whatever that is. */
  lemma EveryLineAppends(bytes: Bytes, rest: Bytes, from: Parsed)
    ensures WithRest(EVERY_LINE, ParseLines(EVERY_LINE, bytes, from), rest)
      == from.entries + WithRest(EVERY_LINE, ParseLines(EVERY_LINE, bytes, START), rest)
  {
    LinesAppend(bytes, from);
    LinesAppend(bytes, START);
    assert START.entries + EveryLine(bytes) == EveryLine(bytes);
  }

  lemma {:induction false} LinesAppend(bytes: Bytes, from: Parsed)
    ensures ParseLines(EVERY_LINE, bytes, from).entries == from.entries + EveryLine(bytes)
    decreases |bytes|
  {
    if HasNewline(bytes) {
      LineAppends(bytes[..LineEnd(bytes)], from, EveryLine(bytes[LineEnd(bytes) + 1..]));
      LinesAppend(bytes[LineEnd(bytes) + 1..], OneLine(EVERY_LINE, bytes[..LineEnd(bytes)], from));
    }
  }

  lemma LineAppends(line: Bytes, from: Parsed, more: Entries)
    ensures OneLine(EVERY_LINE, line, from).entries + more == from.entries + (AsSeq(EntryOf(EVERY_LINE.parser, line, 0)) + more)
  {
  }

  lemma NoNewlineIn(line: Bytes)
    requires forall i :: 0 <= i < |line| ==> line[i] != NEWLINE
    ensures !HasNewline(line)
  {
  }

  predicate PlainLine(line: Bytes) { !HasNewline(line) && line != [] && line[|line| - 1] != CARRIAGE_RETURN }

  lemma OnlyLine(bytes: Bytes, line: Bytes)
    requires bytes == line + [NEWLINE] && PlainLine(line)
    ensures ParseLines(EVERY_LINE, bytes, START) == Parsed([Entry("", line)], 1)
    ensures FullParse(EVERY_LINE, bytes) == [Entry("", line)]
  {
    OneLineParse(EVERY_LINE, line, START);
    assert FoundAt(line, [], 0);
    assert bytes[|bytes|..] == [];
  }

  lemma OneLineParse(spec: LineSpec, line: Bytes, from: Parsed)
    requires !HasNewline(line)
    ensures ParseLines(spec, line + [NEWLINE], from) == OneLine(spec, line, from)
    ensures LinesLength(line + [NEWLINE]) == |line| + 1
  {
    LineEndOfConcat(line, [NEWLINE]);
    assert (line + [NEWLINE])[..|line|] == line;
    assert (line + [NEWLINE])[|line| + 1..] == [];
  }

  // ---- the file, as the reader meets it ----

  /** A log file. Its harness may append to it between any two of the reader's calls. */
  class LogFile {
    var ino: int
    var mtimeMs: int
    var bytes: Bytes

    /** What another process may have done by the time of a call. */
    method Grow()
      modifies this
      ensures old(bytes) <= bytes && ino == old(ino)
    {
      var more: Bytes := *;
      bytes := bytes + more;
      mtimeMs := *;
    }

    method Stat() returns (ino: int, mtimeMs: int, size: nat)
      modifies this
      ensures old(bytes) <= bytes && this.ino == old(this.ino)
      ensures ino == this.ino && mtimeMs == this.mtimeMs && size == |bytes|
    {
      Grow();
      ino, mtimeMs, size := this.ino, this.mtimeMs, |bytes|;
    }

    method ReadRange(from: nat, to: nat) returns (range: Bytes)
      requires from <= to <= |bytes|
      modifies this
      ensures old(bytes) <= bytes && ino == old(ino)
      ensures range == old(bytes)[from..to]
    {
      Grow();
      range := bytes[from..to];
    }

    /** One read of at most `max` bytes: it may bring fewer, and none only at the end of the file. */
    method ReadChunk(pos: nat, max: nat) returns (chunk: Bytes)
      requires max > 0
      modifies this
      ensures old(bytes) <= bytes && ino == old(ino)
      ensures |chunk| <= max && pos + |chunk| <= Common.Max(pos, |bytes|)
      ensures pos < |bytes| ==> chunk != [] && chunk == bytes[pos..pos + |chunk|]
    {
      Grow();
      if pos < |bytes| {
        var n: nat :| 0 < n <= max && pos + n <= |bytes|;
        chunk := bytes[pos..pos + n];
      } else {
        chunk := [];
      }
    }
  }

  // ---- the place of each key among the entries ----

  ghost predicate IndexOk(lastPerKey: bool, index: map<string, nat>, entries: seq<Entry>) {
    lastPerKey ==> forall key ::
      && (key in index <==> IndexOfKey(entries, key) < |entries|)
      && (key in index ==> index[key] == IndexOfKey(entries, key))
  }

  lemma {:induction false} IndexAfterAppend(entries: seq<Entry>, entry: Entry, key: string)
    ensures IndexOfKey(entries + [entry], key)
      == if IndexOfKey(entries, key) < |entries| then IndexOfKey(entries, key)
         else if key == entry.key then |entries| else |entries| + 1
  {
    if entries != [] && entries[0].key != key {
      assert (entries + [entry])[1..] == entries[1..] + [entry];
      IndexAfterAppend(entries[1..], entry, key);
    }
  }

  lemma {:induction false} IndexAfterUpdate(entries: seq<Entry>, at: nat, entry: Entry, key: string)
    requires at < |entries| && entries[at].key == entry.key
    ensures IndexOfKey(entries[at := entry], key) == IndexOfKey(entries, key)
  {
    if entries[0].key != key && at > 0 {
      assert entries[at := entry][1..] == entries[1..][at - 1 := entry];
      IndexAfterUpdate(entries[1..], at - 1, entry, key);
    } else if at == 0 {
      assert entries[at := entry][1..] == entries[1..];
    }
  }

  method BuildIndex(entries: seq<Entry>) returns (index: map<string, nat>)
    ensures UniqueKeys(entries) ==> IndexOk(true, index, entries)
  {
    index := map[];
    for i := 0 to |entries|
      invariant UniqueKeys(entries) ==> IndexOk(true, index, entries[..i])
    {
      assert entries[..i + 1] == entries[..i] + [entries[i]];
      forall key { IndexAfterAppend(entries[..i], entries[i], key); }
      index := index[entries[i].key := i];
    }
    assert entries[..|entries|] == entries;
  }

  method Apply(lastPerKey: bool, entries: seq<Entry>, index: map<string, nat>, entry: Entry)
    returns (more: seq<Entry>, indexNow: map<string, nat>)
    requires IndexOk(lastPerKey, index, entries)
    ensures more == Add(lastPerKey, entries, entry) && IndexOk(lastPerKey, indexNow, more)
  {
    if lastPerKey && entry.key in index {
      forall key ensures IndexOfKey(entries[index[entry.key] := entry], key) == IndexOfKey(entries, key) {
        IndexAfterUpdate(entries, index[entry.key], entry, key);
      }
      more, indexNow := entries[index[entry.key] := entry], index;
    } else {
      forall key { IndexAfterAppend(entries, entry, key); }
      more, indexNow := entries + [entry], if lastPerKey then index[entry.key := |entries|] else index;
    }
  }

  // ---- reading lines ----

  method TakeLine(spec: LineSpec, line: Bytes, from: Parsed, index: map<string, nat>)
    returns (parsed: Parsed, indexNow: map<string, nat>)
    requires IndexOk(spec.lastPerKey, index, from.entries)
    ensures parsed == OneLine(spec, line, from)
    ensures IndexOk(spec.lastPerKey, indexNow, parsed.entries)
  {
    var entry := EntryOf(spec.parser, line, from.lineNo + 1);
    if entry.Some? {
      var more;
      more, indexNow := Apply(spec.lastPerKey, from.entries, index, entry.value);
      parsed := Parsed(more, from.lineNo + 1);
    } else {
      parsed, indexNow := Parsed(from.entries, from.lineNo + 1), index;
    }
  }

  /** The first `taken` bytes of `buf` are lines; the rest, from `parsed` on, comes to `all`, `length` bytes of lines in all. */
  ghost predicate TakenSoFar(spec: LineSpec, buf: Bytes, all: Parsed, length: nat, taken: nat, parsed: Parsed) {
    && taken <= |buf|
    && all == ParseLines(spec, buf[taken..], parsed)
    && length == taken + LinesLength(buf[taken..])
  }

  lemma OneLineFurther(spec: LineSpec, buf: Bytes, all: Parsed, length: nat, taken: nat, newline: nat, parsed: Parsed)
    requires TakenSoFar(spec, buf, all, length, taken, parsed)
    requires NewlineAfter(buf, taken, newline) && newline < |buf|
    ensures TakenSoFar(spec, buf, all, length, newline + 1, OneLine(spec, buf[taken..newline], parsed))
  {
    FirstLine(spec, buf[taken..], parsed);
    Reslice(buf, taken, newline);
  }

  lemma FirstLine(spec: LineSpec, bytes: Bytes, from: Parsed)
    requires HasNewline(bytes)
    ensures var end := LineEnd(bytes);
      && ParseLines(spec, bytes, from) == ParseLines(spec, bytes[end + 1..], OneLine(spec, bytes[..end], from))
      && LinesLength(bytes) == end + 1 + LinesLength(bytes[end + 1..])
  {
  }

  lemma Reslice(buf: Bytes, taken: nat, newline: nat)
    requires taken <= newline < |buf|
    ensures buf[taken..][..newline - taken] == buf[taken..newline]
    ensures buf[taken..][newline - taken + 1..] == buf[newline + 1..]
  {
  }

  lemma NoLineLeft(spec: LineSpec, buf: Bytes, all: Parsed, length: nat, taken: nat, parsed: Parsed)
    requires TakenSoFar(spec, buf, all, length, taken, parsed) && NewlineAfter(buf, taken, |buf|)
    ensures parsed == all && taken == length
  {
  }

  lemma NothingTaken(spec: LineSpec, buf: Bytes, from: Parsed)
    ensures TakenSoFar(spec, buf, ParseLines(spec, buf, from), LinesLength(buf), 0, from)
  {
    assert buf[0..] == buf;
  }

  /** The first newline at or after `taken`, or the end of `buf` when there is none. */
  ghost predicate NewlineAfter(buf: Bytes, taken: nat, newline: nat) {
    taken <= newline <= |buf| && newline == taken + LineEnd(buf[taken..])
  }

  method FindNewline(buf: Bytes, taken: nat) returns (newline: nat)
    requires taken <= |buf|
    ensures NewlineAfter(buf, taken, newline)
  {
    newline := taken + LineEnd(buf[taken..]);
  }

  /** Takes the newline-terminated lines of `buf`; `taken` is how many bytes they are. */
  method TakeLines(spec: LineSpec, buf: Bytes, from: Parsed, index: map<string, nat>)
    returns (parsed: Parsed, indexNow: map<string, nat>, taken: nat)
    requires IndexOk(spec.lastPerKey, index, from.entries)
    ensures parsed == ParseLines(spec, buf, from) && taken == LinesLength(buf)
    ensures IndexOk(spec.lastPerKey, indexNow, parsed.entries)
  {
    NothingTaken(spec, buf, from);
    parsed, indexNow, taken := TakeAll(spec, buf, from, index, ParseLines(spec, buf, from), LinesLength(buf));
  }

  /** `taken` bytes are lines and taken; the line after them ends at `newline`, when it ends. */
  ghost predicate Taking(spec: LineSpec, buf: Bytes, all: Parsed, length: nat, taken: nat, newline: nat, parsed: Parsed, index: map<string, nat>) {
    && NewlineAfter(buf, taken, newline)
    && TakenSoFar(spec, buf, all, length, taken, parsed)
    && IndexOk(spec.lastPerKey, index, parsed.entries)
  }

  method TakeNext(spec: LineSpec, buf: Bytes, taken: nat, newline: nat, from: Parsed, index: map<string, nat>, ghost all: Parsed, ghost length: nat)
    returns (parsed: Parsed, indexNow: map<string, nat>, next: nat)
    requires Taking(spec, buf, all, length, taken, newline, from, index) && newline < |buf|
    ensures newline < next <= |buf| && Taking(spec, buf, all, length, newline + 1, next, parsed, indexNow)
  {
    OneLineFurther(spec, buf, all, length, taken, newline, from);
    parsed, indexNow := TakeLine(spec, buf[taken..newline], from, index);
    next := FindNewline(buf, newline + 1);
  }

  method TakeAll(spec: LineSpec, buf: Bytes, from: Parsed, index: map<string, nat>, ghost all: Parsed, ghost length: nat)
    returns (parsed: Parsed, indexNow: map<string, nat>, taken: nat)
    requires IndexOk(spec.lastPerKey, index, from.entries) && TakenSoFar(spec, buf, all, length, 0, from)
    ensures parsed == all && taken == length
    ensures IndexOk(spec.lastPerKey, indexNow, parsed.entries)
  {
    parsed, indexNow, taken := from, index, 0;
    var newline := FindNewline(buf, 0);
    while newline < |buf|
      invariant Taking(spec, buf, all, length, taken, newline, parsed, indexNow)
      decreases |buf| - newline
    {
      var before := newline;
      parsed, indexNow, newline := TakeNext(spec, buf, taken, newline, parsed, indexNow, all, length);
      taken := before + 1;
    }
    NoLineLeft(spec, buf, all, length, taken, parsed);
  }

  /** The lines up to `whole` parsed, and `tail` more bytes read that end no line, are all that `bytes` holds so far. */
  lemma LinesSoFar(spec: LineSpec, bytes: Bytes, whole: nat, from: Parsed)
    requires whole <= |bytes| && WholeLines(bytes[..whole]) && !HasNewline(bytes[whole..])
    ensures ParseLines(spec, bytes, from) == ParseLines(spec, bytes[..whole], from)
    ensures LinesLength(bytes) == whole
  {
    ParseExtends(spec, bytes, whole, from);
  }

  /** The lines of what was carried over and the next chunk come after the lines already parsed. */
  lemma ChunkFurther(spec: LineSpec, whole: Bytes, buf: Bytes, taken: nat, from: Parsed)
    requires WholeLines(whole) && taken == LinesLength(buf)
    ensures WholeLines(whole + buf[..taken])
    ensures ParseLines(spec, whole + buf[..taken], from) == ParseLines(spec, buf, ParseLines(spec, whole, from))
  {
    ParseWhole(spec, buf, ParseLines(spec, whole, from));
    ParseConcat(spec, whole, buf[..taken], from);
  }

  lemma NoNewlineLeft(buf: Bytes)
    ensures !HasNewline(buf[LinesLength(buf)..])
  {
    NoNewlineIn(buf[LinesLength(buf)..]);
  }

  /**
   * A read of `bytes` from `from` has come to `pos`: the bytes up to `offset`
   * are lines, parsed, and `carry` is what follows them.
   */
  ghost predicate ReadSoFar(spec: LineSpec, bytes: Bytes, from: nat, start: Parsed, offset: nat, pos: nat, parsed: Parsed, carry: Bytes) {
    && from <= offset <= pos <= |bytes|
    && carry == bytes[offset..pos] && !HasNewline(carry)
    && WholeLines(bytes[from..offset])
    && parsed == ParseLines(spec, bytes[from..offset], start)
  }

  lemma ReadStarts(spec: LineSpec, bytes: Bytes, from: nat, start: Parsed)
    requires from <= |bytes|
    ensures ReadSoFar(spec, bytes, from, start, from, from, start, [])
  {
    assert bytes[from..from] == [];
    assert ParseLines(spec, [], start) == start;
  }

  lemma ReadGoesOn(spec: LineSpec, bytes: Bytes, from: nat, start: Parsed, offset: nat, pos: nat, parsed: Parsed, buf: Bytes, taken: nat)
    requires from <= offset <= pos <= |bytes| && WholeLines(bytes[from..offset])
    requires parsed == ParseLines(spec, bytes[from..offset], start)
    requires buf == bytes[offset..pos] && taken == LinesLength(buf)
    ensures ReadSoFar(spec, bytes, from, start, offset + taken, pos, ParseLines(spec, buf, parsed), buf[taken..])
  {
    ChunkFurther(spec, bytes[from..offset], buf, taken, start);
    NoNewlineLeft(buf);
    Slices(bytes, from, offset, pos, taken);
  }

  lemma Slices(bytes: Bytes, from: nat, offset: nat, pos: nat, taken: nat)
    requires from <= offset <= pos <= |bytes| && taken <= pos - offset
    ensures bytes[from..offset + taken] == bytes[from..offset] + bytes[offset..pos][..taken]
    ensures bytes[offset + taken..pos] == bytes[offset..pos][taken..]
  {
  }

  lemma ReadEnds(spec: LineSpec, bytes: Bytes, from: nat, start: Parsed, offset: nat, parsed: Parsed, carry: Bytes)
    requires ReadSoFar(spec, bytes, from, start, offset, |bytes|, parsed, carry)
    ensures parsed == ParseLines(spec, bytes[from..], start)
    ensures offset == from + LinesLength(bytes[from..]) && carry == bytes[offset..]
  {
    var range := bytes[from..];
    assert range[..offset - from] == bytes[from..offset];
    assert range[offset - from..] == bytes[offset..|bytes|] == bytes[offset..];
    LinesSoFar(spec, range, offset - from, start);
  }

  /** Takes the lines that what was carried over and a chunk end; `taken` bytes of them. */
  method TakeChunk(spec: LineSpec, ghost bytes: Bytes, ghost from: nat, ghost start: Parsed, ghost offset: nat, ghost pos: nat,
                   parsed: Parsed, index: map<string, nat>, carry: Bytes, chunk: Bytes)
    returns (more: Parsed, indexNow: map<string, nat>, taken: nat, left: Bytes)
    requires ReadSoFar(spec, bytes, from, start, offset, pos, parsed, carry)
    requires pos + |chunk| <= |bytes| && chunk == bytes[pos..pos + |chunk|]
    requires IndexOk(spec.lastPerKey, index, parsed.entries)
    ensures ReadSoFar(spec, bytes, from, start, offset + taken, pos + |chunk|, more, left)
    ensures IndexOk(spec.lastPerKey, indexNow, more.entries)
  {
    var buf := carry + chunk;
    assert buf == bytes[offset..pos + |chunk|];
    more, indexNow, taken := TakeLines(spec, buf, parsed, index);
    ReadGoesOn(spec, bytes, from, start, offset, pos + |chunk|, parsed, buf, taken);
    left := buf[taken..];
  }

  /**
   * Reads `[from, upTo)` of the file in chunks. The lines it ends are parsed
   * onto `start`; the bytes after the last newline are `rest`. An aborted
   * read gives nothing.
   */
  method ReadLines(spec: LineSpec, file: LogFile, from: nat, upTo: nat, start: Parsed, index: map<string, nat>, ghost bytes: Bytes)
    returns (done: bool, parsed: Parsed, indexNow: map<string, nat>, offset: nat, rest: Bytes)
    requires from <= upTo == |bytes| && bytes <= file.bytes
    requires IndexOk(spec.lastPerKey, index, start.entries)
    modifies file
    ensures bytes <= file.bytes && file.ino == old(file.ino)
    ensures done ==> parsed == ParseLines(spec, bytes[from..], start) && offset == from + LinesLength(bytes[from..]) && rest == bytes[offset..]
    ensures done ==> IndexOk(spec.lastPerKey, indexNow, parsed.entries)
  {
    var pos := from;
    done, parsed, indexNow, offset, rest := false, start, index, from, [];
    ReadStarts(spec, bytes, from, start);
    var aborted: bool := *;
    while pos < upTo && !aborted
      invariant pos <= upTo && bytes <= file.bytes && file.ino == old(file.ino)
      invariant ReadSoFar(spec, bytes, from, start, offset, pos, parsed, rest)
      invariant IndexOk(spec.lastPerKey, indexNow, parsed.entries)
      decreases upTo - pos
    {
      // A file that is only appended to has the bytes its size promised, so no read comes back empty.
      var chunk := file.ReadChunk(pos, Min(CHUNK_BYTES, upTo - pos));
      var taken;
      parsed, indexNow, taken, rest := TakeChunk(spec, bytes, from, start, offset, pos, parsed, indexNow, rest, chunk);
      pos, offset := pos + |chunk|, offset + taken;
      aborted := *;
    }
    if !aborted {
      ReadEnds(spec, bytes, from, start, offset, parsed, rest);
      done := true;
    }
  }

  /** Whether the file still holds, unchanged, what `state` read. */
  method FileContinues(state: FileState, file: LogFile, ino: int, size: nat, ghost bytes: Bytes) returns (continues: bool)
    requires size == |bytes| && bytes <= file.bytes
    modifies file
    ensures bytes <= file.bytes && file.ino == old(file.ino)
    ensures continues <==> Continues(state, ino, bytes)
  {
    if state.offset == 0 {
      return true;
    }
    if state.ino != ino || size < state.offset {
      return false;
    }
    var tail := file.ReadRange(Max(0, state.offset - TAIL_BYTES), state.offset);
    continues := tail == state.tail;
  }

  /** The state after reading on, and everything the file gives. */
  datatype ReadResult = Aborted | Read(next: FileState, changed: bool, entries: seq<Entry>)

  lemma FurtherState(spec: LineSpec, state: FileState, next: FileState, bytes: Bytes)
    requires StateOf(spec, state, bytes)
    requires next.offset == state.offset + LinesLength(bytes[state.offset..])
    requires Parsed(next.entries, next.lineNo) == ParseLines(spec, bytes[state.offset..], Parsed(state.entries, state.lineNo))
    requires next.tail == TailBefore(bytes, next.offset)
    ensures StateOf(spec, next, bytes)
    ensures FullParse(spec, bytes) == WithRest(spec, Parsed(next.entries, next.lineNo), bytes[next.offset..])
  {
    ParseExtends(spec, bytes, state.offset, START);
    ParseWhole(spec, bytes, START);
  }

  lemma NextIs(spec: LineSpec, state: FileState, next: FileState, bytes: Bytes, parsed: Parsed)
    requires state.offset <= |bytes| && parsed == ParseLines(spec, bytes[state.offset..], Parsed(state.entries, state.lineNo))
    requires next.entries == parsed.entries && next.lineNo == parsed.lineNo
    requires next.offset == state.offset + LinesLength(bytes[state.offset..])
    requires next.tail == if next.offset == state.offset then state.tail else TailBefore(bytes, next.offset)
    ensures next == NextState(spec, state, next.ino, next.mtimeMs, bytes)
  {
  }

  /** Reads what was appended since `state`; `rest` is a last line without its newline. */
  method ReadAppended(spec: LineSpec, state: FileState, file: LogFile, ino: int, mtimeMs: int, size: nat, ghost bytes: Bytes)
    returns (done: bool, next: FileState, index: map<string, nat>, rest: Bytes)
    requires size == |bytes| && bytes <= file.bytes
    requires StateOf(spec, state, bytes)
    modifies file
    ensures bytes <= file.bytes && file.ino == old(file.ino)
    ensures done ==> StateOf(spec, next, bytes) && next == NextState(spec, state, ino, mtimeMs, bytes)
    ensures done ==> rest == bytes[next.offset..] && FullParse(spec, bytes) == WithRest(spec, Parsed(next.entries, next.lineNo), rest)
    ensures done ==> IndexOk(spec.lastPerKey, index, next.entries)
  {
    done, next, index, rest := true, state.(ino := ino, mtimeMs := mtimeMs), map[], [];
    if spec.lastPerKey {
      index := BuildIndex(state.entries);
      ParseHasUniqueKeys(spec, bytes[..state.offset]);
    }
    if size > state.offset {
      var parsed, offset;
      done, parsed, index, offset, rest := ReadLines(spec, file, state.offset, size, Parsed(state.entries, state.lineNo), index, bytes);
      if done {
        var tail := state.tail;
        if offset != state.offset {
          tail := file.ReadRange(Max(0, offset - TAIL_BYTES), offset);
        }
        next := FileState(ino, mtimeMs, offset, parsed.lineNo, tail, parsed.entries);
        NextIs(spec, state, next, bytes, parsed);
        FurtherState(spec, state, next, bytes);
      }
    } else {
      NothingAfter(spec, state, bytes);
      NextIs(spec, state, next, bytes, Parsed(state.entries, state.lineNo));
      FurtherState(spec, state, next, bytes);
    }
  }

  method ReadFrom(spec: LineSpec, state: FileState, file: LogFile, ino: int, mtimeMs: int, size: nat, ghost bytes: Bytes)
    returns (result: ReadResult)
    requires size == |bytes| && bytes <= file.bytes
    requires StateOf(spec, state, bytes)
    modifies file
    ensures bytes <= file.bytes && file.ino == old(file.ino)
    ensures result.Read? ==> StateOf(spec, result.next, bytes) && result.next == NextState(spec, state, ino, mtimeMs, bytes)
    ensures result.Read? ==> (result.changed <==> result.next.offset != state.offset)
    ensures result.Read? ==> result.entries == FullParse(spec, bytes)
  {
    var done, next, index, rest := ReadAppended(spec, state, file, ino, mtimeMs, size, bytes);
    if !done {
      return Aborted;
    }
    var entries := next.entries;
    var last := RestEntry(spec.parser, rest, next.lineNo + 1);
    if last.Some? {
      entries, index := Apply(spec.lastPerKey, next.entries, index, last.value);
    }
    result := Read(next, next.offset != state.offset, entries);
  }

  lemma NothingAfter(spec: LineSpec, state: FileState, bytes: Bytes)
    requires state.offset == |bytes|
    ensures bytes[state.offset..] == []
    ensures ParseLines(spec, bytes[state.offset..], Parsed(state.entries, state.lineNo)) == Parsed(state.entries, state.lineNo)
    ensures LinesLength(bytes[state.offset..]) == 0
  {
    assert bytes[state.offset..] == [];
  }

  // ---- the cache ----

  class LogCache {
    /** States held in memory, with their ids from the least to the most recently used. */
    var memory: map<string, FileState>
    var recent: seq<string>
    /** States stored between workers; nothing is stored when there is no directory. */
    var disk: map<string, FileState>
    const hasDirectory: bool

    constructor (hasDirectory: bool)
      ensures memory == map[] && disk == map[] && recent == []
    {
      this.hasDirectory := hasDirectory;
      memory, disk, recent := map[], map[], [];
    }

    ghost predicate Valid()
      reads this
    {
      NoRepeats(recent) && Elements(recent) == memory.Keys && |recent| <= MEMORY_FILES
    }

    /** Every state kept for `id` is one of this file, or of one it replaced. */
    ghost predicate Trusts(spec: LineSpec, id: string, ino: int, bytes: Bytes)
      reads this
    {
      KeptTrusted(spec, memory, id, ino, bytes) && KeptTrusted(spec, disk, id, ino, bytes)
    }

    /** Puts the state last in use; past the limit the one longest unused goes. */
    method Remember(id: string, state: FileState)
      requires Valid()
      modifies this`memory, this`recent
      ensures Valid()
      ensures id in memory && memory[id] == state
      ensures KeepsOthers(old(memory), memory, id)
      ensures recent == Latest(Without(old(recent), id) + [id], MEMORY_FILES)
      ensures forall other :: other in old(memory) && other in recent && other != id ==> other in memory && memory[other] == old(memory)[other]
    {
      MoveToEnd(recent, id);
      recent := Without(recent, id) + [id];
      memory := memory[id := state];
      DropOldest();
    }

    /** Past the limit the state longest unused goes. */
    method DropOldest()
      requires NoRepeats(recent) && Elements(recent) == memory.Keys && 0 < |recent| <= MEMORY_FILES + 1
      modifies this`memory, this`recent
      ensures Valid() && recent == Latest(old(recent), MEMORY_FILES)
      ensures recent != [] && recent[|recent| - 1] == old(recent[|recent| - 1])
      ensures memory.Keys <= old(memory.Keys) && forall id :: id in memory ==> memory[id] == old(memory)[id]
    {
      if |recent| > MEMORY_FILES {
        DropFirst(recent);
        memory := memory - {recent[0]};
        recent := recent[1..];
      }
    }

    /** Stores the state, unless the write fails. */
    method Save(id: string, state: FileState)
      modifies this`disk
      ensures disk == old(disk) || (hasDirectory && disk == old(disk)[id := state])
    {
      if hasDirectory {
        if * { disk := disk[id := state]; }
      }
    }

    /** The stored state, unless it cannot be read. */
    method Load(id: string) returns (state: Option<FileState>)
      ensures state.Some? ==> id in disk && disk[id] == state.value
    {
      state := None;
      if hasDirectory && id in disk {
        if * { state := Some(disk[id]); }
      }
    }

    /** A missing file has no state. */
    method Forget(id: string)
      requires Valid()
      modifies this
      ensures Valid()
      ensures id !in memory && KeepsOthers(old(memory), memory, id) && KeepsOthers(old(disk), disk, id)
    {
      WithoutOnce(recent, id);
      recent := Without(recent, id);
      memory := memory - {id};
      if hasDirectory {
        if * { disk := disk - {id}; }
      }
    }

    /**
     * Every entry of the file, parsing only what was appended since the state
     * kept for `id`: what one full parse of the file gives, taken as long as
     * it was when the read looked. A missing file has none; an aborted read
     * leaves what is kept as it was.
     */
    method ReadNow(spec: LineSpec, id: string, file: LogFile?) returns (result: Option<seq<Entry>>, ghost step: Step)
      requires Valid() && (file != null ==> Trusts(spec, id, file.ino, file.bytes))
      modifies this, file
      ensures Valid() && (file != null ==> Trusts(spec, id, file.ino, file.bytes))
      ensures file == null ==> result == Some([]) && id !in memory
      ensures file != null ==> step.Reads? && step.result == result
      ensures file != null ==> step in StepsBetween(spec, id, World(old(memory), old(disk), old(file.ino), old(file.bytes)), World(memory, disk, file.ino, file.bytes))
      ensures file != null && result.Some? ==> result.value == FullParse(spec, step.looked)
      ensures KeepsOthers(old(memory), memory, id) && KeepsOthers(old(disk), disk, id)
    {
      if file == null {
        Forget(id);
        return Some([]), Restarted;
      }
      ghost var before := World(memory, disk, file.ino, file.bytes);
      var read;
      ghost var from, mtimeMs, bytes;
      read, from, mtimeMs, bytes := ReadFor(spec, id, file);
      if read.Aborted? {
        AbortedStepOk(spec, id, before, file.bytes, from, mtimeMs, bytes);
        return None, Reads(from, mtimeMs, bytes, None);
      }
      AppendKeepsTrust(spec, read.next, file.ino, bytes, file.bytes);
      Keep(id, read.next, read.changed);
      ReadStepOk(spec, id, before, World(memory, disk, file.ino, file.bytes), from, mtimeMs, bytes, read.next, read.entries);
      result, step := Some(read.entries), Reads(from, mtimeMs, bytes, Some(read.entries));
    }

    /** Remembers the state, and stores it when the read brought more lines. */
    method Keep(id: string, next: FileState, changed: bool)
      requires Valid()
      modifies this
      ensures Valid() && id in memory && memory[id] == next
      ensures KeepsOthers(old(memory), memory, id) && KeepsOthers(old(disk), disk, id)
      ensures disk == old(disk) || disk == old(disk)[id := next]
      ensures !changed || !hasDirectory ==> disk == old(disk)
    {
      Remember(id, next);
      if changed {
        Save(id, next);
      }
    }

    /** Reads the file on from the state kept for `id`, which it leaves as it is. */
    method ReadFor(spec: LineSpec, id: string, file: LogFile) returns (read: ReadResult, ghost from: FileState, ghost mtime: int, ghost bytes: Bytes)
      requires Trusts(spec, id, file.ino, file.bytes)
      modifies file
      ensures old(file.bytes) <= bytes <= file.bytes && file.ino == old(file.ino)
      ensures Trusts(spec, id, file.ino, file.bytes) && IsKept(memory, disk, id, from)
      ensures read.Read? ==> StateOf(spec, read.next, bytes)
      ensures read.Read? ==> ReadsFrom(spec, from, file.ino, mtime, bytes, read.next, read.entries) && read.entries == FullParse(spec, bytes)
    {
      ghost var before := file.bytes;
      var start, ino, mtimeMs, size;
      start, ino, mtimeMs, size, from, bytes := StartFor(spec, id, file);
      mtime := mtimeMs;
      read := ReadFrom(spec, start, file, ino, mtimeMs, size, bytes);
      if read.Read? { ReadingOnIsFullParse(spec, start, bytes); }
      KeptStaysTrusted(spec, memory, id, ino, before, file.bytes);
      KeptStaysTrusted(spec, disk, id, ino, before, file.bytes);
    }

    /** Looks at the file and takes the state kept for it, when the file still holds what that state read. */
    method StartFor(spec: LineSpec, id: string, file: LogFile) returns (start: FileState, ino: int, mtimeMs: int, size: nat, ghost from: FileState, ghost bytes: Bytes)
      requires Trusts(spec, id, file.ino, file.bytes)
      modifies file
      ensures old(file.bytes) <= bytes <= file.bytes && ino == file.ino == old(file.ino) && size == |bytes|
      ensures IsKept(memory, disk, id, from) && start == StartingState(from, ino, mtimeMs, bytes) && StateOf(spec, start, bytes)
    {
      ghost var before := file.bytes;
      ino, mtimeMs, size := file.Stat();
      bytes := file.bytes;
      var state := StateFor(id);
      from := state;
      EmptyIsTrusted(spec, ino, before);
      AppendKeepsTrust(spec, state, ino, before, bytes);
      TrustedReadsFully(spec, state, ino, mtimeMs, bytes);
      var goesOn := state.ino == ino && state.offset == size && state.mtimeMs == mtimeMs;
      if !goesOn {
        goesOn := FileContinues(state, file, ino, size, bytes);
      }
      start := if goesOn then state else EMPTY_STATE;
    }

    /** The state kept in memory, else the stored one, else none. */
    method StateFor(id: string) returns (state: FileState)
      ensures IsKept(memory, disk, id, state)
    {
      var kept := Get(memory, id);
      if kept.None? {
        kept := Load(id);
      }
      state := kept.GetOr(EMPTY_STATE);
    }
  }

  // ---- runs ----

  /** What is kept for a log, and its file: in memory, stored, its inode and bytes. */
  datatype World = World(memory: map<string, FileState>, disk: map<string, FileState>, ino: int, bytes: Bytes)

  /**
   * A read of the log, from a state kept for it, of the bytes the file had
   * when it looked; or what may happen between reads: the harness appends,
   * another file is put in this one's place, the worker is restarted, or
   * another log is read.
   */
  datatype Step =
    | Reads(from: FileState, mtimeMs: int, looked: Bytes, result: Option<seq<Entry>>)
    | Grows
    | Replaced
    | Restarted
    | OtherReads

  /** The state a read starts from: the one in memory, else the stored one if it can be read, else none. */
  predicate IsKept(memory: map<string, FileState>, disk: map<string, FileState>, id: string, from: FileState) {
    if id in memory then from == memory[id] else from == EMPTY_STATE || (id in disk && from == disk[id])
  }

  /** One read: what it keeps and what it gives, by the state it starts from and the file it looks at. */
  predicate ReadsFrom(spec: LineSpec, from: FileState, ino: int, mtimeMs: int, looked: Bytes, next: FileState, entries: seq<Entry>) {
    var start := StartingState(from, ino, mtimeMs, looked);
    next == NextState(spec, start, ino, mtimeMs, looked) && entries == ReadOn(spec, start, looked)
  }

  /** What a read leaves kept: the next state in memory, perhaps stored, and nothing new of other logs. */
  ghost predicate Keeps(before: World, after: World, id: string, next: FileState) {
    && id in after.memory && after.memory[id] == next && KeepsOthers(before.memory, after.memory, id)
    && (after.disk == before.disk || after.disk == before.disk[id := next])
  }

  ghost predicate StepOk(spec: LineSpec, id: string, before: World, step: Step, after: World) {
    match step
    case Reads(from, mtimeMs, looked, result) =>
      && before.ino == after.ino && before.bytes <= looked <= after.bytes && IsKept(before.memory, before.disk, id, from)
      && (if result.None? then after.memory == before.memory && after.disk == before.disk
          else exists next :: ReadsFrom(spec, from, before.ino, mtimeMs, looked, next, result.value) && Keeps(before, after, id, next))
    case Grows => before.bytes <= after.bytes && after == before.(bytes := after.bytes)
    case Replaced =>
      && after == before.(ino := after.ino, bytes := after.bytes)
      && (id in before.memory ==> before.memory[id].ino != after.ino) && (id in before.disk ==> before.disk[id].ino != after.ino)
    case Restarted => after == before.(memory := map[])
    case OtherReads =>
      && after == before.(memory := after.memory, disk := after.disk)
      && (id in after.memory ==> id in before.memory && after.memory[id] == before.memory[id])
      && (id in after.disk ==> id in before.disk && after.disk[id] == before.disk[id])
  }

  /** All the steps that lead from one world to another. */
  ghost function StepsBetween(spec: LineSpec, id: string, before: World, after: World): iset<Step> {
    iset step | StepOk(spec, id, before, step, after)
  }

  lemma AbortedStepOk(spec: LineSpec, id: string, before: World, bytes: Bytes, from: FileState, mtimeMs: int, looked: Bytes)
    requires before.bytes <= looked <= bytes && IsKept(before.memory, before.disk, id, from)
    ensures Reads(from, mtimeMs, looked, None) in StepsBetween(spec, id, before, before.(bytes := bytes))
  {
  }

  lemma ReadStepOk(spec: LineSpec, id: string, before: World, after: World, from: FileState, mtimeMs: int, looked: Bytes, next: FileState, entries: seq<Entry>)
    requires before.ino == after.ino && before.bytes <= looked <= after.bytes && IsKept(before.memory, before.disk, id, from)
    requires ReadsFrom(spec, from, before.ino, mtimeMs, looked, next, entries) && Keeps(before, after, id, next)
    ensures Reads(from, mtimeMs, looked, Some(entries)) in StepsBetween(spec, id, before, after)
  {
  }

  ghost predicate WorldTrusted(spec: LineSpec, id: string, w: World) {
    KeptTrusted(spec, w.memory, id, w.ino, w.bytes) && KeptTrusted(spec, w.disk, id, w.ino, w.bytes)
  }

  /** A read of trusted states gives a full parse, and keeps a state that is trusted still. */
  lemma ReadStepKeeps(spec: LineSpec, id: string, before: World, step: Step, after: World)
    requires WorldTrusted(spec, id, before) && step.Reads? && StepOk(spec, id, before, step, after)
    ensures WorldTrusted(spec, id, after) && (step.result.Some? ==> step.result.value == FullParse(spec, step.looked))
  {
    KeptStaysTrusted(spec, before.memory, id, before.ino, before.bytes, after.bytes);
    KeptStaysTrusted(spec, before.disk, id, before.ino, before.bytes, after.bytes);
    if step.result.Some? {
      var next :| ReadsFrom(spec, step.from, before.ino, step.mtimeMs, step.looked, next, step.result.value) && Keeps(before, after, id, next);
      EmptyIsTrusted(spec, before.ino, before.bytes);
      AppendKeepsTrust(spec, step.from, before.ino, before.bytes, step.looked);
      ReadFromTrusted(spec, step.from, before.ino, step.mtimeMs, step.looked, next, step.result.value);
      AppendKeepsTrust(spec, next, before.ino, step.looked, after.bytes);
    }
  }

  lemma ReadFromTrusted(spec: LineSpec, from: FileState, ino: int, mtimeMs: int, looked: Bytes, next: FileState, entries: seq<Entry>)
    requires Trusted(spec, from, ino, looked) && ReadsFrom(spec, from, ino, mtimeMs, looked, next, entries)
    ensures Trusted(spec, next, ino, looked) && entries == FullParse(spec, looked)
  {
    TrustedReadsFully(spec, from, ino, mtimeMs, looked);
    NextStateHolds(spec, StartingState(from, ino, mtimeMs, looked), ino, mtimeMs, looked);
  }

  lemma NextStateHolds(spec: LineSpec, start: FileState, ino: int, mtimeMs: int, looked: Bytes)
    requires StateOf(spec, start, looked)
    ensures StateOf(spec, NextState(spec, start, ino, mtimeMs, looked), looked)
  {
    FurtherState(spec, start, NextState(spec, start, ino, mtimeMs, looked), looked);
  }

  lemma StepKeepsTrust(spec: LineSpec, id: string, before: World, step: Step, after: World)
    requires WorldTrusted(spec, id, before) && StepOk(spec, id, before, step, after)
    ensures WorldTrusted(spec, id, after)
  {
    match step
    case Reads(_, _, _, _) => ReadStepKeeps(spec, id, before, step, after);
    case Grows =>
      KeptStaysTrusted(spec, before.memory, id, before.ino, before.bytes, after.bytes);
      KeptStaysTrusted(spec, before.disk, id, before.ino, before.bytes, after.bytes);
    case Replaced =>
      if id in before.memory { ReplacingKeepsTrust(spec, before.memory[id], before.ino, before.bytes, after.ino, after.bytes); }
      if id in before.disk { ReplacingKeepsTrust(spec, before.disk[id], before.ino, before.bytes, after.ino, after.bytes); }
    case Restarted =>
    case OtherReads =>
  }

  /** A run from the first look at a log: nothing is kept for it yet. */
  ghost predicate IsRun(spec: LineSpec, id: string, worlds: seq<World>, steps: seq<Step>) {
    && |worlds| == |steps| + 1 && id !in worlds[0].memory && id !in worlds[0].disk
    && forall i :: 0 <= i < |steps| ==> StepOk(spec, id, worlds[i], steps[i], worlds[i + 1])
  }

  lemma {:induction false} RunKeepsTrust(spec: LineSpec, id: string, worlds: seq<World>, steps: seq<Step>, i: nat)
    requires IsRun(spec, id, worlds, steps) && i <= |steps|
    ensures WorldTrusted(spec, id, worlds[i])
  {
    if i > 0 {
      RunKeepsTrust(spec, id, worlds, steps, i - 1);
      assert StepOk(spec, id, worlds[i - 1], steps[i - 1], worlds[i - 1 + 1]);
      StepKeepsTrust(spec, id, worlds[i - 1], steps[i - 1], worlds[i]);
    }
  }

  /**
   * Every run, of any steps in any order: each read that is not aborted
   * gives one full parse of the file as it was when the read looked, from
   * whatever state was kept by then.
   */
  lemma EveryReadIsFull(spec: LineSpec, id: string, worlds: seq<World>, steps: seq<Step>, i: nat)
    requires IsRun(spec, id, worlds, steps) && i < |steps| && steps[i].Reads?
    ensures worlds[i].bytes <= steps[i].looked <= worlds[i + 1].bytes
    ensures steps[i].result.Some? ==> steps[i].result.value == FullParse(spec, steps[i].looked)
  {
    RunKeepsTrust(spec, id, worlds, steps, i);
    assert StepOk(spec, id, worlds[i], steps[i], worlds[i + 1]);
    ReadStepKeeps(spec, id, worlds[i], steps[i], worlds[i + 1]);
  }

  ghost predicate KeptTrusted(spec: LineSpec, kept: map<string, FileState>, id: string, ino: int, bytes: Bytes) {
    id in kept ==> Trusted(spec, kept[id], ino, bytes)
  }

  lemma KeptStaysTrusted(spec: LineSpec, kept: map<string, FileState>, id: string, ino: int, before: Bytes, after: Bytes)
    requires KeptTrusted(spec, kept, id, ino, before) && before <= after
    ensures KeptTrusted(spec, kept, id, ino, after)
  {
    if id in kept { AppendKeepsTrust(spec, kept[id], ino, before, after); }
  }

  /** Apart from `id`, nothing new is kept. */
  ghost predicate KeepsOthers(before: map<string, FileState>, after: map<string, FileState>, id: string) {
    forall other :: other in after && other != id ==> other in before && after[other] == before[other]
  }

  /** The last `n` used, or all when there are no more. */
  function Latest(ids: seq<string>, n: nat): seq<string> { if |ids| <= n then ids else ids[|ids| - n..] }

  function Without(ids: seq<string>, id: string): seq<string> {
    if ids == [] then []
    else if ids[|ids| - 1] == id then Without(ids[..|ids| - 1], id)
    else Without(ids[..|ids| - 1], id) + [ids[|ids| - 1]]
  }

  lemma {:induction false} WithoutOnce(ids: seq<string>, id: string)
    requires NoRepeats(ids)
    ensures NoRepeats(Without(ids, id)) && |Without(ids, id)| <= |ids|
    ensures forall x :: x in Without(ids, id) <==> x in ids && x != id
  {
    if ids != [] {
      var last := ids[|ids| - 1];
      WithoutOnce(ids[..|ids| - 1], id);
      assert ids == ids[..|ids| - 1] + [last];
      assert last !in ids[..|ids| - 1];
    }
  }

  lemma MoveToEnd(ids: seq<string>, id: string)
    requires NoRepeats(ids)
    ensures var moved := Without(ids, id) + [id];
      NoRepeats(moved) && Elements(moved) == Elements(ids) + {id} && |moved| <= |ids| + 1
  {
    WithoutOnce(ids, id);
    assert forall i :: 0 <= i < |Without(ids, id)| ==> Without(ids, id)[i] in Without(ids, id);
  }

  lemma DropFirst(ids: seq<string>)
    requires NoRepeats(ids) && ids != []
    ensures NoRepeats(ids[1..]) && Elements(ids[1..]) == Elements(ids) - {ids[0]}
  {
    assert ids == [ids[0]] + ids[1..];
  }
}
