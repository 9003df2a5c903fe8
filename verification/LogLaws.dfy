/** What a full parse of a log keeps, by where its lines begin and end and by their bytes alone. */
module LogLaws {
  import opened Common
  import opened LogLines

  // ---- lines in a file ----

  /** A line begins here: at the start of the file or after a newline. */
  ghost predicate Begins(bytes: Bytes, at: nat) { at <= |bytes| && (at > 0 ==> bytes[at - 1] == 10) }

  /** The line that begins at `at` ends before `end`: at the next newline or at the end of the file. */
  ghost predicate EndsAt(bytes: Bytes, at: nat, end: nat) {
    at <= end <= |bytes| && (end < |bytes| ==> bytes[end] == 10) && forall i :: at <= i < end ==> bytes[i] != 10
  }

  ghost function NewlinesBefore(bytes: Bytes, at: nat): set<nat>
    requires at <= |bytes|
  {
    set i: nat | i < at && bytes[i] == 10
  }

  /** The bytes a line is read as: without its CR where a newline follows. */
  ghost predicate IsLineText(bytes: Bytes, at: nat, end: nat, text: Bytes)
    requires EndsAt(bytes, at, end)
  {
    if end < |bytes| && at < end && bytes[end - 1] == 13 then text == bytes[at..end - 1] else text == bytes[at..end]
  }

  ghost predicate HasWithin(text: Bytes, needle: Bytes) { exists a: Bytes, b: Bytes :: text == a + needle + b }

  /** A line is read as an entry when it is not empty, holds the needle, and parses under its number. */
  ghost predicate IsReadAs(parser: Parser, text: Bytes, lineNo: nat, entry: Entry) {
    text != [] && HasWithin(text, parser.needle) && parser.parse(text, lineNo) == Some(entry)
  }

  /** The line that begins at `at` gives this entry. */
  ghost predicate GivesEntry(parser: Parser, bytes: Bytes, at: nat, entry: Entry) {
    Begins(bytes, at) && exists end :: EndsAt(bytes, at, end) && GivesEntryTo(parser, bytes, at, end, entry)
  }

  ghost predicate GivesEntryTo(parser: Parser, bytes: Bytes, at: nat, end: nat, entry: Entry)
    requires EndsAt(bytes, at, end)
  {
    exists text :: IsLineText(bytes, at, end, text) && IsReadAs(parser, text, |NewlinesBefore(bytes, at)| + 1, entry)
  }

  /** The entries of the lines that begin at these places, which are all that give one at or after `from`, in order. */
  ghost predicate AreReadAt(parser: Parser, bytes: Bytes, from: nat, places: seq<nat>, entries: seq<Entry>) {
    ReadInOrder(parser, bytes, from, places, entries) && AllRead(parser, bytes, from, places)
  }

  ghost predicate ReadInOrder(parser: Parser, bytes: Bytes, from: nat, places: seq<nat>, entries: seq<Entry>) {
    && |places| == |entries|
    && (forall i :: 0 <= i < |places| ==> from <= places[i] && GivesEntry(parser, bytes, places[i], entries[i]))
    && (forall i, j :: 0 <= i < j < |places| ==> places[i] < places[j])
  }

  ghost predicate AllRead(parser: Parser, bytes: Bytes, from: nat, places: seq<nat>) {
    forall at: nat, entry :: from <= at && GivesEntry(parser, bytes, at, entry) ==> at in places
  }

  // ---- one line ----

  lemma ContainsIs(text: Bytes, needle: Bytes)
    ensures Contains(text, needle) <==> HasWithin(text, needle)
  {
    if Contains(text, needle) {
      var i :| 0 <= i <= |text| && FoundAt(text, needle, i);
      assert text == text[..i] + needle + text[i + |needle|..];
    }
    if HasWithin(text, needle) {
      var a: Bytes, b: Bytes :| text == a + needle + b;
      assert text[|a|..] == needle + b;
      assert FoundAt(text, needle, |a|);
    }
  }

  lemma EndedLineReads(parser: Parser, bytes: Bytes, at: nat, end: nat, entry: Entry)
    requires EndsAt(bytes, at, end) && end < |bytes|
    ensures EntryOf(parser, bytes[at..end], |NewlinesBefore(bytes, at)| + 1) == Some(entry) <==> GivesEntryTo(parser, bytes, at, end, entry)
  {
    var line := bytes[at..end];
    assert end > at && bytes[end - 1] == 13 ==> line[..|line| - 1] == bytes[at..end - 1];
    ContainsIs(StripReturn(line), parser.needle);
    assert IsLineText(bytes, at, end, StripReturn(line));
  }

  lemma LastLineReads(parser: Parser, bytes: Bytes, at: nat, entry: Entry)
    requires EndsAt(bytes, at, |bytes|)
    ensures RestEntry(parser, bytes[at..], |NewlinesBefore(bytes, at)| + 1) == Some(entry) <==> GivesEntryTo(parser, bytes, at, |bytes|, entry)
  {
    assert bytes[at..] == bytes[at..|bytes|];
    ContainsIs(bytes[at..], parser.needle);
    assert IsLineText(bytes, at, |bytes|, bytes[at..]);
  }

  lemma OneEnd(bytes: Bytes, at: nat, end: nat, other: nat)
    requires EndsAt(bytes, at, end) && EndsAt(bytes, at, other)
    ensures end == other
  {
  }

  lemma GivesIs(parser: Parser, bytes: Bytes, at: nat, end: nat, entry: Entry)
    requires Begins(bytes, at) && EndsAt(bytes, at, end)
    ensures GivesEntry(parser, bytes, at, entry) <==> GivesEntryTo(parser, bytes, at, end, entry)
  {
    if GivesEntry(parser, bytes, at, entry) {
      var e :| EndsAt(bytes, at, e) && GivesEntryTo(parser, bytes, at, e, entry);
      OneEnd(bytes, at, end, e);
    }
  }

  lemma NextLine(bytes: Bytes, at: nat, end: nat)
    requires Begins(bytes, at) && EndsAt(bytes, at, end) && end < |bytes|
    ensures Begins(bytes, end + 1)
    ensures |NewlinesBefore(bytes, end + 1)| == |NewlinesBefore(bytes, at)| + 1
    ensures forall other: nat :: at < other && Begins(bytes, other) ==> end + 1 <= other
  {
    assert NewlinesBefore(bytes, end + 1) == NewlinesBefore(bytes, at) + {end};
  }

  // ---- every line ----

  /** The entries of what follows the first `lines` lines. */
  ghost function EntriesIn(parser: Parser, rest: Bytes, lines: nat): seq<Entry> {
    LineEntries(parser, rest, lines) + AsSeq(RestEntry(parser, Unended(rest), lines + LineCount(rest) + 1))
  }

  /** What follows the last newline. */
  ghost function Unended(rest: Bytes): Bytes { rest[LinesLength(rest)..] }

  ghost function EntriesFrom(parser: Parser, bytes: Bytes, at: nat, lines: nat): seq<Entry>
    requires at <= |bytes|
  {
    EntriesIn(parser, bytes[at..], lines)
  }

  lemma UnendedOfRest(rest: Bytes, more: Bytes)
    requires HasNewline(rest) && more == rest[LineEnd(rest) + 1..]
    ensures Unended(rest) == Unended(more)
  {
    assert LinesLength(rest) == LineEnd(rest) + 1 + LinesLength(more);
  }

  lemma CountOfRest(rest: Bytes, more: Bytes)
    requires HasNewline(rest) && more == rest[LineEnd(rest) + 1..]
    ensures LineCount(rest) == 1 + LineCount(more)
  {
  }

  lemma EntriesInAre(parser: Parser, rest: Bytes, lines: nat, ended: seq<Entry>, unended: Bytes, count: nat)
    requires ended == LineEntries(parser, rest, lines) && unended == Unended(rest) && count == lines + LineCount(rest)
    ensures EntriesIn(parser, rest, lines) == ended + AsSeq(RestEntry(parser, unended, count + 1))
  {
  }

  lemma EntriesInStep(parser: Parser, rest: Bytes, line: Bytes, more: Bytes, lines: nat)
    requires HasNewline(rest) && line == rest[..LineEnd(rest)] && more == rest[LineEnd(rest) + 1..]
    ensures EntriesIn(parser, rest, lines) == AsSeq(EntryOf(parser, line, lines + 1)) + EntriesIn(parser, more, lines + 1)
  {
    UnendedOfRest(rest, more);
    CountOfRest(rest, more);
    StepFrom(parser, rest, line, more, lines);
    EntriesJoin(parser, rest, more, AsSeq(EntryOf(parser, line, lines + 1)), lines);
  }

  lemma EntriesJoin(parser: Parser, rest: Bytes, more: Bytes, own: seq<Entry>, lines: nat)
    requires LineEntries(parser, rest, lines) == own + LineEntries(parser, more, lines + 1)
    requires Unended(rest) == Unended(more) && LineCount(rest) == 1 + LineCount(more)
    ensures EntriesIn(parser, rest, lines) == own + EntriesIn(parser, more, lines + 1)
  {
    var tail := LineEntries(parser, more, lines + 1);
    EntriesInAre(parser, more, lines + 1, tail, Unended(more), lines + 1 + LineCount(more));
    EntriesInAre(parser, rest, lines, own + tail, Unended(more), lines + 1 + LineCount(more));
    Regroup(own, tail, AsSeq(RestEntry(parser, Unended(more), lines + 1 + LineCount(more) + 1)), EntriesIn(parser, rest, lines), EntriesIn(parser, more, lines + 1));
  }

  lemma Regroup(a: seq<Entry>, b: seq<Entry>, c: seq<Entry>, all: seq<Entry>, rest: seq<Entry>)
    requires all == (a + b) + c && rest == b + c
    ensures all == a + rest
  {
  }

  lemma StepFrom(parser: Parser, rest: Bytes, line: Bytes, more: Bytes, lines: nat)
    requires HasNewline(rest) && line == rest[..LineEnd(rest)] && more == rest[LineEnd(rest) + 1..]
    ensures LineEntries(parser, rest, lines) == AsSeq(EntryOf(parser, line, lines + 1)) + LineEntries(parser, more, lines + 1)
  {
  }

  lemma LinesFrom(bytes: Bytes, at: nat, end: nat)
    requires EndsAt(bytes, at, end) && end < |bytes|
    ensures LineEnd(bytes[at..]) == end - at && HasNewline(bytes[at..])
    ensures bytes[at..][..end - at] == bytes[at..end]
    ensures bytes[at..][end - at + 1..] == bytes[end + 1..]
  {
    assert bytes[at..][end - at] == 10;
  }

  lemma EntriesStep(parser: Parser, bytes: Bytes, at: nat, end: nat, lines: nat)
    requires EndsAt(bytes, at, end) && end < |bytes|
    ensures EntriesFrom(parser, bytes, at, lines) ==
      AsSeq(EntryOf(parser, bytes[at..end], lines + 1)) + EntriesFrom(parser, bytes, end + 1, lines + 1)
  {
    LinesFrom(bytes, at, end);
    EntriesInStep(parser, bytes[at..], bytes[at..end], bytes[end + 1..], lines);
  }

  lemma EntriesStop(parser: Parser, bytes: Bytes, at: nat, lines: nat)
    requires EndsAt(bytes, at, |bytes|)
    ensures EntriesFrom(parser, bytes, at, lines) == AsSeq(RestEntry(parser, bytes[at..], lines + 1))
  {
    var rest := bytes[at..];
    assert forall i :: 0 <= i < |rest| ==> rest[i] == bytes[at + i];
    assert !HasNewline(rest);
    assert rest[LinesLength(rest)..] == rest;
  }

  lemma EndOf(bytes: Bytes, at: nat) returns (end: nat)
    requires at <= |bytes|
    ensures EndsAt(bytes, at, end)
  {
    end := at + LineEnd(bytes[at..]);
    assert forall i :: at <= i < |bytes| ==> bytes[i] == bytes[at..][i - at];
  }

  lemma {:induction false} EntriesFromAre(parser: Parser, bytes: Bytes, at: nat, lines: nat) returns (places: seq<nat>)
    requires Begins(bytes, at) && lines == |NewlinesBefore(bytes, at)|
    ensures AreReadAt(parser, bytes, at, places, EntriesFrom(parser, bytes, at, lines))
    decreases |bytes| - at
  {
    var end := EndOf(bytes, at);
    if end == |bytes| {
      EntriesStop(parser, bytes, at, lines);
      LastIsRead(parser, bytes, at);
      places := if RestEntry(parser, bytes[at..], lines + 1).None? then [] else [at];
    } else {
      NextLine(bytes, at, end);
      EntriesStep(parser, bytes, at, end, lines);
      var more := EntriesFromAre(parser, bytes, end + 1, lines + 1);
      OwnIsRead(parser, bytes, at, end);
      places := Joined(parser, bytes, at, end, AsSeq(EntryOf(parser, bytes[at..end], lines + 1)), more, EntriesFrom(parser, bytes, end + 1, lines + 1));
    }
  }

  lemma Joined(parser: Parser, bytes: Bytes, at: nat, end: nat, own: seq<Entry>, more: seq<nat>, entries: seq<Entry>) returns (places: seq<nat>)
    requires Begins(bytes, at) && EndsAt(bytes, at, end) && end < |bytes|
    requires |own| <= 1 && forall entry :: GivesEntry(parser, bytes, at, entry) <==> own == [entry]
    requires AreReadAt(parser, bytes, end + 1, more, entries)
    ensures AreReadAt(parser, bytes, at, places, own + entries)
  {
    JoinAll(parser, bytes, at, end, own, more);
    if own == [] {
      places := more;
      assert own + entries == entries;
    } else {
      places := [at] + more;
      JoinInOrder(parser, bytes, at, end, own[0], more, entries);
      assert own == [own[0]];
    }
  }

  lemma LastIsRead(parser: Parser, bytes: Bytes, at: nat)
    requires Begins(bytes, at) && EndsAt(bytes, at, |bytes|)
    ensures var entries := AsSeq(RestEntry(parser, bytes[at..], |NewlinesBefore(bytes, at)| + 1));
      AreReadAt(parser, bytes, at, if entries == [] then [] else [at], entries)
  {
    forall entry ensures GivesEntry(parser, bytes, at, entry) <==> RestEntry(parser, bytes[at..], |NewlinesBefore(bytes, at)| + 1) == Some(entry) {
      LastLineReads(parser, bytes, at, entry);
      GivesIs(parser, bytes, at, |bytes|, entry);
    }
  }

  lemma OwnIsRead(parser: Parser, bytes: Bytes, at: nat, end: nat)
    requires Begins(bytes, at) && EndsAt(bytes, at, end) && end < |bytes|
    ensures var own := AsSeq(EntryOf(parser, bytes[at..end], |NewlinesBefore(bytes, at)| + 1));
      |own| <= 1 && forall entry :: GivesEntry(parser, bytes, at, entry) <==> own == [entry]
  {
    forall entry ensures GivesEntry(parser, bytes, at, entry) <==> EntryOf(parser, bytes[at..end], |NewlinesBefore(bytes, at)| + 1) == Some(entry) {
      EndedLineReads(parser, bytes, at, end, entry);
      GivesIs(parser, bytes, at, end, entry);
    }
  }

  lemma JoinInOrder(parser: Parser, bytes: Bytes, at: nat, end: nat, own: Entry, more: seq<nat>, entries: seq<Entry>)
    requires EndsAt(bytes, at, end) && GivesEntry(parser, bytes, at, own)
    requires ReadInOrder(parser, bytes, end + 1, more, entries)
    ensures ReadInOrder(parser, bytes, at, [at] + more, [own] + entries)
  {
    var places, all := [at] + more, [own] + entries;
    forall i | 0 <= i < |places| ensures at <= places[i] && GivesEntry(parser, bytes, places[i], all[i]) && (i > 0 ==> places[i] == more[i - 1] > at) {
    }
  }

  lemma JoinAll(parser: Parser, bytes: Bytes, at: nat, end: nat, own: seq<Entry>, more: seq<nat>)
    requires Begins(bytes, at) && EndsAt(bytes, at, end) && end < |bytes|
    requires forall entry :: GivesEntry(parser, bytes, at, entry) ==> own == [entry]
    requires AllRead(parser, bytes, end + 1, more)
    ensures AllRead(parser, bytes, at, if own == [] then more else [at] + more)
  {
    NextLine(bytes, at, end);
  }

  lemma FromStart(parser: Parser, bytes: Bytes)
    ensures EntriesFrom(parser, bytes, 0, 0) == FullParse(LineSpec(parser, false), bytes)
  {
    FullParseKeeps(parser, bytes);
    assert bytes[0..] == bytes;
  }

  /**
   * A full parse that keeps every entry keeps one for each line that is not
   * empty, holds the needle and parses under its line number, in the order of
   * the lines; a CR before a newline is not part of the line, and a last line
   * without a newline counts as it stands.
   */
  lemma EveryLineIsRead(parser: Parser, bytes: Bytes) returns (places: seq<nat>)
    ensures AreReadAt(parser, bytes, 0, places, FullParse(LineSpec(parser, false), bytes))
  {
    assert NewlinesBefore(bytes, 0) == {};
    FromStart(parser, bytes);
    places := EntriesFromAre(parser, bytes, 0, 0);
  }


  /** The place where this entry's key first stands. */
  ghost predicate KeyFirstAt(all: seq<Entry>, key: string, j: nat) {
    j < |all| && all[j].key == key && forall m :: 0 <= m < j ==> all[m].key != key
  }

  /** Where one entry per key is kept: each key's latest, once, in the order in which the keys first stand. */
  ghost predicate KeepsLatest(all: seq<Entry>, kept: seq<Entry>) {
    && (forall entry :: entry in kept <==> IsLast(all, entry))
    && (forall i, j :: 0 <= i < j < |kept| ==> kept[i].key != kept[j].key)
    && (forall i, j, a, b :: 0 <= i < j < |kept| && KeyFirstAt(all, kept[i].key, a) && KeyFirstAt(all, kept[j].key, b) ==> a < b)
  }

  lemma {:induction false} KeysInOrder(all: seq<Entry>)
    ensures forall i, j :: 0 <= i < j < |FirstKeys(all)| ==> FirstKeys(all)[i] != FirstKeys(all)[j]
    ensures forall key :: key in FirstKeys(all) ==> exists e :: e in all && e.key == key
    ensures forall i, j, a, b :: 0 <= i < j < |FirstKeys(all)| && KeyFirstAt(all, FirstKeys(all)[i], a) && KeyFirstAt(all, FirstKeys(all)[j], b) ==> a < b
  {
    if all != [] {
      var rest, last := all[..|all| - 1], all[|all| - 1];
      KeysInOrder(rest);
      forall key, a: nat | a < |rest| && KeyFirstAt(all, key, a) ensures KeyFirstAt(rest, key, a) {
      }
    }
  }

  lemma LatestAre(all: seq<Entry>, kept: seq<Entry>)
    requires LastOfEachKey(all, kept)
    ensures KeepsLatest(all, kept)
  {
    KeysInOrder(all);
    forall entry | IsLast(all, entry) ensures entry in kept {
      var j :| 0 <= j < |all| && all[j] == entry && forall m :: j < m < |all| ==> all[m].key != entry.key;
      assert all[j].key in FirstKeys(all);
      var i :| 0 <= i < |kept| && FirstKeys(all)[i] == entry.key;
      assert IsLast(all, kept[i]);
    }
    forall entry | entry in kept ensures IsLast(all, entry) {
      var i :| 0 <= i < |kept| && kept[i] == entry;
      assert IsLast(all, kept[i]);
    }
  }

  /** A full parse that keeps one entry per key keeps the latest of each, of those it would keep else. */
  lemma LatestOfEachKeyIsKept(parser: Parser, bytes: Bytes)
    ensures KeepsLatest(FullParse(LineSpec(parser, false), bytes), FullParse(LineSpec(parser, true), bytes))
  {
    FullParseKeeps(parser, bytes);
    LatestAre(AllEntries(parser, bytes), FullParse(LineSpec(parser, true), bytes));
  }
}
