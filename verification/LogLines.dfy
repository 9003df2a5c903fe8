/**
 * A harness log as bytes, its lines, and the entries one full parse of it
 * gives: the meaning every incremental read is to agree with.
 */
module LogLines {
  import opened Common

  newtype Byte = b: int | 0 <= b < 256

  const NEWLINE: Byte := 10
  const CARRIAGE_RETURN: Byte := 13

  type Bytes = seq<Byte>

  /** One usage entry; `payload` stands for its counts and names, which the cache does not read. */
  datatype Entry = Entry(key: string, payload: Bytes)

  /** How a harness reads a line: `parse` is JSON parsing and the harness's own rule together. */
  datatype Parser = Parser(needle: Bytes, parse: (Bytes, nat) -> Option<Entry>)

  /** How a harness turns lines into entries; `lastPerKey` keeps one entry per key, the last line's. */
  datatype LineSpec = LineSpec(parser: Parser, lastPerKey: bool)

  predicate Contains(text: Bytes, needle: Bytes) {
    exists i :: 0 <= i <= |text| && FoundAt(text, needle, i)
  }

  predicate FoundAt(text: Bytes, needle: Bytes, i: nat)
    requires i <= |text|
  {
    needle <= text[i..]
  }

  /** The index of the first newline, or the length when there is none. */
  function LineEnd(bytes: Bytes): (n: nat)
    ensures n <= |bytes|
    ensures n < |bytes| ==> bytes[n] == NEWLINE
    ensures forall i :: 0 <= i < n ==> bytes[i] != NEWLINE
  {
    if bytes == [] || bytes[0] == NEWLINE then 0 else 1 + LineEnd(bytes[1..])
  }

  predicate HasNewline(bytes: Bytes) { LineEnd(bytes) < |bytes| }

  /** A CRLF line ends before its CR. */
  function StripReturn(line: Bytes): Bytes {
    if line != [] && line[|line| - 1] == CARRIAGE_RETURN then line[..|line| - 1] else line
  }

  /** The entry of a newline-terminated line, whose CR is stripped. */
  function EntryOf(parser: Parser, line: Bytes, lineNo: nat): Option<Entry> {
    var text := StripReturn(line);
    if text == [] || !Contains(text, parser.needle) then None else parser.parse(text, lineNo)
  }

  /** The entry of a last line without its newline, taken as it stands. */
  function RestEntry(parser: Parser, rest: Bytes, lineNo: nat): Option<Entry> {
    if rest == [] || !Contains(rest, parser.needle) then None else parser.parse(rest, lineNo)
  }

  /** The place of the first entry with `key`, or the number of entries. */
  function IndexOfKey(entries: seq<Entry>, key: string): (i: nat)
    ensures i <= |entries|
    ensures i < |entries| ==> entries[i].key == key
    ensures forall j :: 0 <= j < i ==> entries[j].key != key
  {
    if entries == [] || entries[0].key == key then 0 else 1 + IndexOfKey(entries[1..], key)
  }

  /** Adds an entry: in the place of the one with its key when one per key is kept, else at the end. */
  function Add(lastPerKey: bool, entries: seq<Entry>, entry: Entry): seq<Entry> {
    var at := IndexOfKey(entries, entry.key);
    if lastPerKey && at < |entries| then entries[at := entry] else entries + [entry]
  }

  function AddOption(lastPerKey: bool, entries: seq<Entry>, entry: Option<Entry>): seq<Entry> {
    if entry.None? then entries else Add(lastPerKey, entries, entry.value)
  }

  /** What parsing has come to: the entries kept and the number of lines ended. */
  datatype Parsed = Parsed(entries: seq<Entry>, lineNo: nat)

  /** Parses the newline-terminated lines of `bytes` onto `from`; a last line without its newline is left. */
  function ParseLines(spec: LineSpec, bytes: Bytes, from: Parsed): Parsed
    decreases |bytes|
  {
    if !HasNewline(bytes) then from
    else
      var end := LineEnd(bytes);
      ParseLines(spec, bytes[end + 1..], OneLine(spec, bytes[..end], from))
  }

  function OneLine(spec: LineSpec, line: Bytes, from: Parsed): Parsed {
    Parsed(AddOption(spec.lastPerKey, from.entries, EntryOf(spec.parser, line, from.lineNo + 1)), from.lineNo + 1)
  }

  /** How many bytes the newline-terminated lines of `bytes` take. */
  function LinesLength(bytes: Bytes): (n: nat)
    ensures n <= |bytes|
    ensures n > 0 ==> bytes[n - 1] == NEWLINE
    ensures forall i :: n <= i < |bytes| ==> bytes[i] != NEWLINE
  {
    if !HasNewline(bytes) then 0
    else
      var end := LineEnd(bytes);
      end + 1 + LinesLength(bytes[end + 1..])
  }

  const START := Parsed([], 0)

  /** Every entry of a file: those of its lines, then that of a last line without a newline. */
  function FullParse(spec: LineSpec, bytes: Bytes): seq<Entry> {
    WithRest(spec, ParseLines(spec, bytes, START), bytes[LinesLength(bytes)..])
  }

  /** The entries of the lines parsed, with the one of a last line that has no newline. */
  function WithRest(spec: LineSpec, lines: Parsed, rest: Bytes): seq<Entry> {
    AddOption(spec.lastPerKey, lines.entries, RestEntry(spec.parser, rest, lines.lineNo + 1))
  }

  // ---- lines may be parsed in pieces ----

  lemma LineEndOfConcat(a: Bytes, b: Bytes)
    ensures HasNewline(a) ==> LineEnd(a + b) == LineEnd(a)
    ensures !HasNewline(a) ==> LineEnd(a + b) == |a| + LineEnd(b)
    decreases |a|
  {
    if a == [] {
      assert a + b == b;
    } else if a[0] != NEWLINE {
      assert (a + b)[1..] == a[1..] + b;
      LineEndOfConcat(a[1..], b);
    }
  }

  predicate WholeLines(bytes: Bytes) { bytes == [] || bytes[|bytes| - 1] == NEWLINE }

  /** Parsing whole lines and then the rest is parsing all at once. */
  lemma {:induction false} ParseConcat(spec: LineSpec, a: Bytes, b: Bytes, from: Parsed)
    requires WholeLines(a)
    ensures ParseLines(spec, a + b, from) == ParseLines(spec, b, ParseLines(spec, a, from))
    ensures LinesLength(a + b) == |a| + LinesLength(b)
    decreases |a|
  {
    if a == [] {
      assert a + b == b;
    } else {
      assert HasNewline(a);
      var end := LineEnd(a);
      LineEndOfConcat(a, b);
      assert (a + b)[end + 1..] == a[end + 1..] + b;
      assert (a + b)[..end] == a[..end];
      ParseConcat(spec, a[end + 1..], b, OneLine(spec, a[..end], from));
    }
  }

  /** The lines of `bytes` are those of its newline-terminated part. */
  lemma {:induction false} ParseWhole(spec: LineSpec, bytes: Bytes, from: Parsed)
    ensures WholeLines(bytes[..LinesLength(bytes)])
    ensures ParseLines(spec, bytes[..LinesLength(bytes)], from) == ParseLines(spec, bytes, from)
  {
    var n := LinesLength(bytes);
    assert bytes == bytes[..n] + bytes[n..];
    ParseConcat(spec, bytes[..n], bytes[n..], from);
    assert !HasNewline(bytes[n..]);
  }

  // ---- what a full parse keeps ----

  function AsSeq(entry: Option<Entry>): seq<Entry> { if entry.None? then [] else [entry.value] }

  /** The entries of the newline-terminated lines after line `lineNo`, none replaced. */
  function LineEntries(parser: Parser, bytes: Bytes, lineNo: nat): seq<Entry>
    decreases |bytes|
  {
    if !HasNewline(bytes) then []
    else
      var end := LineEnd(bytes);
      AsSeq(EntryOf(parser, bytes[..end], lineNo + 1)) + LineEntries(parser, bytes[end + 1..], lineNo + 1)
  }

  /** How many lines end in `bytes`. */
  function LineCount(bytes: Bytes): nat
    decreases |bytes|
  {
    if !HasNewline(bytes) then 0 else 1 + LineCount(bytes[LineEnd(bytes) + 1..])
  }

  /** Every entry of a file in the order of its lines, none replaced. */
  function AllEntries(parser: Parser, bytes: Bytes): seq<Entry> {
    LineEntries(parser, bytes, 0) + AsSeq(RestEntry(parser, bytes[LinesLength(bytes)..], LineCount(bytes) + 1))
  }

  /** `entries` with each of `more` added in turn. */
  function AddAll(lastPerKey: bool, entries: seq<Entry>, more: seq<Entry>): seq<Entry> {
    if more == [] then entries
    else Add(lastPerKey, AddAll(lastPerKey, entries, more[..|more| - 1]), more[|more| - 1])
  }

  lemma {:induction false} AddAllConcat(lastPerKey: bool, entries: seq<Entry>, a: seq<Entry>, b: seq<Entry>)
    ensures AddAll(lastPerKey, entries, a + b) == AddAll(lastPerKey, AddAll(lastPerKey, entries, a), b)
  {
    if b == [] {
      assert a + b == a;
    } else {
      assert (a + b)[..|a + b| - 1] == a + b[..|b| - 1];
      AddAllConcat(lastPerKey, entries, a, b[..|b| - 1]);
    }
  }

  lemma AddOneOrNone(lastPerKey: bool, entries: seq<Entry>, entry: Option<Entry>)
    ensures AddAll(lastPerKey, entries, AsSeq(entry)) == AddOption(lastPerKey, entries, entry)
  {
    if entry.Some? {
      assert AsSeq(entry)[..0] == [];
    }
  }

  lemma {:induction false} ParseAddsLineEntries(spec: LineSpec, bytes: Bytes, from: Parsed)
    ensures var parsed := ParseLines(spec, bytes, from);
      && parsed.entries == AddAll(spec.lastPerKey, from.entries, LineEntries(spec.parser, bytes, from.lineNo))
      && parsed.lineNo == from.lineNo + LineCount(bytes)
    decreases |bytes|
  {
    if HasNewline(bytes) {
      var line, rest := bytes[..LineEnd(bytes)], bytes[LineEnd(bytes) + 1..];
      var entry := EntryOf(spec.parser, line, from.lineNo + 1);
      AddOneOrNone(spec.lastPerKey, from.entries, entry);
      AddAllConcat(spec.lastPerKey, from.entries, AsSeq(entry), LineEntries(spec.parser, rest, from.lineNo + 1));
      ParseAddsLineEntries(spec, rest, OneLine(spec, line, from));
    }
  }

  /** A full parse is every entry of the file, added in turn. */
  lemma FullParseAddsAll(spec: LineSpec, bytes: Bytes)
    ensures FullParse(spec, bytes) == AddAll(spec.lastPerKey, [], AllEntries(spec.parser, bytes))
  {
    ParseAddsLineEntries(spec, bytes, START);
    var lines := LineEntries(spec.parser, bytes, 0);
    var rest := RestEntry(spec.parser, bytes[LinesLength(bytes)..], LineCount(bytes) + 1);
    AddAllConcat(spec.lastPerKey, [], lines, AsSeq(rest));
    AddOneOrNone(spec.lastPerKey, AddAll(spec.lastPerKey, [], lines), rest);
  }

  /** The keys of `all` in the order they first appear. */
  function FirstKeys(all: seq<Entry>): (keys: seq<string>)
    ensures forall i :: 0 <= i < |all| ==> all[i].key in keys
  {
    if all == [] then []
    else
      var keys := FirstKeys(all[..|all| - 1]);
      var last := all[|all| - 1].key;
      assert forall i :: 0 <= i < |all| - 1 ==> all[..|all| - 1][i] == all[i];
      if last in keys then keys else keys + [last]
  }

  /** The entry stands in `all` with no later one of its key. */
  ghost predicate IsLast(all: seq<Entry>, entry: Entry) {
    exists j :: 0 <= j < |all| && all[j] == entry && forall m :: j < m < |all| ==> all[m].key != entry.key
  }

  /** `kept` holds, for each key of `all`, its last entry, in the order the keys first appear. */
  ghost predicate LastOfEachKey(all: seq<Entry>, kept: seq<Entry>) {
    && |kept| == |FirstKeys(all)|
    && forall i :: 0 <= i < |kept| ==> kept[i].key == FirstKeys(all)[i] && IsLast(all, kept[i])
  }

  ghost predicate UniqueKeys(entries: seq<Entry>) {
    forall i, j :: 0 <= i < j < |entries| ==> entries[i].key != entries[j].key
  }

  lemma {:induction false} FirstKeysOnce(all: seq<Entry>)
    ensures NoRepeats(FirstKeys(all))
  {
    if all != [] {
      FirstKeysOnce(all[..|all| - 1]);
    }
  }

  lemma AddKeepsLast(all: seq<Entry>, kept: seq<Entry>, entry: Entry)
    requires LastOfEachKey(all, kept)
    ensures LastOfEachKey(all + [entry], Add(true, kept, entry))
  {
    var more, next := all + [entry], Add(true, kept, entry);
    assert more[..|more| - 1] == all;
    FirstKeysOnce(all);
    forall i | 0 <= i < |next|
      ensures next[i].key == FirstKeys(more)[i] && IsLast(more, next[i])
    {
      if next[i].key == entry.key {
        assert next[i] == entry && more[|all|] == entry;
      } else {
        var j :| 0 <= j < |all| && all[j] == kept[i] && forall m :: j < m < |all| ==> all[m].key != kept[i].key;
        assert more[j] == next[i];
      }
    }
  }

  lemma {:induction false} AddAllKeepsLast(all: seq<Entry>)
    ensures LastOfEachKey(all, AddAll(true, [], all))
  {
    if all != [] {
      AddAllKeepsLast(all[..|all| - 1]);
      AddKeepsLast(all[..|all| - 1], AddAll(true, [], all[..|all| - 1]), all[|all| - 1]);
      assert all == all[..|all| - 1] + [all[|all| - 1]];
    }
  }

  lemma {:induction false} AddAllKeepsEach(all: seq<Entry>)
    ensures AddAll(false, [], all) == all
  {
    if all != [] {
      AddAllKeepsEach(all[..|all| - 1]);
    }
  }

  lemma LastAreUnique(all: seq<Entry>, kept: seq<Entry>)
    requires LastOfEachKey(all, kept)
    ensures UniqueKeys(kept)
  {
    FirstKeysOnce(all);
  }

  /**
   * What a full parse keeps: every entry in line order, or, where one entry
   * per key is kept, the last entry of each key, each key once, in the order
   * the keys first appear in the file.
   */
  lemma FullParseKeeps(parser: Parser, bytes: Bytes)
    ensures FullParse(LineSpec(parser, false), bytes) == AllEntries(parser, bytes)
    ensures LastOfEachKey(AllEntries(parser, bytes), FullParse(LineSpec(parser, true), bytes))
    ensures UniqueKeys(FullParse(LineSpec(parser, true), bytes))
  {
    var all := AllEntries(parser, bytes);
    FullParseAddsAll(LineSpec(parser, false), bytes);
    FullParseAddsAll(LineSpec(parser, true), bytes);
    AddAllKeepsEach(all);
    AddAllKeepsLast(all);
    LastAreUnique(all, AddAll(true, [], all));
  }

  lemma ParseHasUniqueKeys(spec: LineSpec, bytes: Bytes)
    requires spec.lastPerKey
    ensures UniqueKeys(ParseLines(spec, bytes, START).entries)
  {
    var lines := LineEntries(spec.parser, bytes, 0);
    ParseAddsLineEntries(spec, bytes, START);
    AddAllKeepsLast(lines);
    LastAreUnique(lines, AddAll(true, [], lines));
  }
}
