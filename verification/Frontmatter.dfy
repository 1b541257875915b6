/**
 * Flat frontmatter (src/frontmatter.ts, the parser in src/scanTickets.ts): the writer and the
 * reader of ticket files, over documents as sequences of lines.
 */
module Frontmatters {
  import opened Prelude
  import opened Text

  /** The lines of a document, without their newlines; the empty document is one empty line. */
  type Doc = seq<string>

  // ----- key lines -----

  datatype Entry = Entry(key: string, value: string)

  datatype FmValue = Flag(on: bool) | Items(items: seq<string>) | Scalar(text: string)

  /** [\w-] */
  predicate IsKeyChar(c: char) {
    'a' <= c <= 'z' || 'A' <= c <= 'Z' || '0' <= c <= '9' || c == '_' || c == '-'
  }

  predicate IsKey(s: string) {
    s != "" && forall i :: 0 <= i < |s| ==> IsKeyChar(s[i])
  }

  /** How many key characters a line starts with. */
  function KeyLength(s: string): (n: nat)
    ensures n <= |s| && (forall i :: 0 <= i < n ==> IsKeyChar(s[i])) && (n < |s| ==> !IsKeyChar(s[n]))
  {
    if s != "" && IsKeyChar(s[0]) then 1 + KeyLength(s[1..]) else 0
  }

  /** /^([\w-]+):\s*(.*)$/ on the trimmed line, the value trimmed in turn. */
  function ReadEntry(line: string): Option<Entry> {
    var t := Trim(line);
    var n := KeyLength(t);
    if n == 0 || n == |t| || t[n] != ':' then None
    else
      var rest := TrimLeft(t[n + 1..]);
      if OneLine(rest) then Some(Entry(t[..n], Trim(rest))) else None
  }

  /** `${key}: ${value}` */
  function WriteEntry(e: Entry): string {
    e.key + ": " + e.value
  }

  /** An entry that can be written on a line of its own and read back. */
  predicate Writable(e: Entry) {
    IsKey(e.key) && !StartsWith(e.key, "---") && OneLine(e.value)
  }

  /** The blank and the value, as they stand at the end of a trimmed line. */
  function Padded(value: string): string {
    if TrimRight(value) == "" then "" else " " + TrimRight(value)
  }

  lemma PaddedTrims(value: string)
    ensures TrimLeft(Padded(value)) == Trim(value) && TrimRight(" " + value) == Padded(value)
  {
    TrimEndsCommute(value);
    TrimRightOfAppend(" ", value);
    var r := TrimRight(value);
    assert Init(" ") == "";
    assert (" " + r)[1..] == r;
  }

  lemma KeyStartsTight(key: string, rest: string)
    requires IsKey(key)
    ensures TrimLeft(key + rest) == key + rest
  {
    assert (key + rest)[0] == key[0];
  }

  lemma ColonEndsTight(key: string)
    ensures TrimRight(key + ":") == key + ":"
  {
    assert Last(key + ":") == ':';
  }

  lemma TrimOfEntry(e: Entry)
    requires IsKey(e.key)
    ensures Trim(WriteEntry(e)) == e.key + ":" + Padded(e.value)
  {
    hide TrimLeft, TrimRight;
    PaddedTrims(e.value);
    ColonEndsTight(e.key);
    hide Padded;
    KeyStartsTight(e.key, ": " + e.value);
    assert WriteEntry(e) == e.key + (": " + e.value);
    assert WriteEntry(e) == (e.key + ":") + (" " + e.value);
    TrimRightOfAppend(e.key + ":", " " + e.value);
    assert Padded(e.value) == "" ==> e.key + ":" + Padded(e.value) == e.key + ":";
  }

  lemma NotAFence(e: Entry)
    requires Writable(e)
    ensures !StartsWith(WriteEntry(e), "---")
  {
    var line := WriteEntry(e);
    assert line[..|e.key|] == e.key && line[|e.key|] == ':';
    if |e.key| >= 3 {
      assert line[..3] == e.key[..3];
    } else if |line| >= 3 {
      assert line[..3][|e.key|] == ':';
    }
  }

  lemma KeyLengthOf(key: string, s: string)
    requires IsKey(key) && |key| < |s| && s[..|key|] == key && s[|key|] == ':'
    ensures KeyLength(s) == |key| > 0
  {
    assert forall i :: 0 <= i < |key| ==> s[i] == key[i] && IsKeyChar(s[i]);
    assert !IsKeyChar(s[|key|]);
    hide KeyLength;
  }

  /** How a line that trims to a key and a colon reads. */
  lemma ReadsAs(line: string, key: string, rest: string)
    requires IsKey(key) && Trim(line) == key + ":" + rest
    ensures ReadEntry(line) == if OneLine(TrimLeft(rest)) then Some(Entry(key, Trim(TrimLeft(rest)))) else None
  {
    hide Trim, TrimLeft, OneLine, IsKey;
    var t := key + ":" + rest;
    assert t[..|key|] == key && t[|key|] == ':';
    assert t[|key| + 1..] == rest;
    KeyLengthOf(key, t);
    hide KeyLength;
  }

  /** A written entry reads back as its key and its value, outer blanks aside. */
  lemma EntryRoundTrip(e: Entry)
    requires IsKey(e.key) && OneLine(e.value)
    ensures ReadEntry(WriteEntry(e)) == Some(Entry(e.key, Trim(e.value)))
  {
    hide *;
    TrimOfEntry(e);
    PaddedTrims(e.value);
    ReadsAs(WriteEntry(e), e.key, Padded(e.value));
    TrimOneLine(e.value);
    TrimIsTrimmed(e.value);
    TrimmedStays(Trim(e.value));
  }

  // ----- values -----

  predicate IsQuote(c: char) {
    c == '"' || c == '\''
  }

  /** replace(/^["']|["']$/g, "") */
  function StripQuotes(s: string): string {
    var front := if s != "" && IsQuote(s[0]) then s[1..] else s;
    if front != "" && IsQuote(Last(front)) then Init(front) else front
  }

  function CleanItems(parts: seq<string>): seq<string> {
    if parts == [] then []
    else (if StripQuotes(parts[0]) == "" then [] else [StripQuotes(parts[0])]) + CleanItems(parts[1..])
  }

  /** What the parser makes of a trimmed value. */
  function Interpret(value: string): FmValue {
    if value == "true" || value == "false" then Flag(value == "true")
    else if value != "" && value[0] == '[' && Last(value) == ']' then
      Items(CleanItems(TrimAll(Split(value[1..|value| - 1], ','))))
    else Scalar(StripQuotes(value))
  }

  /** Quotes around a value are not part of it, and make it no flag and no list. */
  lemma QuotedReads(left: char, value: string, right: char)
    requires IsQuote(left) && IsQuote(right)
    ensures Interpret([left] + value + [right]) == Scalar(value)
  {
    var s := [left] + value + [right];
    assert s[0] == left && s[1..] == value + [right] && Last(value + [right]) == right;
    assert Init(value + [right]) == value;
    hide TrimAll, CleanItems, Split;
  }

  /** Text that reads as itself: no flag, no list, no quotes at either end. */
  predicate PlainScalar(value: string) {
    && Trimmed(value) && value != "true" && value != "false"
    && (value != "" ==> !IsQuote(value[0]) && !IsQuote(Last(value)) && value[0] != '[')
  }

  lemma PlainScalarReads(value: string)
    requires PlainScalar(value)
    ensures Interpret(Trim(value)) == Scalar(value)
  {
    hide Trim, TrimLeft, TrimRight, TrimAll, Split, CleanItems;
    TrimmedStays(value);
    assert StripQuotes(value) == value;
    hide StripQuotes;
  }

  // ----- the block -----

  /** The first line from `k` on that starts with three hyphens, or the document's length. */
  function FenceFrom(doc: seq<string>, k: nat): (j: nat)
    requires k <= |doc|
    ensures k <= j <= |doc|
    ensures forall i :: k <= i < j ==> !StartsWith(doc[i], "---")
    ensures j < |doc| ==> StartsWith(doc[j], "---")
    decreases |doc| - k
  {
    if k == |doc| || StartsWith(doc[k], "---") then k else FenceFrom(doc, k + 1)
  }

  /** /^---\n([\s\S]*?)\n---/ needs an opening fence, at least one line, and a closing fence. */
  predicate HasBlock(doc: Doc) {
    |doc| > 2 && doc[0] == "---" && FenceFrom(doc, 2) < |doc|
  }

  function Block(doc: Doc): (block: seq<string>)
    requires HasBlock(doc)
    ensures block != []
  {
    doc[1..FenceFrom(doc, 2)]
  }

  /** What follows the block: the text after the closing fence counts as a line of its own. */
  function Rest(doc: Doc): (rest: seq<string>)
    requires HasBlock(doc)
    ensures rest != []
  {
    var end := FenceFrom(doc, 2);
    if doc[end] == "---" && end + 1 < |doc| then doc[end + 1..] else [doc[end][3..]] + doc[end + 1..]
  }

  /** `---\n${block.join("\n")}\n---\n${rest}`: no lines at all still make an empty one. */
  function Rebuild(block: seq<string>, rest: seq<string>): Doc {
    ["---"] + (if block == [] then [""] else block) + ["---"] + rest
  }

  /** No line after the first could be taken for the closing fence. */
  predicate Unfenced(block: seq<string>) {
    forall i :: 1 <= i < |block| ==> !StartsWith(block[i], "---")
  }

  lemma BlockIsUnfenced(doc: Doc)
    requires HasBlock(doc)
    ensures Unfenced(Block(doc))
  {
    assert forall i :: 1 <= i < |Block(doc)| ==> Block(doc)[i] == doc[i + 1];
  }

  lemma FenceIsAt(doc: seq<string>, k: nat, j: nat)
    requires k <= j < |doc| && StartsWith(doc[j], "---")
    requires forall i :: k <= i < j ==> !StartsWith(doc[i], "---")
    ensures FenceFrom(doc, k) == j
  {
    var f := FenceFrom(doc, k);
    hide StartsWith, FenceFrom;
    assert !(f < j);
    assert !(j < f);
  }

  /** A rebuilt document has the block and the rest it was built from. */
  lemma RebuildReads(block: seq<string>, rest: seq<string>)
    requires Unfenced(block) && rest != []
    ensures var doc := Rebuild(block, rest);
            HasBlock(doc) && Block(doc) == (if block == [] then [""] else block) && Rest(doc) == rest
  {
    var doc := Rebuild(block, rest);
    var lines := if block == [] then [""] else block;
    var end := |lines| + 1;
    assert forall i :: 2 <= i < end ==> doc[i] == lines[i - 1];
    assert doc[end] == "---" && StartsWith("---", "---");
    FenceIsAt(doc, 2, end);
    assert doc[1..end] == lines && doc[end + 1..] == rest;
  }

  // ----- reading -----

  predicate IsEntryFor(line: string, key: string) {
    ReadEntry(line).Some? && ReadEntry(line).value.key == key
  }

  /** The value a block gives a key: its last entry wins. */
  function Lookup(block: seq<string>, key: string): Option<FmValue> {
    if block == [] then None
    else if Lookup(block[1..], key).Some? then Lookup(block[1..], key)
    else if IsEntryFor(block[0], key) then Some(Interpret(ReadEntry(block[0]).value.value))
    else None
  }

  function CountOf(block: seq<string>, key: string): nat {
    if block == [] then 0 else (if IsEntryFor(block[0], key) then 1 else 0) + CountOf(block[1..], key)
  }

  lemma {:induction false} AbsentIff(block: seq<string>, key: string)
    ensures Lookup(block, key).None? <==> CountOf(block, key) == 0
  {
    if block != [] {
      AbsentIff(block[1..], key);
    }
  }

  lemma {:induction false} LookupSnoc(block: seq<string>, line: string, key: string)
    ensures Lookup(block + [line], key) ==
            if IsEntryFor(line, key) then Some(Interpret(ReadEntry(line).value.value)) else Lookup(block, key)
  {
    if block == [] {
      assert Lookup([line][1..], key) == None;
    } else {
      assert (block + [line])[1..] == block[1..] + [line];
      LookupSnoc(block[1..], line, key);
    }
  }

  /** What a document gives a key. */
  function Field(doc: Doc, key: string): Option<FmValue> {
    if HasBlock(doc) then Lookup(Block(doc), key) else None
  }

  /** The reading loop: later entries overwrite earlier ones. */
  method ReadBlock(block: seq<string>) returns (fm: map<string, FmValue>)
    ensures forall key :: key in fm <==> Lookup(block, key).Some?
    ensures forall key :: key in fm ==> Some(fm[key]) == Lookup(block, key)
  {
    fm := map[];
    hide Interpret, ReadEntry;
    assert forall key :: Lookup(block[..0], key) == None;
    hide Lookup;
    for i := 0 to |block|
      invariant forall key :: key in fm <==> Lookup(block[..i], key).Some?
      invariant forall key :: key in fm ==> Some(fm[key]) == Lookup(block[..i], key)
    {
      var line := block[i];
      ghost var read, next := block[..i], block[..i + 1];
      assert next == read + [line];
      forall key
        ensures Lookup(next, key) ==
                if IsEntryFor(line, key) then Some(Interpret(ReadEntry(line).value.value)) else Lookup(read, key)
      {
        LookupSnoc(read, line, key);
      }
      var entry := ReadEntry(line);
      if entry.Some? {
        fm := fm[entry.value.key := Interpret(entry.value.value)];
      }
    }
    assert block[..|block|] == block;
  }

  /** parseFrontmatter: the record the lines are read into is exactly the fields of the document. */
  method ParseFrontmatter(doc: Doc) returns (fm: map<string, FmValue>)
    ensures forall key :: key in fm <==> Field(doc, key).Some?
    ensures forall key :: key in fm ==> Some(fm[key]) == Field(doc, key)
  {
    hide Lookup;
    if HasBlock(doc) {
      fm := ReadBlock(Block(doc));
    } else {
      fm := map[];
    }
  }

  // ----- writing -----

  function Find(entries: seq<Entry>, key: string): Option<string> {
    if entries == [] then None
    else if entries[0].key == key then Some(entries[0].value)
    else Find(entries[1..], key)
  }

  function Drop(entries: seq<Entry>, key: string): seq<Entry> {
    if entries == [] then []
    else if entries[0].key == key then Drop(entries[1..], key)
    else [entries[0]] + Drop(entries[1..], key)
  }

  function WriteAll(entries: seq<Entry>): (lines: seq<string>)
    ensures |lines| == |entries|
  {
    if entries == [] then [] else [WriteEntry(entries[0])] + WriteAll(entries[1..])
  }

  /** Existing keys rewritten where they first stand, the remaining ones appended. */
  function Rewrite(block: seq<string>, remaining: seq<Entry>): seq<string> {
    if block == [] then WriteAll(remaining)
    else
      var entry := ReadEntry(block[0]);
      if entry.Some? && Find(remaining, entry.value.key).Some? then
        [WriteEntry(Entry(entry.value.key, Find(remaining, entry.value.key).value))]
        + Rewrite(block[1..], Drop(remaining, entry.value.key))
      else [block[0]] + Rewrite(block[1..], remaining)
  }

  function Upserted(doc: Doc, updates: seq<Entry>): Doc {
    if HasBlock(doc) then Rebuild(Rewrite(Block(doc), updates), Rest(doc))
    else Rebuild(WriteAll(updates), [""] + doc)
  }

  lemma RewriteStep(block: seq<string>, i: nat, remaining: seq<Entry>)
    requires i < |block|
    ensures var entry := ReadEntry(block[i]);
            Rewrite(block[i..], remaining) ==
            if entry.Some? && Find(remaining, entry.value.key).Some? then
              [WriteEntry(Entry(entry.value.key, Find(remaining, entry.value.key).value))]
              + Rewrite(block[i + 1..], Drop(remaining, entry.value.key))
            else [block[i]] + Rewrite(block[i + 1..], remaining)
  {
    hide ReadEntry, Find, Drop, WriteEntry;
    assert block[i..][0] == block[i] && block[i..][1..] == block[i + 1..];
  }

  /** The rewriting loop: the map of remaining updates shrinks as the block is walked. */
  method RewriteBlock(block: seq<string>, updates: seq<Entry>) returns (rewritten: seq<string>)
    ensures rewritten == Rewrite(block, updates)
  {
    var remaining := updates;
    rewritten := [];
    assert block[0..] == block;
    hide *;
    for i := 0 to |block|
      invariant rewritten + Rewrite(block[i..], remaining) == Rewrite(block, updates)
    {
      RewriteStep(block, i, remaining);
      var entry := ReadEntry(block[i]);
      var line := block[i];
      if entry.Some? && Find(remaining, entry.value.key).Some? {
        line := WriteEntry(Entry(entry.value.key, Find(remaining, entry.value.key).value));
        remaining := Drop(remaining, entry.value.key);
      }
      ghost var tail := Rewrite(block[i + 1..], remaining);
      assert rewritten + ([line] + tail) == (rewritten + [line]) + tail;
      rewritten := rewritten + [line];
    }
    assert block[|block|..] == [];
    RewriteEnd(remaining);
    rewritten := rewritten + WriteAll(remaining);
  }

  lemma RewriteEnd(remaining: seq<Entry>)
    ensures Rewrite([], remaining) == WriteAll(remaining)
  {
  }

  /** upsertFrontmatter */
  method UpsertFrontmatter(doc: Doc, updates: seq<Entry>) returns (r: Doc)
    ensures r == Upserted(doc, updates)
  {
    if !HasBlock(doc) {
      return Rebuild(WriteAll(updates), [""] + doc);
    }
    var rewritten := RewriteBlock(Block(doc), updates);
    r := Rebuild(rewritten, Rest(doc));
  }

  // ----- reading what was written -----

  predicate AllWritable(entries: seq<Entry>) {
    forall e :: e in entries ==> Writable(e)
  }

  predicate DistinctKeys(entries: seq<Entry>) {
    forall i, j :: 0 <= i < j < |entries| ==> entries[i].key != entries[j].key
  }

  lemma WrittenReads(e: Entry, key: string)
    requires Writable(e)
    ensures IsEntryFor(WriteEntry(e), key) <==> e.key == key
    ensures ReadEntry(WriteEntry(e)) == Some(Entry(e.key, Trim(e.value)))
  {
    EntryRoundTrip(e);
  }

  lemma {:induction false} FindIsWritable(entries: seq<Entry>, key: string)
    requires AllWritable(entries) && Find(entries, key).Some?
    ensures Writable(Entry(key, Find(entries, key).value))
  {
    if entries[0].key == key {
      assert entries[0] == Entry(key, entries[0].value);
    } else {
      FindIsWritable(entries[1..], key);
    }
  }

  lemma {:induction false} FindAfterDrop(entries: seq<Entry>, key: string, other: string)
    ensures Find(Drop(entries, key), other) == if other == key then None else Find(entries, other)
  {
    if entries != [] {
      FindAfterDrop(entries[1..], key, other);
      if entries[0].key != key {
        assert Drop(entries, key)[1..] == Drop(entries[1..], key);
      }
    }
  }

  lemma {:induction false} DropSelects(entries: seq<Entry>, key: string)
    ensures forall e :: e in Drop(entries, key) ==> e in entries
  {
    if entries != [] {
      DropSelects(entries[1..], key);
      assert forall e :: e in entries[1..] ==> e in entries;
    }
  }

  lemma {:induction false} DropKeepsDistinct(entries: seq<Entry>, key: string)
    requires DistinctKeys(entries)
    ensures DistinctKeys(Drop(entries, key))
  {
    if entries != [] {
      DropKeepsDistinct(entries[1..], key);
      DropSelects(entries[1..], key);
      var rest := Drop(entries[1..], key);
      forall e | e in rest
        ensures e.key != entries[0].key
      {
        var i :| 0 <= i < |entries[1..]| && entries[1..][i] == e;
        assert entries[i + 1] == e;
      }
    }
  }

  lemma {:induction false} LookupWritten(entries: seq<Entry>, key: string)
    requires AllWritable(entries) && DistinctKeys(entries)
    ensures var found := Find(entries, key);
            Lookup(WriteAll(entries), key) == if found.Some? then Some(Interpret(Trim(found.value))) else None
  {
    if entries != [] {
      LookupWritten(entries[1..], key);
      WrittenReads(entries[0], key);
      if entries[0].key == key {
        NotFoundLater(entries, key);
      }
      assert WriteAll(entries)[1..] == WriteAll(entries[1..]);
      hide Interpret, ReadEntry, WriteEntry;
    }
  }

  lemma {:induction false} FoundIsListed(entries: seq<Entry>, key: string)
    requires Find(entries, key).Some?
    ensures exists i :: 0 <= i < |entries| && entries[i].key == key
  {
    if entries[0].key != key {
      FoundIsListed(entries[1..], key);
    }
  }

  lemma NotFoundLater(entries: seq<Entry>, key: string)
    requires entries != [] && DistinctKeys(entries) && entries[0].key == key
    ensures Find(entries[1..], key).None?
  {
    if Find(entries[1..], key).Some? {
      FoundIsListed(entries[1..], key);
    }
  }

  lemma LookupCons(line: string, rest: seq<string>, key: string)
    ensures Lookup([line] + rest, key) ==
            if Lookup(rest, key).Some? then Lookup(rest, key)
            else if IsEntryFor(line, key) then Some(Interpret(ReadEntry(line).value.value))
            else None
    ensures CountOf([line] + rest, key) == (if IsEntryFor(line, key) then 1 else 0) + CountOf(rest, key)
  {
    assert ([line] + rest)[1..] == rest;
    hide Interpret, ReadEntry;
  }

  /** The block after an upsert: an updated key reads as written unless the block repeats it, other keys as before. */
  lemma {:induction false} LookupRewritten(block: seq<string>, updates: seq<Entry>, key: string)
    requires AllWritable(updates) && DistinctKeys(updates)
    ensures var found := Find(updates, key);
            Lookup(Rewrite(block, updates), key) ==
            if found.Some? && CountOf(block, key) <= 1 then Some(Interpret(Trim(found.value))) else Lookup(block, key)
  {
    if block == [] {
      LookupWritten(updates, key);
    } else {
      var line, tail := block[0], block[1..];
      assert block == [line] + tail && block[0..] == block;
      var entry := ReadEntry(line);
      AbsentIff(tail, key);
      LookupCons(line, tail, key);
      RewriteStep(block, 0, updates);
      if entry.Some? && Find(updates, entry.value.key).Some? {
        var written := Entry(entry.value.key, Find(updates, entry.value.key).value);
        FindIsWritable(updates, entry.value.key);
        WrittenReads(written, key);
        DropSelects(updates, entry.value.key);
        DropKeepsDistinct(updates, entry.value.key);
        FindAfterDrop(updates, entry.value.key, key);
        LookupRewritten(tail, Drop(updates, entry.value.key), key);
        LookupCons(WriteEntry(written), Rewrite(tail, Drop(updates, entry.value.key)), key);
        hide Interpret, ReadEntry, WriteEntry, Find, Drop, Lookup, CountOf, Rewrite, Writable, DistinctKeys, Trim;
      } else {
        LookupRewritten(tail, updates, key);
        LookupCons(line, Rewrite(tail, updates), key);
        hide Interpret, ReadEntry, WriteEntry, Find, Drop, Lookup, CountOf, Rewrite, Writable, DistinctKeys, Trim;
      }
    }
  }

  predicate NoFence(lines: seq<string>) {
    forall line :: line in lines ==> !StartsWith(line, "---")
  }

  lemma UnfencedTail(block: seq<string>)
    requires block != []
    ensures Unfenced(block) <==> NoFence(block[1..])
  {
    hide StartsWith;
    assert forall i :: 1 <= i < |block| ==> block[i] == block[1..][i - 1];
  }

  lemma {:induction false} WrittenUnfenced(entries: seq<Entry>)
    requires AllWritable(entries)
    ensures NoFence(WriteAll(entries))
  {
    if entries != [] {
      WrittenUnfenced(entries[1..]);
      NotAFence(entries[0]);
      hide StartsWith, WriteEntry;
    }
  }

  lemma {:induction false} RewrittenUnfenced(block: seq<string>, updates: seq<Entry>)
    requires AllWritable(updates) && NoFence(block)
    ensures NoFence(Rewrite(block, updates))
  {
    if block == [] {
      WrittenUnfenced(updates);
    } else {
      var entry := ReadEntry(block[0]);
      if entry.Some? && Find(updates, entry.value.key).Some? {
        FindIsWritable(updates, entry.value.key);
        NotAFence(Entry(entry.value.key, Find(updates, entry.value.key).value));
        DropSelects(updates, entry.value.key);
        RewrittenUnfenced(block[1..], Drop(updates, entry.value.key));
      } else {
        RewrittenUnfenced(block[1..], updates);
      }
      hide StartsWith, ReadEntry, WriteEntry, Find, Drop;
    }
  }

  /** The first line of a block may look like a fence; no line after it does, before or after an upsert. */
  lemma RewriteKeepsUnfenced(block: seq<string>, updates: seq<Entry>)
    requires AllWritable(updates) && Unfenced(block)
    ensures Unfenced(Rewrite(block, updates))
  {
    if block == [] {
      WrittenUnfenced(updates);
    } else {
      UnfencedTail(block);
      assert block[0..] == block;
      RewriteStep(block, 0, updates);
      var entry := ReadEntry(block[0]);
      if entry.Some? && Find(updates, entry.value.key).Some? {
        DropSelects(updates, entry.value.key);
        RewrittenUnfenced(block[1..], Drop(updates, entry.value.key));
      } else {
        RewrittenUnfenced(block[1..], updates);
      }
      hide StartsWith, ReadEntry, WriteEntry, Find, Drop, Rewrite, NoFence;
      UnfencedTail(Rewrite(block, updates));
    }
  }

  function CountIn(doc: Doc, key: string): nat {
    if HasBlock(doc) then CountOf(Block(doc), key) else 0
  }

  /**
   * The writer and the reader agree. After an upsert every updated key reads as written, unless
   * the block held the key more than once (the first is replaced, the last is read); every other
   * key reads as before, and what follows the block is untouched.
   */
  lemma UpsertReadsBack(doc: Doc, updates: seq<Entry>, key: string)
    requires AllWritable(updates) && DistinctKeys(updates)
    ensures var r, found := Upserted(doc, updates), Find(updates, key);
            && HasBlock(r)
            && Rest(r) == (if HasBlock(doc) then Rest(doc) else [""] + doc)
            && Field(r, key) ==
               if found.Some? && CountIn(doc, key) <= 1 then Some(Interpret(Trim(found.value))) else Field(doc, key)
  {
    if HasBlock(doc) {
      BlockIsUnfenced(doc);
      RewriteKeepsUnfenced(Block(doc), updates);
      RebuildReads(Rewrite(Block(doc), updates), Rest(doc));
      assert Rewrite(Block(doc), updates) != [];
      LookupRewritten(Block(doc), updates, key);
    } else {
      WrittenUnfenced(updates);
      RebuildReads(WriteAll(updates), [""] + doc);
      LookupWritten(updates, key);
      NothingInAnEmptyLine(key);
    }
  }

  lemma NothingInAnEmptyLine(key: string)
    ensures Lookup([""], key) == None && CountOf([""], key) == 0
  {
    assert Lookup([""][1..], key) == None;
  }

  lemma {:induction false} DropFirst(entries: seq<Entry>)
    requires entries != [] && DistinctKeys(entries)
    ensures Drop(entries, entries[0].key) == entries[1..]
  {
    NothingToDrop(entries[1..], entries[0].key);
  }

  lemma {:induction false} NothingToDrop(entries: seq<Entry>, key: string)
    requires forall i :: 0 <= i < |entries| ==> entries[i].key != key
    ensures Drop(entries, key) == entries
  {
    if entries != [] {
      NothingToDrop(entries[1..], key);
    }
  }

  lemma FirstUpdate(updates: seq<Entry>)
    requires updates != [] && AllWritable(updates) && DistinctKeys(updates)
    ensures Writable(updates[0]) && AllWritable(updates[1..]) && DistinctKeys(updates[1..])
    ensures Find(updates, updates[0].key) == Some(updates[0].value)
    ensures Entry(updates[0].key, updates[0].value) == updates[0]
    ensures WriteAll(updates) == [WriteEntry(updates[0])] + WriteAll(updates[1..])
  {
    hide WriteEntry, Writable;
    assert updates[0] in updates;
  }

  lemma {:induction false} RewriteWritten(updates: seq<Entry>)
    requires AllWritable(updates) && DistinctKeys(updates)
    ensures Rewrite(WriteAll(updates), updates) == WriteAll(updates)
  {
    hide Rewrite, ReadEntry, WriteEntry, Trim, Writable, Find, Drop, DistinctKeys, AllWritable;
    if updates == [] {
      RewriteEnd(updates);
    } else {
      FirstUpdate(updates);
      WrittenReads(updates[0], updates[0].key);
      DropFirst(updates);
      RewriteWritten(updates[1..]);
      RewriteAgain(WriteEntry(updates[0]), WriteAll(updates[1..]), updates);
    }
  }

  lemma {:induction false} RewriteTwice(block: seq<string>, updates: seq<Entry>)
    requires AllWritable(updates) && DistinctKeys(updates)
    ensures Rewrite(Rewrite(block, updates), updates) == Rewrite(block, updates)
  {
    if block == [] {
      RewriteWritten(updates);
    } else {
      var entry := ReadEntry(block[0]);
      assert block[0..] == block;
      RewriteStep(block, 0, updates);
      if entry.Some? && Find(updates, entry.value.key).Some? {
        var written := Entry(entry.value.key, Find(updates, entry.value.key).value);
        FindIsWritable(updates, entry.value.key);
        WrittenReads(written, written.key);
        DropSelects(updates, written.key);
        DropKeepsDistinct(updates, written.key);
        RewriteTwice(block[1..], Drop(updates, written.key));
        RewriteAgain(WriteEntry(written), Rewrite(block[1..], Drop(updates, written.key)), updates);
      } else {
        RewriteTwice(block[1..], updates);
        RewriteAgain(block[0], Rewrite(block[1..], updates), updates);
      }
      hide ReadEntry, WriteEntry, Find, Drop, Rewrite, Trim, Writable;
    }
  }

  lemma RewriteAgain(line: string, tail: seq<string>, updates: seq<Entry>)
    ensures var entry := ReadEntry(line);
            Rewrite([line] + tail, updates) ==
            if entry.Some? && Find(updates, entry.value.key).Some? then
              [WriteEntry(Entry(entry.value.key, Find(updates, entry.value.key).value))]
              + Rewrite(tail, Drop(updates, entry.value.key))
            else [line] + Rewrite(tail, updates)
  {
    var block := [line] + tail;
    assert block[0..] == block && block[1..] == tail;
    RewriteStep(block, 0, updates);
  }

  /** Upserting the same updates again changes nothing. */
  lemma UpsertIsIdempotent(doc: Doc, updates: seq<Entry>)
    requires AllWritable(updates) && DistinctKeys(updates)
    ensures Upserted(Upserted(doc, updates), updates) == Upserted(doc, updates)
  {
    if HasBlock(doc) {
      BlockIsUnfenced(doc);
      RewriteKeepsUnfenced(Block(doc), updates);
      RebuildReads(Rewrite(Block(doc), updates), Rest(doc));
      RewriteTwice(Block(doc), updates);
      assert Rewrite(Block(doc), updates) != [];
    } else {
      WrittenUnfenced(updates);
      RebuildReads(WriteAll(updates), [""] + doc);
      RewriteWritten(updates);
      if updates == [] {
        EmptyLineStays();
      }
    }
  }

  lemma EmptyLineStays()
    ensures Rewrite([""], []) == [""]
  {
    assert [""][1..] == [];
  }

  // ----- removing keys -----

  function Kept(block: seq<string>, keys: set<string>): seq<string> {
    if block == [] then []
    else if ReadEntry(block[0]).Some? && ReadEntry(block[0]).value.key in keys then Kept(block[1..], keys)
    else [block[0]] + Kept(block[1..], keys)
  }

  /** removeFrontmatterKeys: untouched when nothing is dropped. */
  function WithoutKeys(doc: Doc, keys: set<string>): Doc {
    if !HasBlock(doc) || |Kept(Block(doc), keys)| == |Block(doc)| then doc
    else Rebuild(Kept(Block(doc), keys), Rest(doc))
  }

  lemma {:induction false} LookupKept(block: seq<string>, keys: set<string>, key: string)
    ensures |Kept(block, keys)| <= |block|
    ensures |Kept(block, keys)| == |block| ==> Kept(block, keys) == block
    ensures Lookup(Kept(block, keys), key) == if key in keys then None else Lookup(block, key)
    ensures CountOf(Kept(block, keys), key) == if key in keys then 0 else CountOf(block, key)
    ensures NoFence(block) ==> NoFence(Kept(block, keys))
    ensures forall line :: line in Kept(block, keys) ==> line in block
  {
    if block != [] {
      LookupKept(block[1..], keys, key);
      LookupCons(block[0], block[1..], key);
      LookupCons(block[0], Kept(block[1..], keys), key);
      assert block == [block[0]] + block[1..];
      hide ReadEntry, Interpret, StartsWith, Lookup, CountOf;
    }
  }

  /** Removed keys are gone for the reader; every other key, and what follows the block, is as before. */
  lemma RemovedKeysAreGone(doc: Doc, keys: set<string>, key: string)
    ensures var r := WithoutKeys(doc, keys);
            && (HasBlock(r) <==> HasBlock(doc)) && (HasBlock(doc) ==> Rest(r) == Rest(doc))
            && Field(r, key) == (if key in keys then None else Field(doc, key))
            && CountIn(r, key) == (if key in keys then 0 else CountIn(doc, key))
            && (HasBlock(doc) ==> forall line :: line in Block(r) ==> line in Block(doc) || line == "")
  {
    if HasBlock(doc) {
      var block := Block(doc);
      LookupKept(block, keys, key);
      LookupKept(block[1..], keys, key);
      BlockIsUnfenced(doc);
      UnfencedTail(block);
      NothingInAnEmptyLine(key);
      var kept := Kept(block, keys);
      hide ReadEntry, StartsWith, Lookup, CountOf;
      if kept != [] && kept != Kept(block[1..], keys) {
        assert kept[1..] == Kept(block[1..], keys);
        UnfencedTail(kept);
      } else if kept != [] {
        NoFenceIsUnfenced(kept);
      }
      RebuildReads(kept, Rest(doc));
    }
  }

  lemma NoFenceIsUnfenced(lines: seq<string>)
    requires NoFence(lines)
    ensures Unfenced(lines)
  {
  }

  // ----- body sections -----

  /** The first line equal to `line` from `k` on that is not the last line, or the document's length. */
  function HeadingFrom(doc: seq<string>, line: string, k: nat): (i: nat)
    requires k <= |doc|
    ensures k <= i <= |doc| && (i < |doc| ==> doc[i] == line && i + 1 < |doc|)
    ensures forall m :: k <= m < i && m + 1 < |doc| ==> doc[m] != line
    decreases |doc| - k
  {
    if k == |doc| then k
    else if doc[k] == line && k + 1 < |doc| then k
    else HeadingFrom(doc, line, k + 1)
  }

  /** The next line from `k` on that opens a section, or the document's length. */
  function SectionFrom(doc: seq<string>, k: nat): (j: nat)
    requires k <= |doc|
    ensures k <= j <= |doc| && (j < |doc| ==> StartsWith(doc[j], "## "))
    ensures forall m :: k <= m < j ==> !StartsWith(doc[m], "## ")
    decreases |doc| - k
  {
    if k == |doc| || StartsWith(doc[k], "## ") then k else SectionFrom(doc, k + 1)
  }

  /** removeBodySection: the heading's own line and the line after it always go with the section. */
  function WithoutSection(doc: Doc, heading: string): (r: Doc)
    ensures doc != [] ==> r != [] && r[0] == doc[0]
  {
    if |doc| < 3 then doc
    else
      var i := HeadingFrom(doc, "## " + heading, 1);
      if i == |doc| then doc else doc[..i] + doc[SectionFrom(doc, i + 2)..]
  }

  /** Removing a body section leaves the frontmatter alone, if the heading does not stand inside it. */
  lemma SectionRemovalKeepsBlock(doc: Doc, heading: string)
    requires HasBlock(doc) ==> "## " + heading !in Block(doc)
    ensures var r := WithoutSection(doc, heading);
            (HasBlock(r) <==> HasBlock(doc)) && (HasBlock(doc) ==> Block(r) == Block(doc))
  {
    var line, r := "## " + heading, WithoutSection(doc, heading);
    if |doc| < 3 {
      return;
    }
    var i := HeadingFrom(doc, line, 1);
    if i < |doc| {
      if HasBlock(doc) {
        var end := FenceFrom(doc, 2);
        assert doc[i][..3] == "## ";
        FenceIsNoHeading(doc[end]);
        assert forall m :: 1 <= m < end ==> doc[m] == Block(doc)[m - 1];
        assert i > end;
        assert forall m :: 2 <= m <= end ==> r[m] == doc[m];
        hide StartsWith;
        FenceIsAt(r, 2, end);
      } else if doc[0] == "---" {
        hide StartsWith;
        var j := SectionFrom(doc, i + 2);
        if |r| > 2 && |doc| > 2 {
          forall m | 2 <= m < |r|
            ensures !StartsWith(r[m], "---")
          {
            assert r[m] == if m < i then doc[m] else doc[m - i + j];
          }
          assert FenceFrom(r, 2) == |r|;
        }
      }
    }
  }

  lemma FenceIsNoHeading(line: string)
    ensures !(StartsWith(line, "---") && StartsWith(line, "## "))
  {
    if StartsWith(line, "---") {
      assert line[..3][0] == '-';
    }
  }

  /** raw.replace(/\s*$/, "") */
  function TrimEnd(doc: Doc): (r: Doc)
    requires doc != []
    ensures 0 < |r| <= |doc| && Init(r) == doc[..|r| - 1] && Last(r) == TrimRight(doc[|r| - 1])
  {
    if TrimRight(Last(doc)) == "" && |doc| > 1 then TrimEnd(Init(doc)) else Init(doc) + [TrimRight(Last(doc))]
  }

  /** appendBodySection */
  function WithSection(doc: Doc, heading: string, body: Doc): Doc
    requires doc != []
  {
    TrimEnd(doc) + ["", "## " + heading, ""] + body + [""]
  }

  /** replaceOrAppendBodySection */
  function Replaced(doc: Doc, heading: string, body: Doc): (r: Doc)
    requires doc != []
    ensures r != []
  {
    WithSection(WithoutSection(doc, heading), heading, body)
  }

  lemma {:induction false} TrimEndStays(doc: Doc)
    requires doc != []
    ensures TrimEnd(TrimEnd(doc) + [""]) == TrimEnd(doc)
  {
    var r := TrimEnd(doc);
    TrimRightTwice(doc[|r| - 1]);
    EndIsTrimmed(doc);
    assert Init(r + [""]) == r && Last(r + [""]) == "";
    assert TrimRight("") == "";
    assert Init(r) + [Last(r)] == r;
  }

  lemma {:induction false} EndIsTrimmed(doc: Doc)
    requires doc != []
    ensures Last(TrimEnd(doc)) != "" || |TrimEnd(doc)| == 1
  {
    if TrimRight(Last(doc)) == "" && |doc| > 1 {
      EndIsTrimmed(Init(doc));
    }
  }

  lemma {:induction false} TrimRightTwice(s: string)
    ensures TrimRight(TrimRight(s)) == TrimRight(s)
  {
    if s != "" && IsSpace(Last(s)) {
      TrimRightTwice(Init(s));
    }
  }

  /** No line after the first would become this heading by losing trailing blanks. */
  predicate NoHeading(doc: seq<string>, heading: string) {
    forall i :: 1 <= i < |doc| ==> TrimRight(doc[i]) != "## " + heading && doc[i] != "## " + heading
  }

  predicate NoSections(body: seq<string>) {
    forall i :: 0 <= i < |body| ==> !StartsWith(body[i], "## ")
  }

  lemma SectionIsAt(doc: seq<string>, k: nat, j: nat)
    requires k <= j <= |doc| && (j < |doc| ==> StartsWith(doc[j], "## "))
    requires forall i :: k <= i < j ==> !StartsWith(doc[i], "## ")
    ensures SectionFrom(doc, k) == j
  {
    var f := SectionFrom(doc, k);
    hide StartsWith, SectionFrom;
    assert !(f < j);
    assert !(j < f);
  }

  lemma SectionAfter(before: seq<string>, body: Doc)
    ensures var whole, p := before + body + [""], SectionFrom(body, 0);
            SectionFrom(whole, |before|) == if p == |body| then |whole| else |before| + p
  {
    var whole, p := before + body + [""], SectionFrom(body, 0);
    assert !StartsWith("", "## ");
    hide StartsWith;
    assert forall i :: |before| <= i < |before| + |body| ==> whole[i] == body[i - |before|];
    assert whole[|whole| - 1] == "";
    SectionIsAt(whole, |before|, if p == |body| then |whole| else |before| + p);
  }

  lemma HeadingIsAt(doc: seq<string>, line: string, k: nat, i: nat)
    requires k <= i && i + 1 < |doc| && doc[i] == line
    requires forall m :: k <= m < i ==> doc[m] != line
    ensures HeadingFrom(doc, line, k) == i
  {
    var f := HeadingFrom(doc, line, k);
    hide HeadingFrom;
    assert !(f < i);
    assert !(i < f);
  }

  lemma TrimEndHasNoHeading(doc: Doc, heading: string)
    requires doc != [] && NoHeading(doc, heading)
    ensures forall m :: 1 <= m < |TrimEnd(doc)| ==> TrimEnd(doc)[m] != "## " + heading
  {
    var kept := TrimEnd(doc);
    forall m | 1 <= m < |kept|
      ensures kept[m] != "## " + heading
    {
      if m < |kept| - 1 {
        assert kept[m] == Init(kept)[m] == doc[m];
      } else {
        assert kept[m] == Last(kept);
      }
    }
  }

  /** A document that ends in a section. */
  function Ending(kept: seq<string>, line: string, body: seq<string>): Doc {
    kept + ["", line, ""] + body + [""]
  }

  lemma Pieces(kept: seq<string>, line: string, body: seq<string>, p: nat)
    requires p <= |body|
    ensures var whole := Ending(kept, line, body);
            && |whole| == |kept| + 4 + |body| && whole[|kept|] == "" && whole[|kept| + 1] == line
            && (forall m :: 0 <= m < |kept| ==> whole[m] == kept[m])
            && whole[..|kept| + 1] == kept + [""]
            && whole[|kept| + 3 + p..] == body[p..] + [""]
  {
  }

  lemma EndingHeading(kept: seq<string>, line: string, body: seq<string>)
    requires line != "" && forall m :: 1 <= m < |kept| ==> kept[m] != line
    ensures HeadingFrom(Ending(kept, line, body), line, 1) == |kept| + 1
  {
    Pieces(kept, line, body, 0);
    hide *;
    HeadingIsAt(Ending(kept, line, body), line, 1, |kept| + 1);
  }

  lemma EndingSection(kept: seq<string>, line: string, body: Doc)
    ensures var p := SectionFrom(body, 0);
            SectionFrom(Ending(kept, line, body), |kept| + 3) == |kept| + 3 + if p == |body| then |body| + 1 else p
  {
    SectionAfter(kept + ["", line, ""], body);
    hide SectionFrom, StartsWith;
  }

  lemma EndingCut(kept: seq<string>, heading: string, body: Doc)
    requires forall m :: 1 <= m < |kept| ==> kept[m] != "## " + heading
    ensures var p := SectionFrom(body, 0);
            WithoutSection(Ending(kept, "## " + heading, body), heading) ==
            kept + [""] + if p == |body| then [] else body[p..] + [""]
  {
    hide Ending, SectionFrom, HeadingFrom, StartsWith;
    var line, p := "## " + heading, SectionFrom(body, 0);
    assert line != "" by { assert |line| >= 3; }
    var whole := Ending(kept, line, body);
    EndingHeading(kept, line, body);
    EndingSection(kept, line, body);
    EndingLength(kept, line, body);
    CutAt(whole, heading, |kept| + 1, if p == |body| then |whole| else |kept| + 3 + p);
    hide *;
    Pieces(kept, line, body, p);
  }

  lemma EndingLength(kept: seq<string>, line: string, body: seq<string>)
    ensures |Ending(kept, line, body)| == |kept| + 4 + |body|
  {
  }

  lemma CutAt(doc: Doc, heading: string, i: nat, j: nat)
    requires 1 <= i && i + 2 <= j <= |doc|
    requires HeadingFrom(doc, "## " + heading, 1) == i && SectionFrom(doc, i + 2) == j
    ensures WithoutSection(doc, heading) == doc[..i] + if j == |doc| then [] else doc[j..]
  {
  }

  /** The appended section is the one found again, and it ends where its body opens another. */
  lemma AppendedSectionIsFound(doc: Doc, heading: string, body: Doc)
    requires doc != [] && NoHeading(doc, heading)
    ensures var p := SectionFrom(body, 0);
            WithoutSection(WithSection(doc, heading, body), heading) ==
            TrimEnd(doc) + [""] + if p == |body| then [] else body[p..] + [""]
  {
    TrimEndHasNoHeading(doc, heading);
    assert WithSection(doc, heading, body) == Ending(TrimEnd(doc), "## " + heading, body);
    hide *;
    EndingCut(TrimEnd(doc), heading, body);
  }

  lemma {:induction false} TrimEndKeeps(doc: Doc, i: nat)
    requires i < |doc| && TrimRight(doc[i]) != ""
    ensures |TrimEnd(doc)| > i
  {
    if TrimRight(Last(doc)) == "" && |doc| > 1 {
      TrimEndKeeps(Init(doc), i);
    }
  }

  lemma SectionLineIsNotBlank(line: string)
    requires StartsWith(line, "## ")
    ensures TrimRight(line) != ""
  {
    assert line[0] == line[..3][0] == '#';
  }

  /**
   * In a document with one such section at most, replacing it twice is replacing it once exactly
   * when no line of the new body opens a section of its own; otherwise every replacement leaves
   * the part from that line on behind.
   */
  lemma ReplaceIsIdempotentIff(doc: Doc, heading: string, body: Doc)
    requires doc != [] && NoHeading(WithoutSection(doc, heading), heading)
    ensures Replaced(Replaced(doc, heading, body), heading, body) == Replaced(doc, heading, body) <==> NoSections(body)
  {
    var open, p := WithoutSection(doc, heading), SectionFrom(body, 0);
    var kept := TrimEnd(open);
    AppendedSectionIsFound(open, heading, body);
    if p == |body| {
      TrimEndStays(open);
      assert kept + [""] + [] == kept + [""];
    } else {
      var again := kept + [""] + (body[p..] + [""]);
      assert again[|kept| + 1] == body[p];
      SectionLineIsNotBlank(body[p]);
      TrimEndKeeps(again, |kept| + 1);
      assert |Replaced(Replaced(doc, heading, body), heading, body)| > |Replaced(doc, heading, body)|;
    }
  }

  /** A document that goes on with a section after the one that is cut. */
  lemma SectionCut(front: string, line: string, inside: seq<string>, rest: seq<string>)
    requires inside != [] && NoSections(inside[1..]) && rest != [] && StartsWith(rest[0], "## ")
    requires line == "## " + "H" && front != line
    ensures WithoutSection([front, line] + inside + rest, "H") == [front] + rest
  {
    var doc, j := [front, line] + inside + rest, 2 + |inside|;
    hide StartsWith, WithoutSection;
    assert forall k :: 3 <= k < j ==> doc[k] == inside[1..][k - 3];
    HeadingIsAt(doc, line, 1, 1);
    SectionIsAt(doc, 3, j);
    CutAt(doc, "H", 1, j);
    assert doc[..1] + doc[j..] == [front] + rest;
  }

  lemma TrimEndOfText(doc: Doc)
    requires doc != [] && Last(doc) != "" && TrimRight(Last(doc)) == Last(doc)
    ensures TrimEnd(doc) == doc
  {
    TrimEndKeeps(doc, |doc| - 1);
    assert TrimEnd(doc) == Init(TrimEnd(doc)) + [Last(TrimEnd(doc))];
  }

  /** Replacing the first of two sections keeps the second. */
  lemma FirstReplaced(line: string, inside: seq<string>, rest: seq<string>)
    requires inside != [] && NoSections(inside[1..]) && rest != [] && StartsWith(rest[0], "## ")
    requires line == "## " + "H" && "t" != line && Last(rest) != "" && TrimRight(Last(rest)) == Last(rest)
    ensures Replaced(["t", line] + inside + rest, "H", ["x"]) == ["t"] + rest + ["", line, ""] + ["x"] + [""]
  {
    SectionCut("t", line, inside, rest);
    hide TrimRight, TrimEnd, WithoutSection, StartsWith;
    TrimEndOfText(["t"] + rest);
  }

  lemma TwoSectionsText(line: string)
    requires line == "## H"
    ensures ["t", line] + ["a"] + [line, "b"] == ["t", "## H", "a", "## H", "b"]
    ensures ["t"] + [line, "b"] + ["", line, ""] + ["x"] + [""] == ["t", line] + ["b", ""] + [line, "", "x", ""]
    ensures ["b", ""][1..] == [""] && ["a"][1..] == []
  {
  }

  /** With two such sections a replacement leaves the second in place, and the next one takes that. */
  lemma TwoSectionsExample()
    ensures var doc, body := ["t", "## H", "a", "## H", "b"], ["x"];
            NoSections(body) && Replaced(Replaced(doc, "H", body), "H", body) != Replaced(doc, "H", body)
  {
    var line := "## " + "H";
    assert line == "## H" && StartsWith(line, "## ") && "t" != line;
    assert !StartsWith("", "## ") && !StartsWith("x", "## ") && TrimRight("b") == "b" && TrimRight("x") == "x";
    hide TrimRight, TrimEnd, WithoutSection, StartsWith, Replaced;
    TwoSectionsText(line);
    FirstReplaced(line, ["a"], [line, "b"]);
    SecondReplaced(line);
  }

  lemma SecondReplaced(line: string)
    requires line == "## " + "H" && "t" != line && StartsWith(line, "## ") && !StartsWith("", "## ")
    requires TrimRight("x") == "x"
    ensures var once := ["t", line] + ["b", ""] + [line, "", "x", ""];
            Replaced(once, "H", ["x"]) != once
  {
    hide TrimRight, TrimEnd, WithoutSection, StartsWith;
    var tail := [line, "", "x", ""];
    assert ["b", ""][1..] == [""];
    SectionCut("t", line, ["b", ""], tail);
    var open := ["t"] + tail;
    TrimEndKeeps(open, 3);
    assert open[2] == "" && Init(TrimEnd(open))[2] == open[2];
  }

  // ----- an approved ticket reads as approved -----

  const ESCALATION_KEYS: set<string> := {"escalation-at", "escalation-verdict", "escalation-reason"}

  function ApprovedUpdates(spec: string, plan: string, date: string): seq<Entry> {
    [Entry("spec", spec), Entry("plan", plan), Entry("status", "planned"), Entry("loop", "true"),
      Entry("updated", date)]
  }

  /** applyApprovedFrontmatter, given the date part of the clock's ISO text. */
  function ApprovedDocument(doc: Doc, spec: string, plan: string, date: string): Doc {
    Upserted(WithoutSection(WithoutKeys(doc, ESCALATION_KEYS), "Planning escalation"),
      ApprovedUpdates(spec, plan, date))
  }

  lemma LetterIsNoFence(key: string)
    requires key != "" && key[0] != '-'
    ensures !StartsWith(key, "---")
  {
    if |key| >= 3 {
      assert key[..3][0] == key[0];
    }
  }

  lemma SpecIsWritable(value: string)
    requires OneLine(value)
    ensures Writable(Entry("spec", value))
  {
    LetterIsNoFence("spec");
  }

  lemma PlanIsWritable(value: string)
    requires OneLine(value)
    ensures Writable(Entry("plan", value))
  {
    LetterIsNoFence("plan");
  }

  lemma StatusIsWritable()
    ensures Writable(Entry("status", "planned"))
  {
    LetterIsNoFence("status");
  }

  lemma LoopIsWritable()
    ensures Writable(Entry("loop", "true"))
  {
    LetterIsNoFence("loop");
  }

  lemma UpdatedIsWritable(value: string)
    requires OneLine(value)
    ensures Writable(Entry("updated", value))
  {
    LetterIsNoFence("updated");
  }

  lemma ApprovedUpdatesAreWritable(spec: string, plan: string, date: string)
    requires OneLine(spec) && OneLine(plan) && OneLine(date)
    ensures AllWritable(ApprovedUpdates(spec, plan, date))
  {
    hide Writable, OneLine;
    SpecIsWritable(spec);
    PlanIsWritable(plan);
    StatusIsWritable();
    LoopIsWritable();
    UpdatedIsWritable(date);
  }

  lemma ApprovedKeysDiffer(spec: string, plan: string, date: string)
    ensures DistinctKeys(ApprovedUpdates(spec, plan, date))
  {
    assert "spec"[0] == 's' && "plan"[0] == 'p' && "loop"[0] == 'l';
    assert |"spec"| == |"plan"| == |"loop"| == 4 && |"status"| == 6 && |"updated"| == 7;
  }

  function ApprovedValue(key: string, spec: string, plan: string, date: string): Option<string> {
    if key == "spec" then Some(spec)
    else if key == "plan" then Some(plan)
    else if key == "status" then Some("planned")
    else if key == "loop" then Some("true")
    else if key == "updated" then Some(date)
    else None
  }

  lemma FindOfCons(e: Entry, rest: seq<Entry>, key: string)
    ensures Find([e] + rest, key) == if e.key == key then Some(e.value) else Find(rest, key)
  {
    assert ([e] + rest)[1..] == rest;
  }

  lemma ApprovedUpdatesFind(spec: string, plan: string, date: string, key: string)
    ensures Find(ApprovedUpdates(spec, plan, date), key) == ApprovedValue(key, spec, plan, date)
  {
    var u := ApprovedUpdates(spec, plan, date);
    FindOfCons(u[4], [], key);
    FindOfCons(u[3], [u[4]], key);
    FindOfCons(u[2], [u[3], u[4]], key);
    FindOfCons(u[1], [u[2], u[3], u[4]], key);
    FindOfCons(u[0], [u[1], u[2], u[3], u[4]], key);
    assert [u[4]] + [] == [u[4]];
    assert [u[3]] + [u[4]] == [u[3], u[4]];
    assert [u[2]] + [u[3], u[4]] == [u[2], u[3], u[4]];
    assert [u[1]] + [u[2], u[3], u[4]] == [u[1], u[2], u[3], u[4]];
    assert [u[0]] + [u[1], u[2], u[3], u[4]] == u;
    hide Find;
  }

  /**
   * An approved ticket reads back as planned and released, with both pointers and no escalation
   * key, as long as its frontmatter does not repeat those keys and holds no escalation heading;
   * a repeated key keeps its old reading. Every other key is as before.
   */
  lemma ApprovedReadsBack(doc: Doc, spec: string, plan: string, date: string, key: string)
    requires OneLine(spec) && OneLine(plan) && OneLine(date)
    requires HasBlock(doc) ==> "## Planning escalation" !in Block(doc)
    ensures var r := ApprovedDocument(doc, spec, plan, date);
            var value := ApprovedValue(key, spec, plan, date);
            && HasBlock(r)
            && Field(r, key) ==
               if key in ESCALATION_KEYS then None
               else if value.Some? && CountIn(doc, key) <= 1 then Some(Interpret(Trim(value.value)))
               else Field(doc, key)
    ensures Interpret(Trim("planned")) == Scalar("planned") && Interpret(Trim("true")) == Flag(true)
  {
    hide *;
    var cleared := WithoutKeys(doc, ESCALATION_KEYS);
    var open := WithoutSection(cleared, "Planning escalation");
    var updates := ApprovedUpdates(spec, plan, date);
    ClearingKeepsFields(doc, key);
    ApprovedUpdatesAreWritable(spec, plan, date);
    ApprovedKeysDiffer(spec, plan, date);
    ApprovedUpdatesFind(spec, plan, date, key);
    UpsertReadsBack(open, updates, key);
    EscalationKeysAreOthers(key, spec, plan, date);
    PlannedReads();
    TrueReads();
    assert ApprovedDocument(doc, spec, plan, date) == Upserted(open, updates) by { ApprovedIs(doc, spec, plan, date); }
  }

  lemma ApprovedIs(doc: Doc, spec: string, plan: string, date: string)
    ensures ApprovedDocument(doc, spec, plan, date) ==
            Upserted(WithoutSection(WithoutKeys(doc, ESCALATION_KEYS), "Planning escalation"),
              ApprovedUpdates(spec, plan, date))
  {
  }

  /** Dropping the escalation stamps and their section changes no other field. */
  lemma ClearingKeepsFields(doc: Doc, key: string)
    requires HasBlock(doc) ==> "## Planning escalation" !in Block(doc)
    ensures var open := WithoutSection(WithoutKeys(doc, ESCALATION_KEYS), "Planning escalation");
            && Field(open, key) == (if key in ESCALATION_KEYS then None else Field(doc, key))
            && CountIn(open, key) == (if key in ESCALATION_KEYS then 0 else CountIn(doc, key))
  {
    var cleared := WithoutKeys(doc, ESCALATION_KEYS);
    RemovedKeysAreGone(doc, ESCALATION_KEYS, key);
    hide WithoutKeys, WithoutSection, Lookup, CountOf, HasBlock, Block, Rest;
    assert "## " + "Planning escalation" == "## Planning escalation";
    SectionRemovalKeepsBlock(cleared, "Planning escalation");
  }

  lemma EscalationKeysAreOthers(key: string, spec: string, plan: string, date: string)
    ensures key in ESCALATION_KEYS ==> ApprovedValue(key, spec, plan, date).None?
  {
    if key in ESCALATION_KEYS {
      assert |key| >= 13;
    }
  }

  lemma PlannedReads()
    ensures Interpret(Trim("planned")) == Scalar("planned")
  {
    assert PlainScalar("planned") by {
      assert |"planned"| == 7 && "planned"[0] == 'p' && Last("planned") == 'd';
    }
    hide *;
    PlainScalarReads("planned");
  }

  lemma TrueReads()
    ensures Interpret(Trim("true")) == Flag(true)
  {
    TrimmedStays("true");
    hide Trim, TrimAll, CleanItems, Split, StripQuotes;
  }
}
