/**
 * Parking a ticket and approving it later (applyEscalatedFrontmatter, applyApprovedFrontmatter in
 * src/planning.ts): whether anything of the escalation is left.
 */
module Escalations {
  import opened Prelude
  import opened Text
  import opened Frontmatters

  const HEADING: string := "Planning escalation"

  function Stamps(at: string, verdict: string, reason: string): seq<Entry> {
    [Entry("escalation-at", at), Entry("escalation-verdict", verdict), Entry("escalation-reason", reason)]
  }

  /** applyEscalatedFrontmatter, given the lines of the findings and of the scoring under them. */
  function EscalatedDocument(doc: Doc, at: string, verdict: string, reason: string, body: Doc): (r: Doc)
    ensures r != []
  {
    var stamped := Upserted(doc, Stamps(at, verdict, reason));
    assert stamped != [];
    Replaced(stamped, HEADING, body)
  }

  // ----- documents as a block and what follows it -----

  /** A document whose closing fence stands on a line of its own, with something after it. */
  predicate Regular(doc: Doc) {
    HasBlock(doc) && doc == Rebuild(Block(doc), Rest(doc))
  }

  /** A text without its trailing blanks: nothing at all if it is blank. */
  function Trimming(rest: seq<string>): (r: seq<string>)
    ensures |r| <= |rest|
  {
    if rest == [] then []
    else if TrimRight(Last(rest)) == "" then Trimming(Init(rest))
    else Init(rest) + [TrimRight(Last(rest))]
  }

  /** The text after the block without the section under this heading. */
  function CutRest(rest: seq<string>, line: string): seq<string> {
    var i := HeadingFrom(rest, line, 0);
    if i == |rest| then rest else rest[..i] + rest[SectionFrom(rest, i + 2)..]
  }

  function Front(block: seq<string>): seq<string> {
    ["---"] + (if block == [] then [""] else block) + ["---"]
  }

  lemma RebuildIs(block: seq<string>, rest: seq<string>)
    ensures Rebuild(block, rest) == Front(block) + rest
  {
  }

  lemma {:induction false} TrimEndOfParts(front: seq<string>, rest: seq<string>)
    requires front != [] && Last(front) != "" && TrimRight(Last(front)) == Last(front)
    ensures TrimEnd(front + rest) == front + Trimming(rest)
  {
    var doc := front + rest;
    hide TrimRight;
    if rest == [] {
      assert doc == front;
      assert Init(front) + [Last(front)] == front;
    } else {
      assert Last(doc) == Last(rest) && Init(doc) == front + Init(rest);
      TrimEndOfParts(front, Init(rest));
      if TrimRight(Last(rest)) != "" {
        assert front + (Init(rest) + [TrimRight(Last(rest))]) == front + Init(rest) + [TrimRight(Last(rest))];
      }
    }
  }

  lemma FrontEndsInFence(block: seq<string>)
    ensures Front(block) != [] && Last(Front(block)) == "---" != "" && TrimRight("---") == "---"
  {
    assert Last("---") == '-';
  }

  lemma TrimEndOfRebuilt(block: seq<string>, rest: seq<string>)
    ensures Rebuild(block, rest) != [] && TrimEnd(Rebuild(block, rest)) == Front(block) + Trimming(rest)
  {
    RebuildIs(block, rest);
    FrontEndsInFence(block);
    hide Front, TrimRight, TrimEnd, Trimming;
    TrimEndOfParts(Front(block), rest);
  }

  /** The section is cut out of what follows the block. */
  lemma CutOfRebuilt(block: seq<string>, rest: seq<string>)
    requires rest != [] && "## " + HEADING !in block
    ensures WithoutSection(Rebuild(block, rest), HEADING) == Rebuild(block, CutRest(rest, "## " + HEADING))
  {
    var line := "## " + HEADING;
    RebuildIs(block, rest);
    RebuildIs(block, CutRest(rest, line));
    FrontHasNoHeading(block);
    hide Rebuild, StartsWith;
    CutOfParts(Front(block), rest);
  }

  lemma FrontHasNoHeading(block: seq<string>)
    requires "## " + HEADING !in block
    ensures |Front(block)| >= 3 && "## " + HEADING !in Front(block)
  {
    var line := "## " + HEADING;
    assert line[0] == '#' && line != "" && "---"[0] == '-';
  }

  lemma CutOfParts(front: seq<string>, rest: seq<string>)
    requires |front| >= 3 && rest != [] && "## " + HEADING !in front
    ensures WithoutSection(front + rest, HEADING) == front + CutRest(rest, "## " + HEADING)
  {
    hide *;
    var line, doc, n := "## " + HEADING, front + rest, |front|;
    var i := HeadingFrom(rest, line, 0);
    HeadingBehind(front, rest, line);
    CutRestIs(rest, line);
    if i < |rest| {
      var next: nat := i + 2;
      var j := SectionFrom(rest, next);
      SectionBehind(front, rest, next);
      CutAt(doc, HEADING, n + i, n + j);
      SliceBehind(front, rest, i, j);
    } else {
      NothingToCut(doc);
    }
  }

  lemma CutRestIs(rest: seq<string>, line: string)
    ensures var i := HeadingFrom(rest, line, 0);
            && i <= |rest| && (i < |rest| ==> i + 2 <= |rest|)
            && CutRest(rest, line) == if i == |rest| then rest else rest[..i] + rest[SectionFrom(rest, i + 2)..]
  {
  }

  lemma SliceBehind(front: seq<string>, rest: seq<string>, i: nat, j: nat)
    requires i <= j <= |rest|
    ensures var doc, n := front + rest, |front|;
            doc[..n + i] + (if n + j == |doc| then [] else doc[n + j..]) == front + (rest[..i] + rest[j..])
  {
    var doc, n := front + rest, |front|;
    assert doc[..n + i] == front + rest[..i] && doc[n + j..] == rest[j..];
  }

  lemma NothingToCut(doc: Doc)
    requires doc != [] && HeadingFrom(doc, "## " + HEADING, 1) == |doc|
    ensures WithoutSection(doc, HEADING) == doc
  {
  }

  lemma HeadingBehind(front: seq<string>, rest: seq<string>, line: string)
    requires front != [] && line !in front
    ensures HeadingFrom(front + rest, line, 1) == |front| + HeadingFrom(rest, line, 0)
  {
    var doc, i := front + rest, HeadingFrom(rest, line, 0);
    var f := HeadingFrom(doc, line, 1);
    assert forall m :: 0 <= m < |front| ==> doc[m] == front[m] != line;
    assert forall m :: 0 <= m < |rest| ==> doc[|front| + m] == rest[m];
    hide HeadingFrom;
    assert !(f < |front| + i);
    assert !(|front| + i < f);
  }

  lemma SectionBehind(front: seq<string>, rest: seq<string>, k: nat)
    requires k <= |rest|
    ensures SectionFrom(front + rest, |front| + k) == |front| + SectionFrom(rest, k)
  {
    var doc, j := front + rest, SectionFrom(rest, k);
    hide StartsWith, SectionFrom;
    forall m | |front| + k <= m < |front| + j
      ensures !StartsWith(doc[m], "## ")
    {
      assert doc[m] == rest[m - |front|];
    }
    assert j < |rest| ==> doc[|front| + j] == rest[j];
    SectionIsAt(doc, |front| + k, |front| + j);
  }

  // ----- the stamps come and go -----

  /** Entries written under these keys are dropped with them, wherever they were put. */
  lemma {:induction false} KeptOfRewritten(block: seq<string>, entries: seq<Entry>, keys: set<string>)
    requires AllWritable(entries) && forall e :: e in entries ==> e.key in keys
    ensures Kept(Rewrite(block, entries), keys) == Kept(block, keys)
    decreases |block|, |entries|
  {
    hide ReadEntry, WriteEntry, Writable;
    if block == [] {
      KeptOfWritten(entries, keys);
    } else {
      RewriteStep(block, 0, entries);
      assert block[0..] == block;
      var entry := ReadEntry(block[0]);
      if entry.Some? && Find(entries, entry.value.key).Some? {
        var e := Entry(entry.value.key, Find(entries, entry.value.key).value);
        FindIsWritable(entries, e.key);
        FoundIsListed(entries, e.key);
        WrittenReads(e, e.key);
        DropIsPart(entries, e.key);
        KeptOfRewritten(block[1..], Drop(entries, e.key), keys);
        KeptOfCons(WriteEntry(e), Rewrite(block[1..], Drop(entries, e.key)), keys);
      } else {
        KeptOfRewritten(block[1..], entries, keys);
        KeptOfCons(block[0], Rewrite(block[1..], entries), keys);
      }
    }
  }

  lemma KeptOfCons(line: string, rest: seq<string>, keys: set<string>)
    ensures Kept([line] + rest, keys) ==
            if ReadEntry(line).Some? && ReadEntry(line).value.key in keys then Kept(rest, keys)
            else [line] + Kept(rest, keys)
  {
    hide ReadEntry;
    assert ([line] + rest)[1..] == rest;
  }

  lemma {:induction false} KeptOfWritten(entries: seq<Entry>, keys: set<string>)
    requires AllWritable(entries) && forall e :: e in entries ==> e.key in keys
    ensures Kept(WriteAll(entries), keys) == []
  {
    hide ReadEntry, WriteEntry, Writable;
    if entries != [] {
      WrittenReads(entries[0], entries[0].key);
      KeptOfWritten(entries[1..], keys);
      KeptOfCons(WriteEntry(entries[0]), WriteAll(entries[1..]), keys);
    }
  }

  lemma {:induction false} DropIsPart(entries: seq<Entry>, key: string)
    ensures forall e :: e in Drop(entries, key) ==> e in entries
  {
    if entries != [] {
      DropIsPart(entries[1..], key);
    }
  }

  lemma StampKeys()
    ensures IsKey("escalation-at") && IsKey("escalation-verdict") && IsKey("escalation-reason")
  {
  }

  lemma StampKeysDiffer()
    ensures "escalation-at" != "escalation-verdict" && "escalation-at" != "escalation-reason"
    ensures "escalation-verdict" != "escalation-reason"
    ensures !StartsWith("escalation-at", "---") && !StartsWith("escalation-verdict", "---")
    ensures !StartsWith("escalation-reason", "---")
  {
    assert |"escalation-at"| == 13 && |"escalation-verdict"| == 18 && |"escalation-reason"| == 17;
    hide StartsWith;
    LetterIsNoFence("escalation-at");
    LetterIsNoFence("escalation-verdict");
    LetterIsNoFence("escalation-reason");
  }

  lemma StampsAreStamps(at: string, verdict: string, reason: string)
    requires OneLine(at) && OneLine(verdict) && OneLine(reason)
    ensures AllWritable(Stamps(at, verdict, reason))
    ensures forall e :: e in Stamps(at, verdict, reason) ==> e.key in ESCALATION_KEYS
    ensures DistinctKeys(Stamps(at, verdict, reason))
  {
    hide OneLine, StartsWith, IsKey;
    StampKeys();
    StampKeysDiffer();
  }

  /** Rewriting adds lines that start with a key, none of them a heading. */
  lemma {:induction false} RewriteAddsEntries(block: seq<string>, entries: seq<Entry>)
    requires AllWritable(entries)
    ensures forall line :: line in Rewrite(block, entries) ==>
              line in block || (line != "" && IsKeyChar(line[0]))
    decreases |block|, |entries|
  {
    hide ReadEntry, IsKeyChar, StartsWith, OneLine;
    if block == [] {
      if entries != [] {
        EntryStartsWithKey(entries[0]);
        RewriteAddsEntries([], entries[1..]);
        WriteAllOfCons(entries);
      }
    } else {
      RewriteStep(block, 0, entries);
      assert block[0..] == block;
      var entry := ReadEntry(block[0]);
      if entry.Some? && Find(entries, entry.value.key).Some? {
        FindIsWritable(entries, entry.value.key);
        EntryStartsWithKey(Entry(entry.value.key, Find(entries, entry.value.key).value));
        DropIsPart(entries, entry.value.key);
        RewriteAddsEntries(block[1..], Drop(entries, entry.value.key));
      } else {
        RewriteAddsEntries(block[1..], entries);
      }
    }
  }

  lemma EntryStartsWithKey(e: Entry)
    requires Writable(e)
    ensures WriteEntry(e) != "" && IsKeyChar(WriteEntry(e)[0])
  {
    assert WriteEntry(e)[0] == e.key[0];
  }

  lemma WriteAllOfCons(entries: seq<Entry>)
    requires entries != []
    ensures Rewrite([], entries) == [WriteEntry(entries[0])] + Rewrite([], entries[1..])
  {
    hide WriteEntry;
  }

  lemma RewrittenHasNoHeading(block: seq<string>, entries: seq<Entry>)
    requires AllWritable(entries) && "## " + HEADING !in block
    ensures "## " + HEADING !in Rewrite(block, entries)
  {
    RewriteAddsEntries(block, entries);
    var line := "## " + HEADING;
    assert line[0] == '#' && !IsKeyChar('#');
    hide Rewrite, AllWritable;
  }

  // ----- trimming -----

  lemma {:induction false} TrimmingOfAppend(a: seq<string>, b: seq<string>)
    ensures Trimming(a + b) == if Trimming(b) == [] then Trimming(a) else a + Trimming(b)
  {
    hide TrimRight;
    if b == [] {
      assert a + b == a;
    } else {
      assert Last(a + b) == Last(b) && Init(a + b) == a + Init(b);
      TrimmingOfAppend(a, Init(b));
      if TrimRight(Last(b)) != "" {
        assert a + (Init(b) + [TrimRight(Last(b))]) == a + Init(b) + [TrimRight(Last(b))];
      }
    }
  }

  lemma BlankTrims()
    ensures Trimming([""]) == []
  {
    assert TrimRight("") == "";
  }

  lemma {:induction false} TrimmingTwice(rest: seq<string>)
    ensures Trimming(Trimming(rest)) == Trimming(rest)
  {
    if rest != [] {
      if TrimRight(Last(rest)) == "" {
        TrimmingTwice(Init(rest));
      } else {
        TrimRightTwice(Last(rest));
        InitOfAppend(Init(rest), TrimRight(Last(rest)));
      }
      hide TrimRight;
    }
  }

  lemma {:induction false} TrimmingHasNoHeading(rest: seq<string>, line: string)
    requires forall l :: l in rest ==> l != line && TrimRight(l) != line
    ensures line !in Trimming(rest)
  {
    hide TrimRight;
    if rest != [] {
      assert rest == Init(rest) + [Last(rest)];
      assert forall l :: l in Init(rest) ==> l in rest;
      TrimmingHasNoHeading(Init(rest), line);
    }
  }

  // ----- the two edits over a block and a rest -----

  /** A block is never written without a line. */
  function AtLeastALine(lines: seq<string>): (r: seq<string>)
    ensures r != []
  {
    if lines == [] then [""] else lines
  }

  lemma RebuildTakesALine(lines: seq<string>, rest: seq<string>)
    ensures Rebuild(lines, rest) == Rebuild(AtLeastALine(lines), rest)
  {
  }

  /** Writing to a document whose text after the block may have been cut away altogether. */
  lemma UpsertOfRebuilt(block: seq<string>, rest: seq<string>, updates: seq<Entry>)
    requires Unfenced(block) && block != []
    ensures Upserted(Rebuild(block, rest), updates)
            == Rebuild(Rewrite(block, updates), if rest == [] then [""] else rest)
  {
    if rest != [] {
      RebuildReads(block, rest);
    } else {
      NothingBehindFence(block);
    }
    hide Rebuild, Rewrite;
  }

  lemma NothingBehindFence(block: seq<string>)
    requires Unfenced(block) && block != []
    ensures var doc := Rebuild(block, []); HasBlock(doc) && Block(doc) == block && Rest(doc) == [""]
  {
    var doc, end := Rebuild(block, []), |block| + 1;
    assert forall i :: 2 <= i < end ==> doc[i] == block[i - 1];
    assert doc[end] == "---" && StartsWith("---", "---");
    FenceIsAt(doc, 2, end);
    assert doc[1..end] == block && "---"[3..] == "" && doc[end + 1..] == [];
  }

  lemma WithoutKeysOfRebuilt(block: seq<string>, rest: seq<string>, keys: set<string>)
    requires Unfenced(block) && block != [] && rest != []
    ensures WithoutKeys(Rebuild(block, rest), keys) == Rebuild(AtLeastALine(Kept(block, keys)), rest)
  {
    RebuildReads(block, rest);
    LookupKept(block, keys, "");
    RebuildTakesALine(Kept(block, keys), rest);
    hide Rebuild, Kept, HasBlock, Block, Rest;
  }

  lemma KeptIsUnfenced(block: seq<string>, keys: set<string>)
    requires Unfenced(block) && block != [] && "## " + HEADING !in block
    ensures var kept := AtLeastALine(Kept(block, keys));
            Unfenced(kept) && "## " + HEADING !in kept
  {
    hide *;
    LookupKept(block, keys, "");
    LookupKept(block[1..], keys, "");
    UnfencedTail(block);
    KeptOfCons(block[0], block[1..], keys);
    assert [block[0]] + block[1..] == block;
    HeadingIsText();
    var kept := Kept(block, keys);
    if kept == [] {
      ALine(kept);
    } else {
      ALine(kept);
      if kept == Kept(block[1..], keys) {
        NoFenceIsUnfenced(kept);
      } else {
        assert kept[1..] == Kept(block[1..], keys);
        UnfencedTail(kept);
      }
    }
  }

  lemma ALine(lines: seq<string>)
    ensures AtLeastALine(lines) == if lines == [] then [""] else lines
    ensures Unfenced([""])
  {
  }

  lemma HeadingIsText()
    ensures "## " + HEADING != ""
  {
    assert ("## " + HEADING)[0] == '#';
  }

  /** The block of an approved document. */
  function ApprovedBlock(block: seq<string>, spec: string, plan: string, date: string): seq<string> {
    Rewrite(AtLeastALine(Kept(block, ESCALATION_KEYS)), ApprovedUpdates(spec, plan, date))
  }

  /** Approving: the block rewritten, the section cut out of what follows, trailing blanks aside. */
  lemma ApprovedOfRebuilt(block: seq<string>, rest: seq<string>, spec: string, plan: string, date: string)
    requires Unfenced(block) && block != [] && rest != [] && "## " + HEADING !in block
    ensures var r := ApprovedDocument(Rebuild(block, rest), spec, plan, date);
            r != [] && TrimEnd(r)
                       == Front(ApprovedBlock(block, spec, plan, date)) + Trimming(CutRest(rest, "## " + HEADING))
  {
    var kept, updates := AtLeastALine(Kept(block, ESCALATION_KEYS)), ApprovedUpdates(spec, plan, date);
    var cut := CutRest(rest, "## " + HEADING);
    WithoutKeysOfRebuilt(block, rest, ESCALATION_KEYS);
    KeptIsUnfenced(block, ESCALATION_KEYS);
    CutOfRebuilt(kept, rest);
    UpsertOfRebuilt(kept, cut, updates);
    BlankTrims();
    assert Trimming([]) == [];
    TrimEndOfRebuilt(Rewrite(kept, updates), if cut == [] then [""] else cut);
    ApprovedIs(Rebuild(block, rest), spec, plan, date);
    hide Rewrite, Kept, CutRest, Trimming, Front, Rebuild, ApprovedUpdates, TrimEnd, ApprovedDocument, WithoutKeys,
      WithoutSection, Upserted;
  }

  /** The lines a parked ticket ends in. */
  function SectionBody(body: Doc): Doc {
    ["", "## " + HEADING, ""] + body + [""]
  }

  /** Parking: the block stamped, the section replaced at the end. */
  lemma EscalatedOfRebuilt(block: seq<string>, rest: seq<string>, at: string, verdict: string, reason: string,
      body: Doc)
    requires Unfenced(block) && block != [] && rest != [] && "## " + HEADING !in block
    requires OneLine(at) && OneLine(verdict) && OneLine(reason)
    ensures EscalatedDocument(Rebuild(block, rest), at, verdict, reason, body)
            == Rebuild(Rewrite(block, Stamps(at, verdict, reason)),
                       Trimming(CutRest(rest, "## " + HEADING)) + SectionBody(body))
  {
    hide *;
    var stamps, cut := Stamps(at, verdict, reason), CutRest(rest, "## " + HEADING);
    var stamped := Rewrite(block, stamps);
    StampsAreStamps(at, verdict, reason);
    UpsertOfRebuilt(block, rest, stamps);
    RewrittenHasNoHeading(block, stamps);
    CutOfRebuilt(stamped, rest);
    TrimEndOfRebuilt(stamped, cut);
    RebuildIs(stamped, Trimming(cut) + SectionBody(body));
    EscalatedIs(Rebuild(block, rest), at, verdict, reason, body);
    SectionAtEnd(Front(stamped) + Trimming(cut), body);
    assert Front(stamped) + Trimming(cut) + SectionBody(body) == Front(stamped) + (Trimming(cut) + SectionBody(body));
  }

  lemma EscalatedIs(doc: Doc, at: string, verdict: string, reason: string, body: Doc)
    ensures var open := WithoutSection(Upserted(doc, Stamps(at, verdict, reason)), HEADING);
            open != [] && EscalatedDocument(doc, at, verdict, reason, body)
                          == TrimEnd(open) + ["", "## " + HEADING, ""] + body + [""]
  {
    hide Stamps, TrimEnd, WithoutSection, Rewrite;
  }

  lemma SectionAtEnd(kept: seq<string>, body: Doc)
    ensures kept + ["", "## " + HEADING, ""] + body + [""] == kept + SectionBody(body)
  {
  }

  // ----- parked, then approved -----

  /** The findings from their first line that opens a section on. */
  function LeftOver(body: Doc): seq<string> {
    body[SectionFrom(body, 0)..]
  }

  lemma NothingLeftIff(body: Doc)
    ensures LeftOver(body) == [] <==> NoSections(body)
  {
    hide StartsWith;
    assert SectionFrom(body, 0) < |body| ==> LeftOver(body)[0] == body[SectionFrom(body, 0)];
  }

  /** Cutting the section a parked ticket ends in leaves what its findings open after their first section. */
  lemma CutOfSection(kept: seq<string>, body: Doc)
    requires "## " + HEADING !in kept
    ensures CutRest(kept + SectionBody(body), "## " + HEADING)
            == kept + [""] + if LeftOver(body) == [] then [] else LeftOver(body) + [""]
  {
    hide *;
    var line, whole := "## " + HEADING, kept + SectionBody(body);
    var before := kept + ["", line, ""];
    SectionAtEnd(kept, body);
    var p := SectionFrom(body, 0);
    SectionAfter(before, body);
    HeadingIsText();
    SectionFacts(kept, line, body);
    HeadingIsAt(whole, line, 0, |kept| + 1);
    CutRestIs(whole, line);
    LeftOverIs(body);
    SliceOfSection(kept, line, body, p);
  }

  lemma LeftOverIs(body: Doc)
    ensures SectionFrom(body, 0) <= |body| && LeftOver(body) == body[SectionFrom(body, 0)..]
  {
  }

  lemma SectionFacts(kept: seq<string>, line: string, body: Doc)
    requires line !in kept && line != ""
    ensures var whole := kept + ["", line, ""] + body + [""];
            && |kept| + 2 < |whole| && whole[|kept| + 1] == line
            && forall m :: 0 <= m < |kept| + 1 ==> whole[m] != line
    ensures |kept + ["", line, ""]| == |kept| + 3
  {
    var whole := kept + ["", line, ""] + body + [""];
    assert forall m :: 0 <= m < |kept| ==> whole[m] == kept[m];
    assert whole[|kept|] == "";
  }

  lemma SliceOfSection(kept: seq<string>, line: string, body: Doc, p: nat)
    requires p <= |body|
    ensures var whole := kept + ["", line, ""] + body + [""];
            && whole[..|kept| + 1] == kept + [""]
            && whole[|whole|..] == []
            && |kept| + 3 + p <= |whole| && whole[|kept| + 3 + p..] == body[p..] + [""]
  {
  }

  /** Left-over lines as they stand at the end of a document. */
  function Behind(left: seq<string>): seq<string> {
    if left == [] then [] else [""] + Trimming(left)
  }

  lemma BehindIs(left: seq<string>)
    ensures Behind(left) == if left == [] then [] else [""] + Trimming(left)
  {
  }

  lemma TrimmingOfLeftOver(kept: seq<string>, left: seq<string>)
    requires Trimming(kept) == kept && (left != [] ==> Trimming(left) != [])
    ensures Trimming(kept + [""] + if left == [] then [] else left + [""]) == kept + Behind(left)
  {
    hide *;
    BlankTrims();
    BehindIs(left);
    if left == [] {
      TrimmingOfAppend(kept, [""]);
      assert kept + [""] + [] == kept + [""];
    } else {
      TrimmingOfAppend(left, [""]);
      TrimmingOfAppend(kept + [""], left + [""]);
      assert kept + [""] + Trimming(left) == kept + ([""] + Trimming(left));
    }
  }

  lemma LeftOverIsText(body: Doc)
    ensures LeftOver(body) != [] ==> Trimming(LeftOver(body)) != []
  {
    var left := LeftOver(body);
    if left != [] {
      SectionLineIsNotBlank(left[0]);
      hide TrimRight, StartsWith;
      TrimmingOfAppend([left[0]], left[1..]);
      assert [left[0]] + left[1..] == left;
      assert Trimming([left[0]]) != [];
    }
  }

  /**
   * A ticket that was parked and then approved, trailing blanks aside: the ticket approved at once,
   * and after it whatever the findings hold from their first section line on.
   */
  lemma ApprovingAfterParking(doc: Doc, at: string, verdict: string, reason: string, body: Doc,
      spec: string, plan: string, date: string)
    requires Regular(doc) && "## " + HEADING !in Block(doc)
    requires forall line :: line in CutRest(Rest(doc), "## " + HEADING) ==>
               line != "## " + HEADING && TrimRight(line) != "## " + HEADING
    requires OneLine(at) && OneLine(verdict) && OneLine(reason)
    ensures var parked := EscalatedDocument(doc, at, verdict, reason, body);
            var late, straight := ApprovedDocument(parked, spec, plan, date), ApprovedDocument(doc, spec, plan, date);
            && late != [] && straight != []
            && TrimEnd(late) == TrimEnd(straight) + Behind(LeftOver(body))
            && (TrimEnd(late) == TrimEnd(straight) <==> NoSections(body))
  {
    hide *;
    RegularFacts(doc);
    var line, block, rest := "## " + HEADING, Block(doc), Rest(doc);
    var stamps, kept := Stamps(at, verdict, reason), Trimming(CutRest(rest, line));
    var stamped, section := Rewrite(block, stamps), kept + SectionBody(body);
    StampsAreStamps(at, verdict, reason);
    EscalatedOfRebuilt(block, rest, at, verdict, reason, body);
    RewrittenHasNoHeading(block, stamps);
    RewriteKeepsUnfenced(block, stamps);
    RewriteIsSome(block, stamps);
    SectionIsSome(kept, body);
    ApprovedOfRebuilt(block, rest, spec, plan, date);
    ApprovedOfRebuilt(stamped, section, spec, plan, date);
    KeptOfRewritten(block, stamps, ESCALATION_KEYS);
    SameApprovedBlock(block, stamped, spec, plan, date);
    TrimmingHasNoHeading(CutRest(rest, line), line);
    TrimmingTwice(CutRest(rest, line));
    CutOfSection(kept, body);
    LeftOverIsText(body);
    TrimmingOfLeftOver(kept, LeftOver(body));
    NothingLeftIff(body);
    Longer(Front(ApprovedBlock(block, spec, plan, date)), kept, LeftOver(body));
  }

  lemma RegularFacts(doc: Doc)
    requires Regular(doc)
    ensures HasBlock(doc) && Unfenced(Block(doc)) && Block(doc) != [] && Rest(doc) != []
    ensures doc == Rebuild(Block(doc), Rest(doc))
  {
    BlockIsUnfenced(doc);
    hide HasBlock, Block, Rest, Rebuild, Unfenced;
  }

  lemma RewriteIsSome(block: seq<string>, entries: seq<Entry>)
    requires block != []
    ensures Rewrite(block, entries) != []
  {
  }

  lemma SectionIsSome(kept: seq<string>, body: Doc)
    ensures kept + SectionBody(body) != []
  {
  }

  lemma SameApprovedBlock(a: seq<string>, b: seq<string>, spec: string, plan: string, date: string)
    requires Kept(a, ESCALATION_KEYS) == Kept(b, ESCALATION_KEYS)
    ensures ApprovedBlock(a, spec, plan, date) == ApprovedBlock(b, spec, plan, date)
  {
  }

  lemma Longer(front: seq<string>, kept: seq<string>, left: seq<string>)
    ensures var more := Behind(left);
            front + (kept + more) == front + kept + more && (front + kept + more == front + kept <==> left == [])
  {
    var more := Behind(left);
    assert |front + kept + more| == |front + kept| + |more|;
    hide Trimming;
    if left == [] {
      assert front + kept + [] == front + kept;
    }
  }

  /** A parked ticket reads with its stamps and otherwise as before: no other key changes. */
  lemma EscalatedReadsBack(doc: Doc, at: string, verdict: string, reason: string, body: Doc, key: string)
    requires Regular(doc) && "## " + HEADING !in Block(doc)
    requires OneLine(at) && OneLine(verdict) && OneLine(reason)
    ensures var found := Find(Stamps(at, verdict, reason), key);
            Field(EscalatedDocument(doc, at, verdict, reason, body), key)
            == if found.Some? && CountIn(doc, key) <= 1 then Some(Interpret(Trim(found.value))) else Field(doc, key)
  {
    hide *;
    RegularFacts(doc);
    var block, rest, stamps := Block(doc), Rest(doc), Stamps(at, verdict, reason);
    var kept := Trimming(CutRest(rest, "## " + HEADING));
    StampsAreStamps(at, verdict, reason);
    EscalatedOfRebuilt(block, rest, at, verdict, reason, body);
    RewriteKeepsUnfenced(block, stamps);
    RewriteIsSome(block, stamps);
    SectionIsSome(kept, body);
    RebuildReads(Rewrite(block, stamps), kept + SectionBody(body));
    LookupRewritten(block, stamps, key);
    FieldIsLookup(doc, key);
    FieldIsLookup(Rebuild(Rewrite(block, stamps), kept + SectionBody(body)), key);
  }

  lemma FieldIsLookup(doc: Doc, key: string)
    requires HasBlock(doc)
    ensures Field(doc, key) == Lookup(Block(doc), key) && CountIn(doc, key) == CountOf(Block(doc), key)
  {
    hide HasBlock, Block, Lookup, CountOf;
  }

  /** Findings that quote the section they go into: the ticket, approved, has that section again. */
  lemma QuotedHeadingExample(doc: Doc, at: string, verdict: string, reason: string, spec: string, plan: string,
      date: string)
    requires Regular(doc) && "## " + HEADING !in Block(doc)
    requires forall line :: line in CutRest(Rest(doc), "## " + HEADING) ==>
               line != "## " + HEADING && TrimRight(line) != "## " + HEADING
    requires OneLine(at) && OneLine(verdict) && OneLine(reason)
    ensures var parked := EscalatedDocument(doc, at, verdict, reason, ["a", "## " + HEADING, "b"]);
            var late := ApprovedDocument(parked, spec, plan, date);
            late != [] && "## " + HEADING in TrimEnd(late)
  {
    hide *;
    var line := "## " + HEADING;
    var body := ["a", line, "b"];
    ApprovingAfterParking(doc, at, verdict, reason, body, spec, plan, date);
    QuotedIsLeft(body, line);
    var straight := ApprovedDocument(doc, spec, plan, date);
    assert Behind(LeftOver(body))[1] == line;
    assert (TrimEnd(straight) + Behind(LeftOver(body)))[|TrimEnd(straight)| + 1] == line;
  }

  lemma QuotedIsLeft(body: Doc, line: string)
    requires line == "## " + HEADING && body == ["a", line, "b"]
    ensures Behind(LeftOver(body)) == ["", line, "b"]
  {
    assert !StartsWith("a", "## ") && StartsWith(line, "## ");
    assert TrimRight("b") == "b";
    hide StartsWith, TrimRight;
    SectionIsAt(body, 0, 1);
    assert LeftOver(body) == [line, "b"];
    assert Init([line, "b"]) == [line] && [line] + ["b"] == [line, "b"];
  }
}
