/**
 * The sharpen-criteria edit as a text transform (applySharpenCriteria and dedupeNew in
 * src/applyRefinement.ts), over documents as sequences of lines. The edit writes one item a
 * criterion and joins the lines; a criterion with a newline inside is read back as several lines.
 */
module AcceptanceCriteria {
  import opened Prelude
  import opened Text
  import opened Frontmatters
  import DependencyEdits

  // ----- lines -----

  function LowerCase(c: char): char {
    if 'A' <= c <= 'Z' then (c as int + 32) as char else c
  }

  /** Whether `s` starts with `word`, letter case aside. */
  predicate StartsWithWord(s: string, word: string) {
    |word| <= |s| && forall i :: 0 <= i < |word| ==> LowerCase(s[i]) == word[i]
  }

  predicate IsBlank(c: char) {
    c == ' ' || c == '\t'
  }

  /** How many blanks and tabs a line starts with. */
  function Blanks(s: string): (n: nat)
    ensures n <= |s| && (n < |s| ==> !IsBlank(s[n])) && forall i :: 0 <= i < n ==> IsBlank(s[i])
  {
    if s != "" && IsBlank(s[0]) then 1 + Blanks(s[1..]) else 0
  }

  /** /^##[ \t]+Acceptance criteria/i */
  predicate IsCriteriaHeading(line: string) {
    && |line| >= 2 && line[0] == '#' && line[1] == '#'
    && Blanks(line[2..]) > 0
    && StartsWithWord(line[2 + Blanks(line[2..])..], "acceptance criteria")
  }

  /** /^\s*-\s/ */
  predicate IsItem(line: string) {
    var l := TrimLeft(line);
    |l| >= 2 && l[0] == '-' && IsSpace(l[1])
  }

  /** [ ], [x] or [X] */
  predicate IsCheckbox(s: string) {
    |s| >= 3 && s[0] == '[' && (s[1] == ' ' || s[1] == 'x' || s[1] == 'X') && s[2] == ']'
  }

  /** Strip one list marker, with its checkbox if there is one. */
  function StripMarker(text: string): string {
    var l := TrimLeft(text);
    if l == "" || l[0] != '-' then text
    else
      var item := TrimLeft(l[1..]);
      if IsCheckbox(item) then item[3..] else item
  }

  /** The form in which criteria are compared. */
  function Normalize(text: string): string {
    Trim(StripMarker(text))
  }

  /** - [ ] <text> */
  function ItemLine(text: string): string {
    "- " + ("[ ]" + (" " + text))
  }

  lemma ItemLineStrips(text: string)
    ensures StripMarker(ItemLine(text)) == " " + text
  {
    var box, line := "[ ]" + (" " + text), ItemLine(text);
    assert line[0] == '-' && TrimLeft(line) == line;
    assert line[1..] == " " + box;
    assert box[0] == '[' && box[1] == ' ' && box[2] == ']' && box[3..] == " " + text;
    assert (" " + box)[1..] == box;
    assert TrimLeft(box) == box;
    assert TrimLeft(" " + box) == TrimLeft(box);
  }

  /** A written item is an item and normalizes to its text. */
  lemma ItemLineReads(text: string)
    requires Trimmed(text)
    ensures IsItem(ItemLine(text)) && Normalize(ItemLine(text)) == text
  {
    var line := ItemLine(text);
    assert line[0] == '-' && line[1] == ' ';
    assert TrimLeft(line) == line;
    ItemLineStrips(text);
    TrimLeftPadding(" ", text);
    TrimmedStays(text);
    hide StripMarker, TrimLeft, TrimRight, ItemLine;
  }

  /** A written item opens no section. */
  lemma ItemLineIsNoHeading(text: string)
    ensures !StartsWith(ItemLine(text), "## ") && !IsCriteriaHeading(ItemLine(text)) && TrimRight(ItemLine(text)) != ""
  {
    var line := ItemLine(text);
    assert line[0] == '-';
    assert |line| >= 3 ==> line[..3][0] == '-';
    hide ItemLine;
  }

  // ----- new criteria -----

  /** dedupeNew: the normal forms not seen before, each once. */
  function NewCriteria(criteria: seq<string>, seen: set<string>): seq<string> {
    if criteria == [] then []
    else
      var n := Normalize(criteria[0]);
      if n == "" || n in seen then NewCriteria(criteria[1..], seen)
      else [n] + NewCriteria(criteria[1..], seen + {n})
  }

  method DedupeNew(criteria: seq<string>, seen: set<string>) returns (out: seq<string>)
    ensures out == NewCriteria(criteria, seen)
  {
    var known := seen;
    out := [];
    hide Normalize;
    assert criteria[0..] == criteria;
    for i := 0 to |criteria|
      invariant out + NewCriteria(criteria[i..], known) == NewCriteria(criteria, seen)
    {
      assert criteria[i..][0] == criteria[i] && criteria[i..][1..] == criteria[i + 1..];
      var n := Normalize(criteria[i]);
      if n != "" && n !in known {
        known := known + {n};
        assert out + ([n] + NewCriteria(criteria[i + 1..], known))
          == (out + [n]) + NewCriteria(criteria[i + 1..], known);
        out := out + [n];
      }
    }
    assert criteria[|criteria|..] == [];
  }

  /** The normal forms a proposal asks for. */
  function Wanted(criteria: seq<string>): set<string> {
    set c | c in criteria && Normalize(c) != "" :: Normalize(c)
  }

  lemma WantedOfCons(criteria: seq<string>)
    requires criteria != []
    ensures var n := Normalize(criteria[0]);
            Wanted(criteria) == Wanted(criteria[1..]) + if n == "" then {} else {n}
  {
    hide Normalize;
    assert criteria == [criteria[0]] + criteria[1..];
  }

  lemma {:induction false} NewCriteriaAreNew(criteria: seq<string>, seen: set<string>, x: string)
    ensures x in NewCriteria(criteria, seen) <==> x in Wanted(criteria) && x !in seen
  {
    if criteria != [] {
      var n := Normalize(criteria[0]);
      WantedOfCons(criteria);
      NewCriteriaAreNew(criteria[1..], seen, x);
      NewCriteriaAreNew(criteria[1..], seen + {n}, x);
      hide Normalize, Wanted;
    }
  }

  lemma NormalizeIsTrimmed(text: string)
    ensures Trimmed(Normalize(text))
  {
    hide StripMarker, Trimmed, Trim;
    TrimIsTrimmed(StripMarker(text));
  }

  lemma {:induction false} NewCriteriaAreText(criteria: seq<string>, seen: set<string>, x: string)
    ensures x in NewCriteria(criteria, seen) ==> x != "" && Trimmed(x)
  {
    if criteria != [] {
      hide Normalize, Trimmed;
      var n := Normalize(criteria[0]);
      NormalizeIsTrimmed(criteria[0]);
      NewCriteriaAreText(criteria[1..], seen, x);
      NewCriteriaAreText(criteria[1..], seen + {n}, x);
    }
  }

  // ----- the section -----

  function CriteriaFrom(doc: seq<string>, k: nat): (h: nat)
    requires k <= |doc|
    ensures k <= h <= |doc| && (h < |doc| ==> IsCriteriaHeading(doc[h]))
    ensures forall i :: k <= i < h ==> !IsCriteriaHeading(doc[i])
    decreases |doc| - k
  {
    if k == |doc| || IsCriteriaHeading(doc[k]) then k else CriteriaFrom(doc, k + 1)
  }

  /** The normal forms of the items among the lines of a section. */
  function ItemsOf(lines: seq<string>): set<string> {
    set line | line in lines && IsItem(line) :: Normalize(line)
  }

  /** The lines under the criteria heading, up to the next section. */
  function SectionLines(doc: Doc): seq<string> {
    var h := CriteriaFrom(doc, 0);
    if h == |doc| then [] else doc[h + 1..SectionFrom(doc, h + 1)]
  }

  /** The acceptance criteria a document states. */
  function Criteria(doc: Doc): set<string> {
    ItemsOf(SectionLines(doc))
  }

  function ItemLines(texts: seq<string>): (lines: seq<string>)
    ensures |lines| == |texts| && forall i :: 0 <= i < |texts| ==> lines[i] == ItemLine(texts[i])
  {
    seq(|texts|, i requires 0 <= i < |texts| => ItemLine(texts[i]))
  }

  /** The items as the next reader finds them. */
  function WriteItems(texts: seq<string>): (lines: seq<string>)
    ensures (lines == [] <==> texts == []) && AreLines(lines)
  {
    Relined(ItemLines(texts))
  }

  /** Texts without a newline are written one item each. */
  lemma OneItemEach(texts: seq<string>)
    requires AreLines(texts)
    ensures WriteItems(texts) == ItemLines(texts)
  {
    forall i | 0 <= i < |texts|
      ensures '\n' !in ItemLines(texts)[i]
    {
      ItemLineIsOneLine(texts[i]);
    }
    hide ItemLine;
    RelinedLines(ItemLines(texts));
  }

  lemma ItemLineIsOneLine(text: string)
    ensures '\n' in ItemLine(text) ==> '\n' in text
  {
    assert '\n' !in "- " && '\n' !in "[ ]" && '\n' !in " ";
  }

  /** Back from the end of the section over its trailing blank lines. */
  function AfterLastLine(doc: seq<string>, h: nat, at: nat): (r: nat)
    requires h < at <= |doc|
    ensures h < r <= at
  {
    if at - 1 > h && Trim(doc[at - 1]) == "" then AfterLastLine(doc, h, at - 1) else at
  }

  const HEADING: string := "##" + (" " + "Acceptance criteria")

  /** Where a section that does not exist yet goes: before the first section, or at the end. */
  function WithNewSection(doc: Doc, items: seq<string>): (r: Doc)
    requires doc != []
    ensures r != []
  {
    var f := SectionFrom(doc, 0);
    if f == |doc| then TrimEnd(doc) + [""] + ([HEADING, ""] + items + ["", ""])
    else doc[..f] + ([HEADING, ""] + items + ([""] + doc[f..]))
  }

  /** Items after the last line of the section under the heading at `h`. */
  function WithItems(doc: Doc, h: nat, items: seq<string>): (r: Doc)
    requires h < |doc|
    ensures r != []
  {
    var at := AfterLastLine(doc, h, SectionFrom(doc, h + 1));
    doc[..at] + items + doc[at..]
  }

  /** The items a proposal adds. */
  function Added(doc: Doc, criteria: seq<string>): seq<string> {
    WriteItems(NewCriteria(criteria, Criteria(doc)))
  }

  /** applySharpenCriteria */
  function SharpenCriteria(doc: Doc, criteria: seq<string>): (r: Doc)
    requires doc != []
    ensures r != []
  {
    var h, items := CriteriaFrom(doc, 0), Added(doc, criteria);
    if items == [] then doc
    else if h == |doc| then WithNewSection(doc, items)
    else WithItems(doc, h, items)
  }

  lemma CriteriaIsAt(doc: seq<string>, k: nat, h: nat)
    requires k <= h <= |doc| && (h < |doc| ==> IsCriteriaHeading(doc[h]))
    requires forall i :: k <= i < h ==> !IsCriteriaHeading(doc[i])
    ensures CriteriaFrom(doc, k) == h
  {
    var f := CriteriaFrom(doc, k);
    hide IsCriteriaHeading, CriteriaFrom;
    assert !(f < h);
    assert !(h < f);
  }

  lemma WordMatches()
    ensures StartsWithWord("Acceptance criteria", "acceptance criteria")
  {
  }

  lemma HeadingOf(word: string)
    requires word != "" && !IsBlank(word[0]) && StartsWithWord(word, "acceptance criteria")
    ensures IsCriteriaHeading("##" + (" " + word))
  {
    var line, rest := "##" + (" " + word), " " + word;
    hide StartsWithWord;
    assert line[2..] == rest;
    assert rest[1..] == word;
    assert Blanks(rest) == 1;
    assert line[2 + 1..] == word;
  }

  lemma HeadingIsHeading()
    ensures IsCriteriaHeading(HEADING)
  {
    WordMatches();
    assert "Acceptance criteria"[0] == 'A';
    hide IsCriteriaHeading, StartsWithWord;
    HeadingOf("Acceptance criteria");
  }

  lemma ItemsOfWritten(texts: seq<string>)
    requires AreLines(texts) && forall n :: n in texts ==> Trimmed(n)
    ensures forall x :: x in ItemsOf(WriteItems(texts)) <==> x in texts
  {
    OneItemEach(texts);
    hide Normalize, IsItem, ItemLine, Trimmed, WriteItems, AreLines;
    forall i | 0 <= i < |texts|
      ensures IsItem(ItemLines(texts)[i]) && Normalize(ItemLines(texts)[i]) == texts[i]
    {
      assert texts[i] in texts;
      ItemLineReads(texts[i]);
    }
    forall x | x in texts
      ensures x in ItemsOf(ItemLines(texts))
    {
      var i :| 0 <= i < |texts| && texts[i] == x;
      assert ItemLines(texts)[i] in ItemLines(texts);
    }
  }

  lemma ItemsOfAppend(a: seq<string>, b: seq<string>)
    ensures ItemsOf(a + b) == ItemsOf(a) + ItemsOf(b)
  {
    hide Normalize, IsItem;
    assert forall line :: line in a + b <==> line in a || line in b;
  }

  lemma BlankIsNoItem()
    ensures ItemsOf([""]) == {} && !StartsWith("", "## ") && !IsCriteriaHeading("")
  {
    assert !IsItem("");
  }

  lemma WrittenItemsStayInside(texts: seq<string>)
    requires AreLines(texts)
    ensures var lines := WriteItems(texts); forall i :: 0 <= i < |lines| ==> !StartsWith(lines[i], "## ")
  {
    OneItemEach(texts);
    hide StartsWith, ItemLine, WriteItems, AreLines;
    forall i | 0 <= i < |texts|
      ensures !StartsWith(ItemLines(texts)[i], "## ")
    {
      ItemLineIsNoHeading(texts[i]);
    }
  }

  lemma Inserted(doc: seq<string>, at: nat, items: seq<string>)
    requires at <= |doc|
    ensures var r := doc[..at] + items + doc[at..];
            && |r| == |doc| + |items|
            && (forall i :: 0 <= i < at ==> r[i] == doc[i])
            && (forall i :: at <= i < at + |items| ==> r[i] == items[i - at])
            && (forall i :: at + |items| <= i < |r| ==> r[i] == doc[i - |items|])
            && (forall h, end :: 0 <= h <= at <= end <= |doc| ==>
                 r[h..end + |items|] == doc[h..at] + items + doc[at..end])
  {
  }

  lemma ExtendedEnds(doc: seq<string>, k: nat, at: nat, items: seq<string>)
    requires k <= |doc| && k <= at <= SectionFrom(doc, k)
    requires forall i :: 0 <= i < |items| ==> !StartsWith(items[i], "## ")
    ensures var r := doc[..at] + items + doc[at..]; SectionFrom(r, k) == SectionFrom(doc, k) + |items|
  {
    Inserted(doc, at, items);
    hide *;
    SectionIsAt(doc[..at] + items + doc[at..], k, SectionFrom(doc, k) + |items|);
  }

  lemma SectionLinesAre(doc: Doc, h: nat, end: nat)
    requires h == CriteriaFrom(doc, 0) < |doc| && end == SectionFrom(doc, h + 1)
    ensures SectionLines(doc) == doc[h + 1..end]
  {
    hide CriteriaFrom, SectionFrom;
  }

  /** Items put into the section there is: the section is still the first, and has them too. */
  lemma SectionExtended(doc: Doc, h: nat, at: nat, items: seq<string>)
    requires h == CriteriaFrom(doc, 0) < |doc| && h < at <= SectionFrom(doc, h + 1)
    requires forall i :: 0 <= i < |items| ==> !StartsWith(items[i], "## ")
    ensures var r := doc[..at] + items + doc[at..];
            && CriteriaFrom(r, 0) == h < |r|
            && SectionLines(r) == doc[h + 1..at] + items + doc[at..SectionFrom(doc, h + 1)]
  {
    hide *;
    var end := SectionFrom(doc, h + 1);
    var r := doc[..at] + items + doc[at..];
    Inserted(doc, at, items);
    assert CriteriaFrom(r, 0) == h by {
      CriteriaIsAt(r, 0, h);
    }
    ExtendedEnds(doc, h + 1, at, items);
    SectionLinesAre(r, h, end + |items|);
  }

  lemma Assembled(front: seq<string>, head: string, items: seq<string>, back: seq<string>)
    ensures var r := front + ([head, ""] + items + back);
            var h := |front|;
            && |r| == h + 2 + |items| + |back|
            && (forall i :: 0 <= i < h ==> r[i] == front[i])
            && r[h] == head && r[h + 1] == ""
            && (forall i :: h + 2 <= i < h + 2 + |items| ==> r[i] == items[i - h - 2])
            && (forall i :: h + 2 + |items| <= i < |r| ==> r[i] == back[i - h - 2 - |items|])
  {
  }

  lemma AssembledSlice(front: seq<string>, head: string, items: seq<string>, back: seq<string>, b: nat)
    requires b <= |back|
    ensures var r, h := front + ([head, ""] + items + back), |front|;
            h + 2 + |items| + b <= |r| && r[h + 1..h + 2 + |items| + b] == [""] + items + back[..b]
  {
    var r, h := front + ([head, ""] + items + back), |front|;
    var middle := [""] + items + back[..b];
    assert |r| == h + 2 + |items| + |back|;
    forall i | 0 <= i < |middle|
      ensures r[h + 1..h + 2 + |items| + b][i] == middle[i]
    {
    }
  }

  lemma AssembledHeading(front: seq<string>, items: seq<string>, back: seq<string>)
    requires forall i :: 0 <= i < |front| ==> !IsCriteriaHeading(front[i])
    ensures CriteriaFrom(front + ([HEADING, ""] + items + back), 0) == |front|
  {
    hide *;
    HeadingIsHeading();
    Assembled(front, HEADING, items, back);
    CriteriaIsAt(front + ([HEADING, ""] + items + back), 0, |front|);
  }

  lemma AssembledEnd(front: seq<string>, items: seq<string>, back: seq<string>)
    requires forall i :: 0 <= i < |items| ==> !StartsWith(items[i], "## ")
    ensures var r := front + ([HEADING, ""] + items + back);
            SectionFrom(r, |front| + 1) == |front| + 2 + |items| + SectionFrom(back, 0)
  {
    hide *;
    BlankIsNoItem();
    Assembled(front, HEADING, items, back);
    SectionIsAt(front + ([HEADING, ""] + items + back), |front| + 1, |front| + 2 + |items| + SectionFrom(back, 0));
  }

  /** A new section after lines without one, up to the next section or the end. */
  lemma SectionCreated(front: seq<string>, items: seq<string>, back: seq<string>)
    requires forall i :: 0 <= i < |front| ==> !IsCriteriaHeading(front[i])
    requires forall i :: 0 <= i < |items| ==> !StartsWith(items[i], "## ")
    ensures var r := front + ([HEADING, ""] + items + back);
            CriteriaFrom(r, 0) == |front| < |r| && SectionLines(r) == [""] + items + back[..SectionFrom(back, 0)]
  {
    hide *;
    var r := front + ([HEADING, ""] + items + back);
    Assembled(front, HEADING, items, back);
    AssembledHeading(front, items, back);
    AssembledEnd(front, items, back);
    AssembledSlice(front, HEADING, items, back, SectionFrom(back, 0));
    SectionLinesAre(r, |front|, |front| + 2 + |items| + SectionFrom(back, 0));
  }

  // ----- the edit as the loops it is -----

  /** Where the section under the heading at `h` ends. */
  method SectionEnd(doc: Doc, h: nat) returns (end: nat)
    requires h < |doc|
    ensures end == SectionFrom(doc, h + 1)
  {
    end := |doc|;
    for i := h + 1 to |doc|
      invariant end == |doc|
      invariant forall k :: h < k < i ==> !StartsWith(doc[k], "## ")
    {
      if StartsWith(doc[i], "## ") {
        end := i;
        break;
      }
    }
    hide StartsWith;
    SectionIsAt(doc, h + 1, end);
  }

  /** The normal forms of the items in doc[from..end]. */
  method SeenItems(doc: Doc, from: nat, end: nat) returns (seen: set<string>)
    requires from <= end <= |doc|
    ensures seen == ItemsOf(doc[from..end])
  {
    seen := {};
    hide Normalize, IsItem;
    for i := from to end
      invariant seen == ItemsOf(doc[from..i])
    {
      assert doc[from..i + 1] == doc[from..i] + [doc[i]];
      ItemsOfAppend(doc[from..i], [doc[i]]);
      if IsItem(doc[i]) {
        seen := seen + {Normalize(doc[i])};
      }
    }
  }

  /** Skip the blank lines that trail the section. */
  method InsertionPoint(doc: Doc, h: nat, end: nat) returns (at: nat)
    requires h < end <= |doc|
    ensures at == AfterLastLine(doc, h, end)
  {
    at := end;
    hide Trim;
    while at - 1 > h && Trim(doc[at - 1]) == ""
      invariant h < at <= end && AfterLastLine(doc, h, at) == AfterLastLine(doc, h, end)
    {
      at := at - 1;
    }
  }

  /** The lines of the edited text, joined and read again. */
  method ApplySharpenCriteria(doc: Doc, criteria: seq<string>) returns (r: Doc)
    requires doc != [] && AreLines(doc)
    ensures r == SharpenCriteria(doc, criteria)
  {
    var h := CriteriaFrom(doc, 0);
    hide CriteriaFrom, SectionFrom, NewCriteria, AfterLastLine, WithNewSection, ItemsOf, AreLines;
    if h == |doc| {
      assert SectionLines(doc) == [];
      assert ItemsOf([]) == {} by { NoItems(); }
      var added := DedupeNew(criteria, {});
      if added == [] {
        return doc;
      }
      r := NewSection(doc, added);
      return;
    }
    var end := SectionEnd(doc, h);
    var seen := SeenItems(doc, h + 1, end);
    var added := DedupeNew(criteria, seen);
    if added == [] {
      return doc;
    }
    var at := InsertionPoint(doc, h, end);
    var lines := doc[..at] + ItemLines(added) + doc[at..];
    r := Split(Join(lines, "\n"), '\n');
    RelinedIsReread(lines);
    RelinedMiddle(doc[..at], added, doc[at..]) by { SomeLines(doc, at); }
  }

  /** The section built and put before the first one, or after the text with its trailing blanks trimmed. */
  method NewSection(doc: Doc, added: seq<string>) returns (r: Doc)
    requires doc != [] && AreLines(doc)
    ensures r == WithNewSection(doc, WriteItems(added))
  {
    hide AreLines, TrimEnd, SectionFrom;
    var f := SectionFrom(doc, 0);
    var front, back := TrimEnd(doc) + [""], ["", ""];
    HeadingIsOneLine();
    if f == |doc| {
      TrimEndIsLines(doc);
      LinesOfAppend(TrimEnd(doc), [""]);
    } else {
      front, back := doc[..f], [""] + doc[f..];
      SomeLines(doc, f);
      LinesOfAppend([""], doc[f..]);
    }
    var lines := front + ([HEADING, ""] + ItemLines(added) + back);
    r := Split(Join(lines, "\n"), '\n');
    RelinedIsReread(lines);
    LinesOfAppend(front, [HEADING, ""]);
    RelinedMiddle(front + [HEADING, ""], added, back);
    Reassociate(front, [HEADING, ""], ItemLines(added), back);
    Reassociate(front, [HEADING, ""], WriteItems(added), back);
  }

  lemma RelinedMiddle(front: seq<string>, texts: seq<string>, back: seq<string>)
    requires AreLines(front) && AreLines(back)
    ensures Relined(front + ItemLines(texts) + back) == front + WriteItems(texts) + back
  {
    RelinedLines(front);
    RelinedLines(back);
    RelinedOfAppend(front + ItemLines(texts), back);
    RelinedOfAppend(front, ItemLines(texts));
    hide Relined, ItemLines;
  }

  lemma SomeLines(doc: seq<string>, at: nat)
    requires AreLines(doc) && at <= |doc|
    ensures AreLines(doc[..at]) && AreLines(doc[at..])
  {
  }

  lemma Reassociate<T>(a: seq<T>, b: seq<T>, c: seq<T>, d: seq<T>)
    ensures a + (b + c + d) == a + b + c + d
  {
  }

  lemma LinesOfAppend(a: seq<string>, b: seq<string>)
    ensures AreLines(a + b) <==> AreLines(a) && AreLines(b)
  {
    if AreLines(a + b) {
      assert forall i :: 0 <= i < |a| ==> a[i] == (a + b)[i];
      assert forall i :: 0 <= i < |b| ==> b[i] == (a + b)[|a| + i];
    }
  }

  lemma HeadingIsOneLine()
    ensures AreLines([HEADING, ""]) && AreLines([""]) && AreLines(["", ""])
  {
    assert '\n' !in "##" && '\n' !in " " && '\n' !in "Acceptance criteria";
  }

  lemma TrimRightIsOneLine(line: string)
    requires '\n' !in line
    ensures '\n' !in TrimRight(line)
  {
    assert line == TrimRight(line) + line[|TrimRight(line)|..];
  }

  lemma TrimEndIsLines(doc: Doc)
    requires doc != [] && AreLines(doc)
    ensures AreLines(TrimEnd(doc))
  {
    hide TrimEnd, TrimRight;
    forall i | 0 <= i < |TrimEnd(doc)|
      ensures '\n' !in TrimEnd(doc)[i]
    {
      KeptLine(doc, i);
      TrimRightIsOneLine(doc[i]);
    }
  }

  // ----- what sharpening does -----

  lemma BlanksOfFront(line: string, front: string)
    requires |front| <= |line| && front == line[..|front|] && Blanks(front) < |front|
    ensures Blanks(line) == Blanks(front)
  {
    var n, m := Blanks(line), Blanks(front);
    hide Blanks;
    assert forall i :: 0 <= i < |front| ==> line[i] == front[i];
    assert !(n < m);
    assert !(m < n);
  }

  /** Losing trailing text can unmake a heading, never make one. */
  lemma HeadingOfFront(line: string, front: string)
    requires |front| <= |line| && front == line[..|front|] && IsCriteriaHeading(front)
    ensures IsCriteriaHeading(line)
  {
    var m := Blanks(front[2..]);
    assert front[2..] == line[2..][..|front| - 2];
    BlanksOfFront(line[2..], front[2..]);
    assert forall i :: 0 <= i < |front| ==> line[i] == front[i];
    hide Blanks;
  }

  lemma TrimEndKeepsHeadingless(doc: Doc)
    requires doc != [] && CriteriaFrom(doc, 0) == |doc|
    ensures forall i :: 0 <= i < |TrimEnd(doc) + [""]| ==> !IsCriteriaHeading((TrimEnd(doc) + [""])[i])
  {
    var kept := TrimEnd(doc);
    BlankIsNoItem();
    hide IsCriteriaHeading, TrimEnd, CriteriaFrom;
    forall i | 0 <= i < |kept|
      ensures !IsCriteriaHeading(kept[i])
    {
      if i < |kept| - 1 {
        assert kept[i] == Init(kept)[i] == doc[i];
      } else {
        var t := TrimRight(doc[i]);
        assert kept[i] == t && t == doc[i][..|t|];
        if IsCriteriaHeading(t) {
          HeadingOfFront(doc[i], t);
        }
      }
    }
  }

  lemma BlankBack(back: seq<string>)
    ensures SectionFrom([""] + back, 0) == 1 + SectionFrom(back, 0)
  {
    var whole := [""] + back;
    BlankIsNoItem();
    hide StartsWith, SectionFrom;
    assert forall i :: 1 <= i < |whole| ==> whole[i] == back[i - 1];
    SectionIsAt(whole, 0, 1 + SectionFrom(back, 0));
  }

  lemma ItemsBetweenBlanks(items: seq<string>, n: nat)
    requires n <= 2
    ensures ItemsOf([""] + items + ["", ""][..n]) == ItemsOf(items)
  {
    BlankIsNoItem();
    ItemsOfAppend([""] + items, ["", ""][..n]);
    ItemsOfAppend([""], items);
    hide IsItem, Normalize;
    assert forall line :: line in ["", ""][..n] ==> line == "";
    assert ItemsOf(["", ""][..n]) <= ItemsOf([""]);
  }

  /** A new section holds exactly the new items. */
  lemma NewSectionHolds(doc: Doc, items: seq<string>)
    requires doc != [] && CriteriaFrom(doc, 0) == |doc|
    requires forall i :: 0 <= i < |items| ==> !StartsWith(items[i], "## ")
    ensures var r := WithNewSection(doc, items); CriteriaFrom(r, 0) < |r| && Criteria(r) == ItemsOf(items)
  {
    var f := SectionFrom(doc, 0);
    if f == |doc| {
      TrimEndKeepsHeadingless(doc);
      BlankBack([""]);
      BlankBack([]);
      hide StartsWith, IsCriteriaHeading, TrimEnd, CriteriaFrom, SectionLines, ItemsOf;
      assert [""] + [] == [""] && [""] + [""] == ["", ""];
      SectionCreated(TrimEnd(doc) + [""], items, ["", ""]);
      ItemsBetweenBlanks(items, 2);
    } else {
      BlankBack(doc[f..]);
      hide IsCriteriaHeading, CriteriaFrom, SectionLines, ItemsOf;
      SectionCreated(doc[..f], items, [""] + doc[f..]);
      assert SectionFrom(doc[f..], 0) == 0;
      assert ([""] + doc[f..])[..1] == ["", ""][..1];
      ItemsBetweenBlanks(items, 1);
    }
  }

  lemma SectionSplit(doc: Doc, h: nat, at: nat)
    requires h == CriteriaFrom(doc, 0) < |doc| && h < at <= SectionFrom(doc, h + 1)
    ensures Criteria(doc) == ItemsOf(doc[h + 1..at]) + ItemsOf(doc[at..SectionFrom(doc, h + 1)])
  {
    hide CriteriaFrom, SectionFrom, ItemsOf, SectionLines;
    var end := SectionFrom(doc, h + 1);
    SectionLinesAre(doc, h, end);
    SliceSplits(doc, h + 1, at, end);
    ItemsOfAppend(doc[h + 1..at], doc[at..end]);
  }

  lemma SliceSplits(doc: seq<string>, a: nat, b: nat, c: nat)
    requires a <= b <= c <= |doc|
    ensures doc[a..c] == doc[a..b] + doc[b..c]
  {
  }

  /** The section that was there holds its own items and the new ones. */
  lemma ExtendedSectionHolds(doc: Doc, h: nat, at: nat, items: seq<string>)
    requires h == CriteriaFrom(doc, 0) < |doc| && h < at <= SectionFrom(doc, h + 1)
    requires forall i :: 0 <= i < |items| ==> !StartsWith(items[i], "## ")
    ensures var r := doc[..at] + items + doc[at..];
            CriteriaFrom(r, 0) < |r| && Criteria(r) == Criteria(doc) + ItemsOf(items)
  {
    SectionExtended(doc, h, at, items);
    SectionSplit(doc, h, at);
    var end := SectionFrom(doc, h + 1);
    hide CriteriaFrom, SectionFrom, ItemsOf, SectionLines;
    ItemsOfAppend(doc[h + 1..at] + items, doc[at..end]);
    ItemsOfAppend(doc[h + 1..at], items);
  }

  /** No criterion has a newline inside. */
  predicate OneLined(criteria: seq<string>) {
    forall c :: c in criteria ==> '\n' !in Normalize(c)
  }

  lemma NewCriteriaAreLines(criteria: seq<string>, seen: set<string>)
    requires OneLined(criteria)
    ensures AreLines(NewCriteria(criteria, seen))
  {
    hide NewCriteria, Normalize;
    var added := NewCriteria(criteria, seen);
    forall i | 0 <= i < |added|
      ensures '\n' !in added[i]
    {
      NewCriteriaAreNew(criteria, seen, added[i]);
      var c :| c in criteria && Normalize(c) == added[i];
    }
  }

  lemma AddedAre(doc: Doc, criteria: seq<string>)
    requires OneLined(criteria)
    ensures var items := Added(doc, criteria);
            && (forall i :: 0 <= i < |items| ==> !StartsWith(items[i], "## "))
            && Criteria(doc) + ItemsOf(items) == Criteria(doc) + Wanted(criteria)
  {
    var added := NewCriteria(criteria, Criteria(doc));
    NewCriteriaAreLines(criteria, Criteria(doc));
    forall x { NewCriteriaAreNew(criteria, Criteria(doc), x); }
    forall x { NewCriteriaAreText(criteria, Criteria(doc), x); }
    ItemsOfWritten(added);
    WrittenItemsStayInside(added);
    hide Wanted, NewCriteria, Criteria, ItemsOf, StartsWith, WriteItems;
  }

  /** Something is added exactly when something wanted is not stated. */
  lemma AddsIffMissing(doc: Doc, criteria: seq<string>)
    ensures Added(doc, criteria) == [] <==> Wanted(criteria) <= Criteria(doc)
  {
    var added := NewCriteria(criteria, Criteria(doc));
    forall x { NewCriteriaAreNew(criteria, Criteria(doc), x); }
    hide Wanted, NewCriteria, Criteria, WriteItems;
    if added != [] {
      assert added[0] in added;
    }
  }

  /** If anything is added there is a section afterwards, whatever the items look like. */
  lemma SectionAfterwards(doc: Doc, criteria: seq<string>)
    requires doc != [] && Added(doc, criteria) != []
    ensures var r := SharpenCriteria(doc, criteria); CriteriaFrom(r, 0) < |r| && r != doc
  {
    var h, items := CriteriaFrom(doc, 0), Added(doc, criteria);
    hide Added, CriteriaFrom, AfterLastLine, SectionFrom, WithNewSection;
    if h < |doc| {
      var at := AfterLastLine(doc, h, SectionFrom(doc, h + 1));
      Inserted(doc, at, items);
      CriteriaIsAt(SharpenCriteria(doc, criteria), 0, h);
    } else {
      NewSectionHasHeading(doc, items);
    }
  }

  lemma NewSectionHasHeading(doc: Doc, items: seq<string>)
    requires doc != [] && CriteriaFrom(doc, 0) == |doc|
    ensures var r := WithNewSection(doc, items); CriteriaFrom(r, 0) < |r|
  {
    var f := SectionFrom(doc, 0);
    hide IsCriteriaHeading, CriteriaFrom, TrimEnd, SectionFrom;
    if f == |doc| {
      TrimEndKeepsHeadingless(doc);
      AssembledHeading(TrimEnd(doc) + [""], items, ["", ""]);
    } else {
      AssembledHeading(doc[..f], items, [""] + doc[f..]);
    }
  }

  /** With one-line criteria, the section states exactly the criteria it stated before and the ones proposed. */
  lemma SharpeningStates(doc: Doc, criteria: seq<string>)
    requires doc != [] && OneLined(criteria)
    ensures Criteria(SharpenCriteria(doc, criteria)) == Criteria(doc) + Wanted(criteria)
  {
    AddedAre(doc, criteria);
    NoItems();
    var h, items := CriteriaFrom(doc, 0), Added(doc, criteria);
    hide Criteria, Wanted, Added, CriteriaFrom, WithNewSection, WithItems, ItemsOf, StartsWith, OneLined;
    if h < |doc| {
      WithItemsHolds(doc, h, items);
    } else if items != [] {
      NothingStated(doc);
      NewSectionHolds(doc, items);
    }
  }

  lemma WithItemsHolds(doc: Doc, h: nat, items: seq<string>)
    requires h == CriteriaFrom(doc, 0) < |doc|
    requires forall i :: 0 <= i < |items| ==> !StartsWith(items[i], "## ")
    ensures var r := WithItems(doc, h, items); CriteriaFrom(r, 0) < |r| && Criteria(r) == Criteria(doc) + ItemsOf(items)
  {
    hide Criteria, CriteriaFrom, SectionFrom, AfterLastLine, StartsWith, ItemsOf;
    ExtendedSectionHolds(doc, h, AfterLastLine(doc, h, SectionFrom(doc, h + 1)), items);
  }

  lemma NoItems()
    ensures ItemsOf([]) == {}
  {
  }

  lemma NothingStated(doc: Doc)
    requires CriteriaFrom(doc, 0) == |doc|
    ensures Criteria(doc) == {}
  {
  }

  // ----- criteria with a newline inside -----

  lemma PartOfLine(line: string, lo: nat, hi: nat)
    requires lo <= hi <= |line| && '\n' !in line
    ensures '\n' !in line[lo..hi]
  {
  }

  lemma NormalizeIsPart(line: string)
    ensures exists lo: nat, hi: nat :: lo <= hi <= |line| && Normalize(line) == line[lo..hi]
  {
    var s := StripMarker(line);
    StripMarkerIsEnd(line);
    hide StripMarker;
    var l := TrimLeft(s);
    var r := TrimRight(l);
    var lo: nat := |line| - |l|;
    var hi: nat := lo + |r|;
    assert r == line[lo..hi];
  }

  lemma StripMarkerIsEnd(line: string)
    ensures var s := StripMarker(line); |s| <= |line| && s == line[|line| - |s|..]
  {
    hide IsSpace, TrimLeft;
    var l := TrimLeft(line);
    assert line[0..] == line;
    if l != "" && l[0] == '-' {
      var item := TrimLeft(l[1..]);
      assert item == line[|line| - |item|..];
    }
  }

  lemma SectionIsOfDoc(doc: Doc, line: string)
    requires AreLines(doc) && line in SectionLines(doc)
    ensures '\n' !in line
  {
    hide CriteriaFrom, SectionFrom;
  }

  /** What a document states has no newline inside. */
  lemma StatedIsOneLine(doc: Doc, x: string)
    requires AreLines(doc) && x in Criteria(doc)
    ensures '\n' !in x
  {
    hide IsItem, Normalize, SectionLines;
    var line :| line in SectionLines(doc) && IsItem(line) && x == Normalize(line);
    SectionIsOfDoc(doc, line);
    NormalizeIsPart(line);
    var lo: nat, hi: nat :| lo <= hi <= |line| && Normalize(line) == line[lo..hi];
    PartOfLine(line, lo, hi);
  }

  /** The edited text, read again, is lines. */
  lemma SharpenedIsLines(doc: Doc, criteria: seq<string>)
    requires doc != [] && AreLines(doc)
    ensures AreLines(SharpenCriteria(doc, criteria))
  {
    var h, items := CriteriaFrom(doc, 0), Added(doc, criteria);
    hide Added, CriteriaFrom, SectionFrom, AfterLastLine, TrimEnd, AreLines;
    HeadingIsOneLine();
    if items != [] {
      assert AreLines(items) by { AddedIsLines(doc, criteria); }
      if h < |doc| {
        var at := AfterLastLine(doc, h, SectionFrom(doc, h + 1));
        SomeLines(doc, at);
        LinesOfAppend(doc[..at], items);
        LinesOfAppend(doc[..at] + items, doc[at..]);
      } else {
        NewSectionIsLines(doc, items);
      }
    }
  }

  lemma AddedIsLines(doc: Doc, criteria: seq<string>)
    ensures AreLines(Added(doc, criteria))
  {
  }

  lemma NewSectionIsLines(doc: Doc, items: seq<string>)
    requires doc != [] && AreLines(doc) && AreLines(items)
    ensures AreLines(WithNewSection(doc, items))
  {
    hide AreLines, TrimEnd, SectionFrom;
    HeadingIsOneLine();
    var f := SectionFrom(doc, 0);
    LinesOfAppend([HEADING, ""], items);
    if f == |doc| {
      TrimEndIsLines(doc);
      LinesOfAppend(TrimEnd(doc), [""]);
      LinesOfAppend([HEADING, ""] + items, ["", ""]);
      LinesOfAppend(TrimEnd(doc) + [""], [HEADING, ""] + items + ["", ""]);
    } else {
      SomeLines(doc, f);
      LinesOfAppend([""], doc[f..]);
      LinesOfAppend([HEADING, ""] + items, [""] + doc[f..]);
      LinesOfAppend(doc[..f], [HEADING, ""] + items + ([""] + doc[f..]));
    }
  }

  /** A criterion with a newline inside is never stated, so every pass adds it. */
  lemma BrokenIsMissing(doc: Doc, criteria: seq<string>)
    requires AreLines(doc) && !OneLined(criteria)
    ensures !(Wanted(criteria) <= Criteria(doc)) && Added(doc, criteria) != []
  {
    hide Normalize, Criteria, Added;
    var c :| c in criteria && '\n' in Normalize(c);
    assert Normalize(c) in Wanted(criteria);
    if Normalize(c) in Criteria(doc) {
      StatedIsOneLine(doc, Normalize(c));
    }
    AddsIffMissing(doc, criteria);
  }

  /**
   * After sharpening, the section states exactly the criteria it stated before and the ones
   * proposed, compared by normal form, exactly when no criterion has a newline inside.
   */
  lemma SharpeningAddsExactly(doc: Doc, criteria: seq<string>)
    requires doc != [] && AreLines(doc)
    ensures Criteria(SharpenCriteria(doc, criteria)) == Criteria(doc) + Wanted(criteria) <==> OneLined(criteria)
  {
    SharpenedIsLines(doc, criteria);
    hide Criteria, Wanted, SharpenCriteria, OneLined, AreLines;
    if OneLined(criteria) {
      SharpeningStates(doc, criteria);
    } else {
      BrokenIsMissing(SharpenCriteria(doc, criteria), criteria);
    }
  }

  /** Sharpening by the same proposal again: nothing changes, or the text grows once more. */
  lemma SharpenIsIdempotentIff(doc: Doc, criteria: seq<string>)
    requires doc != [] && AreLines(doc)
    ensures var once := SharpenCriteria(doc, criteria);
            var twice := SharpenCriteria(once, criteria);
            && (twice == once <==> OneLined(criteria))
            && (twice != once ==> |twice| > |once|)
  {
    var once := SharpenCriteria(doc, criteria);
    SharpenedIsLines(doc, criteria);
    hide Criteria, Wanted, CriteriaFrom, SectionFrom, AfterLastLine, WithNewSection, Added, OneLined, AreLines;
    if OneLined(criteria) {
      SharpeningStates(doc, criteria);
      AddsIffMissing(once, criteria);
    } else {
      BrokenIsMissing(doc, criteria);
      BrokenIsMissing(once, criteria);
      SectionAfterwards(doc, criteria);
      var h := CriteriaFrom(once, 0);
      Inserted(once, AfterLastLine(once, h, SectionFrom(once, h + 1)), Added(once, criteria));
    }
  }

  const BROKEN: string := "a" + ['\n'] + "b"

  lemma HeadingIsLine()
    ensures AreLines([HEADING])
  {
    HeadingIsOneLine();
    assert [HEADING, ""][0] == HEADING;
  }

  lemma BrokenNormalizes()
    ensures Normalize(BROKEN) == BROKEN && '\n' in BROKEN
  {
    assert BROKEN[0] == 'a' && Last(BROKEN) == 'b' && BROKEN[1] == '\n';
    TrimmedStays(BROKEN);
  }

  lemma RelinedOfOne(line: string)
    ensures Relined([line]) == Split(line, '\n')
  {
    hide Split;
    assert [line][1..] == [];
    assert Relined([]) == [];
  }

  lemma BrokenIsTwoLines()
    ensures WriteItems([BROKEN]) == ["- [ ] a", "b"]
  {
    hide Split, Relined;
    var front := "- [ ] a";
    assert ItemLine(BROKEN) == front + ['\n'] + "b";
    SplitFront(front, '\n', "b");
    SplitFront("b", '\n', "");
    assert ItemLines([BROKEN]) == [ItemLine(BROKEN)];
    hide ItemLine;
    RelinedOfOne(ItemLine(BROKEN));
  }

  lemma OneNewCriterion(n: string)
    requires n != "" && Normalize(n) == n
    ensures NewCriteria([n], {}) == [n]
  {
    hide Normalize;
    assert [n][1..] == [];
    assert NewCriteria([], {} + {n}) == [];
  }

  lemma BrokenIsAdded()
    ensures CriteriaFrom([HEADING], 0) == 0 && SectionFrom([HEADING], 1) == 1
    ensures Criteria([HEADING]) == {} && Added([HEADING], [BROKEN]) == ["- [ ] a", "b"]
  {
    HeadingIsHeading();
    BrokenIsTwoLines();
    BrokenNormalizes();
    NoItems();
    hide IsCriteriaHeading, Normalize, WriteItems, ItemsOf;
    CriteriaIsAt([HEADING], 0, 0);
    SectionLinesAre([HEADING], 0, 1);
    OneNewCriterion(BROKEN);
    assert SectionLines([HEADING]) == [];
  }

  lemma NoItemInB()
    ensures ItemsOf(["b"]) == {}
  {
    assert !IsItem("b");
    hide IsItem, Normalize;
  }

  lemma ItemOfA()
    ensures ItemLine("a") == "- [ ] a" && Trimmed("a") && AreLines(["a"])
  {
  }

  lemma BrokenIsStatedAs()
    ensures ItemsOf(["- [ ] a", "b"]) == {"a"}
  {
    hide *;
    var written := ["a"];
    ItemOfA();
    ItemsOfWritten(written);
    OneItemEach(written);
    assert ItemLines(written) == ["- [ ] a"];
    ItemsOfAppend(["- [ ] a"], ["b"]);
    NoItemInB();
    assert ["- [ ] a"] + ["b"] == ["- [ ] a", "b"];
  }

  lemma BrokenIsNotOneLined()
    ensures !OneLined([BROKEN])
  {
    BrokenNormalizes();
    hide Normalize;
    assert BROKEN in [BROKEN];
  }

  lemma EditedHeading(items: seq<string>)
    requires CriteriaFrom([HEADING], 0) == 0 && SectionFrom([HEADING], 1) == 1
    requires Added([HEADING], [BROKEN]) == items && items != []
    ensures SharpenCriteria([HEADING], [BROKEN]) == [HEADING][..1] + items + [HEADING][1..]
  {
    hide CriteriaFrom, SectionFrom, Added, Trim, WithNewSection;
  }

  lemma BrokenEdit()
    ensures var once := SharpenCriteria([HEADING], [BROKEN]);
            once == [HEADING, "- [ ] a", "b"] && Criteria(once) == {"a"}
  {
    hide *;
    var items := ["- [ ] a", "b"];
    BrokenIsAdded();
    BrokenIsStatedAs();
    assert "- [ ] a"[0] == '-' && "b"[0] == 'b';
    DependencyEdits.DifferentStart(items[0], "## ");
    DependencyEdits.DifferentStart(items[1], "## ");
    EditedHeading(items);
    ExtendedSectionHolds([HEADING], 0, 1, items);
  }

  /** A criterion "a\nb" is written as the item "a" and a line "b", and again on the next pass. */
  lemma BrokenCriterionExample()
    ensures var once := SharpenCriteria([HEADING], [BROKEN]);
            && once == [HEADING, "- [ ] a", "b"] && Criteria(once) == {"a"}
            && |SharpenCriteria(once, [BROKEN])| > |once|
  {
    hide *;
    HeadingIsLine();
    BrokenEdit();
    BrokenIsNotOneLined();
    SharpenIsIdempotentIff([HEADING], [BROKEN]);
  }

  /** No line is lost or moved: the new lines stand in one place, or after the text's last line. */
  lemma SharpenKeepsLines(doc: Doc, criteria: seq<string>)
    requires doc != []
    ensures var r := SharpenCriteria(doc, criteria);
            || r == doc
            || (exists at :: 0 <= at <= |doc| && |r| >= |doc| && r == doc[..at] + r[at..at + |r| - |doc|] + doc[at..])
            || (SectionFrom(doc, 0) == |doc| && CriteriaFrom(doc, 0) == |doc| && TrimEnd(doc) <= r)
  {
    var items, h, r := Added(doc, criteria), CriteriaFrom(doc, 0), SharpenCriteria(doc, criteria);
    hide Added, CriteriaFrom, SectionFrom, AfterLastLine, TrimEnd;
    if items != [] {
      if h < |doc| {
        InsertedAt(doc, r, AfterLastLine(doc, h, SectionFrom(doc, h + 1)), items);
      } else {
        NewSectionIs(doc, items);
        hide WithNewSection;
        if SectionFrom(doc, 0) < |doc| {
          InsertedAt(doc, r, SectionFrom(doc, 0), [HEADING, ""] + items + [""]);
        }
      }
    }
  }

  lemma InsertedAt(doc: seq<string>, r: seq<string>, at: nat, items: seq<string>)
    requires at <= |doc| && r == doc[..at] + items + doc[at..]
    ensures |r| >= |doc| && r == doc[..at] + r[at..at + |r| - |doc|] + doc[at..]
  {
    assert r[at..at + |items|] == items;
  }

  lemma Regroup<T>(a: seq<T>, b: seq<T>, c: seq<T>, d: seq<T>)
    ensures a + (b + (c + d)) == a + (b + c) + d
  {
  }

  lemma IsFront<T>(a: seq<T>, b: seq<T>, c: seq<T>)
    ensures a <= a + b + c
  {
  }

  lemma NewSectionIs(doc: Doc, items: seq<string>)
    requires doc != []
    ensures var f, r := SectionFrom(doc, 0), WithNewSection(doc, items);
            if f == |doc| then TrimEnd(doc) <= r else r == doc[..f] + ([HEADING, ""] + items + [""]) + doc[f..]
  {
    var f := SectionFrom(doc, 0);
    hide SectionFrom, TrimEnd;
    Regroup(doc[..f], [HEADING, ""] + items, [""], doc[f..]);
    IsFront(TrimEnd(doc), [""], [HEADING, ""] + items + ["", ""]);
  }

  // ----- the frontmatter is out of reach -----

  /** The frontmatter holds nothing the edit could take for a section heading. */
  predicate NoHeadingInBlock(doc: Doc)
    requires HasBlock(doc)
  {
    forall line :: line in Block(doc) ==> !IsCriteriaHeading(line) && !StartsWith(line, "## ")
  }

  lemma HyphensAreNoHeading(line: string)
    requires StartsWith(line, "---")
    ensures !IsCriteriaHeading(line) && !StartsWith(line, "## ") && StartsWith(TrimRight(line), "---")
  {
    FenceIsNoHeading(line);
    assert line[0] == line[..3][0] == '-' && line[2] == line[..3][2] == '-';
    var r := TrimRight(line);
    assert |r| >= 3;
    assert r[..3] == line[..3];
  }

  lemma HeadingsComeAfterBlock(doc: Doc)
    requires HasBlock(doc) && NoHeadingInBlock(doc)
    ensures CriteriaFrom(doc, 0) > FenceFrom(doc, 2) && SectionFrom(doc, 0) > FenceFrom(doc, 2)
  {
    var end := FenceFrom(doc, 2);
    DependencyEdits.BlockFacts(doc);
    assert StartsWith(doc[0], "---") && StartsWith(doc[end], "---");
    HyphensAreNoHeading(doc[0]);
    HyphensAreNoHeading(doc[end]);
    forall i | 1 <= i < end
      ensures !IsCriteriaHeading(doc[i]) && !StartsWith(doc[i], "## ")
    {
      DependencyEdits.BlockLine(doc, i, end);
      assert doc[i] in Block(doc);
    }
    hide IsCriteriaHeading, StartsWith, CriteriaFrom, SectionFrom, FenceFrom, HasBlock;
    assert forall i :: 0 <= i <= end ==> !IsCriteriaHeading(doc[i]) && !StartsWith(doc[i], "## ");
  }

  /** Lines up to the closing fence are kept, that fence perhaps without trailing blanks. */
  lemma FrontKept(doc: Doc, r: Doc, end: nat)
    requires HasBlock(doc) && end == FenceFrom(doc, 2) && FrontAgrees(doc, r, end)
    ensures HasBlock(r) && Block(r) == Block(doc)
  {
    DependencyEdits.BlockFacts(doc);
    HyphensAreNoHeading(doc[end]);
    hide StartsWith, TrimRight;
    DependencyEdits.BlockLike(doc, r, end);
    assert r[1..end] == doc[1..end];
  }

  lemma KeptLine(doc: Doc, i: nat)
    requires doc != [] && i < |TrimEnd(doc)|
    ensures TrimEnd(doc)[i] == if i + 1 == |TrimEnd(doc)| then TrimRight(doc[i]) else doc[i]
  {
    var kept := TrimEnd(doc);
    hide TrimEnd, TrimRight;
    if i + 1 < |kept| {
      assert Init(kept)[i] == doc[..|kept| - 1][i];
    }
  }

  lemma TrimEndFront(doc: Doc, end: nat)
    requires end < |doc| && TrimRight(doc[end]) != ""
    ensures var kept := TrimEnd(doc);
            end < |kept| && (forall i :: 0 <= i < end ==> kept[i] == doc[i])
            && (kept[end] == doc[end] || kept[end] == TrimRight(doc[end]))
  {
    hide *;
    TrimEndKeeps(doc, end);
    forall i | 0 <= i <= end
      ensures TrimEnd(doc)[i] == if i + 1 == |TrimEnd(doc)| then TrimRight(doc[i]) else doc[i]
    {
      KeptLine(doc, i);
    }
  }

  /** An edit past `end` keeps every line up to it, trailing blanks of that line aside. */
  predicate FrontAgrees(doc: Doc, r: Doc, end: nat)
    requires end < |doc|
  {
    && end < |r| && (forall i :: 0 <= i < end ==> r[i] == doc[i])
    && (r[end] == doc[end] || r[end] == TrimRight(doc[end]))
  }

  lemma WithItemsFront(doc: Doc, h: nat, items: seq<string>, end: nat)
    requires end < h < |doc|
    ensures FrontAgrees(doc, WithItems(doc, h, items), end)
  {
    hide AfterLastLine, SectionFrom, TrimRight;
    Inserted(doc, AfterLastLine(doc, h, SectionFrom(doc, h + 1)), items);
  }

  lemma WithNewSectionFront(doc: Doc, items: seq<string>, end: nat)
    requires end < |doc| && end < SectionFrom(doc, 0) && TrimRight(doc[end]) != ""
    ensures FrontAgrees(doc, WithNewSection(doc, items), end)
  {
    hide *;
    var f, r := SectionFrom(doc, 0), WithNewSection(doc, items);
    NewSectionIs(doc, items);
    if f == |doc| {
      TrimEndFront(doc, end);
      FrontIsPrefix(TrimEnd(doc), r);
    } else {
      Inserted(doc, f, [HEADING, ""] + items + [""]);
    }
    FrontAgreesIf(doc, r, end);
  }

  lemma FrontIsPrefix(front: seq<string>, whole: seq<string>)
    requires front <= whole
    ensures |front| <= |whole| && forall i :: 0 <= i < |front| ==> whole[i] == front[i]
  {
  }

  lemma FrontAgreesIf(doc: Doc, r: Doc, end: nat)
    requires end < |doc| && end < |r| && (forall i :: 0 <= i < end ==> r[i] == doc[i])
    requires r[end] == doc[end] || r[end] == TrimRight(doc[end])
    ensures FrontAgrees(doc, r, end)
  {
    hide TrimRight;
  }

  /** Sharpening leaves the frontmatter alone, if nothing in it reads as a section heading. */
  lemma SharpenKeepsBlock(doc: Doc, criteria: seq<string>)
    requires HasBlock(doc) && NoHeadingInBlock(doc) && doc != []
    ensures var r := SharpenCriteria(doc, criteria); HasBlock(r) && Block(r) == Block(doc)
  {
    var h, end, items := CriteriaFrom(doc, 0), FenceFrom(doc, 2), Added(doc, criteria);
    HeadingsComeAfterBlock(doc);
    DependencyEdits.BlockFacts(doc);
    HyphensAreNoHeading(doc[end]);
    FenceIsNotBlank(doc[end]);
    hide HasBlock, Block, Added, CriteriaFrom, SectionFrom, FenceFrom, WithItems, WithNewSection, TrimRight, StartsWith;
    if items != [] {
      if h < |doc| {
        WithItemsFront(doc, h, items, end);
      } else {
        WithNewSectionFront(doc, items, end);
      }
      FrontKept(doc, SharpenCriteria(doc, criteria), end);
    }
  }

  lemma FenceIsNotBlank(line: string)
    requires StartsWith(line, "---")
    ensures TrimRight(line) != ""
  {
    assert line[0] == line[..3][0] == '-';
  }
}
