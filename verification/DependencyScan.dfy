/**
 * Adding a dependency whose name is any text at all: what it does to the other fields of the file
 * once that is written and read again, and when adding it twice is adding it once.
 */
module DependencyScans {
  import opened Prelude
  import opened Text
  import opened Frontmatters
  import opened DependencyEdits
  import opened StubScans

  // ----- the other fields -----

  /** The line the edit writes. */
  function NewLine(doc: Doc, dep: string, m: nat, end: nat): string
    requires m <= end < |doc| && (m < end ==> ListBody(doc[m]).Some?)
  {
    WriteList(Listed(doc, m, end) + [dep])
  }

  /** The lines from the one after the edited one on. */
  function After(doc: Doc, m: nat, end: nat): seq<string>
    requires m <= end < |doc|
  {
    if m == end then doc[end..] else doc[m + 1..]
  }

  lemma EditInPlace(doc: Doc, dep: string, m: nat, end: nat)
    requires m <= end < |doc| && (m < end ==> ListBody(doc[m]).Some?) && dep !in Listed(doc, m, end)
    ensures EditLine(doc, dep, m, end) == doc[..m] + [NewLine(doc, dep, m, end)] + After(doc, m, end)
  {
    hide *;
    EditLineIs(doc, dep, m, end);
    NewLineIs(doc, dep, m, end);
    if m < end {
      ReplacedSplits(doc, m, NewLine(doc, dep, m, end));
    }
  }

  lemma NewLineIs(doc: Doc, dep: string, m: nat, end: nat)
    requires m <= end < |doc| && (m < end ==> ListBody(doc[m]).Some?)
    ensures NewLine(doc, dep, m, end) == WriteList(Listed(doc, m, end) + [dep])
    ensures After(doc, m, end) == if m == end then doc[end..] else doc[m + 1..]
  {
  }

  lemma ReplacedSplits(doc: seq<string>, m: nat, line: string)
    requires m < |doc|
    ensures doc[m := line] == doc[..m] + [line] + doc[m + 1..]
  {
  }

  lemma SliceSplits(doc: seq<string>, m: nat, end: nat)
    requires 1 <= m < end <= |doc|
    ensures doc[1..end] == doc[1..m] + [doc[m]] + [] + doc[m + 1..end]
  {
  }

  lemma EditReadAs(doc: Doc, line: string, front: seq<string>, back: seq<string>)
    requires AreLines(front) && AreLines(back)
    ensures Relined(front + [line] + back) == front + Split(line, '\n') + back
  {
    hide *;
    RelinedLines(front);
    RelinedLines(back);
    StubScans.RelinedOfOne(line);
    RelinedOfAppend(front + [line], back);
    RelinedOfAppend(front, [line]);
  }

  /** A recognised list has no say under any other key. */
  lemma ListIsSilent(line: string, key: string)
    requires ListBody(line).Some? && key != "depends-on"
    ensures !IsEntryFor(line, key)
  {
    var pad, tail := RecognisedParts(line);
    var list := "[" + ListBody(line).value + "]";
    BracketsAreTight(ListBody(line).value);
    TrimOfParts(pad, list, tail);
    DependsOnIsKey();
    hide *;
    assert "depends-on:" + (pad + list) + tail == line;
    ReadsAs(line, "depends-on", pad + list);
    EntryIs(line, key);
  }

  lemma WrittenIsSilent(tokens: seq<string>, key: string)
    requires key != "depends-on"
    ensures !IsEntryFor(Split(WriteList(tokens), '\n')[0], key) && !StartsWith(Split(WriteList(tokens), '\n')[0], "---")
    ensures Split(WriteList(tokens), '\n') == [Split(WriteList(tokens), '\n')[0]] + Tail(WriteList(tokens))
  {
    ListLines(tokens);
    DependsOnIsKey();
    var lines := Split(WriteList(tokens), '\n');
    var value :| lines[0] == WriteEntry(Entry("depends-on", value));
    assert lines[0][0] == 'd';
    hide *;
    EntryIsForItsKey(Entry("depends-on", value), key);
    LetterIsNoFence(lines[0]);
    assert lines == [lines[0]] + lines[1..];
  }

  /** The edit brings a closing fence of its own. */
  predicate ClosesEarly(doc: Doc, dep: string)
    requires HasBlock(doc)
  {
    var end := FenceFrom(doc, 2);
    var tail := Tail(NewLine(doc, dep, EditedLine(doc), end));
    FenceFrom(tail, 0) < |tail|
  }

  /** The lines the edit brings into the block besides the list itself. */
  function Brought(doc: Doc, dep: string): seq<string>
    requires HasBlock(doc)
  {
    BeforeFence(Tail(NewLine(doc, dep, EditedLine(doc), FenceFrom(doc, 2))))
  }

  /** The lines of the block before the edited one, and those after it. */
  function BlockBefore(doc: Doc): seq<string>
    requires HasBlock(doc)
  {
    if EditedLine(doc) == 0 then [] else doc[1..EditedLine(doc)]
  }

  function BlockAfter(doc: Doc): seq<string>
    requires HasBlock(doc)
  {
    var m, end := EditedLine(doc), FenceFrom(doc, 2);
    if m == end then [] else doc[m + 1..end]
  }

  /** What a block says in which these lines stand at the edited place. */
  function Said(doc: Doc, brought: seq<string>, rest: seq<string>, key: string): Option<FmValue>
    requires HasBlock(doc)
  {
    if Lookup(rest, key).Some? then Lookup(rest, key)
    else if Lookup(brought, key).Some? then Lookup(brought, key)
    else Lookup(BlockBefore(doc), key)
  }

  lemma EditedFacts(doc: Doc)
    requires HasBlock(doc)
    ensures var m, end := EditedLine(doc), FenceFrom(doc, 2);
            && 2 <= end < |doc| && 1 <= m <= end && doc[0] == "---" && StartsWith(doc[end], "---")
            && (m < end ==> ListBody(doc[m]).Some?) && m == ListLineFrom(doc, 0, end)
            && BlockBefore(doc) == doc[1..m] && Block(doc) == doc[1..end]
            && forall i :: 2 <= i < end ==> !StartsWith(doc[i], "---")
  {
    FenceIsNoList(doc[0]);
    hide ListBody, StartsWith;
  }

  /** Lookup around one line that is silent. */
  lemma LookupAround(front: seq<string>, line: string, brought: seq<string>, rest: seq<string>, key: string)
    requires !IsEntryFor(line, key)
    ensures Lookup(front + [line] + brought + rest, key) ==
            if Lookup(rest, key).Some? then Lookup(rest, key)
            else if Lookup(brought, key).Some? then Lookup(brought, key)
            else Lookup(front, key)
  {
    hide *;
    OneLineLookup(line, key);
    LookupAppend(front, [line], key);
    LookupAppend(front + [line], brought, key);
    LookupAppend(front + [line] + brought, rest, key);
  }

  lemma BlockSaid(doc: Doc, key: string)
    requires HasBlock(doc) && key != "depends-on"
    ensures Field(doc, key) == Said(doc, [], BlockAfter(doc), key)
  {
    hide *;
    EditedFacts(doc);
    var m, end := EditedLine(doc), FenceFrom(doc, 2);
    EmptyIsSilent(key);
    SaidIs(doc, [], BlockAfter(doc), key);
    CountInIs(doc, key);
    if m < end {
      ListIsSilent(doc[m], key);
      SliceSplits(doc, m, end);
      LookupAround(doc[1..m], doc[m], [], doc[m + 1..end], key);
    }
  }

  lemma SaidIs(doc: Doc, brought: seq<string>, rest: seq<string>, key: string)
    requires HasBlock(doc)
    ensures Said(doc, brought, rest, key) ==
            if Lookup(rest, key).Some? then Lookup(rest, key)
            else if Lookup(brought, key).Some? then Lookup(brought, key)
            else Lookup(BlockBefore(doc), key)
    ensures var m, end := EditedLine(doc), FenceFrom(doc, 2);
            end < |doc| && m <= end && BlockAfter(doc) == if m == end then [] else doc[m + 1..end]
  {
    hide Lookup, StartsWith, ListBody;
  }

  lemma EmptyIsSilent(key: string)
    ensures Lookup([], key) == None
  {
  }

  /** Lines between a document's first line and a fence are its block. */
  lemma BlockUpTo(front: seq<string>, line: string, brought: seq<string>, fence: string, rest: seq<string>)
    requires front != [] && front[0] == "---" && StartsWith(fence, "---") && !StartsWith(line, "---")
    requires forall i :: 2 <= i < |front| ==> !StartsWith(front[i], "---")
    requires forall l :: l in brought ==> !StartsWith(l, "---")
    ensures var doc := front + [line] + brought + [fence] + rest;
            HasBlock(doc) && Block(doc) == front[1..] + [line] + brought
  {
    var doc, end := front + [line] + brought + [fence] + rest, |front| + 1 + |brought|;
    hide StartsWith;
    assert doc[end] == fence;
    forall i | 2 <= i < end
      ensures !StartsWith(doc[i], "---")
    {
      if i < |front| {
        assert doc[i] == front[i];
      } else if i > |front| {
        assert doc[i] == brought[i - |front| - 1];
      }
    }
    FenceIsAt(doc, 2, end);
    assert doc[1..end] == front[1..] + [line] + brought;
  }

  lemma BroughtIs(doc: Doc, dep: string)
    requires HasBlock(doc)
    ensures var m, end := EditedLine(doc), FenceFrom(doc, 2);
            && m <= end < |doc| && (m < end ==> ListBody(doc[m]).Some?)
            && var tail := Tail(NewLine(doc, dep, m, end));
               && Brought(doc, dep) == tail[..FenceFrom(tail, 0)]
               && (ClosesEarly(doc, dep) <==> FenceFrom(tail, 0) < |tail|)
               && (FenceFrom(tail, 0) < |tail| ==> StartsWith(tail[FenceFrom(tail, 0)], "---"))
  {
    hide ListBody, Tail, NewLine, StartsWith;
  }

  /** The file after the edit, as it is read: the edited line's first part, what it brings, and the rest. */
  lemma EditedIsRead(doc: Doc, dep: string)
    requires HasBlock(doc) && AreLines(doc)
    requires dep !in Listed(doc, EditedLine(doc), FenceFrom(doc, 2))
    ensures var m, end := EditedLine(doc), FenceFrom(doc, 2);
            Relined(AddDependency(doc, dep))
            == doc[..m] + Split(NewLine(doc, dep, m, end), '\n') + After(doc, m, end)
  {
    hide *;
    EditedFacts(doc);
    var m, end := EditedLine(doc), FenceFrom(doc, 2);
    AddDependencyIs(doc, dep, m, end);
    EditInPlace(doc, dep, m, end);
    NewLineIs(doc, dep, m, end);
    PartsAreLines(doc, m, end);
    EditReadAs(doc, NewLine(doc, dep, m, end), doc[..m], After(doc, m, end));
  }

  lemma PartsAreLines(doc: Doc, m: nat, end: nat)
    requires AreLines(doc) && m <= end < |doc|
    ensures AreLines(doc[..m]) && AreLines(After(doc, m, end))
  {
  }

  lemma Cut(front: seq<string>, first: string, tail: seq<string>, f: nat, back: seq<string>)
    requires f < |tail|
    ensures front + ([first] + tail) + back == front + [first] + tail[..f] + [tail[f]] + (tail[f + 1..] + back)
  {
  }

  lemma Uncut(front: seq<string>, first: string, tail: seq<string>, block: seq<string>, fence: string,
              rest: seq<string>)
    ensures front + ([first] + tail) + (block + [fence] + rest) == front + [first] + (tail + block) + [fence] + rest
  {
  }

  lemma Ungroup(front: seq<string>, tail: seq<string>, block: seq<string>)
    ensures front + (tail + block) == front + tail + block
  {
  }

  lemma AfterSplits(doc: Doc, m: nat, end: nat)
    requires 1 <= m <= end < |doc|
    ensures After(doc, m, end) == (if m == end then [] else doc[m + 1..end]) + [doc[end]] + doc[end + 1..]
    ensures doc[..m][1..] == doc[1..m] && doc[..m] != [] && doc[..m][0] == doc[0]
  {
  }

  /**
   * What a scan reads under any other key after the edit, whatever the name: the lines its newlines
   * bring are read at the place of the list, and one that starts with three hyphens ends the block.
   */
  lemma OtherFieldsAfterAdding(doc: Doc, dep: string, key: string)
    requires HasBlock(doc) && AreLines(doc) && key != "depends-on"
    requires dep !in Listed(doc, EditedLine(doc), FenceFrom(doc, 2))
    ensures Field(Relined(AddDependency(doc, dep)), key)
            == Said(doc, Brought(doc, dep), if ClosesEarly(doc, dep) then [] else BlockAfter(doc), key)
    ensures Field(doc, key) == Said(doc, [], BlockAfter(doc), key)
  {
    hide *;
    EditedFacts(doc);
    BroughtIs(doc, dep);
    EditedIsRead(doc, dep);
    BlockSaid(doc, key);
    var m, end := EditedLine(doc), FenceFrom(doc, 2);
    NewLineIs(doc, dep, m, end);
    var written := NewLine(doc, dep, m, end);
    WrittenIsSilent(Listed(doc, m, end) + [dep], key);
    var first, tail := Split(written, '\n')[0], Tail(written);
    var f, inner := FenceFrom(tail, 0), if m == end then [] else doc[m + 1..end];
    AfterSplits(doc, m, end);
    BeforeFenceIsUnfenced(tail);
    BeforeFenceIs(tail);
    SaidIs(doc, Brought(doc, dep), inner, key);
    SaidIs(doc, Brought(doc, dep), [], key);
    EmptyIsSilent(key);
    var r := Relined(AddDependency(doc, dep));
    if f < |tail| {
      Cut(doc[..m], first, tail, f, After(doc, m, end));
      BlockUpTo(doc[..m], first, tail[..f], tail[f], tail[f + 1..] + After(doc, m, end));
      LookupAround(doc[1..m], first, tail[..f], [], key);
      NothingMore(doc[1..m] + [first] + tail[..f]);
    } else {
      assert tail[..f] == tail;
      Uncut(doc[..m], first, tail, inner, doc[end], doc[end + 1..]);
      InnerUnfenced(doc, m, end, tail);
      BlockUpTo(doc[..m], first, tail + inner, doc[end], doc[end + 1..]);
      LookupAround(doc[1..m], first, tail, inner, key);
      Ungroup(doc[1..m] + [first], tail, inner);
    }
    CountInIs(r, key);
  }

  lemma BeforeFenceIs(lines: seq<string>)
    ensures BeforeFence(lines) == lines[..FenceFrom(lines, 0)]
  {
  }

  lemma NothingMore(lines: seq<string>)
    ensures lines + [] == lines
  {
  }

  lemma InnerUnfenced(doc: Doc, m: nat, end: nat, tail: seq<string>)
    requires 1 <= m <= end < |doc| && forall i :: 2 <= i < end ==> !StartsWith(doc[i], "---")
    requires forall line :: line in tail ==> !StartsWith(line, "---")
    ensures var inner := if m == end then [] else doc[m + 1..end];
            forall line :: line in tail + inner ==> !StartsWith(line, "---")
    ensures forall i :: 2 <= i < |doc[..m]| ==> !StartsWith(doc[..m][i], "---")
  {
    hide StartsWith;
  }

  /** The tokens of a line hold no newline. */
  lemma ListedAreLines(doc: Doc, m: nat, end: nat)
    requires AreLines(doc) && m <= end < |doc| && (m < end ==> ListBody(doc[m]).Some?)
    ensures AreLines(Listed(doc, m, end))
  {
    if m < end {
      ListedAt(doc, m, end);
      var pad, tail := RecognisedParts(doc[m]);
      var body := ListBody(doc[m]).value;
      Brackets("depends-on:", pad, body, tail);
      assert '\n' !in body by {
        assert doc[m] == ("depends-on:" + pad + "[") + body + ("]" + tail);
      }
      TokensAreParts(body);
      hide ListBody, Tokens;
      forall i | 0 <= i < |Listed(doc, m, end)|
        ensures '\n' !in Listed(doc, m, end)[i]
      {
        assert Listed(doc, m, end)[i] in Tokens(body);
      }
    }
  }

  lemma TokensAreParts(body: string)
    ensures forall x, c :: x in Tokens(body) && c in x ==> c in body
  {
    var parts := Split(body, ',');
    NonEmptyIsFilter(TrimAll(parts));
    hide NonEmpty, Split, Trim;
    forall x, c | x in Tokens(body) && c in x
      ensures c in body
    {
      var i :| 0 <= i < |TrimAll(parts)| && TrimAll(parts)[i] == x;
      TrimIsPart(parts[i]);
      PartsAreParts(body, ',', i);
    }
  }

  /** A name of one line touches no other field. */
  lemma OneLineNameKeepsFields(doc: Doc, dep: string, key: string)
    requires HasBlock(doc) && AreLines(doc) && '\n' !in dep && key != "depends-on"
    ensures Field(Relined(AddDependency(doc, dep)), key) == Field(doc, key)
  {
    hide *;
    EditedFacts(doc);
    var m, end := EditedLine(doc), FenceFrom(doc, 2);
    AddDependencyIs(doc, dep, m, end);
    if dep in Listed(doc, m, end) {
      RelinedLines(doc);
    } else {
      OtherFieldsAfterAdding(doc, dep, key);
      ListedAreLines(doc, m, end);
      OneLineBringsNothing(Listed(doc, m, end), dep);
      NewLineIs(doc, dep, m, end);
      BroughtIs(doc, dep);
      NothingOfNothing(Tail(NewLine(doc, dep, m, end)));
      SaidIs(doc, [], BlockAfter(doc), key);
    }
  }

  lemma NothingOfNothing(tail: seq<string>)
    requires tail == []
    ensures FenceFrom(tail, 0) == |tail| && tail[..FenceFrom(tail, 0)] == []
  {
  }

  lemma OneLineBringsNothing(tokens: seq<string>, dep: string)
    requires AreLines(tokens) && '\n' !in dep
    ensures Tail(WriteList(tokens + [dep])) == []
  {
    ListIsOneLine(tokens, dep);
    OneLineTail(WriteList(tokens + [dep]));
    hide Tail, Split;
  }

  /** A name that releases a ticket whose file lists no dependencies. */
  lemma ReleasingNameAdded(doc: Doc)
    requires HasBlock(doc) && AreLines(doc) && EditedLine(doc) == FenceFrom(doc, 2)
    ensures Field(Relined(AddDependency(doc, RELEASING_NAME)), "loop") == Some(Flag(true))
  {
    hide *;
    EditedFacts(doc);
    var end := FenceFrom(doc, 2);
    NothingListed(doc, RELEASING_NAME, end);
    NewLineIs(doc, RELEASING_NAME, end, end);
    ReleasingNameLines();
    NoFenceInTheName();
    LoopTrueIsSaid();
    BeforeFenceIs(["loop: true", "]"]);
    BroughtIs(doc, RELEASING_NAME);
    assert "loop" != "depends-on" by { LoopIsOther(); }
    OtherFieldsAfterAdding(doc, RELEASING_NAME, "loop");
    SaidIs(doc, ["loop: true", "]"], [], "loop");
    SaidIs(doc, ["loop: true", "]"], BlockAfter(doc), "loop");
    EmptyIsSilent("loop");
    assert RELEASING_NAME !in Listed(doc, end, end);
  }

  lemma LoopIsOther()
    ensures "loop" != "depends-on"
  {
    assert |"loop"| == 4 && |"depends-on"| == 10;
  }

  // ----- adding twice -----

  /** Listed, the name is found again as it is, or leaves nothing at all to find. */
  predicate Refindable(dep: string) {
    ']' !in dep && (Tokens(dep) == [] || Tokens(dep) == [dep])
  }

  lemma PadOfSplit(text: string)
    ensures var parts := Split(text, ','); Split(" " + text, ',') == [" " + parts[0]] + parts[1..]
  {
    SplitOfCons(" " + text, ',');
    hide Split;
    assert (" " + text)[1..] == text && [' '] == " ";
  }

  lemma PadTrims(part: string)
    ensures Trim(" " + part) == Trim(part)
  {
    assert (" " + part)[1..] == part;
  }

  lemma TokensOfPadded(text: string)
    ensures Tokens(" " + text) == Tokens(text)
  {
    var parts := Split(text, ',');
    PadOfSplit(text);
    PadTrims(parts[0]);
    hide Split, Trim, NonEmpty;
    assert parts == [parts[0]] + parts[1..];
    TrimAllOfCons(parts[0], parts[1..]);
    TrimAllOfCons(" " + parts[0], parts[1..]);
  }

  lemma NonEmptyOfCons(x: string, rest: seq<string>)
    ensures NonEmpty([x] + rest) == (if x == "" then [] else [x]) + NonEmpty(rest)
  {
    assert ([x] + rest)[1..] == rest;
  }

  /** A plain item in front of a comma is a token of its own. */
  lemma TokensOfFront(item: string, rest: string)
    requires item != "" && PlainItem(item)
    ensures Tokens(item + ", " + rest) == [item] + Tokens(rest)
  {
    assert item + ", " + rest == item + [','] + (" " + rest);
    SplitFront(item, ',', " " + rest);
    TrimmedStays(item);
    TokensOfPadded(rest);
    hide Split, Trim, NonEmpty;
    TrimAllOfCons(item, Split(" " + rest, ','));
    NonEmptyOfCons(item, TrimAll(Split(" " + rest, ',')));
  }

  lemma {:induction false} TokensOfJoin(tokens: seq<string>, dep: string)
    requires forall x :: x in tokens ==> x != "" && PlainItem(x)
    ensures Tokens(Join(tokens + [dep], ", ")) == tokens + Tokens(dep)
  {
    hide Tokens, PlainItem;
    if tokens == [] {
      assert [] + [dep] == [dep] && [] + Tokens(dep) == Tokens(dep);
    } else {
      assert tokens[0] in tokens && forall x :: x in tokens[1..] ==> x in tokens;
      TokensOfJoin(tokens[1..], dep);
      assert (tokens + [dep])[1..] == tokens[1..] + [dep];
      JoinOfCons(tokens + [dep], ", ");
      TokensOfFront(tokens[0], Join(tokens[1..] + [dep], ", "));
      assert [tokens[0]] + (tokens[1..] + Tokens(dep)) == tokens + Tokens(dep);
    }
  }

  /** A name is one of its own tokens only if it is the only one. */
  lemma OwnToken(dep: string)
    ensures dep in Tokens(dep) <==> Tokens(dep) == [dep]
  {
    if dep in Tokens(dep) {
      TokensArePlain(dep);
      SplitFront(dep, ',', "");
      TrimmedStays(dep);
      hide Split, Trim;
      assert TrimAll([dep]) == [dep];
      assert NonEmpty([dep][1..]) == [];
    }
  }

  lemma {:induction false} JoinLengthens(more: seq<string>, dep: string)
    ensures |Join(more + [dep], ", ")| >= |dep| + 2 * |more|
  {
    if more == [] {
      assert more + [dep] == [dep];
    } else {
      JoinLengthens(more[1..], dep);
      assert (more + [dep])[1..] == more[1..] + [dep];
      JoinOfCons(more + [dep], ", ");
    }
  }

  lemma {:induction false} JoinBehind(tokens: seq<string>, a: seq<string>, b: seq<string>)
    requires a != [] && b != []
    ensures |Join(tokens + a, ", ")| - |Join(tokens + b, ", ")| == |Join(a, ", ")| - |Join(b, ", ")|
  {
    hide Join;
    if tokens == [] {
      assert [] + a == a && [] + b == b;
    } else {
      JoinBehind(tokens[1..], a, b);
      assert (tokens + a)[1..] == tokens[1..] + a && (tokens + b)[1..] == tokens[1..] + b;
      JoinOfCons(tokens + a, ", ");
      JoinOfCons(tokens + b, ", ");
    }
  }

  /** Writing the name again after its own tokens writes the same line only if there are none. */
  lemma SameLineIff(tokens: seq<string>, dep: string)
    ensures WriteList(tokens + Tokens(dep) + [dep]) == WriteList(tokens + [dep]) <==> Tokens(dep) == []
  {
    hide Tokens, Join;
    var more := Tokens(dep);
    if more == [] {
      assert tokens + more + [dep] == tokens + [dep];
    } else {
      assert tokens + more + [dep] == tokens + (more + [dep]);
      JoinBehind(tokens, more + [dep], [dep]);
      JoinLengthens(more, dep);
      JoinOfOne(dep);
    }
  }

  lemma JoinOfOne(dep: string)
    ensures Join([dep], ", ") == dep
  {
  }

  /** A closing bracket in a name makes the written line no list the editor knows. */
  lemma BracketIsUnrecognised(tokens: seq<string>, dep: string)
    requires ']' in Join(tokens + [dep], ", ")
    ensures ListBody(WriteList(tokens + [dep])).None?
  {
    var body := Join(tokens + [dep], ", ");
    PrefixAndRest("depends-on:", " [" + body + "]");
    hide Join, UpToBracket, SkipBlanks;
    UnclosedBracket(body);
  }

  lemma UnclosedBracket(body: string)
    requires ']' in body
    ensures Bracketed(" [" + body + "]").None?
  {
    var open, inner := "[" + body + "]", body + "]";
    assert " [" + body + "]" == " " + open && open[0] == '[';
    SkipBlanksStops(" ", open);
    assert open[1..] == inner;
    BracketInside(body);
    hide UpToBracket, SkipBlanks;
    var n := UpToBracket(inner);
    var behind := inner[n + 1..];
    assert behind != "" && Last(behind) == ']';
    LastIsNoBlank(behind);
  }

  lemma {:induction false} BracketInside(body: string)
    requires ']' in body
    ensures UpToBracket(body + "]") < |body|
  {
    if body[0] != ']' {
      assert body == [body[0]] + body[1..];
      assert (body + "]")[1..] == body[1..] + "]";
      BracketInside(body[1..]);
    }
  }

  lemma LastIsNoBlank(text: string)
    requires text != "" && !IsBlank(Last(text))
    ensures SkipBlanks(text) != ""
  {
  }

  lemma {:induction false} BracketInJoin(tokens: seq<string>, dep: string)
    ensures ']' in dep ==> ']' in Join(tokens + [dep], ", ")
  {
    if tokens == [] {
      assert tokens + [dep] == [dep];
    } else {
      BracketInJoin(tokens[1..], dep);
      assert (tokens + [dep])[1..] == tokens[1..] + [dep];
      JoinOfCons(tokens + [dep], ", ");
    }
  }

  /** The block after the edit: as long as before, or one line longer. */
  lemma EditedBlock(doc: Doc, dep: string, m: nat, end: nat)
    requires HasBlock(doc) && end == FenceFrom(doc, 2) && m == ListLineFrom(doc, 0, end)
    requires dep !in Listed(doc, m, end)
    ensures var r, end' := EditLine(doc, dep, m, end), end + (if m == end then 1 else 0);
            HasBlock(r) && FenceFrom(r, 2) == end' < |r|
  {
    hide *;
    BlockFacts(doc);
    FenceIsNoList(doc[0]);
    EditLineIs(doc, dep, m, end);
    ListIsNoFence(Listed(doc, m, end) + [dep]);
    var r := EditLine(doc, dep, m, end);
    if m == end {
      assert forall i :: 0 <= i < end ==> r[i] == doc[i];
      assert r[end + 1] == doc[end];
      BlockLike(doc, r, end + 1);
    } else {
      BlockLike(doc, r, end);
    }
  }

  /** A name with a closing bracket is never listed, so it is added every time. */
  lemma BracketIsAddedAgain(doc: Doc, dep: string)
    requires HasBlock(doc) && ']' in dep
    ensures AddDependency(doc, dep) != doc
  {
    hide *;
    BlockFacts(doc);
    var end := FenceFrom(doc, 2);
    var m := ListLineFrom(doc, 0, end);
    AddDependencyIs(doc, dep, m, end);
    BracketIsUnlisted(doc, dep, m, end);
    EditLineIs(doc, dep, m, end);
    BracketInJoin(Listed(doc, m, end), dep);
    BracketIsUnrecognised(Listed(doc, m, end), dep);
    if m < end {
      assert doc[m := WriteList(Listed(doc, m, end) + [dep])][m] != doc[m];
    } else {
      assert |doc[..end] + [WriteList(Listed(doc, m, end) + [dep])] + doc[end..]| == |doc| + 1;
    }
  }

  lemma BracketIsUnlisted(doc: Doc, dep: string, m: nat, end: nat)
    requires m <= end < |doc| && (m < end ==> ListBody(doc[m]).Some?) && ']' in dep
    ensures dep !in Listed(doc, m, end)
  {
    hide ListBody, Tokens;
    if m < end {
      ListBodyHasNoBracket(doc[m]);
      TokensArePlain(ListBody(doc[m]).value);
    }
  }

  /** The list after the edit holds what it held, and then the name's own tokens. */
  lemma ListedAfter(doc: Doc, dep: string, m: nat, end: nat)
    requires HasBlock(doc) && end == FenceFrom(doc, 2) && m == ListLineFrom(doc, 0, end)
    requires dep !in Listed(doc, m, end) && ']' !in dep
    ensures ReadsList(EditLine(doc, dep, m, end), m, end + (if m == end then 1 else 0),
                      Listed(doc, m, end) + Tokens(dep))
  {
    hide *;
    BlockFacts(doc);
    var tokens := Listed(doc, m, end);
    ListedArePlain(doc, m, end);
    NoBracketInJoin(tokens + [dep]);
    ListBodyOf(Join(tokens + [dep], ", "));
    WriteListIs(tokens + [dep]);
    TokensOfJoin(tokens, dep);
    ListIsNoFence(tokens + [dep]);
    EditLineIs(doc, dep, m, end);
    EditedBlock(doc, dep, m, end);
    if m == end {
      LineAdded(doc, end, WriteList(tokens + [dep]));
    } else {
      LineReplaced(doc, m, end, WriteList(tokens + [dep]));
    }
    ListedAt(EditLine(doc, dep, m, end), m, end + (if m == end then 1 else 0));
    ItReadsList(EditLine(doc, dep, m, end), m, end + (if m == end then 1 else 0));
  }

  /** A document whose block ends at this line, with this list at line m. */
  predicate ReadsList(doc: Doc, m: nat, end: nat, tokens: seq<string>) {
    && HasBlock(doc) && FenceFrom(doc, 2) == end && ListLineFrom(doc, 0, end) == m
    && Listed(doc, m, end) == tokens
  }

  lemma ItReadsList(doc: Doc, m: nat, end: nat)
    requires HasBlock(doc) && FenceFrom(doc, 2) == end && ListLineFrom(doc, 0, end) == m
    ensures ReadsList(doc, m, end, Listed(doc, m, end))
  {
    hide HasBlock, FenceFrom, ListLineFrom, Listed;
  }

  lemma ReadsListMeans(doc: Doc, m: nat, end: nat, tokens: seq<string>)
    requires ReadsList(doc, m, end, tokens)
    ensures HasBlock(doc) && FenceFrom(doc, 2) == end && ListLineFrom(doc, 0, end) == m
    ensures Listed(doc, m, end) == tokens
  {
    hide HasBlock, FenceFrom, ListLineFrom, Listed;
  }

  lemma WriteListIs(tokens: seq<string>)
    ensures WriteList(tokens) == "depends-on:" + (" [" + Join(tokens, ", ") + "]")
  {
  }

  lemma ListedArePlain(doc: Doc, m: nat, end: nat)
    requires m <= end < |doc| && (m < end ==> ListBody(doc[m]).Some?)
    ensures forall x :: x in Listed(doc, m, end) ==> x != "" && PlainItem(x) && ']' !in x
  {
    hide ListBody, Tokens, PlainItem;
    if m < end {
      ListBodyHasNoBracket(doc[m]);
      TokensArePlain(ListBody(doc[m]).value);
    }
  }

  /** Adding a name twice is adding it once exactly if it is listed already or can be found again. */
  lemma AddedTwiceIff(doc: Doc, dep: string)
    requires HasBlock(doc)
    ensures AddDependency(AddDependency(doc, dep), dep) == AddDependency(doc, dep)
            <==> dep in Listed(doc, EditedLine(doc), FenceFrom(doc, 2)) || Refindable(dep)
  {
    hide *;
    EditedFacts(doc);
    var m, end := EditedLine(doc), FenceFrom(doc, 2);
    AddDependencyIs(doc, dep, m, end);
    var tokens := Listed(doc, m, end);
    RefindableIs(dep);
    if dep !in tokens {
      var r, end' := EditLine(doc, dep, m, end), end + (if m == end then 1 else 0);
      EditedBlock(doc, dep, m, end);
      if ']' in dep {
        BracketIsAddedAgain(r, dep);
      } else {
        ListedAfter(doc, dep, m, end);
        ReadsListMeans(r, m, end', tokens + Tokens(dep));
        EditLineIs(doc, dep, m, end);
        AddDependencyIs(r, dep, m, end');
        OwnToken(dep);
        SameLineIff(tokens, dep);
        if dep !in tokens + Tokens(dep) {
          EditLineIs(r, dep, m, end');
          assert r[m := WriteList(tokens + Tokens(dep) + [dep])] == r
            <==> WriteList(tokens + Tokens(dep) + [dep]) == r[m];
        }
      }
    }
  }

  lemma RefindableIs(dep: string)
    ensures Refindable(dep) <==> ']' !in dep && (Tokens(dep) == [] || Tokens(dep) == [dep])
  {
  }

  /** The same once the file was written and read again, for a name of one line. */
  lemma AddDependencyIsIdempotentIff(doc: Doc, dep: string)
    requires HasBlock(doc) && AreLines(doc) && '\n' !in dep
    ensures var once := Relined(AddDependency(doc, dep));
            Relined(AddDependency(once, dep)) == once
            <==> dep in Listed(doc, EditedLine(doc), FenceFrom(doc, 2)) || Refindable(dep)
  {
    hide *;
    AddedTwiceIff(doc, dep);
    StaysLines(doc, dep);
    StaysLines(AddDependency(doc, dep), dep);
    RelinedLines(AddDependency(doc, dep));
    RelinedLines(AddDependency(AddDependency(doc, dep), dep));
  }

  lemma StaysLines(doc: Doc, dep: string)
    requires AreLines(doc) && '\n' !in dep
    ensures AreLines(AddDependency(doc, dep))
  {
    if HasBlock(doc) {
      hide *;
      EditedFacts(doc);
      var m, end := EditedLine(doc), FenceFrom(doc, 2);
      AddDependencyIs(doc, dep, m, end);
      if dep !in Listed(doc, m, end) {
        ListedAreLines(doc, m, end);
        EditLineIs(doc, dep, m, end);
        ListIsOneLine(Listed(doc, m, end), dep);
        LinesStay(doc, WriteList(Listed(doc, m, end) + [dep]), m, end);
      }
    }
  }

  lemma ListIsOneLine(tokens: seq<string>, dep: string)
    requires AreLines(tokens) && '\n' !in dep
    ensures '\n' !in WriteList(tokens + [dep])
  {
    JoinHasNoNewline(tokens + [dep]);
    assert '\n' !in "depends-on:" && '\n' !in " [" && '\n' !in "]";
  }

  lemma LinesStay(doc: Doc, line: string, m: nat, end: nat)
    requires AreLines(doc) && '\n' !in line && m <= end < |doc|
    ensures AreLines(doc[..end] + [line] + doc[end..]) && AreLines(doc[m := line])
  {
  }

  /** A comma or a bracket in a name is enough to have it added again. */
  lemma RefindableExamples()
    ensures !Refindable("a,b") && !Refindable("a]") && Refindable("a")
  {
    var x, y: string := "a", "b";
    assert 'a' != ',' && x == ['a'] && ',' !in x && ',' !in y;
    SplitFront(x, ',', y);
    assert x + [','] + y == "a,b";
    assert |TrimAll(Split("a,b", ','))| == 2;
    TrimmedStays(x);
    TrimmedStays(y);
    hide Split, Trim;
    NonEmptyIsFilter(TrimAll([x, y]));
    NonEmptyIsFilter(TrimAll([x]));
    assert TrimAll([x]) == [x];
    assert TrimAll([x, y]) == [x, y];
    assert "a]"[1] == ']';
  }
}
