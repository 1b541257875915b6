/**
 * The add-dependency edit as a text transform (applyAddDependency in src/applyRefinement.ts),
 * and what a scan reads after it.
 */
module DependencyEdits {
  import opened Prelude
  import opened Text
  import opened Frontmatters

  // ----- add-dependency -----

  predicate IsBlank(c: char) {
    c == ' ' || c == '\t'
  }

  function SkipBlanks(s: string): (r: string)
    ensures |r| <= |s| && r == s[|s| - |r|..]
    ensures r != "" ==> !IsBlank(r[0])
    ensures forall i :: 0 <= i < |s| - |r| ==> IsBlank(s[i])
  {
    if s != "" && IsBlank(s[0]) then SkipBlanks(s[1..]) else s
  }

  /** The length of the front of `s` that holds no closing bracket. */
  function UpToBracket(s: string): (n: nat)
    ensures n <= |s| && ']' !in s[..n] && (n < |s| ==> s[n] == ']')
  {
    if s == "" || s[0] == ']' then 0
    else
      assert s[..1 + UpToBracket(s[1..])] == [s[0]] + s[1..][..UpToBracket(s[1..])];
      1 + UpToBracket(s[1..])
  }

  /** [ \t]*\[([^\]]*)\][ \t]*$: the text between the brackets. */
  function Bracketed(rest: string): Option<string> {
    var open := SkipBlanks(rest);
    if open == "" || open[0] != '[' then None
    else
      var n := UpToBracket(open[1..]);
      if n == |open[1..]| || SkipBlanks(open[1..][n + 1..]) != "" then None
      else Some(open[1..][..n])
  }

  /** /^depends-on:[ \t]*\[([^\]]*)\][ \t]*$/ */
  function ListBody(line: string): Option<string> {
    if StartsWith(line, "depends-on:") then Bracketed(line[|"depends-on:"|..]) else None
  }

  function NonEmpty(parts: seq<string>): seq<string> {
    if parts == [] then []
    else if parts[0] == "" then NonEmpty(parts[1..])
    else [parts[0]] + NonEmpty(parts[1..])
  }

  /** split(",").map(trim).filter(Boolean) */
  function Tokens(body: string): seq<string> {
    NonEmpty(TrimAll(Split(body, ',')))
  }

  function WriteList(tokens: seq<string>): string {
    "depends-on:" + (" [" + Join(tokens, ", ") + "]")
  }

  /** The first line before `end` that the editor recognises, or `end`. */
  function ListLineFrom(doc: seq<string>, k: nat, end: nat): (m: nat)
    requires k <= end <= |doc|
    ensures k <= m <= end && (m < end ==> ListBody(doc[m]).Some?)
    ensures forall i :: k <= i < m ==> ListBody(doc[i]).None?
    decreases end - k
  {
    if k == end || ListBody(doc[k]).Some? then k else ListLineFrom(doc, k + 1, end)
  }

  /** The tokens of the recognised line, if there is one. */
  function Listed(doc: Doc, m: nat, end: nat): seq<string>
    requires m <= end < |doc| && (m < end ==> ListBody(doc[m]).Some?)
  {
    if m == end then [] else Tokens(ListBody(doc[m]).value)
  }

  /** The edit of the recognised line, or a new line at the end of the block. */
  function EditLine(doc: Doc, dep: string, m: nat, end: nat): Doc
    requires m <= end < |doc| && (m < end ==> ListBody(doc[m]).Some?)
  {
    if dep in Listed(doc, m, end) then doc
    else if m == end then doc[..end] + [WriteList([dep])] + doc[end..]
    else doc[m := WriteList(Listed(doc, m, end) + [dep])]
  }

  /** applyAddDependency */
  function AddDependency(doc: Doc, dep: string): Doc {
    if !HasBlock(doc) then doc
    else EditLine(doc, dep, ListLineFrom(doc, 0, FenceFrom(doc, 2)), FenceFrom(doc, 2))
  }

  /** A dependency name that can stand in a list: no blanks around it, no comma, bracket or quote. */
  predicate PlainName(dep: string) {
    dep != "" && PlainItem(dep) && ']' !in dep && OneLine(dep) && StripQuotes(dep) == dep
  }

  lemma {:induction false} SkipBlanksStops(pad: string, s: string)
    requires s == "" || !IsBlank(s[0])
    requires forall i :: 0 <= i < |pad| ==> IsBlank(pad[i])
    ensures SkipBlanks(pad + s) == s
  {
    if pad == "" {
      assert pad + s == s;
    } else {
      assert (pad + s)[1..] == pad[1..] + s;
      SkipBlanksStops(pad[1..], s);
    }
  }

  lemma {:induction false} BracketAt(body: string, tail: string)
    requires ']' !in body
    ensures UpToBracket(body + "]" + tail) == |body|
  {
    if body == "" {
      assert body + "]" + tail == "]" + tail;
    } else {
      assert (body + "]" + tail)[1..] == body[1..] + "]" + tail;
      BracketAt(body[1..], tail);
    }
  }

  lemma BracketedIs(body: string)
    requires ']' !in body
    ensures Bracketed(" [" + body + "]") == Some(body)
  {
    var inner := body + "]";
    assert " [" + body + "]" == " " + ("[" + inner);
    SkipBlanksStops(" ", "[" + inner);
    assert ("[" + inner)[1..] == inner;
    assert inner == body + "]" + "";
    BracketAt(body, "");
    assert inner[|body| + 1..] == "";
    assert inner[..|body|] == body;
    hide UpToBracket;
  }

  lemma PrefixAndRest(prefix: string, rest: string)
    ensures StartsWith(prefix + rest, prefix) && (prefix + rest)[|prefix|..] == rest
  {
  }

  lemma ListBodyOf(body: string)
    requires ']' !in body
    ensures ListBody("depends-on:" + (" [" + body + "]")) == Some(body)
  {
    hide Bracketed, StartsWith;
    BracketedIs(body);
    PrefixAndRest("depends-on:", " [" + body + "]");
  }

  lemma {:induction false} NonEmptyIsFilter(parts: seq<string>)
    ensures forall x :: x in NonEmpty(parts) <==> x in parts && x != ""
    ensures (forall x :: x in parts ==> x != "") ==> NonEmpty(parts) == parts
  {
    if parts != [] {
      NonEmptyIsFilter(parts[1..]);
      assert parts == [parts[0]] + parts[1..];
      assert forall x :: x in parts[1..] ==> x in parts;
      if forall x :: x in parts ==> x != "" {
        assert parts[0] in parts;
      }
    }
  }

  lemma TokensArePlain(body: string)
    ensures forall x :: x in Tokens(body) ==> x != "" && PlainItem(x)
    ensures ']' !in body ==> forall x :: x in Tokens(body) ==> ']' !in x
  {
    var parts := Split(body, ',');
    NonEmptyIsFilter(TrimAll(parts));
    forall x | x in Tokens(body)
      ensures x != "" && PlainItem(x) && (']' !in body ==> ']' !in x)
    {
      var i :| 0 <= i < |parts| && Trim(parts[i]) == x;
      TrimIsTrimmed(parts[i]);
      TrimIsPart(parts[i]);
      PartsAreParts(body, ',', i);
    }
  }

  lemma TrimIsPart(s: string)
    ensures forall c :: c in Trim(s) ==> c in s
  {
    hide TrimLeft, TrimRight;
    var l := TrimLeft(s);
    SliceIsPart(s, |s| - |l|, |s|);
    SliceIsPart(l, 0, |TrimRight(l)|);
  }

  lemma SliceIsPart(s: string, a: nat, b: nat)
    requires a <= b <= |s|
    ensures forall c :: c in s[a..b] ==> c in s
  {
  }

  lemma {:induction false} PartsAreParts(s: string, sep: char, i: nat)
    requires i < |Split(s, sep)|
    ensures forall c :: c in Split(s, sep)[i] ==> c in s
  {
    if s != "" {
      var rest := Split(s[1..], sep);
      if s[0] == sep {
        if i > 0 {
          PartsAreParts(s[1..], sep, i - 1);
        }
      } else {
        PartsAreParts(s[1..], sep, i);
      }
    }
  }

  /** What was written as a list is read back as that list. */
  lemma WrittenListReads(tokens: seq<string>)
    requires tokens != [] && forall x :: x in tokens ==> x != "" && PlainItem(x) && ']' !in x
    ensures ListBody(WriteList(tokens)) == Some(Join(tokens, ", "))
    ensures Tokens(Join(tokens, ", ")) == tokens
  {
    hide PlainItem, Trim, Split, ListBody;
    NoBracketInJoin(tokens);
    ListBodyOf(Join(tokens, ", "));
    ItemsSurviveJoin(tokens, "");
    assert "" + Join(tokens, ", ") == Join(tokens, ", ");
    NonEmptyIsFilter(tokens);
  }

  lemma {:induction false} NoBracketInJoin(tokens: seq<string>)
    requires forall x :: x in tokens ==> ']' !in x
    ensures ']' !in Join(tokens, ", ")
  {
    if |tokens| > 1 {
      NoBracketInJoin(tokens[1..]);
    }
  }

  lemma ListLineIsAt(doc: seq<string>, k: nat, end: nat, m: nat)
    requires k <= m <= end <= |doc| && (m < end ==> ListBody(doc[m]).Some?)
    requires forall i :: k <= i < m ==> ListBody(doc[i]).None?
    ensures ListLineFrom(doc, k, end) == m
  {
    var f := ListLineFrom(doc, k, end);
    hide ListBody, ListLineFrom;
    assert !(f < m);
    assert !(m < f);
  }

  /** Where the edited list stands afterwards, and which tokens it holds. */
  lemma EditedList(doc: Doc, dep: string, m: nat, end: nat)
    requires PlainName(dep) && HasBlock(doc) && end == FenceFrom(doc, 2) && m == ListLineFrom(doc, 0, end)
    requires dep !in Listed(doc, m, end)
    ensures var r, end' := EditLine(doc, dep, m, end), end + (if m == end then 1 else 0);
            && HasBlock(r) && FenceFrom(r, 2) == end' && ListLineFrom(r, 0, end') == m
            && Listed(r, m, end') == Listed(doc, m, end) + [dep]
  {
    hide *;
    BlockFacts(doc);
    var tokens := Listed(doc, m, end) + [dep];
    TokensAreWritable(doc, dep, m, end);
    WrittenListReads(tokens);
    ListIsNoFence(tokens);
    EditLineIs(doc, dep, m, end);
    if m == end {
      LineAdded(doc, end, WriteList(tokens));
    } else {
      LineReplaced(doc, m, end, WriteList(tokens));
    }
    ListedAt(EditLine(doc, dep, m, end), m, end + (if m == end then 1 else 0));
  }

  lemma TokensAreWritable(doc: Doc, dep: string, m: nat, end: nat)
    requires m <= end < |doc| && (m < end ==> ListBody(doc[m]).Some?) && PlainName(dep)
    ensures forall x :: x in Listed(doc, m, end) + [dep] ==> x != "" && PlainItem(x) && ']' !in x
  {
    hide ListBody, Tokens, PlainItem, OneLine, StripQuotes;
    if m < end {
      ListBodyHasNoBracket(doc[m]);
      TokensArePlain(ListBody(doc[m]).value);
    }
  }

  lemma ListIsNoFence(tokens: seq<string>)
    ensures !StartsWith(WriteList(tokens), "---")
  {
    assert WriteList(tokens)[0] == 'd';
    hide WriteList, StartsWith;
    LetterIsNoFence(WriteList(tokens));
  }

  lemma EditLineIs(doc: Doc, dep: string, m: nat, end: nat)
    requires m <= end < |doc| && (m < end ==> ListBody(doc[m]).Some?) && dep !in Listed(doc, m, end)
    ensures EditLine(doc, dep, m, end) ==
            if m == end then doc[..end] + [WriteList(Listed(doc, m, end) + [dep])] + doc[end..]
            else doc[m := WriteList(Listed(doc, m, end) + [dep])]
  {
    hide WriteList, ListBody, Tokens;
    if m == end {
      assert Listed(doc, m, end) + [dep] == [dep];
    }
  }

  lemma ListedAt(doc: Doc, m: nat, end: nat)
    requires m < end < |doc| && ListBody(doc[m]).Some?
    ensures Listed(doc, m, end) == Tokens(ListBody(doc[m]).value)
  {
    hide ListBody, Tokens;
  }

  lemma BlockFacts(doc: Doc)
    requires HasBlock(doc)
    ensures |doc| > 2 && doc[0] == "---" && 2 <= FenceFrom(doc, 2) < |doc|
  {
  }

  /** A document that opens like another one has a block of its own. */
  lemma BlockLike(doc: Doc, r: Doc, end: nat)
    requires HasBlock(doc) && |r| > 2 && r[0] == doc[0] && 2 <= end < |r|
    requires StartsWith(r[end], "---") && forall i :: 2 <= i < end ==> !StartsWith(r[i], "---")
    ensures HasBlock(r) && FenceFrom(r, 2) == end
  {
    hide StartsWith;
    FenceIsAt(r, 2, end);
  }

  /** A block with one recognised line added at its end. */
  lemma LineAdded(doc: Doc, end: nat, line: string)
    requires HasBlock(doc) && end == FenceFrom(doc, 2) == ListLineFrom(doc, 0, end)
    requires ListBody(line).Some? && !StartsWith(line, "---")
    ensures var r := doc[..end] + [line] + doc[end..];
            HasBlock(r) && FenceFrom(r, 2) == end + 1 && ListLineFrom(r, 0, end + 1) == end && r[end] == line
  {
    hide *;
    BlockFacts(doc);
    var r := doc[..end] + [line] + doc[end..];
    assert forall i :: 0 <= i < end ==> r[i] == doc[i];
    assert r[end + 1] == doc[end];
    BlockLike(doc, r, end + 1);
    ListLineIsAt(r, 0, end + 1, end);
  }

  /** A block with its recognised line replaced by another. */
  lemma LineReplaced(doc: Doc, m: nat, end: nat, line: string)
    requires HasBlock(doc) && end == FenceFrom(doc, 2) && m == ListLineFrom(doc, 0, end) < end
    requires ListBody(line).Some? && !StartsWith(line, "---")
    ensures var r := doc[m := line];
            HasBlock(r) && FenceFrom(r, 2) == end && ListLineFrom(r, 0, end) == m && r[m] == line
  {
    hide *;
    BlockFacts(doc);
    FenceIsNoList(doc[0]);
    var r := doc[m := line];
    BlockLike(doc, r, end);
    ListLineIsAt(r, 0, end, m);
  }

  lemma FenceIsNoList(line: string)
    ensures line == "---" ==> ListBody(line).None?
  {
  }

  lemma ListBodyHasNoBracket(line: string)
    requires ListBody(line).Some?
    ensures ']' !in ListBody(line).value
  {
    hide StartsWith, SkipBlanks;
  }

  lemma AddDependencyIs(doc: Doc, dep: string, m: nat, end: nat)
    requires HasBlock(doc) && end == FenceFrom(doc, 2) && m == ListLineFrom(doc, 0, end)
    ensures AddDependency(doc, dep) == EditLine(doc, dep, m, end)
    ensures dep in Listed(doc, m, end) ==> AddDependency(doc, dep) == doc
  {
  }

  /** Adding a dependency again changes nothing. */
  lemma AddDependencyIsIdempotent(doc: Doc, dep: string)
    requires PlainName(dep)
    ensures AddDependency(AddDependency(doc, dep), dep) == AddDependency(doc, dep)
  {
    if HasBlock(doc) {
      hide *;
      var end := FenceFrom(doc, 2);
      var m := ListLineFrom(doc, 0, end);
      AddDependencyIs(doc, dep, m, end);
      if dep !in Listed(doc, m, end) {
        EditedList(doc, dep, m, end);
        AddDependencyIs(EditLine(doc, dep, m, end), dep, m, end + (if m == end then 1 else 0));
      }
    }
  }

  /** One line of the block is replaced, or one is added at its end; every other line stays where it was. */
  lemma AddDependencyTouchesOneLine(doc: Doc, dep: string)
    requires HasBlock(doc)
    ensures var r, end := AddDependency(doc, dep), FenceFrom(doc, 2);
            || r == doc
            || r == doc[..end] + [WriteList([dep])] + doc[end..]
            || exists m :: 0 < m < end && ListBody(doc[m]).Some? && r == doc[m := r[m]]
  {
    var end := FenceFrom(doc, 2);
    var m := ListLineFrom(doc, 0, end);
    FenceIsNoList(doc[0]);
    hide Listed, ListLineFrom, FenceFrom, ListBody, WriteList;
  }

  // ----- what a scan reads after the edit -----

  lemma {:induction false} BlanksTrimAway(s: string)
    requires forall i :: 0 <= i < |s| ==> IsSpace(s[i])
    ensures TrimRight(s) == ""
  {
    if s != "" {
      BlanksTrimAway(Init(s));
    }
  }

  lemma UpToBracketSplits(s: string)
    ensures var n := UpToBracket(s); n < |s| ==> s == s[..n] + ("]" + s[n + 1..])
  {
    hide UpToBracket;
  }

  lemma SkipBlanksSplits(s: string)
    ensures var n := |s| - |SkipBlanks(s)|;
            s == s[..n] + SkipBlanks(s) && forall i :: 0 <= i < n ==> IsBlank(s[i])
  {
  }

  /** A recognised line, piece by piece. */
  lemma Unfold(line: string) returns (rest: string, open: string, inner: string, n: nat)
    requires ListBody(line).Some?
    ensures line == "depends-on:" + rest && open == SkipBlanks(rest) && open == "[" + inner
    ensures n == UpToBracket(inner) < |inner| && SkipBlanks(inner[n + 1..]) == "" && ListBody(line) == Some(inner[..n])
  {
    rest := AfterColon(line);
    hide ListBody;
    open, inner, n := UnfoldBrackets(rest);
  }

  lemma AfterColon(line: string) returns (rest: string)
    requires ListBody(line).Some?
    ensures line == "depends-on:" + rest && ListBody(line) == Bracketed(rest)
  {
    hide Bracketed;
    rest := line[|"depends-on:"|..];
    StartsWithSplits(line, "depends-on:");
  }

  lemma UnfoldBrackets(rest: string) returns (open: string, inner: string, n: nat)
    requires Bracketed(rest).Some?
    ensures open == SkipBlanks(rest) && open == "[" + inner
    ensures n == UpToBracket(inner) < |inner| && SkipBlanks(inner[n + 1..]) == "" && Bracketed(rest) == Some(inner[..n])
  {
    hide SkipBlanks, UpToBracket;
    open := SkipBlanks(rest);
    inner := open[1..];
    n := UpToBracket(inner);
    assert open == [open[0]] + inner;
  }

  /** The parts of a line the editor recognises. */
  lemma RecognisedParts(line: string) returns (pad: string, tail: string)
    requires ListBody(line).Some?
    ensures line == ("depends-on:" + (pad + ("[" + ListBody(line).value + "]"))) + tail
    ensures forall i :: 0 <= i < |pad| ==> IsBlank(pad[i])
    ensures forall i :: 0 <= i < |tail| ==> IsBlank(tail[i])
  {
    hide *;
    var rest, open, inner, n := Unfold(line);
    SkipBlanksSplits(rest);
    UpToBracketSplits(inner);
    SkipBlanksSplits(inner[n + 1..]);
    pad, tail := rest[..|rest| - |open|], inner[n + 1..];
    Reassemble(pad, inner[..n], tail);
  }

  lemma Reassemble(pad: string, body: string, tail: string)
    ensures "depends-on:" + (pad + ("[" + (body + ("]" + tail)))) == ("depends-on:" + (pad + ("[" + body + "]"))) + tail
  {
  }

  lemma Regroup(a: string, b: string, c: string, d: string)
    ensures a + (b + (c + d)) == (a + (b + c)) + d
  {
  }

  lemma TrimOfParts(pad: string, list: string, tail: string)
    requires list != "" && Last(list) == ']'
    requires forall i :: 0 <= i < |tail| ==> IsBlank(tail[i])
    ensures Trim("depends-on:" + (pad + list) + tail) == "depends-on" + ":" + (pad + list)
  {
    var front := "depends-on:" + (pad + list);
    assert Last(front) == ']';
    assert (front + tail)[0] == 'd';
    BlanksTrimAway(tail);
    TrimRightOfAppend(front, tail);
    assert "depends-on" + ":" == "depends-on:";
  }

  lemma DependsOnIsKey()
    ensures IsKey("depends-on")
  {
  }

  lemma MiddleIsOneLine(front: string, middle: string, tail: string)
    requires OneLine(front + middle + tail)
    ensures OneLine(middle)
  {
    var s := front + middle + tail;
    assert forall i :: 0 <= i < |middle| ==> middle[i] == s[|front| + i];
  }

  lemma BracketsAreTight(body: string)
    ensures var list := "[" + body + "]"; list != "" && Last(list) == ']' && Trimmed(list) && list[0] == '['
  {
  }

  /** A line the editor recognises is, to the parser, the key with that list. */
  lemma RecognisedReads(line: string)
    requires ListBody(line).Some? && OneLine(line)
    ensures ReadEntry(line) == Some(Entry("depends-on", "[" + ListBody(line).value + "]"))
  {
    hide *;
    var pad, tail := RecognisedParts(line);
    var list := "[" + ListBody(line).value + "]";
    Regroup("depends-on:", pad, list, "");
    assert ("depends-on:" + pad) + list == "depends-on:" + (pad + list);
    MiddleIsOneLine("depends-on:" + pad, list, tail);
    BracketsAreTight(ListBody(line).value);
    TrimOfParts(pad, list, tail);
    BlanksAreSpaces(pad);
    TrimLeftPadding(pad, list);
    TrimmedStays(list);
    DependsOnIsKey();
    ReadsAs(line, "depends-on", pad + list);
  }

  lemma BlanksAreSpaces(pad: string)
    requires forall i :: 0 <= i < |pad| ==> IsBlank(pad[i])
    ensures forall i :: 0 <= i < |pad| ==> IsSpace(pad[i])
  {
  }

  lemma {:induction false} CleaningSkipsEmpty(parts: seq<string>)
    ensures CleanItems(NonEmpty(parts)) == CleanItems(parts)
  {
    if parts != [] {
      CleaningSkipsEmpty(parts[1..]);
      if parts[0] != "" {
        assert NonEmpty(parts)[1..] == NonEmpty(parts[1..]);
      }
    }
  }

  lemma {:induction false} CleaningSnoc(tokens: seq<string>, dep: string)
    requires dep != "" && StripQuotes(dep) == dep
    ensures CleanItems(tokens + [dep]) == CleanItems(tokens) + [dep]
    ensures dep in tokens ==> dep in CleanItems(tokens)
  {
    hide StripQuotes;
    if tokens == [] {
      assert CleanItems([dep][1..]) == [];
    } else {
      assert (tokens + [dep])[1..] == tokens[1..] + [dep];
      CleaningSnoc(tokens[1..], dep);
    }
  }

  /** What the parser makes of a recognised list. */
  lemma ListInterprets(body: string)
    ensures Interpret("[" + body + "]") == Items(CleanItems(Tokens(body)))
  {
    var value := "[" + body + "]";
    assert value[0] == '[' && Last(value) == ']';
    assert value != "true" && value != "false";
    assert value[1..|value| - 1] == body;
    CleaningSkipsEmpty(TrimAll(Split(body, ',')));
    hide StripQuotes, CleanItems, TrimAll, Split, NonEmpty;
  }

  /** Of several entries for a key the last one is read. */
  lemma {:induction false} LastEntryIsRead(block: seq<string>, key: string, i: nat)
    requires i < |block|
    ensures Lookup(block, key) ==
            if Lookup(block[i + 1..], key).Some? then Lookup(block[i + 1..], key)
            else if IsEntryFor(block[i], key) then Some(Interpret(ReadEntry(block[i]).value.value))
            else Lookup(block[..i], key)
  {
    hide ReadEntry, Interpret, IsEntryFor;
    if i == 0 {
      assert block[..0] == [];
    } else {
      LastEntryIsRead(block[1..], key, i - 1);
      assert block[1..][i..] == block[i + 1..] && block[1..][..i - 1] == block[..i][1..];
    }
  }

  /** The dependencies a scan reads off a document. */
  function Dependencies(doc: Doc): seq<string> {
    match Field(doc, "depends-on")
    case Some(Items(items)) => items
    case _ => []
  }

  /** The line of the list the editor edits, or that of the closing fence. */
  function EditedLine(doc: Doc): nat
    requires HasBlock(doc)
  {
    ListLineFrom(doc, 0, FenceFrom(doc, 2))
  }

  /** The list the editor edits is followed by another entry, which is the one the parser reads. */
  predicate Overridden(doc: Doc)
    requires HasBlock(doc)
  {
    EditedLine(doc) < |Block(doc)| && Lookup(Block(doc)[EditedLine(doc)..], "depends-on").Some?
  }

  /** The editor sees no list, but the parser sees an entry. */
  predicate Unseen(doc: Doc)
    requires HasBlock(doc)
  {
    EditedLine(doc) == FenceFrom(doc, 2) && Field(doc, "depends-on").Some?
  }

  /** The lines of the block are lines to the patterns, too. */
  predicate PlainBlock(doc: Doc) {
    HasBlock(doc) && forall line :: line in Block(doc) ==> OneLine(line)
  }

  /** With a recognised line that no entry follows, the scan reads exactly its tokens. */
  lemma RecognisedIsRead(doc: Doc, m: nat, end: nat)
    requires HasBlock(doc) && end == FenceFrom(doc, 2) && 0 < m < end && ListBody(doc[m]).Some? && OneLine(doc[m])
    requires m <= |Block(doc)| && Lookup(Block(doc)[m..], "depends-on").None?
    ensures Dependencies(doc) == CleanItems(Tokens(ListBody(doc[m]).value))
  {
    hide *;
    RecognisedReads(doc[m]);
    ListInterprets(ListBody(doc[m]).value);
    BlockLine(doc, m, end);
    CountInIs(doc, "depends-on");
    EntryIs(doc[m], "depends-on");
    LastEntryIsRead(Block(doc), "depends-on", m - 1);
    DependenciesAre(doc, Tokens(ListBody(doc[m]).value));
  }

  lemma BlockLine(doc: Doc, m: nat, end: nat)
    requires HasBlock(doc) && end == FenceFrom(doc, 2) && 0 < m < end
    ensures |Block(doc)| == end - 1 && Block(doc)[m - 1] == doc[m]
  {
  }

  lemma CountInIs(doc: Doc, key: string)
    requires HasBlock(doc)
    ensures CountIn(doc, key) == CountOf(Block(doc), key) && Field(doc, key) == Lookup(Block(doc), key)
  {
  }

  lemma EntryIs(line: string, key: string)
    ensures IsEntryFor(line, key) <==> ReadEntry(line).Some? && ReadEntry(line).value.key == key
  {
  }

  lemma DependenciesAre(doc: Doc, tokens: seq<string>)
    requires Field(doc, "depends-on") == Some(Items(CleanItems(tokens)))
    ensures Dependencies(doc) == CleanItems(tokens)
  {
  }

  lemma {:induction false} JoinOneLine(tokens: seq<string>)
    requires forall x :: x in tokens ==> OneLine(x)
    ensures OneLine(Join(tokens, ", "))
  {
    if |tokens| > 1 {
      JoinOneLine(tokens[1..]);
      var rest := Join(tokens[1..], ", ");
      assert OneLine(tokens[0]);
      var s := tokens[0] + ", " + rest;
      assert forall i :: 0 <= i < |s| ==>
        s[i] == if i < |tokens[0]| then tokens[0][i]
                else if i < |tokens[0]| + 2 then ", "[i - |tokens[0]|]
                else rest[i - |tokens[0]| - 2];
    }
  }

  lemma WrittenListIsOneLine(tokens: seq<string>)
    requires forall x :: x in tokens ==> OneLine(x)
    ensures OneLine(WriteList(tokens))
  {
    JoinOneLine(tokens);
    hide Join;
    assert OneLine("depends-on:") && OneLine(" [") && OneLine("]");
  }

  lemma BodyIsOneLine(line: string)
    requires ListBody(line).Some? && OneLine(line)
    ensures OneLine(ListBody(line).value)
  {
    hide *;
    var pad, tail := RecognisedParts(line);
    var body := ListBody(line).value;
    Brackets("depends-on:", pad, body, tail);
    MiddleIsOneLine("depends-on:" + pad + "[", body, "]" + tail);
  }

  lemma Brackets(a: string, pad: string, body: string, tail: string)
    ensures (a + (pad + ("[" + body + "]"))) + tail == (a + pad + "[") + body + ("]" + tail)
  {
  }

  lemma TokensOfOneLine(body: string)
    requires OneLine(body)
    ensures forall x :: x in Tokens(body) ==> OneLine(x)
  {
    var parts := Split(body, ',');
    NonEmptyIsFilter(TrimAll(parts));
    hide Split, Trim;
    forall x | x in Tokens(body)
      ensures OneLine(x)
    {
      var i :| 0 <= i < |parts| && Trim(parts[i]) == x;
      PartsAreParts(body, ',', i);
      OneLineOfChars(body, parts[i]);
      TrimOneLine(parts[i]);
    }
  }

  lemma OneLineOfChars(s: string, part: string)
    requires OneLine(s) && forall c :: c in part ==> c in s
    ensures OneLine(part)
  {
    forall i | 0 <= i < |part|
      ensures !IsLineTerminator(part[i])
    {
      assert part[i] in part;
    }
  }

  lemma ListedIsWritable(doc: Doc, dep: string, m: nat, end: nat)
    requires m <= end < |doc| && (m < end ==> ListBody(doc[m]).Some? && OneLine(doc[m])) && PlainName(dep)
    ensures var line := WriteList(Listed(doc, m, end) + [dep]);
            && OneLine(line) && ListBody(line).Some?
            && Tokens(ListBody(line).value) == Listed(doc, m, end) + [dep]
  {
    hide ListBody, Tokens, WriteList, OneLine;
    if m < end {
      ListBodyHasNoBracket(doc[m]);
      TokensArePlain(ListBody(doc[m]).value);
      BodyIsOneLine(doc[m]);
      TokensOfOneLine(ListBody(doc[m]).value);
    }
    WrittenListReads(Listed(doc, m, end) + [dep]);
    WrittenListIsOneLine(Listed(doc, m, end) + [dep]);
  }

  /** A recognised last line is what the scan reads. */
  lemma AddedIsRead(doc: Doc, dep: string, end: nat)
    requires HasBlock(doc) && end == FenceFrom(doc, 2) == ListLineFrom(doc, 0, end) && PlainName(dep)
    ensures Dependencies(EditLine(doc, dep, end, end)) == [dep]
  {
    hide *;
    BlockFacts(doc);
    var line, r := WriteList([dep]), EditLine(doc, dep, end, end);
    NothingListed(doc, dep, end);
    ListedIsWritable(doc, dep, end, end);
    EditedList(doc, dep, end, end);
    BlockExtended(doc, r, line, end);
    RecognisedReads(line);
    ListInterprets(ListBody(line).value);
    EntryIs(line, "depends-on");
    LookupSnoc(Block(doc), line, "depends-on");
    CountInIs(r, "depends-on");
    DependenciesAre(r, [dep]);
    SingleClean(dep);
  }

  lemma NothingListed(doc: Doc, dep: string, end: nat)
    requires end < |doc|
    ensures Listed(doc, end, end) == [] && [] + [dep] == [dep]
    ensures EditLine(doc, dep, end, end) == doc[..end] + [WriteList([dep])] + doc[end..]
  {
    hide WriteList;
  }

  lemma SingleClean(dep: string)
    requires PlainName(dep)
    ensures CleanItems([dep]) == [dep]
  {
    CleaningSnoc([], dep);
    assert [] + [dep] == [dep];
  }

  lemma BlockExtended(doc: Doc, r: Doc, line: string, end: nat)
    requires HasBlock(doc) && end == FenceFrom(doc, 2) && r == doc[..end] + [line] + doc[end..]
    requires HasBlock(r) && FenceFrom(r, 2) == end + 1
    ensures Block(r) == Block(doc) + [line]
  {
    hide FenceFrom;
  }

  /** A recognised line that is replaced is what the scan reads, unless another entry follows. */
  lemma ReplacedIsRead(doc: Doc, dep: string, m: nat, end: nat)
    requires PlainBlock(doc) && end == FenceFrom(doc, 2) && m == ListLineFrom(doc, 0, end) < end && PlainName(dep)
    requires dep !in Listed(doc, m, end)
    ensures Dependencies(EditLine(doc, dep, m, end)) ==
            if Overridden(doc) then Dependencies(doc) else Dependencies(doc) + [dep]
    ensures !Overridden(doc) ==> Dependencies(doc) == CleanItems(Listed(doc, m, end))
  {
    hide *;
    EditedFacts(doc, m, end);
    var line, r := WriteList(Listed(doc, m, end) + [dep]), EditLine(doc, dep, m, end);
    ListedIs(doc, dep, m, end);
    ListedIsWritable(doc, dep, m, end);
    EditedList(doc, dep, m, end);
    BlockReplaced(doc, r, line, m, end);
    if Overridden(doc) {
      LastEntryIsRead(Block(doc), "depends-on", m - 1);
      LastEntryIsRead(Block(r), "depends-on", m - 1);
      CountInIs(doc, "depends-on");
      CountInIs(r, "depends-on");
      SameDependencies(doc, r);
    } else {
      RecognisedIsRead(doc, m, end);
      RecognisedIsRead(r, m, end);
      PlainNameCleans(Listed(doc, m, end), dep);
    }
  }

  lemma SameDependencies(doc: Doc, r: Doc)
    requires Field(r, "depends-on") == Field(doc, "depends-on")
    ensures Dependencies(r) == Dependencies(doc)
  {
  }

  lemma PlainNameCleans(tokens: seq<string>, dep: string)
    requires PlainName(dep)
    ensures CleanItems(tokens + [dep]) == CleanItems(tokens) + [dep]
    ensures dep in tokens ==> dep in CleanItems(tokens)
  {
    CleaningSnoc(tokens, dep);
  }

  lemma ListedIs(doc: Doc, dep: string, m: nat, end: nat)
    requires m < end < |doc| && ListBody(doc[m]).Some?
    ensures Listed(doc, m, end) == Tokens(ListBody(doc[m]).value)
    ensures dep !in Listed(doc, m, end) ==>
            EditLine(doc, dep, m, end) == doc[m := WriteList(Listed(doc, m, end) + [dep])]
  {
    hide WriteList, ListBody, Tokens;
  }

  lemma EditedFacts(doc: Doc, m: nat, end: nat)
    requires PlainBlock(doc) && end == FenceFrom(doc, 2) && m == ListLineFrom(doc, 0, end) < end
    ensures HasBlock(doc) && 0 < m && end < |doc| && OneLine(doc[m]) && ListBody(doc[m]).Some?
    ensures m <= |Block(doc)| && (Overridden(doc) <==> Lookup(Block(doc)[m..], "depends-on").Some?)
  {
    hide ListBody, ListLineFrom, OneLine, Lookup;
    FenceIsNoList(doc[0]);
    BlockFacts(doc);
    assert Block(doc)[m - 1] == doc[m];
    if m == |Block(doc)| {
      assert Block(doc)[m..] == [];
      NothingToRead([], "depends-on");
    }
  }

  lemma BlockReplaced(doc: Doc, r: Doc, line: string, m: nat, end: nat)
    requires HasBlock(doc) && end == FenceFrom(doc, 2) && 0 < m < end && r == doc[m := line]
    requires HasBlock(r) && FenceFrom(r, 2) == end
    ensures r[m] == line && m - 1 < |Block(doc)| && Block(doc)[m - 1] == doc[m] && Block(r) == Block(doc)[m - 1 := line]
    ensures m <= |Block(r)| == |Block(doc)| && Block(r)[m..] == Block(doc)[m..]
  {
    hide FenceFrom;
  }

  lemma {:induction false} NothingToRead(block: seq<string>, key: string)
    requires forall line :: line in block ==> !IsEntryFor(line, key)
    ensures Lookup(block, key) == None
  {
    if block != [] {
      NothingToRead(block[1..], key);
      assert block[0] in block;
      hide ReadEntry, Interpret;
    }
  }

  /**
   * What the scan reads after a dependency was added. Nothing new, if the list edited is one that
   * a later entry overrides; the new one alone, if the earlier ones stood in an entry only the
   * parser recognises (an indented key, say); otherwise the earlier ones and the new one.
   */
  lemma AddDependencyReadsBack(doc: Doc, dep: string)
    requires PlainBlock(doc) && PlainName(dep)
    ensures var before, after := Dependencies(doc), Dependencies(AddDependency(doc, dep));
            if Overridden(doc) then after == before
            else if Unseen(doc) then after == [dep]
            else dep in after && (after == before || after == before + [dep])
  {
    hide *;
    PlainBlockHasBlock(doc);
    var end := FenceFrom(doc, 2);
    BlockFacts(doc);
    var m := ListLineFrom(doc, 0, end);
    AddDependencyIs(doc, dep, m, end);
    if m == end {
      NothingListed(doc, dep, end);
      AddedIsRead(doc, dep, end);
      NothingEdited(doc, end);
    } else {
      EditedFacts(doc, m, end);
      SeenIsNotUnseen(doc, m, end);
      ListedIs(doc, dep, m, end);
      PlainNameCleans(Listed(doc, m, end), dep);
      if dep !in Listed(doc, m, end) {
        ReplacedIsRead(doc, dep, m, end);
      } else if !Overridden(doc) {
        RecognisedIsRead(doc, m, end);
      }
    }
  }

  lemma PlainBlockHasBlock(doc: Doc)
    requires PlainBlock(doc)
    ensures HasBlock(doc)
  {
  }

  lemma NothingEdited(doc: Doc, end: nat)
    requires HasBlock(doc) && end == FenceFrom(doc, 2) == ListLineFrom(doc, 0, end)
    ensures !Overridden(doc) && (!Unseen(doc) ==> Dependencies(doc) == [])
  {
    hide FenceFrom, ListLineFrom, Lookup;
  }

  lemma SeenIsNotUnseen(doc: Doc, m: nat, end: nat)
    requires HasBlock(doc) && end == FenceFrom(doc, 2) && m == ListLineFrom(doc, 0, end) < end
    ensures !Unseen(doc)
  {
    hide FenceFrom, ListLineFrom;
  }

  lemma IndentedIsUnrecognised(line: string)
    ensures ListBody(" " + line).None?
  {
    DifferentStart(" " + line, "depends-on:");
    hide Bracketed, StartsWith;
  }

  /** Indenting an entry hides it from the editor and from nobody else. */
  lemma IndentedEntryIsHidden(line: string)
    ensures ReadEntry(" " + line) == ReadEntry(line) && ListBody(" " + line).None?
  {
    IndentedIsUnrecognised(line);
    assert (" " + line)[1..] == line;
    assert TrimLeft(" " + line) == TrimLeft(line);
    hide ListBody, TrimLeft, TrimRight, KeyLength, OneLine;
  }

  lemma DifferentStart(s: string, prefix: string)
    requires s != "" && prefix != "" && s[0] != prefix[0]
    ensures !StartsWith(s, prefix)
  {
    assert |prefix| <= |s| ==> s[..|prefix|][0] == s[0];
  }
}
