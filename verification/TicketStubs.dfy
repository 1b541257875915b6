/**
 * The stub files structural edits create (the renderers in src/structuralRefinement.ts), and
 * what a scan reads off them.
 */
module TicketStubs {
  import opened Prelude
  import opened Ids
  import opened Text
  import opened Frontmatters
  import opened DependencyEdits

  /** The frontmatter both renderers write: sketched, unreleased, with empty pointers. */
  function StubBlock(id: Id, title: string, dependsOn: seq<string>): seq<string> {
    [WriteEntry(Entry("id", id)), WriteEntry(Entry("title", title)), WriteEntry(Entry("status", "sketched")),
     "spec:", "plan:", WriteEntry(Entry("loop", "false")), WriteList(dependsOn)]
  }

  /** The lines of a stub as they are written, with any text below its frontmatter. */
  function Stub(id: Id, title: string, dependsOn: seq<string>, text: seq<string>): (r: Doc)
    ensures r != []
  {
    Rebuild(StubBlock(id, title, dependsOn), [""] + text)
  }

  /** The text of a stub, in outline: what it is for and which run proposed it. */
  function StubText(id: Id, title: string, rationale: seq<string>, runId: string): seq<string> {
    ["# " + title, "", id + ", from run " + runId, ""] + rationale
  }

  // ----- what a scan reads -----

  lemma EmptyEntryReads(key: string)
    requires IsKey(key)
    ensures ReadEntry(key + ":") == Some(Entry(key, ""))
  {
    ColonEndsTight(key);
    KeyStartsTight(key, ":");
    assert key + ":" + "" == key + ":";
    assert Trim(key + ":") == key + ":" + "";
    assert TrimLeft("") == "" && Trim("") == "" && OneLine("");
    hide Trim, TrimLeft, OneLine;
    ReadsAs(key + ":", key, "");
  }

  lemma StubKeys()
    ensures IsKey("id") && IsKey("title") && IsKey("status") && IsKey("spec") && IsKey("plan") && IsKey("loop")
  {
  }

  lemma StubLiterals()
    ensures "spec:" == "spec" + ":" && "plan:" == "plan" + ":"
    ensures OneLine("sketched") && OneLine("false")
    ensures Interpret("") == Scalar("")
  {
    assert "true" != "" && "false" != "";
  }

  lemma SketchedReads()
    ensures Interpret(Trim("sketched")) == Scalar("sketched")
  {
    assert PlainScalar("sketched") by {
      assert |"sketched"| == 8 && "sketched"[0] == 's' && Last("sketched") == 'd';
    }
    hide *;
    PlainScalarReads("sketched");
  }

  lemma FalseReads()
    ensures Interpret(Trim("false")) == Flag(false)
  {
    TrimmedStays("false");
    assert "false" != "true" by { assert |"false"| == 5; }
    hide Trim, TrimAll, CleanItems, Split, StripQuotes;
  }

  lemma {:induction false} PlainNamesClean(names: seq<string>)
    requires forall x :: x in names ==> PlainName(x)
    ensures CleanItems(names) == names
  {
    if names != [] {
      PlainNamesClean(names[1..]);
      assert names[0] in names;
      hide PlainItem, StripQuotes, OneLine;
    }
  }

  /** A list of plain names reads back as those names. */
  lemma ListReads(names: seq<string>)
    requires forall x :: x in names ==> PlainName(x)
    ensures ReadEntry(WriteList(names)).Some? && ReadEntry(WriteList(names)).value.key == "depends-on"
    ensures Interpret(ReadEntry(WriteList(names)).value.value) == Items(names)
  {
    PlainNamesClean(names);
    ListTokens(names);
    hide *;
    RecognisedReads(WriteList(names));
    ListInterprets(ListBody(WriteList(names)).value);
  }

  lemma ListTokens(names: seq<string>)
    requires forall x :: x in names ==> PlainName(x)
    ensures OneLine(WriteList(names)) && ListBody(WriteList(names)).Some?
            && Tokens(ListBody(WriteList(names)).value) == names
  {
    hide PlainItem, OneLine, StripQuotes, ListBody, WriteList;
    WrittenListIsOneLine(names);
    if names == [] {
      EmptyList();
    } else {
      WrittenListReads(names);
    }
  }

  lemma EmptyList()
    ensures ListBody(WriteList([])) == Some("") && Tokens("") == []
  {
    ListBodyOf("");
    hide ListBody;
    assert " [" + "" + "]" == " [" + Join([], ", ") + "]";
    assert Split("", ',') == [""] && Trim("") == "" && TrimAll([""]) == [""] && NonEmpty([""]) == [];
  }

  /** What a stub says about a key. */
  function StubField(id: Id, title: string, dependsOn: seq<string>, key: string): Option<FmValue> {
    if key == "depends-on" then Some(Items(dependsOn))
    else if key == "loop" then Some(Flag(false))
    else if key == "plan" || key == "spec" then Some(Scalar(""))
    else if key == "status" then Some(Scalar("sketched"))
    else if key == "title" then Some(Interpret(Trim(title)))
    else if key == "id" then Some(Interpret(Trim(id)))
    else None
  }

  lemma ListLine(names: seq<string>, key: string)
    requires forall x :: x in names ==> PlainName(x)
    ensures Lookup([WriteList(names)], key) == if key == "depends-on" then Some(Items(names)) else None
  {
    hide *;
    var list := WriteList(names);
    ListReads(names);
    EntryIs(list, key);
    LookupCons(list, [], key);
    EmptyLookup(key);
    assert [list] + [] == [list];
  }

  lemma LastLines(names: seq<string>, key: string)
    requires forall x :: x in names ==> PlainName(x)
    ensures Lookup([WriteEntry(Entry("loop", "false")), WriteList(names)], key) ==
            if key == "depends-on" then Some(Items(names)) else if key == "loop" then Some(Flag(false)) else None
  {
    hide *;
    StubKeys();
    StubLiterals();
    FalseReads();
    ListLine(names, key);
    EntryRoundTrip(Entry("loop", "false"));
    var loop, list := WriteEntry(Entry("loop", "false")), WriteList(names);
    EntryIs(loop, key);
    LookupCons(loop, [list], key);
    assert [loop] + [list] == [loop, list];
  }

  lemma EmptyLookup(key: string)
    ensures Lookup([], key) == None
  {
  }

  lemma MiddleLines(rest: seq<string>, key: string)
    ensures Lookup(["spec:", "plan:"] + rest, key) ==
            if Lookup(rest, key).Some? then Lookup(rest, key)
            else if key == "plan" || key == "spec" then Some(Scalar("")) else None
  {
    StubKeys();
    StubLiterals();
    hide *;
    EmptyEntryReads("spec");
    EmptyEntryReads("plan");
    EntryIs("spec:", key);
    EntryIs("plan:", key);
    LookupCons("plan:", rest, key);
    LookupCons("spec:", ["plan:"] + rest, key);
    assert ["spec:"] + (["plan:"] + rest) == ["spec:", "plan:"] + rest;
  }

  lemma FirstLines(id: Id, title: string, rest: seq<string>, key: string)
    requires OneLine(id) && OneLine(title)
    ensures var first := [WriteEntry(Entry("id", id)), WriteEntry(Entry("title", title)),
            WriteEntry(Entry("status", "sketched"))];
            Lookup(first + rest, key) ==
            if Lookup(rest, key).Some? then Lookup(rest, key)
            else if key == "status" then Some(Scalar("sketched"))
            else if key == "title" then Some(Interpret(Trim(title)))
            else if key == "id" then Some(Interpret(Trim(id)))
            else None
  {
    StubKeys();
    StubLiterals();
    SketchedReads();
    hide *;
    EntryRoundTrip(Entry("id", id));
    EntryRoundTrip(Entry("title", title));
    EntryRoundTrip(Entry("status", "sketched"));
    var a, b, c := WriteEntry(Entry("id", id)), WriteEntry(Entry("title", title)),
      WriteEntry(Entry("status", "sketched"));
    EntryIs(a, key);
    EntryIs(b, key);
    EntryIs(c, key);
    LookupCons(c, rest, key);
    LookupCons(b, [c] + rest, key);
    LookupCons(a, [b] + ([c] + rest), key);
    assert [a] + ([b] + ([c] + rest)) == [a, b, c] + rest;
  }

  lemma StubIsUnfenced(id: Id, title: string, dependsOn: seq<string>)
    ensures Unfenced(StubBlock(id, title, dependsOn))
  {
    var block := StubBlock(id, title, dependsOn);
    assert block[1][0] == 't' && block[2][0] == 's' && block[3][0] == 's' && block[4][0] == 'p' && block[5][0] == 'l'
      && block[6][0] == 'd';
    hide StartsWith, StubBlock;
    forall i | 1 <= i < |block|
      ensures !StartsWith(block[i], "---")
    {
      assert block[i] != "" && block[i][0] != '-';
      LetterIsNoFence(block[i]);
    }
  }

  lemma StubLinesRead(id: Id, title: string, dependsOn: seq<string>, text: seq<string>, key: string)
    requires OneLine(id) && OneLine(title) && forall x :: x in dependsOn ==> PlainName(x)
    ensures Field(Stub(id, title, dependsOn, text), key) == StubField(id, title, dependsOn, key)
  {
    var last := [WriteEntry(Entry("loop", "false")), WriteList(dependsOn)];
    var first := [WriteEntry(Entry("id", id)), WriteEntry(Entry("title", title)),
      WriteEntry(Entry("status", "sketched"))];
    StubIsUnfenced(id, title, dependsOn);
    assert StubBlock(id, title, dependsOn) == first + (["spec:", "plan:"] + last);
    hide WriteEntry, WriteList, Lookup, Interpret, OneLine, PlainName, Unfenced, Rebuild, HasBlock, Block, Trim;
    LastLines(dependsOn, key);
    MiddleLines(last, key);
    FirstLines(id, title, ["spec:", "plan:"] + last, key);
    RebuildReads(StubBlock(id, title, dependsOn), [""] + text);
  }

  lemma OneLineHasNoNewline(s: string)
    requires OneLine(s)
    ensures '\n' !in s
  {
    assert IsLineTerminator('\n');
  }

  lemma BlockIsLines(id: Id, title: string, dependsOn: seq<string>)
    requires OneLine(id) && OneLine(title) && OneLine(WriteList(dependsOn))
    ensures AreLines(["---"] + StubBlock(id, title, dependsOn) + ["---", ""])
  {
    OneLineHasNoNewline(id);
    OneLineHasNoNewline(title);
    OneLineHasNoNewline(WriteList(dependsOn));
    assert '\n' !in "id" && '\n' !in "title" && '\n' !in "status" && '\n' !in "loop" && '\n' !in ": ";
    assert '\n' !in "sketched" && '\n' !in "false" && '\n' !in "spec:" && '\n' !in "plan:" && '\n' !in "---";
    hide OneLine, WriteList;
  }

  /**
   * A stub with a title of one line and plain dependency names, written and read again, says under
   * every key what its renderer meant: sketched, unreleased, without pointers.
   */
  lemma StubReads(id: Id, title: string, dependsOn: seq<string>, text: seq<string>, key: string)
    requires OneLine(id) && OneLine(title) && forall x :: x in dependsOn ==> PlainName(x)
    ensures Field(Relined(Stub(id, title, dependsOn, text)), key) == StubField(id, title, dependsOn, key)
  {
    hide *;
    var front := ["---"] + StubBlock(id, title, dependsOn) + ["---", ""];
    ListTokens(dependsOn);
    BlockIsLines(id, title, dependsOn);
    StubInFront(id, title, dependsOn, text);
    StubInFront(id, title, dependsOn, Relined(text));
    RelinedOfAppend(front, text);
    RelinedLines(front);
    StubLinesRead(id, title, dependsOn, Relined(text), key);
  }

  lemma StubInFront(id: Id, title: string, dependsOn: seq<string>, text: seq<string>)
    ensures Stub(id, title, dependsOn, text) == ["---"] + StubBlock(id, title, dependsOn) + ["---", ""] + text
  {
    var block := StubBlock(id, title, dependsOn);
    assert block != [];
    hide StubBlock;
    assert ["---"] + ([""] + text) == ["---", ""] + text;
    Regroup(["---"], block, ["---"], [""] + text, ["---", ""], text);
  }

  lemma Regroup(a: seq<string>, b: seq<string>, c: seq<string>, d: seq<string>, e: seq<string>, f: seq<string>)
    requires c + d == e + f
    ensures a + b + c + d == a + b + e + f
  {
    assert a + b + c + d == a + b + (c + d);
  }
}
