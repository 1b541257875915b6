/**
 * What a scan makes of a stub once it is written and read again, for every title and every list
 * of dependencies: the renderers put both into the frontmatter as they are, newlines included.
 */
module StubScans {
  import opened Prelude
  import opened Ids
  import opened Text
  import opened TicketIds
  import opened Frontmatters
  import opened DependencyEdits
  import opened TicketStubs

  // ----- the scan -----

  /** A field as trimmed text, empty when it is none. */
  function TextField(doc: Doc, key: string): string {
    match Field(doc, key)
    case Some(Scalar(text)) => Trim(text)
    case _ => ""
  }

  const STATUSES: set<string> := {"sketched", "planned", "in-progress", "scope-changed", "done", "dropped"}

  /** readTicketFile returns a ticket (in an epic's directory). */
  predicate IsTicket(doc: Doc) {
    && (match Field(doc, "id") case Some(Scalar(id)) => IsTicketId(id) case _ => false)
    && TextField(doc, "status") in STATUSES
    && (match Field(doc, "loop") case None => true case Some(v) => v.Flag?)
    && (match Field(doc, "depends-on")
        case None => true
        case Some(v) => v.Items? && forall d :: d in v.items ==> IsTicketId(d))
  }

  /** scanTickets puts it into loopReady, these files being present. */
  predicate LoopReady(doc: Doc, present: set<string>) {
    && IsTicket(doc) && (TextField(doc, "status") == "sketched" || TextField(doc, "status") == "planned")
    && Field(doc, "loop") == Some(Flag(true))
    && TextField(doc, "spec") != "" && TextField(doc, "spec") in present
    && TextField(doc, "plan") != "" && TextField(doc, "plan") in present
  }

  // ----- lines nobody meant to write -----

  /** The lines of a text after its first. */
  function Tail(text: string): (lines: seq<string>) {
    Split(text, '\n')[1..]
  }

  /** The lines before the first that starts with three hyphens. */
  function BeforeFence(lines: seq<string>): seq<string> {
    lines[..FenceFrom(lines, 0)]
  }

  /** The title brings a closing fence of its own. */
  predicate Closes(title: string) {
    FenceFrom(Tail(title), 0) < |Tail(title)|
  }

  /**
   * The lines that have the last word: those of a title that closes the frontmatter early, or
   * those a list of dependencies goes on to.
   */
  function Extra(title: string, dependsOn: seq<string>): seq<string> {
    if Closes(title) then BeforeFence(Tail(title)) else BeforeFence(Tail(WriteList(dependsOn)))
  }

  /** What a stub is meant to say under the keys that release it. */
  function Meant(key: string): Option<FmValue> {
    if key == "status" then Some(Scalar("sketched"))
    else if key == "loop" then Some(Flag(false))
    else if key == "spec" || key == "plan" then Some(Scalar(""))
    else None
  }

  /** The keys that decide whether a scan may hand the ticket to the loop. */
  predicate Releases(key: string) {
    key == "status" || key == "loop" || key == "spec" || key == "plan"
  }

  /** Sketched, unreleased, without pointers. */
  ghost predicate ReadsAsMeant(doc: Doc) {
    forall key :: Releases(key) ==> Field(doc, key) == Meant(key)
  }

  /** The extra lines give the releasing keys no value of their own; a title that closes must give the meant ones. */
  ghost predicate Harmless(title: string, dependsOn: seq<string>) {
    forall key :: Releases(key) ==>
      var said := Lookup(Extra(title, dependsOn), key);
      said == Meant(key) || (said == None && !Closes(title))
  }

  // ----- the stub as it is read -----

  function OpeningLines(id: Id): seq<string> {
    ["---", WriteEntry(Entry("id", id))]
  }

  function MiddleOfBlock(): seq<string> {
    [WriteEntry(Entry("status", "sketched")), "spec:", "plan:", WriteEntry(Entry("loop", "false"))]
  }

  /** The lines of a stub, title and list split where they hold newlines. */
  function ReadLines(id: Id, title: string, dependsOn: seq<string>, text: seq<string>): seq<string> {
    OpeningLines(id) + Split(WriteEntry(Entry("title", title)), '\n') + MiddleOfBlock()
    + Split(WriteList(dependsOn), '\n') + ["---", ""] + Relined(text)
  }

  lemma FixedLinesAreLines(id: Id)
    requires '\n' !in id
    ensures AreLines(OpeningLines(id)) && AreLines(MiddleOfBlock()) && AreLines(["---", ""])
  {
    assert '\n' !in "---" && '\n' !in "id" && '\n' !in ": ";
    assert '\n' !in "status" && '\n' !in "sketched" && '\n' !in "loop" && '\n' !in "false";
    assert '\n' !in "spec:" && '\n' !in "plan:";
  }

  lemma RelinedOfOne(line: string)
    ensures Relined([line]) == Split(line, '\n')
  {
    hide Split;
    assert [line][1..] == [];
    assert Relined([]) == [];
  }

  lemma StubPieces(id: Id, title: string, dependsOn: seq<string>, text: seq<string>)
    ensures Stub(id, title, dependsOn, text)
            == OpeningLines(id) + [WriteEntry(Entry("title", title))] + MiddleOfBlock()
               + [WriteList(dependsOn)] + ["---", ""] + text
  {
    hide WriteEntry, WriteList;
  }

  lemma StubIsReadAs(id: Id, title: string, dependsOn: seq<string>, text: seq<string>)
    requires '\n' !in id
    ensures Relined(Stub(id, title, dependsOn, text)) == ReadLines(id, title, dependsOn, text)
  {
    hide *;
    StubPieces(id, title, dependsOn, text);
    FixedLinesAreLines(id);
    var a, b, c, d, e := OpeningLines(id), [WriteEntry(Entry("title", title))], MiddleOfBlock(),
      [WriteList(dependsOn)], ["---", ""];
    RelinedLines(a);
    RelinedLines(c);
    RelinedLines(e);
    RelinedOfOne(WriteEntry(Entry("title", title)));
    RelinedOfOne(WriteList(dependsOn));
    RelinedOfAppend(a + b + c + d + e, text);
    RelinedOfAppend(a + b + c + d, e);
    RelinedOfAppend(a + b + c, d);
    RelinedOfAppend(a + b, c);
    RelinedOfAppend(a, b);
    ReadLinesAre(id, title, dependsOn, text);
  }

  lemma ReadLinesAre(id: Id, title: string, dependsOn: seq<string>, text: seq<string>)
    ensures ReadLines(id, title, dependsOn, text)
            == OpeningLines(id) + Split(WriteEntry(Entry("title", title)), '\n') + MiddleOfBlock()
               + Split(WriteList(dependsOn), '\n') + ["---", ""] + Relined(text)
  {
  }

  /** Text in front of a text goes to its first line. */
  lemma {:induction false} SplitOfPrefix(prefix: string, text: string)
    requires '\n' !in prefix
    ensures var parts := Split(text, '\n'); Split(prefix + text, '\n') == [prefix + parts[0]] + parts[1..]
  {
    hide Split;
    if prefix == "" {
      assert prefix + text == text && prefix + Split(text, '\n')[0] == Split(text, '\n')[0];
    } else {
      var rest := prefix[1..] + text;
      SplitOfPrefix(prefix[1..], text);
      SplitOfCons(prefix + text, '\n');
      assert (prefix + text)[1..] == rest && (prefix + text)[0] == prefix[0];
      assert [prefix[0]] + (prefix[1..] + Split(text, '\n')[0]) == prefix + Split(text, '\n')[0];
    }
  }

  /** The title's lines: the first is its entry, whatever follows stands by itself. */
  lemma TitleLines(title: string)
    ensures var lines := Split(WriteEntry(Entry("title", title)), '\n');
            |lines| == 1 + |Tail(title)| && lines[1..] == Tail(title)
            && lines[0] == WriteEntry(Entry("title", Split(title, '\n')[0]))
  {
    var prefix := "title: ";
    assert '\n' !in prefix;
    SplitOfPrefix(prefix, title);
    hide Split;
    assert WriteEntry(Entry("title", title)) == prefix + title;
  }

  /** The list's lines: the first is an entry for depends-on, if any. */
  lemma ListLines(dependsOn: seq<string>)
    ensures var lines := Split(WriteList(dependsOn), '\n');
            |lines| == 1 + |Tail(WriteList(dependsOn))| && lines[1..] == Tail(WriteList(dependsOn))
            && exists value :: lines[0] == WriteEntry(Entry("depends-on", value))
  {
    var prefix, body := "depends-on: ", "[" + Join(dependsOn, ", ") + "]";
    assert '\n' !in prefix;
    SplitOfPrefix(prefix, body);
    hide Split, Join;
    assert WriteList(dependsOn) == prefix + body;
    var value := Split(body, '\n')[0];
    assert WriteEntry(Entry("depends-on", value)) == prefix + value;
  }

  /** A line written as an entry is an entry for its own key or for none. */
  lemma EntryIsForItsKey(e: Entry, key: string)
    requires IsKey(e.key) && key != e.key
    ensures !IsEntryFor(WriteEntry(e), key)
  {
    hide *;
    TrimOfEntry(e);
    ReadsAs(WriteEntry(e), e.key, Padded(e.value));
    EntryIs(WriteEntry(e), key);
  }

  lemma {:induction false} LookupAppend(a: seq<string>, b: seq<string>, key: string)
    ensures Lookup(a + b, key) == if Lookup(b, key).Some? then Lookup(b, key) else Lookup(a, key)
  {
    hide ReadEntry, Interpret, IsEntryFor;
    if a == [] {
      assert a + b == b;
    } else {
      assert (a + b)[1..] == a[1..] + b && (a + b)[0] == a[0];
      LookupAppend(a[1..], b, key);
    }
  }

  lemma OneLineLookup(line: string, key: string)
    requires !IsEntryFor(line, key)
    ensures Lookup([line], key) == None
  {
    hide IsEntryFor;
    assert [line][1..] == [];
    EmptyLookup(key);
  }

  lemma KeysOfStub()
    ensures IsKey("id") && IsKey("title") && IsKey("depends-on")
  {
    StubKeys();
  }

  /** The block of a stub whose title closes it early. */
  function ClosedBlock(id: Id, title: string): seq<string> {
    [WriteEntry(Entry("id", id)), WriteEntry(Entry("title", Split(title, '\n')[0]))] + BeforeFence(Tail(title))
  }

  lemma LetterLineIsNoFence(line: string)
    requires line != "" && line[0] != '-'
    ensures !StartsWith(line, "---")
  {
    LetterIsNoFence(line);
  }

  lemma BlockIs(doc: Doc, end: nat)
    requires 2 < end < |doc| && doc[0] == "---" && StartsWith(doc[end], "---")
    requires forall i :: 2 <= i < end ==> !StartsWith(doc[i], "---")
    ensures HasBlock(doc) && Block(doc) == doc[1..end]
  {
    FenceIsAt(doc, 2, end);
  }

  /** Lines up to some fence, the first of them free to be anything. */
  lemma BlockOf(id: Id, lines: seq<string>, fence: string, rest: seq<string>)
    requires lines != [] && StartsWith(fence, "---")
    requires forall i :: 0 <= i < |lines| ==> !StartsWith(lines[i], "---")
    ensures var doc := OpeningLines(id) + lines + [fence] + rest;
            HasBlock(doc) && Block(doc) == [WriteEntry(Entry("id", id))] + lines
  {
    hide StartsWith, WriteEntry;
    var doc, end := OpeningLines(id) + lines + [fence] + rest, 2 + |lines|;
    forall i | 2 <= i < end
      ensures !StartsWith(doc[i], "---")
    {
      assert doc[i] == lines[i - 2];
    }
    assert doc[end] == fence;
    BlockIs(doc, end);
    assert doc[1..end] == [WriteEntry(Entry("id", id))] + lines;
  }

  lemma MiddleIsUnfenced()
    ensures forall i :: 0 <= i < 4 ==> !StartsWith(MiddleOfBlock()[i], "---")
  {
    var m := MiddleOfBlock();
    assert m[0][0] == 's' && m[1][0] == 's' && m[2][0] == 'p' && m[3][0] == 'l';
    forall i | 0 <= i < 4
      ensures !StartsWith(m[i], "---")
    {
      LetterLineIsNoFence(m[i]);
    }
  }

  lemma BeforeFenceIsUnfenced(lines: seq<string>)
    ensures forall line :: line in BeforeFence(lines) ==> !StartsWith(line, "---")
  {
    hide StartsWith;
  }

  lemma FirstOfTitle(title: string)
    ensures !StartsWith(WriteEntry(Entry("title", Split(title, '\n')[0])), "---")
  {
    var line := WriteEntry(Entry("title", Split(title, '\n')[0]));
    assert line[0] == 't';
    LetterLineIsNoFence(line);
  }

  lemma ClosedStubBlock(id: Id, title: string, rest: seq<string>)
    requires Closes(title)
    ensures var doc := OpeningLines(id) + Split(WriteEntry(Entry("title", title)), '\n') + rest;
            HasBlock(doc) && Block(doc) == ClosedBlock(id, title)
  {
    hide *;
    var ts, tail := Split(WriteEntry(Entry("title", title)), '\n'), Tail(title);
    var f, first := FenceFrom(tail, 0), WriteEntry(Entry("title", Split(title, '\n')[0]));
    TitleLines(title);
    FirstOfTitle(title);
    BeforeFenceIsUnfenced(tail);
    FenceFacts(title);
    var lines, fence, back := [first] + tail[..f], [tail[f]], tail[f + 1..];
    FirstAndRest(ts, first, tail);
    CutAround([first], tail, f);
    ConsIsUnfenced(first, tail[..f]);
    BlockOf(id, lines, tail[f], back + rest);
    Regrouped(OpeningLines(id), [], ts, lines, fence, back, rest);
    NothingBefore(OpeningLines(id), lines);
    ClosedBlockIs(id, title);
    PairInFront(WriteEntry(Entry("id", id)), first, tail[..f]);
  }

  lemma FirstAndRest(ts: seq<string>, first: string, tail: seq<string>)
    requires |ts| == 1 + |tail| && ts[0] == first && ts[1..] == tail
    ensures ts == [first] + tail
  {
  }

  lemma ConsIsUnfenced(first: string, lines: seq<string>)
    requires !StartsWith(first, "---") && forall line :: line in lines ==> !StartsWith(line, "---")
    ensures var all := [first] + lines; forall i :: 0 <= i < |all| ==> !StartsWith(all[i], "---")
  {
    hide StartsWith;
  }

  lemma NothingBefore(a: seq<string>, b: seq<string>)
    ensures a + [] == a && [] + b == b
  {
  }

  lemma PairInFront(a: string, b: string, lines: seq<string>)
    ensures [a] + ([b] + lines) == [a, b] + lines
  {
  }

  lemma FenceFacts(title: string)
    requires Closes(title)
    ensures var tail := Tail(title); var f := FenceFrom(tail, 0);
            f < |tail| && StartsWith(tail[f], "---") && BeforeFence(tail) == tail[..f]
  {
    hide StartsWith;
  }

  lemma ClosedBlockIs(id: Id, title: string)
    ensures ClosedBlock(id, title)
            == [WriteEntry(Entry("id", id)), WriteEntry(Entry("title", Split(title, '\n')[0]))]
               + BeforeFence(Tail(title))
  {
  }

  lemma CutAround(front: seq<string>, tail: seq<string>, f: nat)
    requires f < |tail|
    ensures front + tail == front + tail[..f] + [tail[f]] + tail[f + 1..]
  {
  }

  /** The lines of the block after the id, in a stub whose title does not close it. */
  function InnerLines(title: string, dependsOn: seq<string>): seq<string> {
    Split(WriteEntry(Entry("title", title)), '\n') + MiddleOfBlock()
    + [Split(WriteList(dependsOn), '\n')[0]] + BeforeFence(Tail(WriteList(dependsOn)))
  }

  lemma OpenTitleIsUnfenced(title: string)
    requires !Closes(title)
    ensures forall line :: line in Split(WriteEntry(Entry("title", title)), '\n') ==> !StartsWith(line, "---")
  {
    TitleLines(title);
    FirstOfTitle(title);
    hide Split, StartsWith, WriteEntry, FenceFrom;
    var ts := Split(WriteEntry(Entry("title", title)), '\n');
    assert ts == [ts[0]] + ts[1..];
  }

  lemma InnerIsUnfenced(title: string, dependsOn: seq<string>)
    requires !Closes(title)
    ensures var lines := InnerLines(title, dependsOn);
            lines != [] && forall i :: 0 <= i < |lines| ==> !StartsWith(lines[i], "---")
  {
    OpenTitleIsUnfenced(title);
    MiddleIsUnfenced();
    ListLines(dependsOn);
    BeforeFenceIsUnfenced(Tail(WriteList(dependsOn)));
    var first := Split(WriteList(dependsOn), '\n')[0];
    assert first[0] == 'd';
    LetterLineIsNoFence(first);
    hide Split, StartsWith, WriteEntry, WriteList, MiddleOfBlock, BeforeFence, Tail;
    assert forall line :: line in MiddleOfBlock() ==> !StartsWith(line, "---") by {
      assert |MiddleOfBlock()| == 4 by { FourInTheMiddle(); }
    }
    var lines := InnerLines(title, dependsOn);
    forall i | 0 <= i < |lines|
      ensures !StartsWith(lines[i], "---")
    {
      assert lines[i] in lines;
    }
  }

  lemma FourInTheMiddle()
    ensures |MiddleOfBlock()| == 4
  {
  }

  /** The block ends at a fence among the list's lines, or at the stub's own. */
  lemma WholeStubBlock(id: Id, title: string, dependsOn: seq<string>, text: seq<string>)
    requires !Closes(title)
    ensures var doc := ReadLines(id, title, dependsOn, text);
            HasBlock(doc) && Block(doc) == [WriteEntry(Entry("id", id))] + InnerLines(title, dependsOn)
  {
    ListLines(dependsOn);
    InnerIsUnfenced(title, dependsOn);
    hide *;
    var ls, tail := Split(WriteList(dependsOn), '\n'), Tail(WriteList(dependsOn));
    var front := Split(WriteEntry(Entry("title", title)), '\n') + MiddleOfBlock();
    var g, back := FenceFrom(tail, 0), ["---", ""] + Relined(text);
    ReadLinesAre(id, title, dependsOn, text);
    InnerLinesAre(title, dependsOn);
    assert ls == [ls[0]] + tail;
    assert ReadLines(id, title, dependsOn, text) == OpeningLines(id) + front + ls + back by {
      Associate(OpeningLines(id), Split(WriteEntry(Entry("title", title)), '\n'), MiddleOfBlock(), ls, ["---", ""],
                Relined(text));
    }
    if g < |tail| {
      CutAround([ls[0]], tail, g);
      BlockOf(id, InnerLines(title, dependsOn), tail[g], tail[g + 1..] + back);
      Regrouped(OpeningLines(id), front, ls, [ls[0]] + tail[..g], [tail[g]], tail[g + 1..], back);
      Associated(front, [ls[0]], tail[..g]);
    } else {
      OwnFence();
      assert tail[..g] == tail;
      BlockOf(id, InnerLines(title, dependsOn), "---", [""] + Relined(text));
      Regrouped(OpeningLines(id), front, ls, ls, [], [], back);
      Associated(front, [ls[0]], tail);
      BackIs(OpeningLines(id) + (front + ls), Relined(text));
    }
  }

  lemma OwnFence()
    ensures StartsWith("---", "---")
  {
  }

  lemma BackIs(a: seq<string>, text: seq<string>)
    ensures a + [] + ([] + (["---", ""] + text)) == a + ["---"] + ([""] + text)
  {
  }

  lemma InnerLinesAre(title: string, dependsOn: seq<string>)
    ensures var tail := Tail(WriteList(dependsOn));
            InnerLines(title, dependsOn)
            == Split(WriteEntry(Entry("title", title)), '\n') + MiddleOfBlock()
               + [Split(WriteList(dependsOn), '\n')[0]] + tail[..FenceFrom(tail, 0)]
    ensures var tail := Tail(WriteList(dependsOn)); var g := FenceFrom(tail, 0);
            g < |tail| ==> StartsWith(tail[g], "---")
  {
    hide Split, WriteEntry, WriteList, MiddleOfBlock, Tail, FenceFrom;
  }

  lemma Associate(a: seq<string>, b: seq<string>, c: seq<string>, d: seq<string>, e: seq<string>, f: seq<string>)
    ensures a + b + c + d + e + f == a + (b + c) + d + (e + f)
  {
  }

  lemma Associated(a: seq<string>, b: seq<string>, c: seq<string>)
    ensures a + (b + c) == a + b + c
  {
  }

  lemma Regrouped(a: seq<string>, front: seq<string>, ls: seq<string>, l0: seq<string>, l1: seq<string>,
      l2: seq<string>, back: seq<string>)
    requires ls == l0 + l1 + l2
    ensures a + front + ls + back == a + (front + l0) + l1 + (l2 + back)
  {
  }

  // ----- what the scan reads -----

  lemma MiddleReads(key: string)
    requires Releases(key)
    ensures Lookup(MiddleOfBlock(), key) == Meant(key) && Meant(key).Some?
  {
    hide *;
    var status, loop := WriteEntry(Entry("status", "sketched")), WriteEntry(Entry("loop", "false"));
    StubKeys();
    StubLiterals();
    SketchedReads();
    FalseReads();
    EntryRoundTrip(Entry("status", "sketched"));
    EntryRoundTrip(Entry("loop", "false"));
    EntryIs(status, key);
    EntryIs(loop, key);
    EmptyLookup(key);
    LookupCons(loop, [], key);
    assert [loop] + [] == [loop];
    MiddleLines([loop], key);
    LookupCons(status, ["spec:", "plan:"] + [loop], key);
    MiddleIs();
    MeantIs(key);
  }

  lemma MiddleIs()
    ensures MiddleOfBlock()
            == [WriteEntry(Entry("status", "sketched"))] + (["spec:", "plan:"] + [WriteEntry(Entry("loop", "false"))])
  {
    hide WriteEntry;
  }

  lemma MeantIs(key: string)
    requires Releases(key)
    ensures key == "status" || key == "loop" || key == "spec" || key == "plan"
    ensures Meant(key) == if key == "loop" then Some(Flag(false))
                          else if key == "plan" || key == "spec" then Some(Scalar(""))
                          else Some(Scalar("sketched"))
  {
    assert |"status"| == 6 && |"loop"| == 4 && "loop"[0] == 'l' && "spec"[0] == 's' && "plan"[0] == 'p';
  }

  /** The written first lines have no say under a releasing key. */
  lemma SilentLines(id: Id, value: string, key: string)
    requires Releases(key)
    ensures Lookup([WriteEntry(Entry("id", id))], key) == None
    ensures Lookup([WriteEntry(Entry("title", value))], key) == None
    ensures Lookup([WriteEntry(Entry("depends-on", value))], key) == None
  {
    KeysOfStub();
    assert key != "id" && key != "title" && key != "depends-on" by { OtherKeys(key); }
    hide *;
    EntryIsForItsKey(Entry("id", id), key);
    EntryIsForItsKey(Entry("title", value), key);
    EntryIsForItsKey(Entry("depends-on", value), key);
    OneLineLookup(WriteEntry(Entry("id", id)), key);
    OneLineLookup(WriteEntry(Entry("title", value)), key);
    OneLineLookup(WriteEntry(Entry("depends-on", value)), key);
  }

  lemma OtherKeys(key: string)
    requires Releases(key)
    ensures key != "id" && key != "title" && key != "depends-on"
  {
    assert |"status"| == 6 && |"loop"| == 4 && |"spec"| == 4 && |"plan"| == 4;
    assert |"id"| == 2 && |"title"| == 5 && |"depends-on"| == 10;
  }

  lemma ClosedReads(id: Id, title: string, key: string)
    requires Releases(key)
    ensures Lookup(ClosedBlock(id, title), key) == Lookup(BeforeFence(Tail(title)), key)
  {
    var first := Split(title, '\n')[0];
    SilentLines(id, first, key);
    ClosedBlockIs(id, title);
    hide *;
    var a, b := [WriteEntry(Entry("id", id))], [WriteEntry(Entry("title", first))];
    LookupAppend(a, b, key);
    LookupAppend(a + b, BeforeFence(Tail(title)), key);
    assert a + b == [WriteEntry(Entry("id", id)), WriteEntry(Entry("title", first))];
  }

  lemma WholeReads(id: Id, title: string, dependsOn: seq<string>, key: string)
    requires Releases(key)
    ensures var said := Lookup(BeforeFence(Tail(WriteList(dependsOn))), key);
            Lookup([WriteEntry(Entry("id", id))] + InnerLines(title, dependsOn), key)
            == if said.Some? then said else Meant(key)
  {
    ListLines(dependsOn);
    var value :| Split(WriteList(dependsOn), '\n')[0] == WriteEntry(Entry("depends-on", value));
    SilentLines(id, value, key);
    MiddleReads(key);
    var ts, middle := Split(WriteEntry(Entry("title", title)), '\n'), MiddleOfBlock();
    var list, extra := [Split(WriteList(dependsOn), '\n')[0]], BeforeFence(Tail(WriteList(dependsOn)));
    assert InnerLines(title, dependsOn) == ts + middle + list + extra;
    hide *;
    LookupAppend(ts, middle, key);
    LookupAppend(ts + middle, list, key);
    LookupAppend(ts + middle + list, extra, key);
    LookupAppend([WriteEntry(Entry("id", id))], InnerLines(title, dependsOn), key);
  }

  lemma FieldOf(doc: Doc, key: string)
    requires HasBlock(doc)
    ensures Field(doc, key) == Lookup(Block(doc), key)
  {
    hide Lookup, HasBlock, Block;
  }

  lemma ExtraIs(title: string, dependsOn: seq<string>)
    ensures Extra(title, dependsOn)
            == if Closes(title) then BeforeFence(Tail(title)) else BeforeFence(Tail(WriteList(dependsOn)))
  {
  }

  /**
   * What a scan reads under a releasing key, for every title and every list: what the extra lines
   * say last, else what was meant, unless the title closed the frontmatter before that.
   */
  lemma StubFieldReads(id: Id, title: string, dependsOn: seq<string>, text: seq<string>, key: string)
    requires '\n' !in id && Releases(key)
    ensures var said := Lookup(Extra(title, dependsOn), key);
            Field(Relined(Stub(id, title, dependsOn, text)), key)
            == if said.Some? || Closes(title) then said else Meant(key)
  {
    hide *;
    StubIsReadAs(id, title, dependsOn, text);
    ExtraIs(title, dependsOn);
    var doc := ReadLines(id, title, dependsOn, text);
    if Closes(title) {
      var ts, ls := Split(WriteEntry(Entry("title", title)), '\n'), Split(WriteList(dependsOn), '\n');
      ReadLinesAre(id, title, dependsOn, text);
      AssociateRest(OpeningLines(id) + ts, MiddleOfBlock(), ls, ["---", ""], Relined(text));
      ClosedStubBlock(id, title, MiddleOfBlock() + ls + ["---", ""] + Relined(text));
      ClosedReads(id, title, key);
    } else {
      WholeStubBlock(id, title, dependsOn, text);
      WholeReads(id, title, dependsOn, key);
    }
    FieldOf(doc, key);
  }

  lemma AssociateRest(a: seq<string>, b: seq<string>, c: seq<string>, d: seq<string>, e: seq<string>)
    ensures a + b + c + d + e == a + (b + c + d + e)
  {
  }

  /**
   * A stub reads as sketched, unreleased and without pointers exactly when the lines a newline in
   * its title or its dependencies brings along are harmless.
   */
  lemma StubReadsAsMeantIff(id: Id, title: string, dependsOn: seq<string>, text: seq<string>)
    requires '\n' !in id
    ensures ReadsAsMeant(Relined(Stub(id, title, dependsOn, text))) <==> Harmless(title, dependsOn)
  {
    var doc := Relined(Stub(id, title, dependsOn, text));
    forall key | Releases(key)
      ensures var said := Lookup(Extra(title, dependsOn), key);
              Meant(key).Some?
              && Field(doc, key) == if said.Some? || Closes(title) then said else Meant(key)
    {
      StubFieldReads(id, title, dependsOn, text, key);
      MiddleReads(key);
    }
    hide Field, Lookup, Extra, Closes, Meant, Relined, Stub, Releases;
  }

  /** No scan finds a stub loop-ready whose extra lines do not release it, whatever files there are. */
  lemma ReleasedByExtraOnly(id: Id, title: string, dependsOn: seq<string>, text: seq<string>, present: set<string>)
    requires '\n' !in id && LoopReady(Relined(Stub(id, title, dependsOn, text)), present)
    ensures var extra := Extra(title, dependsOn);
            && Lookup(extra, "loop") == Some(Flag(true))
            && Lookup(extra, "spec").Some? && Lookup(extra, "plan").Some?
  {
    hide *;
    ReleasingKeys();
    LoopReadyNeeds(Relined(Stub(id, title, dependsOn, text)), present);
    StubFieldReads(id, title, dependsOn, text, "loop");
    StubFieldReads(id, title, dependsOn, text, "spec");
    StubFieldReads(id, title, dependsOn, text, "plan");
  }

  lemma ReleasingKeys()
    ensures Releases("loop") && Releases("spec") && Releases("plan")
    ensures Meant("loop") == Some(Flag(false))
    ensures Meant("spec") == Some(Scalar("")) && Meant("plan") == Some(Scalar(""))
  {
  }

  /** A loop-ready ticket is released and says where its spec and its plan are. */
  lemma LoopReadyNeeds(doc: Doc, present: set<string>)
    requires LoopReady(doc, present)
    ensures Field(doc, "loop") == Some(Flag(true))
    ensures Field(doc, "spec").Some? && Field(doc, "spec") != Some(Scalar(""))
    ensures Field(doc, "plan").Some? && Field(doc, "plan") != Some(Scalar(""))
  {
    hide Field, IsTicket;
    assert Trim("") == "";
    hide Trim;
  }

  // ----- one-line titles and dependencies -----

  lemma OneLineTail(text: string)
    requires '\n' !in text
    ensures Tail(text) == []
  {
    SplitFront(text, '\n', "");
  }

  lemma {:induction false} JoinHasNoNewline(items: seq<string>)
    requires AreLines(items)
    ensures '\n' !in Join(items, ", ")
  {
    if |items| > 1 {
      JoinHasNoNewline(items[1..]);
      assert '\n' !in items[0] && '\n' !in ", ";
    }
  }

  /** Titles and dependencies without a newline bring nothing along. */
  lemma NothingExtra(title: string, dependsOn: seq<string>)
    requires '\n' !in title && AreLines(dependsOn)
    ensures !Closes(title) && Extra(title, dependsOn) == [] && Harmless(title, dependsOn)
  {
    OneLineTail(title);
    JoinHasNoNewline(dependsOn);
    assert '\n' !in "depends-on:" && '\n' !in " [" && '\n' !in "]";
    OneLineTail(WriteList(dependsOn));
    hide Split, WriteList, Join, Tail;
    forall key { EmptyLookup(key); }
  }

  /**
   * Any stub with a title and dependencies of one line reads as meant: no scan finds it loop-ready,
   * whatever files there are.
   */
  lemma OneLineStubIsUnreleased(id: Id, title: string, dependsOn: seq<string>, text: seq<string>, present: set<string>)
    requires '\n' !in id && '\n' !in title && AreLines(dependsOn)
    ensures var doc := Relined(Stub(id, title, dependsOn, text)); ReadsAsMeant(doc) && !LoopReady(doc, present)
  {
    NothingExtra(title, dependsOn);
    StubReadsAsMeantIff(id, title, dependsOn, text);
    EmptyLookup("loop");
    hide Harmless, ReadsAsMeant, Extra, Closes, Relined, Stub;
    if LoopReady(Relined(Stub(id, title, dependsOn, text)), present) {
      ReleasedByExtraOnly(id, title, dependsOn, text, present);
    }
  }

  // ----- a title that releases its ticket -----

  /** A title of several lines that ends in a closing fence. */
  function ClosingTitle(first: string, entries: seq<Entry>): string {
    Join([first] + WriteAll(entries) + ["---"], "\n")
  }

  lemma WritableIsLine(e: Entry)
    requires Writable(e)
    ensures '\n' !in WriteEntry(e) && !StartsWith(WriteEntry(e), "---")
  {
    NotAFence(e);
    assert '\n' !in e.key && '\n' !in ": ";
    assert '\n' !in e.value by {
      assert IsLineTerminator('\n');
    }
    hide StartsWith;
  }

  lemma {:induction false} WrittenAreLines(entries: seq<Entry>)
    requires AllWritable(entries)
    ensures AreLines(WriteAll(entries))
    ensures forall i :: 0 <= i < |entries| ==> !StartsWith(WriteAll(entries)[i], "---")
  {
    if entries != [] {
      WritableIsLine(entries[0]);
      WrittenAreLines(entries[1..]);
      hide WriteEntry, StartsWith, Writable;
    }
  }

  lemma ClosingTitleLines(first: string, entries: seq<Entry>)
    requires '\n' !in first && AllWritable(entries)
    ensures var title := ClosingTitle(first, entries);
            Closes(title) && BeforeFence(Tail(title)) == WriteAll(entries) && Split(title, '\n')[0] == first
  {
    hide StartsWith, WriteAll, Relined, Split, Join, Writable, FenceFrom;
    WrittenAreLines(entries);
    OwnFence();
    var lines, fence := WriteAll(entries), ["---"];
    var all := [first] + lines + fence;
    assert '\n' !in "---";
    assert AreLines(all);
    RelinedIsReread(all);
    RelinedLines(all);
    assert all[1..] == lines + fence;
    FenceIsAt(lines + fence, 0, |lines|);
    assert (lines + fence)[..|lines|] == lines;
  }

  /** Such a title has the last word on every key: the scan reads its entries and nothing after them. */
  lemma ClosingTitleRules(id: Id, first: string, entries: seq<Entry>, dependsOn: seq<string>, text: seq<string>,
      key: string)
    requires var all := [Entry("id", id), Entry("title", first)] + entries; AllWritable(all) && DistinctKeys(all)
    ensures var found := Find([Entry("id", id), Entry("title", first)] + entries, key);
            Field(Relined(Stub(id, ClosingTitle(first, entries), dependsOn, text)), key)
            == if found.Some? then Some(Interpret(Trim(found.value))) else None
  {
    hide *;
    var title := ClosingTitle(first, entries);
    SomeAreWritable(id, first, entries);
    ClosingTitleLines(first, entries);
    StubIsReadAs(id, title, dependsOn, text);
    var ts, ls := Split(WriteEntry(Entry("title", title)), '\n'), Split(WriteList(dependsOn), '\n');
    ReadLinesAre(id, title, dependsOn, text);
    AssociateRest(OpeningLines(id) + ts, MiddleOfBlock(), ls, ["---", ""], Relined(text));
    ClosedStubBlock(id, title, MiddleOfBlock() + ls + ["---", ""] + Relined(text));
    ClosedBlockIs(id, title);
    WrittenTogether(id, first, entries);
    LookupWritten([Entry("id", id), Entry("title", first)] + entries, key);
    FieldOf(ReadLines(id, title, dependsOn, text), key);
  }

  lemma WrittenTogether(id: Id, first: string, entries: seq<Entry>)
    ensures WriteAll([Entry("id", id), Entry("title", first)] + entries)
            == [WriteEntry(Entry("id", id)), WriteEntry(Entry("title", first))] + WriteAll(entries)
  {
    hide WriteEntry;
    var all := [Entry("id", id), Entry("title", first)] + entries;
    assert all[1..] == [Entry("title", first)] + entries && all[1..][1..] == entries;
  }

  lemma SomeAreWritable(id: Id, first: string, entries: seq<Entry>)
    requires AllWritable([Entry("id", id), Entry("title", first)] + entries)
    ensures AllWritable(entries) && '\n' !in id && '\n' !in first
  {
    var all := [Entry("id", id), Entry("title", first)] + entries;
    assert Writable(all[0]) && Writable(all[1]);
    assert forall i :: 0 <= i < |entries| ==> entries[i] == all[i + 2];
    assert IsLineTerminator('\n');
    hide IsKey, StartsWith;
  }

  /** An allocated id can be written and reads as itself. */
  lemma IdIsPlain(n: nat)
    ensures OneLine(IdOf(n)) && PlainScalar(IdOf(n))
  {
    PaddingKeepsNumber(Decimal(n));
    var id, digits := IdOf(n), Pad3(Decimal(n));
    assert id == "TICKET-" + digits && id[0] == 'T' && Last(id) == Last(digits);
    assert IsDigit(Last(digits));
    assert |id| > 5;
    forall i | 0 <= i < |id|
      ensures !IsLineTerminator(id[i])
    {
      if i >= 7 {
        assert id[i] == digits[i - 7] && IsDigit(digits[i - 7]);
      }
    }
    assert |"true"| == 4 && |"false"| == 5;
  }

  const RELEASING: seq<Entry> :=
    [Entry("status", "planned"), Entry("spec", "a.md"), Entry("plan", "a.md"), Entry("loop", "true")]

  lemma ReleasingIsWritable(id: Id)
    requires OneLine(id)
    ensures var all := [Entry("id", id), Entry("title", "x")] + RELEASING; AllWritable(all) && DistinctKeys(all)
  {
    var all := [Entry("id", id), Entry("title", "x")] + RELEASING;
    assert |"id"| == 2 && |"title"| == 5 && |"status"| == 6;
    assert "spec"[0] == 's' && "plan"[0] == 'p' && "loop"[0] == 'l' && "status"[0] == 's' && "title"[0] == 't';
    assert |"spec"| == |"plan"| == |"loop"| == 4;
    hide StartsWith;
    forall e | e in all
      ensures Writable(e)
    {
      LetterLineIsNoFence(e.key);
    }
  }

  lemma FindOfCons(e: Entry, rest: seq<Entry>, key: string)
    ensures Find([e] + rest, key) == if e.key == key then Some(e.value) else Find(rest, key)
  {
    assert ([e] + rest)[1..] == rest;
  }

  lemma ReleasingSays(id: Id, key: string)
    ensures Find([Entry("id", id), Entry("title", "x")] + RELEASING, key) ==
            if key == "id" then Some(id) else if key == "title" then Some("x")
            else if key == "status" then Some("planned") else if key == "spec" then Some("a.md")
            else if key == "plan" then Some("a.md") else if key == "loop" then Some("true") else None
  {
    var loop, plan, spec := [Entry("loop", "true")], Entry("plan", "a.md"), Entry("spec", "a.md");
    assert RELEASING == [Entry("status", "planned")] + ([spec] + ([plan] + loop));
    assert loop + [] == loop;
    hide Find;
    FindOfCons(Entry("loop", "true"), [], key);
    NothingFound(key);
    FindOfCons(plan, loop, key);
    FindOfCons(spec, [plan] + loop, key);
    FindOfCons(Entry("status", "planned"), [spec] + ([plan] + loop), key);
    FindOfCons(Entry("title", "x"), RELEASING, key);
    FindOfCons(Entry("id", id), [Entry("title", "x")] + RELEASING, key);
    assert [Entry("id", id)] + ([Entry("title", "x")] + RELEASING)
           == [Entry("id", id), Entry("title", "x")] + RELEASING;
  }

  lemma NothingFound(key: string)
    ensures Find([], key) == None
  {
  }

  lemma ReleasingValues(n: nat)
    ensures Interpret(Trim(IdOf(n))) == Scalar(IdOf(n)) && Interpret(Trim("planned")) == Scalar("planned")
    ensures Interpret(Trim("a.md")) == Scalar("a.md") && Interpret(Trim("true")) == Flag(true)
    ensures Trim("planned") == "planned" && Trim("a.md") == "a.md"
  {
    IdIsPlain(n);
    assert PlainScalar("planned") by {
      assert |"planned"| == 7 && "planned"[0] == 'p' && Last("planned") == 'd' && |"true"| == 4 && |"false"| == 5;
    }
    assert PlainScalar("a.md") by {
      assert |"a.md"| == 4 && "a.md"[0] == 'a' && Last("a.md") == 'd' && "true"[0] == 't' && |"false"| == 5;
    }
    TrimmedStays("true");
    TrimmedStays("planned");
    TrimmedStays("a.md");
    hide PlainScalar, Trim, IdOf;
    PlainScalarReads(IdOf(n));
    PlainScalarReads("planned");
    PlainScalarReads("a.md");
  }

  /** What that title makes a scan read. */
  function ReleasedField(id: Id, key: string): Option<FmValue> {
    if key == "id" then Some(Scalar(id)) else if key == "title" then Some(Interpret(Trim("x")))
    else if key == "status" then Some(Scalar("planned"))
    else if key == "spec" || key == "plan" then Some(Scalar("a.md"))
    else if key == "loop" then Some(Flag(true)) else None
  }

  lemma ReleasedFields(id: Id)
    ensures ReleasedField(id, "id") == Some(Scalar(id)) && ReleasedField(id, "status") == Some(Scalar("planned"))
    ensures ReleasedField(id, "spec") == ReleasedField(id, "plan") == Some(Scalar("a.md"))
    ensures ReleasedField(id, "loop") == Some(Flag(true)) && ReleasedField(id, "depends-on") == None
  {
    assert |"id"| == 2 && |"title"| == 5 && |"status"| == 6 && |"depends-on"| == 10;
    assert "spec"[0] == 's' && "plan"[0] == 'p' && "loop"[0] == 'l' && |"spec"| == |"plan"| == |"loop"| == 4;
    hide Interpret, Trim;
  }

  lemma ReleasedReads(n: nat, dependsOn: seq<string>, text: seq<string>, key: string)
    ensures Field(Relined(Stub(IdOf(n), ClosingTitle("x", RELEASING), dependsOn, text)), key)
            == ReleasedField(IdOf(n), key)
  {
    hide IdOf, Interpret, Trim, Find, Field, Relined, Stub, ClosingTitle;
    hide AllWritable, DistinctKeys, PlainScalar, OneLine;
    IdIsPlain(n);
    ReleasingIsWritable(IdOf(n));
    ReleasingValues(n);
    ReleasingSays(IdOf(n), key);
    ClosingTitleRules(IdOf(n), "x", RELEASING, dependsOn, text, key);
  }

  /** A title that makes a stub loop-ready as soon as the file a.md is there. */
  lemma ReleasingTitleExample(n: nat, dependsOn: seq<string>, text: seq<string>)
    requires n <= 999
    ensures LoopReady(Relined(Stub(IdOf(n), ClosingTitle("x", RELEASING), dependsOn, text)), {"a.md"})
  {
    hide *;
    AllocatedIdIsScannableIff(n);
    ReleasingValues(n);
    forall key {
      ReleasedReads(n, dependsOn, text, key);
    }
    ReleasedFields(IdOf(n));
    FourLetters();
    ReadyWhen(Relined(Stub(IdOf(n), ClosingTitle("x", RELEASING), dependsOn, text)), IdOf(n), "a.md");
  }

  lemma FourLetters()
    ensures "a.md" != ""
  {
    assert |"a.md"| == 4;
  }

  lemma ReadyWhen(doc: Doc, id: Id, path: string)
    requires Field(doc, "id") == Some(Scalar(id)) && IsTicketId(id)
    requires Field(doc, "status") == Some(Scalar("planned")) && Trim("planned") == "planned"
    requires Field(doc, "loop") == Some(Flag(true)) && Field(doc, "depends-on") == None
    requires Field(doc, "spec") == Field(doc, "plan") == Some(Scalar(path)) && Trim(path) == path != ""
    ensures LoopReady(doc, {path})
  {
    hide Field, Trim, IsTicketId;
  }

  const RELEASING_NAME: string := "A]" + ['\n'] + ("loop: true" + ['\n'] + "")

  lemma ReleasingNameLines()
    ensures Tail(WriteList([RELEASING_NAME])) == ["loop: true", "]"]
  {
    var a, b := "depends-on: [A]", "loop: true";
    assert WriteList([RELEASING_NAME]) == a + ['\n'] + (b + ['\n'] + "]");
    assert '\n' !in a && '\n' !in b && '\n' !in "]";
    hide Split, WriteList;
    SplitFront(a, '\n', b + ['\n'] + "]");
    SplitFront(b, '\n', "]");
    SplitFront("]", '\n', "");
  }

  lemma BracketSaysNothing(key: string)
    ensures !IsEntryFor("]", key)
  {
    assert Trim("]") == "]" && KeyLength("]") == 0;
  }

  lemma NoFenceInTheName()
    ensures BeforeFence(["loop: true", "]"]) == ["loop: true", "]"]
  {
    LetterLineIsNoFence("loop: true");
    LetterLineIsNoFence("]");
    hide StartsWith;
    assert FenceFrom(["loop: true", "]"], 0) == 2;
  }

  lemma LoopEntry()
    ensures WriteEntry(Entry("loop", "true")) == "loop: true" && OneLine("true")
  {
  }

  lemma LoopTrueIsSaid()
    ensures Lookup(["loop: true", "]"], "loop") == Some(Flag(true))
  {
    hide *;
    var line := WriteEntry(Entry("loop", "true"));
    LoopEntry();
    BracketSaysNothing("loop");
    StubKeys();
    FlagOfTrue();
    EntryRoundTrip(Entry("loop", "true"));
    EntryIs(line, "loop");
    OneLineLookup("]", "loop");
    LookupCons(line, ["]"], "loop");
    assert [line] + ["]"] == ["loop: true", "]"];
  }

  lemma FlagOfTrue()
    ensures Interpret("true") == Flag(true) && Trim("true") == "true"
  {
    TrimmedStays("true");
  }

  /** A dependency that releases the stub, whatever its title of one line. */
  lemma ReleasingNameExample(id: Id, title: string, text: seq<string>)
    requires '\n' !in id && '\n' !in title
    ensures Field(Relined(Stub(id, title, [RELEASING_NAME], text)), "loop") == Some(Flag(true))
  {
    ReleasingNameLines();
    NoFenceInTheName();
    LoopTrueIsSaid();
    OneLineTail(title);
    assert !Closes(title);
    ExtraIs(title, [RELEASING_NAME]);
    hide Field, Lookup, Extra, Closes, Relined, Stub, BeforeFence, Tail, WriteList;
    StubFieldReads(id, title, [RELEASING_NAME], text, "loop");
  }
}
