/**
 * What the edits of a proposal come to (src/applyRefinement.ts), said of the edits, the tickets and the
 * tree alone: which record each edit gets, which numbers are used up, which stubs are created.
 */
module RefinementFates {
  import opened Prelude
  import opened Ids
  import opened TicketIds
  import opened TicketStubs
  import opened BacklogFiles
  import opened Frontmatters
  import opened Refinements
  import DependencyEdits
  import AcceptanceCriteria

  // ----- the ticket an edit is about -----

  /** The ticket has this id, and is sketched if that is asked for. */
  predicate Named(t: EpicTicket, id: Id, sketched: bool) {
    t.id == id && (sketched ==> t.sketched)
  }

  /** Ticket k is the only one so named. */
  predicate Only(tickets: seq<EpicTicket>, id: Id, sketched: bool, k: nat) {
    && k < |tickets| && Named(tickets[k], id, sketched)
    && forall j :: 0 <= j < |tickets| && Named(tickets[j], id, sketched) ==> j == k
  }

  function Matching(tickets: seq<EpicTicket>, id: Id, sketched: bool): seq<EpicTicket> {
    if sketched then WithId(Sketched(tickets), id) else WithId(tickets, id)
  }

  lemma MatchingSnoc(tickets: seq<EpicTicket>, id: Id, sketched: bool)
    requires tickets != []
    ensures Matching(tickets, id, sketched) ==
            Matching(Init(tickets), id, sketched)
            + (if Named(Last(tickets), id, sketched) then [Last(tickets)] else [])
  {
    assert Sketched(Init(tickets)) + [] == Sketched(Init(tickets));
    InitOfAppend(Sketched(Init(tickets)), Last(tickets));
    assert WithId(Sketched(Init(tickets)), id) + [] == WithId(Sketched(Init(tickets)), id);
  }

  lemma {:induction false} NoneMatches(tickets: seq<EpicTicket>, id: Id, sketched: bool)
    requires forall j :: 0 <= j < |tickets| ==> !Named(tickets[j], id, sketched)
    ensures Matching(tickets, id, sketched) == []
  {
    if tickets != [] {
      MatchingSnoc(tickets, id, sketched);
      assert forall j :: 0 <= j < |Init(tickets)| ==> Init(tickets)[j] == tickets[j];
      NoneMatches(Init(tickets), id, sketched);
      hide Matching, Named;
    }
  }

  lemma {:induction false} OneMatches(tickets: seq<EpicTicket>, id: Id, sketched: bool, k: nat)
    requires Only(tickets, id, sketched, k)
    ensures Matching(tickets, id, sketched) == [tickets[k]]
  {
    var before := Init(tickets);
    MatchingSnoc(tickets, id, sketched);
    hide Matching, Named;
    assert forall j :: 0 <= j < |before| ==> before[j] == tickets[j];
    if k == |tickets| - 1 {
      assert forall j :: 0 <= j < |before| ==> !Named(tickets[j], id, sketched);
      NoneMatches(before, id, sketched);
    } else {
      OneMatches(before, id, sketched, k);
    }
  }

  lemma {:induction false} TwoMatch(tickets: seq<EpicTicket>, id: Id, sketched: bool, j: nat, k: nat)
    requires j <= k < |tickets| && Named(tickets[j], id, sketched) && Named(tickets[k], id, sketched)
    ensures |Matching(tickets, id, sketched)| >= if j < k then 2 else 1
  {
    var before := Init(tickets);
    MatchingSnoc(tickets, id, sketched);
    hide Matching, Named;
    if k < |before| {
      assert before[j] == tickets[j] && before[k] == tickets[k];
      TwoMatch(before, id, sketched, j, k);
    } else if j < k {
      assert before[j] == tickets[j];
      TwoMatch(before, id, sketched, j, j);
    }
  }

  /** There is one match exactly if some ticket is the only one so named. */
  lemma OneIff(tickets: seq<EpicTicket>, id: Id, sketched: bool)
    ensures |Matching(tickets, id, sketched)| == 1 <==> exists k: nat :: Only(tickets, id, sketched, k)
    ensures forall k: nat :: Only(tickets, id, sketched, k) ==> Matching(tickets, id, sketched) == [tickets[k]]
  {
    forall k: nat | Only(tickets, id, sketched, k)
      ensures Matching(tickets, id, sketched) == [tickets[k]]
    {
      OneMatches(tickets, id, sketched, k);
    }
    if |Matching(tickets, id, sketched)| == 1 {
      if forall j :: 0 <= j < |tickets| ==> !Named(tickets[j], id, sketched) {
        NoneMatches(tickets, id, sketched);
      } else {
        var k: nat :| k < |tickets| && Named(tickets[k], id, sketched);
        forall j: nat | j < |tickets| && Named(tickets[j], id, sketched)
          ensures j == k
        {
          TwoMatch(tickets, id, sketched, if j < k then j else k, if j < k then k else j);
        }
        assert Only(tickets, id, sketched, k);
      }
    }
    hide Matching, Named;
  }

  // ----- the text of a file -----

  /** The edit is a safe one for the ticket at this path. */
  ghost predicate AimsAt(epic: Epic, e: Edit, p: Path) {
    && (e.AddDependency? || e.SharpenCriteria?)
    && exists k: nat :: Only(epic.tickets, e.ticketId, true, k) && epic.tickets[k].path == p
  }

  lemma AimsAtTarget(epic: Epic, e: Edit, p: Path)
    ensures AimsAt(epic, e, p) <==> TargetOf(epic, e) == Some(p)
  {
    if !e.Structural() {
      OneIff(epic.tickets, e.ticketId, true);
    }
    hide WithId, Sketched, Only;
  }

  function Edited(e: Edit, doc: Doc): (r: Doc)
    requires doc != []
    ensures r != []
  {
    match e
    case AddDependency(_, dep) => AddingKeepsLines(doc, dep); DependencyEdits.AddDependency(doc, dep)
    case SharpenCriteria(_, criteria) => AcceptanceCriteria.SharpenCriteria(doc, criteria)
    case _ => doc
  }

  /** The text of the file at p after these edits. */
  ghost function TextAfter(doc: Doc, epic: Epic, edits: seq<Edit>, p: Path): (r: Doc)
    requires doc != []
    ensures r != []
  {
    if edits == [] then doc
    else
      var text := TextAfter(doc, epic, Init(edits), p);
      if AimsAt(epic, Last(edits), p) then Edited(Last(edits), text) else text
  }

  lemma {:induction false} TextIsTransformed(doc: Doc, epic: Epic, edits: seq<Edit>, p: Path)
    requires doc != []
    ensures TextAfter(doc, epic, edits, p) == TransformAll(doc, EditsFor(epic, edits, p))
  {
    if edits != [] {
      var e, own := Last(edits), EditsFor(epic, Init(edits), p);
      TextIsTransformed(doc, epic, Init(edits), p);
      AimsAtTarget(epic, e, p);
      hide AimsAt, TargetOf, TransformAll, Edited, Transform, WithId, Sketched;
      if AimsAt(epic, e, p) {
        assert EditsFor(epic, edits, p) == own + [e] && e in EditsFor(epic, edits, p);
        TransformSnoc(doc, own, e);
        EditedIs(e, TransformAll(doc, own));
      } else {
        assert EditsFor(epic, edits, p) == own;
      }
    }
  }

  lemma {:induction false} EditsForSome(epic: Epic, edits: seq<Edit>, p: Path)
    ensures EditsFor(epic, edits, p) != [] <==> exists e :: e in edits && AimsAt(epic, e, p)
  {
    if edits != [] {
      EditsForSome(epic, Init(edits), p);
      AimsAtTarget(epic, Last(edits), p);
      assert edits == Init(edits) + [Last(edits)];
      hide AimsAt, TargetOf;
    }
  }

  lemma EditedIs(e: Edit, doc: Doc)
    requires doc != [] && !e.Structural()
    ensures Edited(e, doc) == Transform(e, doc)
  {
    hide DependencyEdits.AddDependency, AcceptanceCriteria.SharpenCriteria;
  }

  /** An existing, readable file ends as the edits that aim at it make it, and no other is touched. */
  lemma FileTextIs(before: Files, unreadable: set<Path>, epic: Epic, edits: seq<Edit>, runId: string, p: Path)
    requires Scanned(before, epic) && p in before && p !in unreadable
    ensures var d := Fold(before, unreadable, epic, edits, runId);
            && (p in d.files <==> exists e :: e in edits && AimsAt(epic, e, p))
            && (p in d.files ==> d.files[p].current == TextAfter(before[p], epic, edits, p))
  {
    FileIsItsEdits(before, unreadable, epic, edits, runId, p);
    TextIsTransformed(before[p], epic, edits, p);
    EditsForSome(epic, edits, p);
    hide Fold, TransformAll, EditsFor, AimsAt, TextAfter;
  }

  lemma {:induction false} UnreadableIsNeverLoaded(before: Files, unreadable: set<Path>, epic: Epic, edits: seq<Edit>,
      runId: string, p: Path)
    requires Scanned(before, epic) && p in before && p in unreadable
    ensures p !in Fold(before, unreadable, epic, edits, runId).files
  {
    if edits != [] {
      var d, e := Fold(before, unreadable, epic, Init(edits), runId), Last(edits);
      UnreadableIsNeverLoaded(before, unreadable, epic, Init(edits), runId, p);
      FoldUnfolds(before, unreadable, epic, edits, runId, p);
      if e.Structural() {
        StructuralElsewhere(before, unreadable, epic, d, e, runId, p);
      } else {
        EditStepIs(before, unreadable, epic, d, e, runId);
        hide Fold, EditStep, WithId, Sketched, Transform;
      }
      hide Fold, EditStep;
    }
  }

  // ----- the records -----

  /** How many numbers an edit used up: a stub whose name is taken uses its number all the same. */
  function Used(e: Edit, f: Fate): nat {
    match f
    case Done(_, ids) => |ids|
    case Skipped(_, reason) => if !reason.IdCollision? then 0 else if e.SplitTicket? then |e.into| else 1
  }

  function UsedBy(edits: seq<Edit>, fates: seq<Fate>): nat
    requires |edits| == |fates|
  {
    if edits == [] then 0 else UsedBy(Init(edits), Init(fates)) + Used(Last(edits), Last(fates))
  }

  /** The structural edits applied. */
  function Structurals(edits: seq<Edit>, fates: seq<Fate>): nat
    requires |edits| == |fates|
  {
    if edits == [] then 0
    else
      Structurals(Init(edits), Init(fates))
      + (if (Last(edits).DeriveTicket? || Last(edits).SplitTicket?) && Last(fates).Done? then 1 else 0)
  }

  /** The next free number after these edits. */
  function NextNumber(epic: Epic, edits: seq<Edit>, fates: seq<Fate>): nat
    requires |edits| == |fates|
  {
    MaxNumber(IdsIn(epic.tickets)) + UsedBy(edits, fates) + 1
  }

  /** The ids from number n on. */
  function IdsFrom(n: nat, count: nat): seq<Id> {
    seq(count, j requires 0 <= j < count => IdOf(n + j))
  }

  /** The file name of some child, numbered from n on, is taken. */
  predicate SomeNameTaken(before: Files, dir: string, into: seq<Child>, n: nat) {
    exists j :: 0 <= j < |into| && StubPath(dir, IdOf(n + j), Slug(into[j].title, "split-ticket")) in before
  }

  ghost predicate Known(epic: Epic, id: Id) {
    exists k: nat :: Only(epic.tickets, id, false, k)
  }

  /** The record of an edit, after these edits with these records. */
  ghost predicate FateIs(before: Files, unreadable: set<Path>, epic: Epic, edits: seq<Edit>, fates: seq<Fate>, e: Edit,
      f: Fate)
    requires |edits| == |fates| && Scanned(before, epic)
  {
    var n := NextNumber(epic, edits, fates);
    match e
    case DeriveTicket(title, _, _) =>
      f == (if Structurals(edits, fates) >= 2 then Skipped("(new) " + title, StructuralCap)
            else if epic.tickets == [] then Skipped("(new) " + title, UnknownTicket)
            else if StubPath(epic.dir, IdOf(n), Slug(title, "derived-ticket")) in before then
              Skipped(IdOf(n), IdCollision)
            else Done(IdOf(n), [IdOf(n)]))
    case SplitTicket(id, into) =>
      f == (if Structurals(edits, fates) >= 2 then Skipped(id, StructuralCap)
            else if !Known(epic, id) then Skipped(id, UnknownTicket)
            else if SomeNameTaken(before, epic.dir, into, n) then Skipped(id, IdCollision)
            else Done(id, IdsFrom(n, |into|)))
    case _ =>
      if exists k: nat :: Only(epic.tickets, e.ticketId, true, k) then
        var k: nat :| Only(epic.tickets, e.ticketId, true, k);
        var p := epic.tickets[k].path;
        assert epic.tickets[k] in epic.tickets;
        var text := TextAfter(before[p], epic, edits, p);
        f == (if p in unreadable then Skipped(e.ticketId, ReadFailed)
              else if Edited(e, text) == text then Skipped(e.ticketId, Noop)
              else Done(e.ticketId, []))
      else f == Skipped(e.ticketId, UnknownTicket)
  }

  ghost predicate FatesAre(before: Files, unreadable: set<Path>, epic: Epic, edits: seq<Edit>, fates: seq<Fate>)
    requires Scanned(before, epic)
  {
    && |fates| == |edits|
    && (edits != [] ==>
          && FatesAre(before, unreadable, epic, Init(edits), Init(fates))
          && FateIs(before, unreadable, epic, Init(edits), Init(fates), Last(edits), Last(fates)))
  }

  lemma {:induction false} StructuralsAre(edits: seq<Edit>, fates: seq<Fate>)
    requires |edits| == |fates|
    ensures Structurals(edits, fates) == StructuralDone(edits, fates)
  {
    if edits != [] {
      StructuralsAre(Init(edits), Init(fates));
    }
  }

  lemma DeriveUses(before: Files, epic: Epic, d: Draft, e: Edit, runId: string)
    requires e.DeriveTicket?
    ensures var r := DeriveStep(before, epic, d, e, runId);
            && r.fates != [] && r.fates == d.fates + [Last(r.fates)] && r.issued == d.issued + Used(e, Last(r.fates))
  {
    hide StubPath, Stub, IdOf, StubText, Slug, NextIds, TopNumber;
  }

  lemma SplitUses(before: Files, epic: Epic, d: Draft, e: Edit, runId: string)
    requires e.SplitTicket?
    ensures var r := SplitStep(before, epic, d, e, runId);
            && r.fates != [] && r.fates == d.fates + [Last(r.fates)] && r.issued == d.issued + Used(e, Last(r.fates))
  {
    hide StubPath, Stub, IdOf, StubText, Slug, NextIds, Children, AddStubs, WithId, TopNumber;
  }

  lemma SafeUses(before: Files, unreadable: set<Path>, epic: Epic, d: Draft, e: Edit)
    requires Scanned(before, epic) && !e.Structural()
    ensures var r := SafeStep(before, unreadable, epic, d, e);
            && r.fates != [] && r.fates == d.fates + [Last(r.fates)] && r.issued == d.issued + Used(e, Last(r.fates))
  {
    hide Transform, WithId, Sketched, Load;
  }

  lemma StepUses(before: Files, unreadable: set<Path>, epic: Epic, d: Draft, e: Edit, runId: string)
    requires Scanned(before, epic)
    ensures var r := EditStep(before, unreadable, epic, d, e, runId);
            && r.fates != [] && Init(r.fates) == d.fates && r.issued == d.issued + Used(e, Last(r.fates))
  {
    if e.DeriveTicket? {
      DeriveUses(before, epic, d, e, runId);
    } else if e.SplitTicket? {
      SplitUses(before, epic, d, e, runId);
    } else {
      SafeUses(before, unreadable, epic, d, e);
    }
    hide DeriveStep, SplitStep, SafeStep;
    InitOfAppend(d.fates, Last(EditStep(before, unreadable, epic, d, e, runId).fates));
  }

  /** Numbers are used up one after the other, and the cap counts what was applied. */
  lemma {:induction false} CountersAre(before: Files, unreadable: set<Path>, epic: Epic, edits: seq<Edit>,
      runId: string)
    requires Scanned(before, epic)
    ensures var d := Fold(before, unreadable, epic, edits, runId);
            && |d.fates| == |edits|
            && d.issued == UsedBy(edits, d.fates) && d.structural == Structurals(edits, d.fates)
  {
    FoldKeeps(before, unreadable, epic, edits, runId);
    var d := Fold(before, unreadable, epic, edits, runId);
    assert |d.fates| == |edits| && d.structural == StructuralDone(edits, d.fates);
    StructuralsAre(edits, d.fates);
    if edits != [] {
      CountersAre(before, unreadable, epic, Init(edits), runId);
      StepUses(before, unreadable, epic, Fold(before, unreadable, epic, Init(edits), runId), Last(edits), runId);
      hide EditStep, FoldOk;
    }
  }

  lemma DeriveFate(before: Files, unreadable: set<Path>, epic: Epic, edits: seq<Edit>, e: Edit, runId: string)
    requires Scanned(before, epic) && e.DeriveTicket?
    ensures var d := Fold(before, unreadable, epic, edits, runId);
            var r := EditStep(before, unreadable, epic, d, e, runId);
            |d.fates| == |edits| && r.fates != []
            && FateIs(before, unreadable, epic, edits, d.fates, e, Last(r.fates))
  {
    var d := Fold(before, unreadable, epic, edits, runId);
    CountersAre(before, unreadable, epic, edits, runId);
    NextId(epic, d, 1, 0);
    hide Fold, StubPath, Stub, IdOf, StubText, Slug, UsedBy, Structurals, AllocateTicketIds;
  }

  lemma SplitFate(before: Files, unreadable: set<Path>, epic: Epic, edits: seq<Edit>, e: Edit, runId: string)
    requires Scanned(before, epic) && e.SplitTicket?
    ensures var d := Fold(before, unreadable, epic, edits, runId);
            var r := EditStep(before, unreadable, epic, d, e, runId);
            |d.fates| == |edits| && r.fates != []
            && FateIs(before, unreadable, epic, edits, d.fates, e, Last(r.fates))
  {
    hide Fold, StubPath, IdOf, Slug, UsedBy, Structurals, SplitStep, MaxNumber, Only, Known, SomeNameTaken, IdsFrom;
    hide DeriveStep, SafeStep, Edited, TextAfter, Children, AddStubs, NextIds;
    var d := Fold(before, unreadable, epic, edits, runId);
    CountersAre(before, unreadable, epic, edits, runId);
    NoTickets(epic, e.ticketId);
    SplitRecord(before, epic, d, e, runId);
  }

  lemma NoTickets(epic: Epic, id: Id)
    ensures epic.tickets == [] ==> !Known(epic, id)
  {
  }

  lemma SplitRecord(before: Files, epic: Epic, d: Draft, e: Edit, runId: string)
    requires e.SplitTicket?
    ensures var r, n := SplitStep(before, epic, d, e, runId), MaxNumber(IdsIn(epic.tickets)) + d.issued + 1;
            && r.fates != []
            && Last(r.fates) == if !Known(epic, e.ticketId) then Skipped(e.ticketId, UnknownTicket)
                 else if SomeNameTaken(before, epic.dir, e.into, n) then Skipped(e.ticketId, IdCollision)
                 else Done(e.ticketId, IdsFrom(n, |e.into|))
  {
    hide StubPath, Stub, IdOf, StubText, Slug, NextIds, Children, WithId, AddStubs, MaxNumber, Only, Made.Path, IdsFrom;
    KnownIff(epic, e.ticketId);
    var sources := WithId(epic.tickets, e.ticketId);
    if |sources| == 1 {
      ChildrenAre(epic, d, sources[0], e.into, runId);
      NumbersAre(epic, d, |e.into|);
    }
    hide Known;
  }

  lemma KnownIff(epic: Epic, id: Id)
    ensures Known(epic, id) <==> |WithId(epic.tickets, id)| == 1
  {
    hide Only, WithId, Sketched;
    OneIff(epic.tickets, id, false);
  }

  lemma ChildrenAre(epic: Epic, d: Draft, source: EpicTicket, into: seq<Child>, runId: string)
    ensures var made, n := Children(epic, d, source, into, runId), MaxNumber(IdsIn(epic.tickets)) + d.issued + 1;
            && |made| == |into|
            && forall j :: 0 <= j < |into| ==>
                 && made[j] == Made(n + j, Slug(into[j].title, "split-ticket"), into[j].title, source.dependsOn,
                                    StubText(IdOf(n + j), into[j].title, into[j].rationale, runId))
                 && made[j].Path(epic.dir) == StubPath(epic.dir, IdOf(n + j), Slug(into[j].title, "split-ticket"))
  {
    hide StubPath, Stub, IdOf, StubText, Slug, MaxNumber;
  }

  lemma NumbersAre(epic: Epic, d: Draft, n: nat)
    ensures NextIds(epic, d, n) == IdsFrom(MaxNumber(IdsIn(epic.tickets)) + d.issued + 1, n)
  {
    hide IdOf, MaxNumber, AllocateTicketIds;
    forall j | 0 <= j < n
      ensures NextIds(epic, d, n)[j] == IdOf(MaxNumber(IdsIn(epic.tickets)) + d.issued + 1 + j)
    {
      NextId(epic, d, n, j);
    }
  }

  lemma SafeFate(before: Files, unreadable: set<Path>, epic: Epic, edits: seq<Edit>, e: Edit, runId: string)
    requires Scanned(before, epic) && !e.Structural()
    ensures var d := Fold(before, unreadable, epic, edits, runId);
            var r := EditStep(before, unreadable, epic, d, e, runId);
            |d.fates| == |edits| && r.fates != []
            && FateIs(before, unreadable, epic, edits, d.fates, e, Last(r.fates))
  {
    hide Fold, TextAfter, Transform, Edited, WithId, Sketched, UsedBy, Structurals, MaxNumber, DeriveStep, SplitStep;
    hide Known, SomeNameTaken, IdsFrom, Load;
    var d := Fold(before, unreadable, epic, edits, runId);
    CountersAre(before, unreadable, epic, edits, runId);
    SketchedIff(epic, e.ticketId);
    if exists k: nat :: Only(epic.tickets, e.ticketId, true, k) {
      var k: nat :| Only(epic.tickets, e.ticketId, true, k);
      SafeRecord(before, unreadable, epic, edits, d, e, k, runId);
      assert forall j: nat :: Only(epic.tickets, e.ticketId, true, j) ==> j == k;
    }
  }

  lemma SketchedIff(epic: Epic, id: Id)
    ensures |WithId(Sketched(epic.tickets), id)| == 1 <==> exists k: nat :: Only(epic.tickets, id, true, k)
    ensures forall k: nat :: Only(epic.tickets, id, true, k) ==>
              WithId(Sketched(epic.tickets), id) == [epic.tickets[k]]
  {
    hide Only, WithId, Sketched;
    OneIff(epic.tickets, id, true);
  }

  lemma SafeRecord(before: Files, unreadable: set<Path>, epic: Epic, edits: seq<Edit>, d: Draft, e: Edit, k: nat,
      runId: string)
    requires Scanned(before, epic) && !e.Structural() && d == Fold(before, unreadable, epic, edits, runId)
    requires k < |epic.tickets| && WithId(Sketched(epic.tickets), e.ticketId) == [epic.tickets[k]]
    ensures epic.tickets[k] in epic.tickets
    ensures var r, p := SafeStep(before, unreadable, epic, d, e), epic.tickets[k].path;
            var text := TextAfter(before[p], epic, edits, p);
            && r.fates != []
            && Last(r.fates) == if p in unreadable then Skipped(e.ticketId, ReadFailed)
                 else if Edited(e, text) == text then Skipped(e.ticketId, Noop)
                 else Done(e.ticketId, [])
  {
    var p := epic.tickets[k].path;
    assert epic.tickets[k] in epic.tickets && p in before;
    if p in unreadable {
      UnreadableIsNeverLoaded(before, unreadable, epic, edits, runId, p);
    } else {
      TextLoaded(before, unreadable, epic, edits, runId, p);
      EditedIs(e, TextAfter(before[p], epic, edits, p));
    }
    hide Fold, TextAfter, Transform, Edited, WithId, Sketched, Only;
  }

  /** What a safe edit loads is the text as edited so far. */
  lemma TextLoaded(before: Files, unreadable: set<Path>, epic: Epic, edits: seq<Edit>, runId: string, p: Path)
    requires Scanned(before, epic) && p in before && p !in unreadable
    ensures var st := Load(before, unreadable, Fold(before, unreadable, epic, edits, runId), p);
            st.Some? && st.value.current == TextAfter(before[p], epic, edits, p)
  {
    FileTextIs(before, unreadable, epic, edits, runId, p);
    if forall e :: e in edits ==> !AimsAt(epic, e, p) {
      Untouched(before[p], epic, edits, p);
    }
    hide Fold, TextAfter, AimsAt;
  }

  lemma {:induction false} Untouched(doc: Doc, epic: Epic, edits: seq<Edit>, p: Path)
    requires doc != [] && forall e :: e in edits ==> !AimsAt(epic, e, p)
    ensures TextAfter(doc, epic, edits, p) == doc
  {
    if edits != [] {
      assert Last(edits) in edits;
      assert forall e :: e in Init(edits) ==> e in edits;
      Untouched(doc, epic, Init(edits), p);
    }
  }

  /** Every edit gets the record these rules give it. */
  lemma {:induction false} EveryFate(before: Files, unreadable: set<Path>, epic: Epic, edits: seq<Edit>, runId: string)
    requires Scanned(before, epic)
    ensures FatesAre(before, unreadable, epic, edits, Fold(before, unreadable, epic, edits, runId).fates)
  {
    if edits != [] {
      var d, e := Fold(before, unreadable, epic, Init(edits), runId), Last(edits);
      EveryFate(before, unreadable, epic, Init(edits), runId);
      CountersAre(before, unreadable, epic, edits, runId);
      StepUses(before, unreadable, epic, d, e, runId);
      if e.DeriveTicket? {
        DeriveFate(before, unreadable, epic, Init(edits), e, runId);
      } else if e.SplitTicket? {
        SplitFate(before, unreadable, epic, Init(edits), e, runId);
      } else {
        SafeFate(before, unreadable, epic, Init(edits), e, runId);
      }
      hide EditStep, FateIs;
    }
  }

  // ----- the stubs -----

  /** What the one ticket of this id depends on. */
  ghost function DependsOn(epic: Epic, id: Id): seq<string> {
    if Known(epic, id) then
      var k: nat :| Only(epic.tickets, id, false, k);
      epic.tickets[k].dependsOn
    else []
  }

  function ChildStub(child: Child, dependsOn: seq<string>, n: nat, runId: string): Made {
    Made(n, Slug(child.title, "split-ticket"), child.title, dependsOn,
         StubText(IdOf(n), child.title, child.rationale, runId))
  }

  /** The stubs an applied edit creates, numbered from n on. */
  ghost function StubsOf(epic: Epic, e: Edit, n: nat, runId: string): seq<Made> {
    match e
    case DeriveTicket(title, rationale, dependencies) =>
      [Made(n, Slug(title, "derived-ticket"), title, dependencies, StubText(IdOf(n), title, rationale, runId))]
    case SplitTicket(id, into) =>
      seq(|into|, j requires 0 <= j < |into| => ChildStub(into[j], DependsOn(epic, id), n + j, runId))
    case _ => []
  }

  /** A derived ticket is one stub; a split one has a stub for each child, which depends on what it depended on. */
  ghost function StubsBy(epic: Epic, edits: seq<Edit>, fates: seq<Fate>, runId: string): seq<Made>
    requires |edits| == |fates|
  {
    if edits == [] then []
    else
      StubsBy(epic, Init(edits), Init(fates), runId)
      + (if Last(fates).Done? then StubsOf(epic, Last(edits), NextNumber(epic, Init(edits), Init(fates)), runId)
         else [])
  }

  lemma DeriveMakes(before: Files, epic: Epic, d: Draft, e: Edit, runId: string)
    requires e.DeriveTicket?
    ensures var r, n := DeriveStep(before, epic, d, e, runId), MaxNumber(IdsIn(epic.tickets)) + d.issued + 1;
            r.fates != [] && r.made == d.made + if Last(r.fates).Done? then StubsOf(epic, e, n, runId) else []
  {
    hide StubPath, Stub, IdOf, StubText, Slug, MaxNumber, AllocateTicketIds;
    NextId(epic, d, 1, 0);
  }

  lemma SplitMakes(before: Files, epic: Epic, d: Draft, e: Edit, runId: string)
    requires e.SplitTicket?
    ensures var r, n := SplitStep(before, epic, d, e, runId), MaxNumber(IdsIn(epic.tickets)) + d.issued + 1;
            r.fates != [] && r.made == d.made + if Last(r.fates).Done? then StubsOf(epic, e, n, runId) else []
  {
    hide StubPath, Stub, IdOf, StubText, Slug, NextIds, Children, WithId, AddStubs, MaxNumber, Only, Made.Path, Known;
    hide DependsOn;
    KnownIff(epic, e.ticketId);
    var sources := WithId(epic.tickets, e.ticketId);
    if |sources| == 1 {
      SourceIs(epic, e.ticketId);
      ChildrenAre(epic, d, sources[0], e.into, runId);
      assert Children(epic, d, sources[0], e.into, runId)
             == StubsOf(epic, e, MaxNumber(IdsIn(epic.tickets)) + d.issued + 1, runId);
    }
  }

  lemma SourceIs(epic: Epic, id: Id)
    requires |WithId(epic.tickets, id)| == 1
    ensures DependsOn(epic, id) == WithId(epic.tickets, id)[0].dependsOn
  {
    hide WithId, Sketched;
    OneIff(epic.tickets, id, false);
    assert Known(epic, id);
  }

  lemma SafeMakes(before: Files, unreadable: set<Path>, epic: Epic, d: Draft, e: Edit)
    requires Scanned(before, epic) && !e.Structural()
    ensures SafeStep(before, unreadable, epic, d, e).made == d.made
  {
    hide Transform, WithId, Sketched, Load;
  }

  /** The stubs made are those of the edits applied. */
  lemma {:induction false} StubsAre(before: Files, unreadable: set<Path>, epic: Epic, edits: seq<Edit>, runId: string)
    requires Scanned(before, epic)
    ensures var d := Fold(before, unreadable, epic, edits, runId);
            |d.fates| == |edits| && d.made == StubsBy(epic, edits, d.fates, runId)
  {
    hide DeriveStep, SplitStep, SafeStep, UsedBy, Structurals, MaxNumber, StubsOf;
    CountersAre(before, unreadable, epic, edits, runId);
    if edits != [] {
      var d, e := Fold(before, unreadable, epic, Init(edits), runId), Last(edits);
      StubsAre(before, unreadable, epic, Init(edits), runId);
      CountersAre(before, unreadable, epic, Init(edits), runId);
      StepUses(before, unreadable, epic, d, e, runId);
      StepMakes(before, unreadable, epic, d, e, runId);
    }
  }

  lemma StepMakes(before: Files, unreadable: set<Path>, epic: Epic, d: Draft, e: Edit, runId: string)
    requires Scanned(before, epic)
    ensures var r := EditStep(before, unreadable, epic, d, e, runId);
            var n := MaxNumber(IdsIn(epic.tickets)) + d.issued + 1;
            r.fates != [] && r.made == d.made + if Last(r.fates).Done? then StubsOf(epic, e, n, runId) else []
  {
    hide DeriveStep, SplitStep, SafeStep, MaxNumber;
    StepUses(before, unreadable, epic, d, e, runId);
    if e.DeriveTicket? {
      DeriveMakes(before, epic, d, e, runId);
    } else if e.SplitTicket? {
      SplitMakes(before, epic, d, e, runId);
    } else {
      SafeMakes(before, unreadable, epic, d, e);
    }
    assert d.made + [] == d.made;
  }

  // ----- the events -----

  /** The records are split into the skipped and the applied ones, nothing lost. */
  lemma {:induction false} RecordsAreSplit(fates: seq<Fate>)
    ensures forall f :: f in SkippedOf(fates) <==> f in fates && f.Skipped?
    ensures forall f :: f in AppliedOf(fates) <==> f in fates && f.Done?
    ensures |SkippedOf(fates)| + |AppliedOf(fates)| == |fates|
  {
    if fates != [] {
      RecordsAreSplit(Init(fates));
      assert fates == Init(fates) + [Last(fates)];
    }
  }

  /** Skips are told record by record, and so is what was applied. */
  lemma {:induction false} SkipsAreTold(fates: seq<Fate>)
    ensures |SkipEvents(fates)| == |SkippedOf(fates)|
    ensures forall i :: 0 <= i < |SkippedOf(fates)| ==> SkipEvents(fates)[i] == EditSkipped(SkippedOf(fates)[i])
  {
    if fates != [] {
      SkipsAreTold(Init(fates));
    }
  }

  lemma {:induction false} AppliedAreTold(fates: seq<Fate>)
    ensures |AppliedEvents(fates)| == |AppliedOf(fates)|
    ensures forall i :: 0 <= i < |AppliedOf(fates)| ==> AppliedEvents(fates)[i] == EditApplied(AppliedOf(fates)[i])
  {
    if fates != [] {
      AppliedAreTold(Init(fates));
    }
  }

  /** Wiring into the epic is asked for exactly for the structural edits applied. */
  lemma {:induction false} WiringIsAskedFor(edits: seq<Edit>, fates: seq<Fate>)
    requires |edits| == |fates|
    ensures |TriageEvents(edits, fates)| == Structurals(edits, fates)
    ensures forall about, ids :: NeedsEpicWiring(about, ids) in TriageEvents(edits, fates) <==>
              exists i :: 0 <= i < |edits| && (edits[i].DeriveTicket? || edits[i].SplitTicket?)
                          && fates[i] == Done(about, ids)
  {
    if edits != [] {
      var before, said, n := Init(edits), Init(fates), |edits| - 1;
      WiringIsAskedFor(before, said);
      assert forall i :: 0 <= i < n ==> before[i] == edits[i] && said[i] == fates[i];
    }
  }
}
