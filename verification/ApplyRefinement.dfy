/**
 * Applying a refinement proposal to the backlog (runApplyRefinement in src/applyRefinement.ts):
 * the gates, the fold of the edits into per-file changes, and one write-and-commit at the end.
 */
module Refinements {
  import opened Prelude
  import opened Ids
  import opened Text
  import opened Frontmatters
  import opened TicketIds
  import opened TicketStubs
  import opened BacklogFiles
  import DependencyEdits
  import AcceptanceCriteria
  import LoopStates
  import RunStates
  import Budgets
  import MergeGates

  const STRUCTURAL_CAP: nat := 2

  datatype Child = Child(title: string, rationale: seq<string>)

  datatype Edit =
    | AddDependency(ticketId: Id, dependsOn: string)
    | SharpenCriteria(ticketId: Id, criteria: seq<string>)
    | DeriveTicket(title: string, rationale: seq<string>, dependencies: seq<string>)
    | SplitTicket(ticketId: Id, into: seq<Child>)
  {
    predicate Structural() {
      DeriveTicket? || SplitTicket?
    }

    /** The label of a skipped record. */
    function Label(): string {
      if DeriveTicket? then "(new) " + title else ticketId
    }
  }

  /** A ticket of the epic as the scan found it. */
  datatype EpicTicket = EpicTicket(id: Id, path: Path, sketched: bool, dependsOn: seq<string>)

  /** The epic's tickets, and the directory its first ticket stands in. */
  datatype Epic = Epic(tickets: seq<EpicTicket>, dir: string)

  datatype SkipReason = StructuralCap | UnknownTicket | IdCollision | ReadFailed | Noop

  /** What became of one edit: applied (with the ids it created) or skipped. */
  datatype Fate = Done(about: string, ids: seq<Id>) | Skipped(about: string, reason: SkipReason)

  datatype FileState = FileState(original: Option<Doc>, current: Doc)

  /** A stub to be created. */
  datatype Made = Made(number: nat, slug: string, title: string, dependsOn: seq<string>, text: seq<string>)
  {
    function Path(dir: string): Path {
      StubPath(dir, IdOf(number), slug)
    }

    /** The file as the next reader finds it. */
    function Content(): (r: Doc)
      ensures r != []
    {
      Relined(Stub(IdOf(number), title, dependsOn, text))
    }
  }

  /** The edits folded so far. */
  datatype Draft = Draft(
    files: map<Path, FileState>,
    order: seq<Path>,
    fates: seq<Fate>,
    issued: nat,
    structural: nat,
    made: seq<Made>)

  function IdsIn(tickets: seq<EpicTicket>): (ids: seq<Id>)
    ensures |ids| == |tickets| && forall i :: 0 <= i < |tickets| ==> ids[i] == tickets[i].id
  {
    seq(|tickets|, i requires 0 <= i < |tickets| => tickets[i].id)
  }

  function TopNumber(epic: Epic): nat {
    MaxNumber(IdsIn(epic.tickets))
  }

  /** A file's state is set in place, or the file joins at the end. */
  function SetFile(d: Draft, p: Path, st: FileState): Draft {
    d.(files := d.files[p := st], order := if p in d.files then d.order else d.order + [p])
  }

  // ----- what every fold keeps -----

  ghost predicate Tracks(d: Draft) {
    Distinct(d.order) && forall p :: p in d.files <==> p in d.order
  }

  /** Each file remembers what the tree held. */
  ghost predicate Remembers(before: Files, d: Draft) {
    forall p :: p in d.files ==> d.files[p].original == Get(before, p) && d.files[p].current != []
  }

  /** The stubs made: numbered upwards past every number in use, each in its own new file. */
  ghost predicate MadeOk(epic: Epic, d: Draft) {
    && (forall k :: 0 <= k < |d.made| ==>
          && TopNumber(epic) < d.made[k].number <= TopNumber(epic) + d.issued
          && d.made[k].Path(epic.dir) in d.files
          && d.files[d.made[k].Path(epic.dir)] == FileState(None, d.made[k].Content()))
    && (forall j, k :: 0 <= j < k < |d.made| ==> d.made[j].number < d.made[k].number)
  }

  predicate IsStubPath(epic: Epic, made: seq<Made>, p: Path) {
    exists k :: 0 <= k < |made| && made[k].Path(epic.dir) == p
  }

  /** No file is created but the stubs made. */
  ghost predicate OnlyStubs(before: Files, epic: Epic, d: Draft) {
    forall p :: p in d.files && p !in before ==> IsStubPath(epic, d.made, p)
  }

  ghost predicate FilesOk(before: Files, epic: Epic, d: Draft) {
    Tracks(d) && Remembers(before, d) && MadeOk(epic, d) && OnlyStubs(before, epic, d)
  }

  function AddStub(d: Draft, m: Made, dir: string): Draft {
    SetFile(d, m.Path(dir), FileState(None, m.Content())).(made := d.made + [m])
  }

  /** A new number makes a new file. */
  lemma StubIsNewFile(before: Files, epic: Epic, d: Draft, m: Made)
    requires FilesOk(before, epic, d) && m.Path(epic.dir) !in before
    requires forall k :: 0 <= k < |d.made| ==> d.made[k].number < m.number
    ensures m.Path(epic.dir) !in d.files
  {
    forall k | 0 <= k < |d.made|
      ensures d.made[k].Path(epic.dir) != m.Path(epic.dir)
    {
      if d.made[k].Path(epic.dir) == m.Path(epic.dir) {
        PathTellsTheTicket(epic.dir, d.made[k].number, m.number, d.made[k].slug, m.slug);
      }
    }
  }

  lemma AddStubMade(epic: Epic, d: Draft, m: Made)
    requires MadeOk(epic, d) && m.Path(epic.dir) !in d.files
    requires forall k :: 0 <= k < |d.made| ==> d.made[k].number < m.number
    requires TopNumber(epic) < m.number <= TopNumber(epic) + d.issued
    ensures MadeOk(epic, AddStub(d, m, epic.dir))
  {
    var r := AddStub(d, m, epic.dir);
    hide StubPath, Stub, MaxNumber, IdOf;
    forall k | 0 <= k < |r.made|
      ensures r.made[k].Path(epic.dir) in r.files
              && r.files[r.made[k].Path(epic.dir)] == FileState(None, r.made[k].Content())
    {
      if k < |d.made| {
        assert r.made[k] == d.made[k];
      }
    }
  }

  lemma AddStubOnly(before: Files, epic: Epic, d: Draft, m: Made)
    requires OnlyStubs(before, epic, d)
    ensures OnlyStubs(before, epic, AddStub(d, m, epic.dir))
  {
    var r := AddStub(d, m, epic.dir);
    hide StubPath, Stub, IdOf;
    forall q | q in r.files && q !in before
      ensures IsStubPath(epic, r.made, q)
    {
      if q == m.Path(epic.dir) {
        assert r.made[|d.made|] == m;
      } else {
        var k :| 0 <= k < |d.made| && d.made[k].Path(epic.dir) == q;
        assert r.made[k] == d.made[k];
      }
    }
  }

  lemma AddStubOk(before: Files, epic: Epic, d: Draft, m: Made)
    requires FilesOk(before, epic, d) && m.Path(epic.dir) !in before
    requires forall k :: 0 <= k < |d.made| ==> d.made[k].number < m.number
    requires TopNumber(epic) < m.number <= TopNumber(epic) + d.issued
    ensures FilesOk(before, epic, AddStub(d, m, epic.dir))
  {
    StubIsNewFile(before, epic, d, m);
    AddStubMade(epic, d, m);
    AddStubOnly(before, epic, d, m);
    hide MadeOk, OnlyStubs, StubPath, Stub, IdOf, TopNumber;
  }

  /** Editing or reading an existing file keeps everything. */
  lemma SetExistingOk(before: Files, epic: Epic, d: Draft, p: Path, st: FileState)
    requires FilesOk(before, epic, d) && p in before && st.original == Some(before[p]) && st.current != []
    ensures FilesOk(before, epic, SetFile(d, p, st))
  {
    var r := SetFile(d, p, st);
    hide StubPath, Stub, MaxNumber;
    forall k | 0 <= k < |d.made|
      ensures d.made[k].Path(epic.dir) != p
    {
      assert d.files[d.made[k].Path(epic.dir)].original == None;
    }
  }

  /** Later allocation leaves room. */
  lemma AllocateOk(before: Files, epic: Epic, d: Draft, n: nat)
    requires FilesOk(before, epic, d)
    ensures FilesOk(before, epic, d.(issued := d.issued + n))
    ensures forall k :: 0 <= k < |d.made| ==> d.made[k].number <= TopNumber(epic) + d.issued
  {
    hide StubPath, Stub, MaxNumber;
  }

  // ----- one edit -----

  function IsDone(e: Edit, f: Fate): nat {
    if e.Structural() && f.Done? then 1 else 0
  }

  function StructuralDone(edits: seq<Edit>, fates: seq<Fate>): nat
    requires |edits| == |fates|
  {
    if edits == [] then 0 else StructuralDone(Init(edits), Init(fates)) + IsDone(Last(edits), Last(fates))
  }

  function IdsCreated(fates: seq<Fate>): seq<Id> {
    if fates == [] then []
    else IdsCreated(Init(fates)) + (if Last(fates).Done? then Last(fates).ids else [])
  }

  function IdsMade(made: seq<Made>): (ids: seq<Id>)
    ensures |ids| == |made| && forall i :: 0 <= i < |made| ==> ids[i] == IdOf(made[i].number)
  {
    seq(|made|, i requires 0 <= i < |made| => IdOf(made[i].number))
  }

  /** The fold after the edits so far. */
  ghost predicate FoldOk(before: Files, epic: Epic, edits: seq<Edit>, d: Draft) {
    && FilesOk(before, epic, d)
    && |d.fates| == |edits|
    && d.structural == StructuralDone(edits, d.fates) <= STRUCTURAL_CAP
    && IdsCreated(d.fates) == IdsMade(d.made)
  }

  lemma NothingFolded(before: Files, epic: Epic)
    ensures FoldOk(before, epic, [], Draft(map[], [], [], 0, 0, []))
  {
    assert IdsMade([]) == [];
  }

  function Report(d: Draft, f: Fate): Draft {
    d.(fates := d.fates + [f])
  }

  lemma SkippedOk(before: Files, epic: Epic, edits: seq<Edit>, start: Draft, d: Draft, e: Edit, reason: SkipReason,
      about: string)
    requires FoldOk(before, epic, edits, start) && FilesOk(before, epic, d)
    requires d.fates == start.fates && d.structural == start.structural && d.made == start.made
    ensures FoldOk(before, epic, edits + [e], Report(d, Skipped(about, reason)))
  {
    hide FilesOk;
    InitOfAppend(edits, e);
    InitOfAppend(d.fates, Skipped(about, reason));
    assert FilesOk(before, epic, Report(d, Skipped(about, reason))) by {
      ReportKeepsFiles(before, epic, d, Skipped(about, reason));
    }
  }

  lemma ReportKeepsFiles(before: Files, epic: Epic, d: Draft, f: Fate)
    requires FilesOk(before, epic, d)
    ensures FilesOk(before, epic, Report(d, f)) && FilesOk(before, epic, Report(d, f).(structural := d.structural + 1))
  {
    hide StubPath, Stub, MaxNumber;
  }

  lemma DoneOk(before: Files, epic: Epic, edits: seq<Edit>, start: Draft, d: Draft, e: Edit, about: string,
      ids: seq<Id>)
    requires FoldOk(before, epic, edits, start) && FilesOk(before, epic, d)
    requires d.fates == start.fates && d.structural == start.structural
    requires e.Structural() ==> start.structural < STRUCTURAL_CAP
    requires IdsMade(d.made) == IdsMade(start.made) + ids
    ensures var r := Report(d, Done(about, ids));
            FoldOk(before, epic, edits + [e], if e.Structural() then r.(structural := d.structural + 1) else r)
  {
    hide FilesOk;
    InitOfAppend(edits, e);
    InitOfAppend(d.fates, Done(about, ids));
    ReportKeepsFiles(before, epic, d, Done(about, ids));
  }

  /** The epic's tickets of that id. */
  function WithId(tickets: seq<EpicTicket>, id: Id): (r: seq<EpicTicket>)
    ensures forall t :: t in r ==> t in tickets
  {
    if tickets == [] then []
    else WithId(Init(tickets), id) + if Last(tickets).id == id then [Last(tickets)] else []
  }

  function Sketched(tickets: seq<EpicTicket>): (r: seq<EpicTicket>)
    ensures forall t :: t in r ==> t in tickets
  {
    if tickets == [] then []
    else Sketched(Init(tickets)) + if Last(tickets).sketched then [Last(tickets)] else []
  }

  /** The scan read every ticket it lists. */
  ghost predicate Scanned(before: Files, epic: Epic) {
    (forall t :: t in epic.tickets ==> t.path in before) && (forall p :: p in before ==> before[p] != [])
  }

  lemma NextId(epic: Epic, d: Draft, n: nat, j: nat)
    requires j < n
    ensures |AllocateTicketIds(IdsIn(epic.tickets), d.issued + n)[d.issued..]| == n
    ensures AllocateTicketIds(IdsIn(epic.tickets), d.issued + n)[d.issued..][j]
            == IdOf(TopNumber(epic) + d.issued + 1 + j)
  {
    hide MaxNumber, IdOf;
  }

  lemma IdsMadeSnoc(made: seq<Made>, m: Made)
    ensures IdsMade(made + [m]) == IdsMade(made) + [IdOf(m.number)]
  {
    hide IdOf;
  }

  // ----- the steps -----

  /** The next id of this run: allocation goes on after everything issued before. */
  function NextIds(epic: Epic, d: Draft, n: nat): (ids: seq<Id>)
    ensures |ids| == n
  {
    AllocateTicketIds(IdsIn(epic.tickets), d.issued + n)[d.issued..]
  }

  /** derive-ticket: the id is consumed even when its file name is taken. */
  function DeriveStep(before: Files, epic: Epic, d: Draft, e: Edit, runId: string): Draft
    requires e.DeriveTicket?
  {
    var id := NextIds(epic, d, 1)[0];
    var next := d.(issued := d.issued + 1);
    var m := Made(TopNumber(epic) + d.issued + 1, Slug(e.title, "derived-ticket"), e.title, e.dependencies,
                  StubText(id, e.title, e.rationale, runId));
    if m.Path(epic.dir) in before then Report(next, Skipped(id, IdCollision))
    else CountStructural(Report(AddStub(next, m, epic.dir), Done(id, [id])))
  }

  function CountStructural(d: Draft): Draft {
    d.(structural := d.structural + 1)
  }

  /** The children of a split, numbered from the next free number on. */
  function Children(epic: Epic, d: Draft, source: EpicTicket, into: seq<Child>, runId: string): (made: seq<Made>)
    ensures |made| == |into|
    ensures forall j :: 0 <= j < |made| ==> made[j].number == TopNumber(epic) + d.issued + 1 + j
  {
    seq(|into|, j requires 0 <= j < |into| =>
      var number := TopNumber(epic) + d.issued + 1 + j;
      Made(number, Slug(into[j].title, "split-ticket"), into[j].title, source.dependsOn,
           StubText(IdOf(number), into[j].title, into[j].rationale, runId)))
  }

  function AddStubs(d: Draft, made: seq<Made>, dir: string): (r: Draft)
    ensures r.made == d.made + made && r.fates == d.fates && r.structural == d.structural && r.issued == d.issued
  {
    if made == [] then d
    else
      AddStubIs(AddStubs(d, Init(made), dir), Last(made), dir);
      assert made == Init(made) + [Last(made)];
      AddStub(AddStubs(d, Init(made), dir), Last(made), dir)
  }

  /** split-ticket: from exactly one source, all children or none. */
  function SplitStep(before: Files, epic: Epic, d: Draft, e: Edit, runId: string): Draft
    requires e.SplitTicket?
  {
    var sources := WithId(epic.tickets, e.ticketId);
    if |sources| != 1 then Report(d, Skipped(e.ticketId, UnknownTicket))
    else
      var made := Children(epic, d, sources[0], e.into, runId);
      var next := d.(issued := d.issued + |made|);
      if exists j :: 0 <= j < |made| && made[j].Path(epic.dir) in before then
        Report(next, Skipped(e.ticketId, IdCollision))
      else CountStructural(Report(AddStubs(next, made, epic.dir), Done(e.ticketId, NextIds(epic, d, |made|))))
  }

  /** The text transform of a safe edit. */
  function Transform(e: Edit, doc: Doc): (r: Doc)
    requires !e.Structural() && doc != []
    ensures r != []
  {
    match e
    case AddDependency(_, dep) => AddingKeepsLines(doc, dep); DependencyEdits.AddDependency(doc, dep)
    case SharpenCriteria(_, criteria) => AcceptanceCriteria.SharpenCriteria(doc, criteria)
  }

  lemma AddingKeepsLines(doc: Doc, dep: string)
    requires doc != []
    ensures DependencyEdits.AddDependency(doc, dep) != []
  {
    hide DependencyEdits.ListBody, DependencyEdits.Tokens, DependencyEdits.WriteList, FenceFrom;
  }

  /** The state of a target file: as edited so far, or as read now; None when it cannot be read. */
  function Load(before: Files, unreadable: set<Path>, d: Draft, p: Path): Option<FileState>
    requires p in before
  {
    if p in d.files then Some(d.files[p])
    else if p in unreadable then None
    else Some(FileState(Some(before[p]), before[p]))
  }

  /** A safe edit: exactly one sketched target, its current text, and a change or a no-op. */
  function SafeStep(before: Files, unreadable: set<Path>, epic: Epic, d: Draft, e: Edit): Draft
    requires !e.Structural() && forall t :: t in epic.tickets ==> t.path in before
  {
    var targets := WithId(Sketched(epic.tickets), e.ticketId);
    if |targets| != 1 then Report(d, Skipped(e.ticketId, UnknownTicket))
    else
      assert targets[0] in targets;
      var fp := targets[0].path;
      match Load(before, unreadable, d, fp)
      case None => Report(d, Skipped(e.ticketId, ReadFailed))
      case Some(st) =>
        if st.current == [] || Transform(e, st.current) == st.current then
          Report(SetFile(d, fp, st), Skipped(e.ticketId, Noop))
        else Report(SetFile(d, fp, st.(current := Transform(e, st.current))), Done(e.ticketId, []))
  }

  function EditStep(before: Files, unreadable: set<Path>, epic: Epic, d: Draft, e: Edit, runId: string): Draft
    requires forall t :: t in epic.tickets ==> t.path in before
  {
    if !e.Structural() then SafeStep(before, unreadable, epic, d, e)
    else if d.structural >= STRUCTURAL_CAP then Report(d, Skipped(e.Label(), StructuralCap))
    else if epic.tickets == [] then Report(d, Skipped(e.Label(), UnknownTicket))
    else if e.DeriveTicket? then DeriveStep(before, epic, d, e, runId)
    else SplitStep(before, epic, d, e, runId)
  }

  const EMPTY_DRAFT: Draft := Draft(map[], [], [], 0, 0, [])

  function Fold(before: Files, unreadable: set<Path>, epic: Epic, edits: seq<Edit>, runId: string): Draft
    requires forall t :: t in epic.tickets ==> t.path in before
  {
    if edits == [] then EMPTY_DRAFT
    else EditStep(before, unreadable, epic, Fold(before, unreadable, epic, Init(edits), runId), Last(edits), runId)
  }

  // ----- every step keeps the fold -----

  lemma DeriveKeeps(before: Files, epic: Epic, edits: seq<Edit>, d: Draft, e: Edit, runId: string)
    requires FoldOk(before, epic, edits, d) && e.DeriveTicket? && d.structural < STRUCTURAL_CAP
    ensures FoldOk(before, epic, edits + [e], DeriveStep(before, epic, d, e, runId))
  {
    hide FilesOk, FoldOk, Slug, StubText, AllocateTicketIds, StubPath, Stub, AddStub, TopNumber, IdOf, IdsMade;
    FoldFacts(before, epic, edits, d);
    NextId(epic, d, 1, 0);
    var id := NextIds(epic, d, 1)[0];
    var next := d.(issued := d.issued + 1);
    AllocateOk(before, epic, d, 1);
    var m := Made(TopNumber(epic) + d.issued + 1, Slug(e.title, "derived-ticket"), e.title, e.dependencies,
                  StubText(id, e.title, e.rationale, runId));
    if m.Path(epic.dir) in before {
      SkippedOk(before, epic, edits, d, next, e, IdCollision, id);
    } else {
      AddStubOk(before, epic, next, m);
      AddStubIs(next, m, epic.dir);
      IdsMadeSnoc(d.made, m);
      DoneOk(before, epic, edits, d, AddStub(next, m, epic.dir), e, id, [id]);
    }
  }

  lemma FoldFacts(before: Files, epic: Epic, edits: seq<Edit>, d: Draft)
    requires FoldOk(before, epic, edits, d)
    ensures FilesOk(before, epic, d)
  {
  }

  lemma AddStubIs(d: Draft, m: Made, dir: string)
    ensures var r := AddStub(d, m, dir);
            r.made == d.made + [m] && r.fates == d.fates && r.structural == d.structural && r.issued == d.issued
  {
    hide StubPath, Stub;
  }

  /** All children become new files together. */
  lemma AddStubsOk(before: Files, epic: Epic, d: Draft, made: seq<Made>, first: nat)
    requires FilesOk(before, epic, d)
    requires forall k :: 0 <= k < |d.made| ==> d.made[k].number < first
    requires TopNumber(epic) < first && first + |made| <= TopNumber(epic) + d.issued + 1
    requires forall j :: 0 <= j < |made| ==> made[j].number == first + j && made[j].Path(epic.dir) !in before
    ensures FilesOk(before, epic, AddStubs(d, made, epic.dir))
  {
    hide FilesOk, StubPath, Stub, AddStub, TopNumber, IdOf;
    if made != [] {
      AddStubsOk(before, epic, d, Init(made), first);
      var r := AddStubs(d, Init(made), epic.dir);
      assert forall k :: 0 <= k < |r.made| ==> r.made[k].number < first + |made| - 1;
      AddStubOk(before, epic, r, Last(made));
    }
  }

  lemma IdsMadeAppend(a: seq<Made>, b: seq<Made>)
    ensures IdsMade(a + b) == IdsMade(a) + IdsMade(b)
  {
    hide IdOf;
  }

  lemma ChildIds(epic: Epic, d: Draft, made: seq<Made>)
    requires forall j :: 0 <= j < |made| ==> made[j].number == TopNumber(epic) + d.issued + 1 + j
    ensures IdsMade(made) == NextIds(epic, d, |made|)
  {
    hide IdOf, TopNumber, AllocateTicketIds;
    forall j | 0 <= j < |made|
      ensures IdsMade(made)[j] == NextIds(epic, d, |made|)[j]
    {
      NextId(epic, d, |made|, j);
    }
  }

  lemma SplitKeeps(before: Files, epic: Epic, edits: seq<Edit>, d: Draft, e: Edit, runId: string)
    requires FoldOk(before, epic, edits, d) && e.SplitTicket? && d.structural < STRUCTURAL_CAP
    ensures FoldOk(before, epic, edits + [e], SplitStep(before, epic, d, e, runId))
  {
    hide FilesOk, FoldOk, Children, StubPath, Stub, AddStubs, TopNumber, IdOf, IdsMade, NextIds, WithId;
    FoldFacts(before, epic, edits, d);
    var sources := WithId(epic.tickets, e.ticketId);
    if |sources| != 1 {
      SkippedOk(before, epic, edits, d, d, e, UnknownTicket, e.ticketId);
    } else {
      var made := Children(epic, d, sources[0], e.into, runId);
      var next := d.(issued := d.issued + |made|);
      AllocateOk(before, epic, d, |made|);
      if exists j :: 0 <= j < |made| && made[j].Path(epic.dir) in before {
        SkippedOk(before, epic, edits, d, next, e, IdCollision, e.ticketId);
      } else {
        AddStubsOk(before, epic, next, made, TopNumber(epic) + d.issued + 1);
        IdsMadeAppend(d.made, made);
        ChildIds(epic, d, made);
        DoneOk(before, epic, edits, d, AddStubs(next, made, epic.dir), e, e.ticketId, NextIds(epic, d, |made|));
      }
    }
  }

  lemma SafeKeeps(before: Files, unreadable: set<Path>, epic: Epic, edits: seq<Edit>, d: Draft, e: Edit)
    requires FoldOk(before, epic, edits, d) && !e.Structural() && Scanned(before, epic)
    ensures FoldOk(before, epic, edits + [e], SafeStep(before, unreadable, epic, d, e))
  {
    hide FilesOk, FoldOk, IdsMade, WithId, Sketched, Transform, SetFile;
    FoldFacts(before, epic, edits, d);
    var targets := WithId(Sketched(epic.tickets), e.ticketId);
    if |targets| != 1 {
      SkippedOk(before, epic, edits, d, d, e, UnknownTicket, e.ticketId);
    } else {
      assert targets[0] in targets;
      var fp := targets[0].path;
      if fp in d.files {
        Remembered(before, epic, d, fp);
      }
      var loaded := Load(before, unreadable, d, fp);
      if loaded.None? {
        SkippedOk(before, epic, edits, d, d, e, ReadFailed, e.ticketId);
      } else {
        var st := loaded.value;
        assert st.current != [] && st.original == Some(before[fp]);
        if Transform(e, st.current) == st.current {
          SetExistingOk(before, epic, d, fp, st);
          SetFileIs(d, fp, st);
          SkippedOk(before, epic, edits, d, SetFile(d, fp, st), e, Noop, e.ticketId);
        } else {
          var changed := st.(current := Transform(e, st.current));
          SetExistingOk(before, epic, d, fp, changed);
          SetFileIs(d, fp, changed);
          NoIds(d.made);
          DoneOk(before, epic, edits, d, SetFile(d, fp, changed), e, e.ticketId, []);
        }
      }
    }
  }

  lemma NoIds(made: seq<Made>)
    ensures IdsMade(made) + [] == IdsMade(made)
  {
  }

  lemma Remembered(before: Files, epic: Epic, d: Draft, p: Path)
    requires FilesOk(before, epic, d) && p in d.files
    ensures d.files[p].original == Get(before, p) && d.files[p].current != []
    ensures p in before ==> d.files[p].original == Some(before[p])
  {
    hide MadeOk, OnlyStubs, Tracks;
  }

  lemma SetFileIs(d: Draft, p: Path, st: FileState)
    ensures var r := SetFile(d, p, st);
            r.made == d.made && r.fates == d.fates && r.structural == d.structural && r.files[p] == st
  {
  }

  lemma {:induction false} FoldKeeps(before: Files, unreadable: set<Path>, epic: Epic, edits: seq<Edit>, runId: string)
    requires Scanned(before, epic)
    ensures FoldOk(before, epic, edits, Fold(before, unreadable, epic, edits, runId))
  {
    hide FoldOk, SafeStep, DeriveStep, SplitStep;
    if edits == [] {
      NothingFolded(before, epic);
    } else {
      var d, e := Fold(before, unreadable, epic, Init(edits), runId), Last(edits);
      FoldKeeps(before, unreadable, epic, Init(edits), runId);
      assert edits == Init(edits) + [e];
      StructuralIsCapped(before, epic, Init(edits), d);
      if !e.Structural() {
        SafeKeeps(before, unreadable, epic, Init(edits), d, e);
      } else if d.structural >= STRUCTURAL_CAP || epic.tickets == [] {
        FoldFacts(before, epic, Init(edits), d);
        var reason := if d.structural >= STRUCTURAL_CAP then StructuralCap else UnknownTicket;
        SkippedOk(before, epic, Init(edits), d, d, e, reason, e.Label());
      } else if e.DeriveTicket? {
        DeriveKeeps(before, epic, Init(edits), d, e, runId);
      } else {
        SplitKeeps(before, epic, Init(edits), d, e, runId);
      }
    }
  }

  lemma StructuralIsCapped(before: Files, epic: Epic, edits: seq<Edit>, d: Draft)
    requires FoldOk(before, epic, edits, d)
    ensures d.structural <= STRUCTURAL_CAP
  {
    hide FilesOk;
  }

  /** The loop over the proposal's edits. */
  method FoldEdits(before: Files, unreadable: set<Path>, epic: Epic, edits: seq<Edit>, runId: string) returns (d: Draft)
    requires Scanned(before, epic)
    ensures d == Fold(before, unreadable, epic, edits, runId)
  {
    d := EMPTY_DRAFT;
    hide EditStep;
    for i := 0 to |edits|
      invariant d == Fold(before, unreadable, epic, edits[..i], runId)
    {
      assert Init(edits[..i + 1]) == edits[..i] && Last(edits[..i + 1]) == edits[i];
      d := EditStep(before, unreadable, epic, d, edits[i], runId);
    }
    assert edits[..|edits|] == edits;
  }

  // ----- what the fold promises -----

  /** The ids created are pairwise distinct and none of them was in use, however many were skipped over. */
  lemma CreatedIdsAreNew(before: Files, epic: Epic, edits: seq<Edit>, d: Draft)
    requires FoldOk(before, epic, edits, d)
    ensures Distinct(IdsCreated(d.fates))
    ensures forall id :: id in IdsCreated(d.fates) ==> id !in IdsIn(epic.tickets)
  {
    var ids := IdsCreated(d.fates);
    assert ids == IdsMade(d.made) && MadeOk(epic, d);
    hide StubPath, Stub, IdOf, FoldOk, IdsCreated, MaxNumber;
    forall i | 0 <= i < |ids|
      ensures NumberOf(ids[i]) == Some(d.made[i].number) && ids[i] !in IdsIn(epic.tickets)
    {
      IdRoundTrip(d.made[i].number);
      if ids[i] in IdsIn(epic.tickets) {
        MaxCovers(IdsIn(epic.tickets), ids[i]);
      }
    }
  }

  /** Every edit has its one record, and the structural ones applied are within the cap. */
  lemma OneRecordEach(before: Files, unreadable: set<Path>, epic: Epic, edits: seq<Edit>, runId: string)
    requires Scanned(before, epic)
    ensures var d := Fold(before, unreadable, epic, edits, runId);
            && |d.fates| == |edits| && StructuralDone(edits, d.fates) <= 2
            && |AppliedOf(d.fates)| + |SkippedOf(d.fates)| == |edits|
  {
    FoldKeeps(before, unreadable, epic, edits, runId);
    var d := Fold(before, unreadable, epic, edits, runId);
    hide FilesOk, Fold;
    AppliedOrSkipped(d.fates);
  }

  function AppliedOf(fates: seq<Fate>): seq<Fate> {
    if fates == [] then [] else AppliedOf(Init(fates)) + (if Last(fates).Done? then [Last(fates)] else [])
  }

  function SkippedOf(fates: seq<Fate>): seq<Fate> {
    if fates == [] then [] else SkippedOf(Init(fates)) + (if Last(fates).Skipped? then [Last(fates)] else [])
  }

  lemma {:induction false} AppliedOrSkipped(fates: seq<Fate>)
    ensures |AppliedOf(fates)| + |SkippedOf(fates)| == |fates|
  {
    if fates != [] {
      AppliedOrSkipped(Init(fates));
    }
  }

  // ----- what the edits come to, file by file -----

  /** The one sketched ticket a safe edit is for, if there is exactly one. */
  function TargetOf(epic: Epic, e: Edit): Option<Path> {
    if e.Structural() then None
    else
      var targets := WithId(Sketched(epic.tickets), e.ticketId);
      if |targets| == 1 then Some(targets[0].path) else None
  }

  /** The edits for one file, in order. */
  function EditsFor(epic: Epic, edits: seq<Edit>, p: Path): (r: seq<Edit>)
    ensures forall e :: e in r ==> !e.Structural() && e in edits && TargetOf(epic, e) == Some(p)
  {
    if edits == [] then []
    else EditsFor(epic, Init(edits), p) + (if TargetOf(epic, Last(edits)) == Some(p) then [Last(edits)] else [])
  }

  function TransformAll(doc: Doc, edits: seq<Edit>): (r: Doc)
    requires doc != [] && forall e :: e in edits ==> !e.Structural()
    ensures r != []
  {
    if edits == [] then doc
    else
      assert forall e :: e in Init(edits) ==> e in edits;
      assert Last(edits) in edits;
      Transform(Last(edits), TransformAll(doc, Init(edits)))
  }

  /** Creating stubs leaves every existing file's state alone. */
  lemma StubsElsewhere(before: Files, epic: Epic, d: Draft, made: seq<Made>, p: Path)
    requires p in before && forall j :: 0 <= j < |made| ==> made[j].Path(epic.dir) !in before
    ensures var r := AddStubs(d, made, epic.dir);
            (p in r.files <==> p in d.files) && (p in d.files ==> r.files[p] == d.files[p])
  {
    hide StubPath, Stub, IdOf;
    if made != [] {
      StubsElsewhere(before, epic, d, Init(made), p);
    }
  }

  lemma StructuralElsewhere(before: Files, unreadable: set<Path>, epic: Epic, d: Draft, e: Edit, runId: string, p: Path)
    requires Scanned(before, epic) && p in before && e.Structural()
    ensures var r := EditStep(before, unreadable, epic, d, e, runId);
            (p in r.files <==> p in d.files) && (p in d.files ==> r.files[p] == d.files[p])
  {
    hide StubPath, Stub, IdOf, StubText, Slug, NextIds, Children, AddStubs, WithId, TopNumber;
    if e.SplitTicket? {
      var sources := WithId(epic.tickets, e.ticketId);
      if |sources| == 1 {
        var made := Children(epic, d, sources[0], e.into, runId);
        if !exists j :: 0 <= j < |made| && made[j].Path(epic.dir) in before {
          StubsElsewhere(before, epic, d.(issued := d.issued + |made|), made, p);
        }
      }
    }
  }

  lemma SafeElsewhere(before: Files, unreadable: set<Path>, epic: Epic, d: Draft, e: Edit, p: Path)
    requires Scanned(before, epic) && !e.Structural() && TargetOf(epic, e) != Some(p)
    ensures var r := SafeStep(before, unreadable, epic, d, e);
            (p in r.files <==> p in d.files) && (p in d.files ==> r.files[p] == d.files[p])
  {
    hide Transform, WithId, Sketched;
  }

  lemma SafeHere(before: Files, unreadable: set<Path>, epic: Epic, d: Draft, e: Edit, p: Path)
    requires Scanned(before, epic) && !e.Structural() && TargetOf(epic, e) == Some(p) && p in before
    requires p in d.files ==> d.files[p].current != []
    requires p in d.files || p !in unreadable
    ensures var r := SafeStep(before, unreadable, epic, d, e);
            var now := if p in d.files then d.files[p].current else before[p];
            && p in r.files && r.files[p].current == Transform(e, now)
            && |r.fates| > 0 && Last(r.fates) == if Transform(e, now) == now then Skipped(e.ticketId, Noop)
                 else Done(e.ticketId, [])
  {
    hide Transform, WithId, Sketched;
  }

  lemma TransformSnoc(doc: Doc, edits: seq<Edit>, e: Edit)
    requires doc != [] && !e.Structural() && forall x :: x in edits ==> !x.Structural()
    ensures TransformAll(doc, edits + [e]) == Transform(e, TransformAll(doc, edits))
  {
    InitOfAppend(edits, e);
    hide Transform;
  }

  lemma EditStepIs(before: Files, unreadable: set<Path>, epic: Epic, d: Draft, e: Edit, runId: string)
    requires Scanned(before, epic) && !e.Structural()
    ensures EditStep(before, unreadable, epic, d, e, runId) == SafeStep(before, unreadable, epic, d, e)
  {
    hide SafeStep;
  }

  lemma FoldUnfolds(before: Files, unreadable: set<Path>, epic: Epic, edits: seq<Edit>, runId: string, p: Path)
    requires Scanned(before, epic) && edits != []
    ensures Fold(before, unreadable, epic, edits, runId) ==
            EditStep(before, unreadable, epic, Fold(before, unreadable, epic, Init(edits), runId), Last(edits), runId)
    ensures EditsFor(epic, edits, p) ==
            EditsFor(epic, Init(edits), p) + (if TargetOf(epic, Last(edits)) == Some(p) then [Last(edits)] else [])
    ensures TargetOf(epic, Last(edits)).Some? ==> !Last(edits).Structural()
  {
    hide EditStep;
  }

  /** A file as its own edits so far leave it; untouched without any. */
  ghost predicate Tracked(before: Files, d: Draft, p: Path, own: seq<Edit>)
    requires p in before && before[p] != [] && forall e :: e in own ==> !e.Structural()
  {
    && (p in d.files <==> own != [])
    && (p in d.files ==> d.files[p].current == TransformAll(before[p], own))
  }

  lemma FileStep(before: Files, unreadable: set<Path>, epic: Epic, d: Draft, e: Edit, p: Path, own: seq<Edit>)
    requires Scanned(before, epic) && p in before && p !in unreadable && before[p] != []
    requires !e.Structural() && TargetOf(epic, e) == Some(p)
    requires (forall x :: x in own ==> !x.Structural()) && Tracked(before, d, p, own)
    ensures Tracked(before, SafeStep(before, unreadable, epic, d, e), p, own + [e])
  {
    SafeHere(before, unreadable, epic, d, e, p);
    TransformSnoc(before[p], own, e);
    NothingTransformed(before[p]);
    hide SafeStep, TransformAll, Transform, TargetOf;
  }

  /**
   * An existing, readable file ends as its own edits one after the other, whatever the others
   * did, and only a file with edits is touched at all.
   */
  lemma {:induction false} FileIsItsEdits(before: Files, unreadable: set<Path>, epic: Epic, edits: seq<Edit>,
      runId: string, p: Path)
    requires Scanned(before, epic) && p in before && p !in unreadable
    ensures before[p] != [] && Tracked(before, Fold(before, unreadable, epic, edits, runId), p,
            EditsFor(epic, edits, p))
  {
    if edits != [] {
      FoldUnfolds(before, unreadable, epic, edits, runId, p);
      var d, e := Fold(before, unreadable, epic, Init(edits), runId), Last(edits);
      var own := EditsFor(epic, Init(edits), p);
      FileIsItsEdits(before, unreadable, epic, Init(edits), runId, p);
      if e.Structural() {
        StructuralElsewhere(before, unreadable, epic, d, e, runId, p);
        hide EditStep, Fold, TransformAll;
        assert EditsFor(epic, edits, p) == own;
      } else {
        EditStepIs(before, unreadable, epic, d, e, runId);
        hide EditStep, SafeStep, Fold, TransformAll;
        if TargetOf(epic, e) != Some(p) {
          SafeElsewhere(before, unreadable, epic, d, e, p);
          assert EditsFor(epic, edits, p) == own;
        } else {
          FileStep(before, unreadable, epic, d, e, p, own);
        }
      }
    }
  }

  lemma NothingTransformed(doc: Doc)
    requires doc != []
    ensures TransformAll(doc, []) == doc
  {
  }

  // ----- the whole pass -----

  /** The files whose text the edits changed, in the order they were first touched. */
  function ChangesIn(d: Draft, order: seq<Path>): (changes: seq<Change>)
    requires forall p :: p in order ==> p in d.files
    ensures forall c :: c in changes ==>
            c.path in order && c == Change(c.path, d.files[c.path].original, d.files[c.path].current)
    ensures forall p :: p in order && d.files[p].original != Some(d.files[p].current) ==>
              Change(p, d.files[p].original, d.files[p].current) in changes
    ensures forall c :: c in changes ==> c.original != Some(c.current)
  {
    if order == [] then []
    else
      assert order == Init(order) + [Last(order)];
      var p := Last(order);
      ChangesIn(d, Init(order))
      + if d.files[p].original != Some(d.files[p].current) then [Change(p, d.files[p].original, d.files[p].current)]
        else []
  }

  lemma {:induction false} ChangesAreDistinct(d: Draft, order: seq<Path>)
    requires Distinct(order) && forall p :: p in order ==> p in d.files
    ensures DistinctPaths(ChangesIn(d, order))
  {
    if order != [] {
      assert order == Init(order) + [Last(order)];
      ChangesAreDistinct(d, Init(order));
      assert forall c :: c in ChangesIn(d, Init(order)) ==> c.path in Init(order);
    }
  }

  /** What the commit step needs: distinct paths, each remembering what the tree holds. */
  lemma ChangesAreSound(before: Files, epic: Epic, edits: seq<Edit>, d: Draft)
    requires FoldOk(before, epic, edits, d)
    ensures (forall p :: p in d.order ==> p in d.files) && DistinctPaths(ChangesIn(d, d.order))
    ensures forall c :: c in ChangesIn(d, d.order) ==> c.original == Get(before, c.path)
  {
    assert Tracks(d) && Remembers(before, d);
    hide FoldOk, FilesOk;
    ChangesAreDistinct(d, d.order);
  }

  datatype GateReason = ReviewMode | KillSwitch | BudgetGate | NoProgressGate

  /** The self-gate, in order. */
  function Gate(mode: MergeGates.Autonomy, killed: bool, verdict: Budgets.BudgetVerdict): Option<GateReason> {
    if mode.ReviewMode? then Some(ReviewMode)
    else if killed then Some(KillSwitch)
    else if verdict.Tripped? then Some(if Budgets.ArmState(verdict.arm).NoProgress? then NoProgressGate else BudgetGate)
    else None
  }

  datatype ApplyEvent =
    | ApplySkipped(reason: GateReason)
    | EditSkipped(fate: Fate)
    | EditApplied(fate: Fate)
    | NeedsEpicWiring(about: string, ids: seq<Id>)
    | ApplySummary(applied: nat, skipped: nat)
    | ApplyFailed(paths: seq<Path>)
    | RollbackFailedStop(paths: seq<Path>)

  function SkipEvents(fates: seq<Fate>): seq<ApplyEvent> {
    if fates == [] then []
    else SkipEvents(Init(fates)) + (if Last(fates).Skipped? then [EditSkipped(Last(fates))] else [])
  }

  function AppliedEvents(fates: seq<Fate>): seq<ApplyEvent> {
    if fates == [] then []
    else AppliedEvents(Init(fates)) + (if Last(fates).Done? then [EditApplied(Last(fates))] else [])
  }

  /** One triage item for each structural edit applied. */
  function TriageEvents(edits: seq<Edit>, fates: seq<Fate>): seq<ApplyEvent>
    requires |edits| == |fates|
  {
    if edits == [] then []
    else
      TriageEvents(Init(edits), Init(fates))
      + if IsDone(Last(edits), Last(fates)) == 1 then [NeedsEpicWiring(Last(fates).about, Last(fates).ids)] else []
  }

  datatype ApplyOutcome = Gated(reason: GateReason) | Unchanged | Landed | Undone | Stuck

  /**
   * runApplyRefinement. Nothing is touched unless every gate is open; then the changed files are
   * written and committed together or not at all, records follow the commit, and only a failed
   * rollback throws.
   */
  method RunApplyRefinement(
      repo: Backlog, unreadable: set<Path>, epic: Epic, mode: MergeGates.Autonomy, killed: bool,
      state: RunStates.RunState, log: seq<RunStates.RunEvent>, budget: Budgets.BudgetConfig, now: int,
      edits: seq<Edit>, runId: string)
    returns (outcome: ApplyOutcome, events: seq<ApplyEvent>, ghost torn: Option<Torn>)
    requires Scanned(repo.files, epic)
    modifies repo
    ensures var verdict := Budgets.EvaluateBudget(state, log, budget, now);
            && (outcome.Gated? <==> mode.ReviewMode? || killed || verdict.Tripped?)
            && (outcome.Gated? ==>
                  && outcome.reason == (if mode.ReviewMode? then ReviewMode
                     else if killed then KillSwitch
                     else if verdict.arm in {RunStates.NoProgressCount, RunStates.NoProgressTime} then NoProgressGate
                     else BudgetGate)
                  && events == [ApplySkipped(outcome.reason)]
                  && repo.files == old(repo.files) && repo.commits == old(repo.commits))
    ensures !outcome.Gated? ==>
            var d := Fold(old(repo.files), unreadable, epic, edits, runId);
            && (forall p :: p in d.order ==> p in d.files)
            && |d.fates| == |edits|
            && var changes := ChangesIn(d, d.order);
            match outcome
            case Gated(_) => false
            case Unchanged =>
              && changes == [] && repo.files == old(repo.files) && repo.commits == old(repo.commits)
              && events == SkipEvents(d.fates) + [ApplySummary(0, |SkippedOf(d.fates)|)]
            case Landed =>
              && changes != [] && Applied(old(repo.files), repo.files, changes)
              && repo.commits == old(repo.commits) + [PathsOf(changes)]
              && events == SkipEvents(d.fates) + AppliedEvents(d.fates) + TriageEvents(edits, d.fates)
                           + [ApplySummary(|AppliedOf(d.fates)|, |SkippedOf(d.fates)|)]
            case Undone =>
              && changes != [] && repo.commits == old(repo.commits)
              && repo.files == (if torn.Some? then Put(old(repo.files), torn.value.path, torn.value.left)
                   else old(repo.files))
              && (torn.Some? ==> Pending(changes, torn.value.path).Some?)
              && events == SkipEvents(d.fates) + [ApplyFailed(PathsOf(changes))]
            case Stuck =>
              && changes != [] && repo.commits == old(repo.commits)
              && (forall p :: Pending(changes, p).None? ==> Get(repo.files, p) == Get(old(repo.files), p))
              && events == SkipEvents(d.fates) + [RollbackFailedStop(PathsOf(changes))]
    ensures !outcome.Gated? ==>
              var d := Fold(old(repo.files), unreadable, epic, edits, runId);
              && (forall p :: p in d.order ==> p in d.files)
              && var changes := ChangesIn(d, d.order);
                 && (outcome.Unchanged? <==> changes == [])
                 && (outcome.Landed? <==> changes != [] && torn.None? && !repo.commitFails)
                 && ((forall t :: old(repo.tries) <= t < old(repo.tries) + |changes| ==> t !in repo.faults) ==>
                       torn.None?)
  {
    torn := None;
    var gate := Gate(mode, killed, Budgets.EvaluateBudget(state, log, budget, now));
    if gate.Some? {
      return Gated(gate.value), [ApplySkipped(gate.value)], None;
    }
    hide Fold, SkipEvents, AppliedEvents, TriageEvents, Applied, PathsOf, ChangesIn, Scanned, FoldOk, Gate, Put, Get,
      Pending, DistinctPaths;
    FoldKeeps(repo.files, unreadable, epic, edits, runId);
    var d := FoldEdits(repo.files, unreadable, epic, edits, runId);
    FoldCounts(repo.files, epic, edits, d);
    ChangesAreSound(repo.files, epic, edits, d);
    var changes := ChangesIn(d, d.order);
    events := SkipEvents(d.fates);
    if changes == [] {
      return Unchanged, events + [ApplySummary(0, |SkippedOf(d.fates)|)], None;
    }
    var result;
    ghost var written;
    result, torn, written := repo.CommitChanges(changes);
    match result
    case Committed =>
      outcome := Landed;
      events := events + AppliedEvents(d.fates) + TriageEvents(edits, d.fates)
        + [ApplySummary(|AppliedOf(d.fates)|, |SkippedOf(d.fates)|)];
    case RolledBack =>
      outcome := Undone;
      events := events + [ApplyFailed(PathsOf(changes))];
    case RollbackFailed =>
      outcome := Stuck;
      events := events + [RollbackFailedStop(PathsOf(changes))];
  }

  lemma FoldCounts(before: Files, epic: Epic, edits: seq<Edit>, d: Draft)
    requires FoldOk(before, epic, edits, d)
    ensures |d.fates| == |edits|
  {
    hide FilesOk;
  }
}
