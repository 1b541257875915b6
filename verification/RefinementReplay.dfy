/**
 * A safe proposal that landed leaves nothing for the same proposal to do: every edit of a second
 * pass is a no-op, whatever other edits to the same file came between.
 */
module RefinementReplays {
  import opened Prelude
  import opened Ids
  import opened Text
  import opened Frontmatters
  import opened BacklogFiles
  import opened Refinements
  import Budgets
  import MergeGates
  import RunStates
  import D = DependencyEdits
  import A = AcceptanceCriteria

  /** A ticket file the safe edits are meant for: frontmatter with no section heading inside. */
  predicate Editable(doc: Doc) {
    doc != [] && HasBlock(doc) && A.NoHeadingInBlock(doc)
  }

  /** A safe edit of the kind a proposal may hold: criteria without a newline inside, a plain dependency name. */
  predicate Plain(e: Edit) {
    match e
    case AddDependency(_, dep) => D.PlainName(dep)
    case SharpenCriteria(_, criteria) => A.OneLined(criteria)
    case _ => false
  }

  /** The dependencies the editor sees in a document. */
  function Seen(doc: Doc): seq<string>
    requires HasBlock(doc)
  {
    D.Listed(doc, D.ListLineFrom(doc, 0, FenceFrom(doc, 2)), FenceFrom(doc, 2))
  }

  lemma SeenIs(doc: Doc, m: nat, end: nat)
    requires HasBlock(doc) && end == FenceFrom(doc, 2) && m == D.ListLineFrom(doc, 0, end)
    ensures Seen(doc) == D.Listed(doc, m, end)
  {
  }

  /** Adding a dependency: it is seen afterwards with all that was seen before, and only then is it a no-op. */
  lemma AddingIsSeen(doc: Doc, dep: string)
    requires HasBlock(doc) && D.PlainName(dep)
    ensures var r := D.AddDependency(doc, dep);
            && HasBlock(r) && Seen(r) == (if dep in Seen(doc) then Seen(doc) else Seen(doc) + [dep])
            && (r == doc <==> dep in Seen(doc))
  {
    hide *;
    D.BlockFacts(doc);
    var end := FenceFrom(doc, 2);
    var m := D.ListLineFrom(doc, 0, end);
    SeenIs(doc, m, end);
    D.AddDependencyIs(doc, dep, m, end);
    if dep !in Seen(doc) {
      D.EditedList(doc, dep, m, end);
      var r := D.AddDependency(doc, dep);
      SeenIs(r, m, FenceFrom(r, 2));
      assert |Seen(r)| == |Seen(doc)| + 1;
    }
  }

  /** What the editor sees depends on the block alone. */
  lemma SeenInBlock(doc: Doc, r: Doc)
    requires HasBlock(doc) && HasBlock(r) && Block(r) == Block(doc)
    ensures Seen(r) == Seen(doc)
  {
    hide *;
    D.BlockFacts(doc);
    D.BlockFacts(r);
    BlockLength(doc);
    BlockLength(r);
    var end := FenceFrom(doc, 2);
    var m := D.ListLineFrom(doc, 0, end);
    forall i | 1 <= i < end
      ensures r[i] == doc[i]
    {
      D.BlockLine(doc, i, end);
      D.BlockLine(r, i, end);
    }
    D.ListLineIsAt(r, 0, end, m);
    SeenIs(doc, m, end);
    SeenIs(r, m, end);
    ListedInLine(doc, r, m, end);
  }

  lemma BlockLength(doc: Doc)
    requires HasBlock(doc)
    ensures |Block(doc)| == FenceFrom(doc, 2) - 1
  {
    hide FenceFrom;
  }

  lemma ListedInLine(doc: Doc, r: Doc, m: nat, end: nat)
    requires m <= end < |doc| && end < |r| && (m < end ==> r[m] == doc[m] && D.ListBody(doc[m]).Some?)
    ensures D.Listed(r, m, end) == D.Listed(doc, m, end)
  {
    hide D.ListBody, D.Tokens;
  }

  /** Sharpening is a no-op exactly when everything wanted is stated. */
  lemma SharpeningIsStated(doc: Doc, criteria: seq<string>)
    requires doc != []
    ensures A.SharpenCriteria(doc, criteria) == doc <==> A.Wanted(criteria) <= A.Criteria(doc)
  {
    A.AddsIffMissing(doc, criteria);
    hide A.Wanted, A.Criteria, A.Added, A.WithNewSection, A.WithItems, A.CriteriaFrom;
    if A.Added(doc, criteria) != [] {
      A.SectionAfterwards(doc, criteria);
    }
  }

  lemma HeadingOfRest(doc: Doc, k: nat)
    requires k <= |doc| && forall i :: 0 <= i < k ==> !A.IsCriteriaHeading(doc[i])
    ensures A.CriteriaFrom(doc, 0) == k + A.CriteriaFrom(doc[k..], 0)
  {
    hide *;
    var rest := doc[k..];
    var h := A.CriteriaFrom(rest, 0);
    forall i | k <= i < k + h
      ensures !A.IsCriteriaHeading(doc[i])
    {
      assert doc[i] == rest[i - k];
    }
    assert h < |rest| ==> doc[k + h] == rest[h];
    A.CriteriaIsAt(doc, 0, k + h);
  }

  lemma SectionOfRest(doc: Doc, k: nat, h: nat)
    requires k <= |doc| && h <= |doc[k..]|
    ensures SectionFrom(doc, k + h) == k + SectionFrom(doc[k..], h)
  {
    hide *;
    var rest := doc[k..];
    var end := SectionFrom(rest, h);
    forall i | k + h <= i < k + end
      ensures !StartsWith(doc[i], "## ")
    {
      assert doc[i] == rest[i - k];
    }
    assert end < |rest| ==> doc[k + end] == rest[end];
    SectionIsAt(doc, k + h, k + end);
  }

  /** The section is found the same with lines before it that hold no heading. */
  lemma SectionLinesOfRest(doc: Doc, k: nat)
    requires k <= |doc| && forall i :: 0 <= i < k ==> !A.IsCriteriaHeading(doc[i])
    ensures A.SectionLines(doc) == A.SectionLines(doc[k..])
  {
    hide *;
    HeadingOfRest(doc, k);
    var rest := doc[k..];
    var h := A.CriteriaFrom(rest, 0);
    if h < |rest| {
      var next: nat := h + 1;
      SectionOfRest(doc, k, next);
      A.SectionLinesAre(rest, h, SectionFrom(rest, next));
      A.SectionLinesAre(doc, k + h, k + SectionFrom(rest, next));
      SliceOfRest(doc, k, next, SectionFrom(rest, next));
    } else {
      NoSectionLines(rest);
      NoSectionLines(doc);
    }
  }

  lemma SliceOfRest(doc: Doc, k: nat, a: nat, b: nat)
    requires k <= |doc| && a <= b <= |doc[k..]|
    ensures doc[k..][a..b] == doc[k + a..k + b]
  {
  }

  lemma NoSectionLines(doc: Doc)
    requires A.CriteriaFrom(doc, 0) == |doc|
    ensures A.SectionLines(doc) == []
  {
    hide A.CriteriaFrom;
  }

  lemma NoHeadingUpToFence(doc: Doc)
    requires HasBlock(doc) && A.NoHeadingInBlock(doc)
    ensures forall i :: 0 <= i < FenceFrom(doc, 2) ==> !A.IsCriteriaHeading(doc[i])
  {
    A.HeadingsComeAfterBlock(doc);
    hide A.IsCriteriaHeading, A.CriteriaFrom, FenceFrom, HasBlock;
  }

  lemma ListIsNoHeading(tokens: seq<string>)
    ensures !A.IsCriteriaHeading(D.WriteList(tokens)) && !StartsWith(D.WriteList(tokens), "## ")
  {
    assert D.WriteList(tokens)[0] == 'd';
    hide D.WriteList;
    D.DifferentStart(D.WriteList(tokens), "## ");
  }

  /** Adding a dependency changes one line, which is a list, and nothing from the fence on. */
  lemma AddingIsAList(doc: Doc, dep: string)
    requires HasBlock(doc) && D.PlainName(dep)
    ensures var r, end := D.AddDependency(doc, dep), FenceFrom(doc, 2);
            && HasBlock(r) && end <= FenceFrom(r, 2) && r[FenceFrom(r, 2)..] == doc[end..]
            && forall i :: 0 <= i < FenceFrom(r, 2) ==>
                 (i < end && r[i] == doc[i]) || exists tokens :: r[i] == D.WriteList(tokens)
  {
    hide *;
    D.BlockFacts(doc);
    var end := FenceFrom(doc, 2);
    var m := D.ListLineFrom(doc, 0, end);
    D.AddDependencyIs(doc, dep, m, end);
    if dep !in D.Listed(doc, m, end) {
      D.EditedList(doc, dep, m, end);
      EditLineIs(doc, dep, m, end);
    }
  }

  lemma EditLineIs(doc: Doc, dep: string, m: nat, end: nat)
    requires m <= end < |doc| && (m < end ==> D.ListBody(doc[m]).Some?) && dep !in D.Listed(doc, m, end)
    ensures var r := D.EditLine(doc, dep, m, end);
            var end' := if m == end then end + 1 else end;
            && end' < |r| && r[end'..] == doc[end..]
            && (exists tokens :: r[m] == D.WriteList(tokens))
            && forall i :: 0 <= i < end' && i != m ==> i < end && r[i] == doc[i]
  {
    hide D.ListBody, D.Tokens, D.WriteList;
  }

  /** The edits keep a file editable, and leave each other's part of it alone. */
  lemma AddingKeepsCriteria(doc: Doc, dep: string)
    requires Editable(doc) && D.PlainName(dep)
    ensures Editable(D.AddDependency(doc, dep)) && A.Criteria(D.AddDependency(doc, dep)) == A.Criteria(doc)
  {
    var r, end := D.AddDependency(doc, dep), FenceFrom(doc, 2);
    AddingIsAList(doc, dep);
    NoHeadingUpToFence(doc);
    D.BlockFacts(r);
    forall i | 1 <= i < FenceFrom(r, 2)
      ensures !A.IsCriteriaHeading(r[i]) && !StartsWith(r[i], "## ")
    {
      if i < end && r[i] == doc[i] {
        D.BlockLine(doc, i, end);
        assert doc[i] in Block(doc);
      } else {
        var tokens :| r[i] == D.WriteList(tokens);
        ListIsNoHeading(tokens);
      }
    }
    hide *;
    BlockHoldsNoHeading(r);
    NoHeadingUpToFence(r);
    SectionLinesOfRest(doc, end);
    SectionLinesOfRest(r, FenceFrom(r, 2));
    SameCriteria(doc, r);
    EditableIs(r);
  }

  lemma BlockHoldsNoHeading(doc: Doc)
    requires HasBlock(doc)
    requires forall i :: 1 <= i < FenceFrom(doc, 2) ==> !A.IsCriteriaHeading(doc[i]) && !StartsWith(doc[i], "## ")
    ensures A.NoHeadingInBlock(doc)
  {
    hide A.IsCriteriaHeading, StartsWith;
  }

  lemma SameCriteria(doc: Doc, r: Doc)
    requires A.SectionLines(r) == A.SectionLines(doc)
    ensures A.Criteria(r) == A.Criteria(doc)
  {
    hide A.SectionLines, A.ItemsOf;
  }

  lemma EditableIs(doc: Doc)
    ensures Editable(doc) <==> doc != [] && HasBlock(doc) && A.NoHeadingInBlock(doc)
  {
    hide HasBlock, A.NoHeadingInBlock;
  }

  lemma SharpeningKeepsBlock(doc: Doc, criteria: seq<string>)
    requires Editable(doc)
    ensures Editable(A.SharpenCriteria(doc, criteria)) && Seen(A.SharpenCriteria(doc, criteria)) == Seen(doc)
  {
    A.SharpenKeepsBlock(doc, criteria);
    hide HasBlock, Block, A.SharpenCriteria, A.IsCriteriaHeading, Seen;
    SeenInBlock(doc, A.SharpenCriteria(doc, criteria));
  }

  lemma EditKeepsEditable(e: Edit, doc: Doc)
    requires Editable(doc) && Plain(e)
    ensures !e.Structural() && Editable(Transform(e, doc))
  {
    hide Editable;
    match e
    case AddDependency(_, dep) =>
      EditableIs(doc);
      AddingKeepsCriteria(doc, dep);
    case SharpenCriteria(_, criteria) =>
      EditableIs(doc);
      SharpeningKeepsBlock(doc, criteria);
  }

  /** What an edit asks for is there. */
  predicate Satisfied(e: Edit, doc: Doc)
    requires Editable(doc) && Plain(e)
  {
    match e
    case AddDependency(_, dep) => dep in Seen(doc)
    case SharpenCriteria(_, criteria) => A.Wanted(criteria) <= A.Criteria(doc)
  }

  /** An edit is a no-op exactly when what it asks for is there, and afterwards it is. */
  lemma NoopIffSatisfied(e: Edit, doc: Doc)
    requires Editable(doc) && Plain(e)
    ensures !e.Structural() && Editable(Transform(e, doc))
    ensures Transform(e, doc) == doc <==> Satisfied(e, doc)
    ensures Satisfied(e, Transform(e, doc))
  {
    EditKeepsEditable(e, doc);
    EditableIs(doc);
    hide Editable, Seen, A.Wanted, A.Criteria, D.AddDependency, A.SharpenCriteria;
    match e
    case AddDependency(_, dep) => AddingIsSeen(doc, dep);
    case SharpenCriteria(_, criteria) =>
      SharpeningIsStated(doc, criteria);
      A.SharpeningStates(doc, criteria);
  }

  /** No safe edit takes away what another asked for. */
  lemma SatisfiedStays(e: Edit, other: Edit, doc: Doc)
    requires Editable(doc) && Plain(e) && Plain(other) && Satisfied(e, doc)
    ensures !other.Structural() && Editable(Transform(other, doc)) && Satisfied(e, Transform(other, doc))
  {
    EditKeepsEditable(other, doc);
    EditableIs(doc);
    hide Seen, A.Wanted, A.Criteria, D.AddDependency, A.SharpenCriteria, HasBlock, A.NoHeadingInBlock;
    match other
    case AddDependency(_, dep) =>
      AddingIsSeen(doc, dep);
      AddingKeepsCriteria(doc, dep);
    case SharpenCriteria(_, criteria) =>
      A.SharpeningStates(doc, criteria);
      SharpeningKeepsBlock(doc, criteria);
  }

  /** After a sequence of safe edits, each of them is a no-op. */
  lemma {:induction false} AllAreNoops(doc: Doc, edits: seq<Edit>, e: Edit)
    requires doc != [] && Editable(doc) && e in edits
    requires forall x :: x in edits ==> Plain(x) && !x.Structural()
    ensures Editable(TransformAll(doc, edits)) && Satisfied(e, TransformAll(doc, edits))
    ensures Transform(e, TransformAll(doc, edits)) == TransformAll(doc, edits)
    decreases edits
  {
    var last := Last(edits);
    assert edits == Init(edits) + [last];
    TransformsKeepEditable(doc, Init(edits));
    hide Editable, Plain, Satisfied, Transform;
    var before := TransformAll(doc, Init(edits));
    if e == last {
      NoopIffSatisfied(last, before);
    } else {
      AllAreNoops(doc, Init(edits), e);
      SatisfiedStays(e, last, before);
    }
    NoopIffSatisfied(e, TransformAll(doc, edits));
  }

  lemma {:induction false} TransformsKeepEditable(doc: Doc, edits: seq<Edit>)
    requires doc != [] && Editable(doc) && forall x :: x in edits ==> Plain(x) && !x.Structural()
    ensures Editable(TransformAll(doc, edits))
  {
    EditableIs(doc);
    hide Editable, Plain, Transform;
    if edits != [] {
      assert edits == Init(edits) + [Last(edits)];
      TransformsKeepEditable(doc, Init(edits));
      EditKeepsEditable(Last(edits), TransformAll(doc, Init(edits)));
    }
  }

  // ----- a second pass over the tree -----

  lemma PendingInOrder(d: Draft, p: Path)
    requires (forall q :: q in d.order ==> q in d.files) && DistinctPaths(ChangesIn(d, d.order))
    ensures Pending(ChangesIn(d, d.order), p) ==
            if p in d.order && d.files[p].original != Some(d.files[p].current) then Some(d.files[p].current) else None
  {
    var changes := ChangesIn(d, d.order);
    hide ChangesIn;
    if p in d.order && d.files[p].original != Some(d.files[p].current) {
      var i :| 0 <= i < |changes| && changes[i] == Change(p, d.files[p].original, d.files[p].current);
      ListedIsPending(changes, i);
    } else {
      UnlistedIsNotPending(changes, p);
    }
  }

  /** What a landed proposal leaves at an existing file: its own edits, one after the other. */
  lemma LandedIsItsEdits(before: Files, after: Files, unreadable: set<Path>, epic: Epic, edits: seq<Edit>,
      runId: string, p: Path)
    requires Scanned(before, epic) && p in before && p !in unreadable
    requires var d := Fold(before, unreadable, epic, edits, runId);
             (forall q :: q in d.order ==> q in d.files) && Applied(before, after, ChangesIn(d, d.order))
    ensures before[p] != [] && Get(after, p) == Some(TransformAll(before[p], EditsFor(epic, edits, p)))
  {
    var d := Fold(before, unreadable, epic, edits, runId);
    FoldKeeps(before, unreadable, epic, edits, runId);
    ChangesAreSound(before, epic, edits, d);
    assert Tracks(d) && Remembers(before, d);
    FileIsItsEdits(before, unreadable, epic, edits, runId, p);
    NothingTransformed(before[p]);
    hide Fold, FoldOk, TransformAll, ChangesIn, EditsFor;
    PendingInOrder(d, p);
  }

  /** A pass so far that changed nothing: every edit skipped, every file it looked at as the tree has it. */
  ghost predicate NothingDone(after: Files, d: Draft, n: nat) {
    && |d.fates| == n && (forall i :: 0 <= i < n ==> d.fates[i].Skipped?)
    && (forall p :: p in d.files ==> p in after && d.files[p].current == after[p] && after[p] != [])
  }

  /** A safe edit of a file that already has what it asks for is skipped. */
  lemma SatisfiedIsSkipped(after: Files, unreadable: set<Path>, epic: Epic, d: Draft, e: Edit)
    requires Scanned(after, epic) && Plain(e) && !e.Structural()
    requires NothingDone(after, d, |d.fates|)
    requires TargetOf(epic, e).Some? ==>
               var p := TargetOf(epic, e).value;
               p in after && p !in unreadable && after[p] != [] && Transform(e, after[p]) == after[p]
    ensures NothingDone(after, SafeStep(after, unreadable, epic, d, e), |d.fates| + 1)
  {
    hide Transform, Plain, WithId, Sketched;
  }

  lemma {:induction false} OwnEdits(epic: Epic, edits: seq<Edit>, e: Edit, p: Path)
    requires e in edits && TargetOf(epic, e) == Some(p)
    ensures e in EditsFor(epic, edits, p)
  {
    hide TargetOf;
    assert edits == Init(edits) + [Last(edits)];
    if e != Last(edits) {
      OwnEdits(epic, Init(edits), e, p);
    }
  }

  /** The tree a landed safe proposal leaves: every target readable, editable, and edited by its own edits. */
  ghost predicate LandedTree(before: Files, after: Files, unreadable: set<Path>, epic: Epic, edits: seq<Edit>) {
    && Scanned(after, epic) && (forall e :: e in edits ==> Plain(e) && !e.Structural())
    && forall e, p :: e in edits && TargetOf(epic, e) == Some(p) ==>
         && p in before && before[p] != [] && Editable(before[p]) && p !in unreadable
         && Get(after, p) == Some(TransformAll(before[p], EditsFor(epic, edits, p)))
  }

  lemma TargetIsSatisfied(before: Files, after: Files, unreadable: set<Path>, epic: Epic, edits: seq<Edit>, e: Edit,
      p: Path)
    requires LandedTree(before, after, unreadable, epic, edits) && e in edits && TargetOf(epic, e) == Some(p)
    ensures !e.Structural() && Plain(e) && p in after && p !in unreadable && after[p] != []
            && Transform(e, after[p]) == after[p]
  {
    OwnEdits(epic, edits, e, p);
    hide Editable, Plain, Transform, TransformAll, TargetOf, EditsFor;
    AllAreNoops(before[p], EditsFor(epic, edits, p), e);
  }

  lemma LandedFacts(before: Files, after: Files, unreadable: set<Path>, epic: Epic, edits: seq<Edit>, e: Edit)
    requires LandedTree(before, after, unreadable, epic, edits) && e in edits
    ensures Scanned(after, epic) && Plain(e) && !e.Structural()
  {
    hide Plain, Scanned;
  }

  /** Applying a landed safe proposal again skips every edit of it. */
  lemma {:induction false} ReplaySkipsEverything(before: Files, after: Files, unreadable: set<Path>, epic: Epic,
      edits: seq<Edit>, runId: string, n: nat)
    requires LandedTree(before, after, unreadable, epic, edits) && n <= |edits|
    ensures NothingDone(after, Fold(after, unreadable, epic, edits[..n], runId), n)
  {
    if n == 0 {
      assert edits[..0] == [];
      assert Fold(after, unreadable, epic, edits[..0], runId) == EMPTY_DRAFT;
    } else {
      hide *;
      var e := edits[n - 1];
      ReplaySkipsEverything(before, after, unreadable, epic, edits, runId, n - 1);
      LandedFacts(before, after, unreadable, epic, edits, e);
      FrontOf(edits, n);
      FoldUnfolds(after, unreadable, epic, edits[..n], runId, "");
      if TargetOf(epic, e).Some? {
        TargetIsSatisfied(before, after, unreadable, epic, edits, e, TargetOf(epic, e).value);
      }
      var d := Fold(after, unreadable, epic, edits[..n - 1], runId);
      EditStepIs(after, unreadable, epic, d, e, runId);
      FateCount(after, d, n - 1);
      SatisfiedIsSkipped(after, unreadable, epic, d, e);
    }
  }

  lemma FrontOf(edits: seq<Edit>, n: nat)
    requires 0 < n <= |edits|
    ensures edits[..n] != [] && Init(edits[..n]) == edits[..n - 1] && Last(edits[..n]) == edits[n - 1]
  {
  }

  lemma FateCount(after: Files, d: Draft, n: nat)
    requires NothingDone(after, d, n)
    ensures |d.fates| == n
  {
  }

  // ----- two passes -----

  /** Safe edits, each aimed at a ticket file that can be read and edited, or at no ticket at all. */
  ghost predicate SafeProposal(before: Files, unreadable: set<Path>, epic: Epic, edits: seq<Edit>) {
    && Scanned(before, epic) && (forall e :: e in edits ==> Plain(e) && !e.Structural())
    && forall e, p :: e in edits && TargetOf(epic, e) == Some(p) ==>
         p in before && p !in unreadable && before[p] != [] && Editable(before[p])
  }

  /** Landing keeps the scanned tickets, and leaves no file empty. */
  lemma LandedIsScanned(before: Files, after: Files, unreadable: set<Path>, epic: Epic, edits: seq<Edit>, runId: string)
    requires Scanned(before, epic)
    requires var d := Fold(before, unreadable, epic, edits, runId);
             (forall q :: q in d.order ==> q in d.files) && Applied(before, after, ChangesIn(d, d.order))
    ensures Scanned(after, epic)
  {
    var d := Fold(before, unreadable, epic, edits, runId);
    FoldKeeps(before, unreadable, epic, edits, runId);
    ChangesAreSound(before, epic, edits, d);
    assert Tracks(d) && Remembers(before, d);
    hide Fold, FoldOk, ChangesIn, Pending;
    forall p
      ensures Get(before, p).Some? ==> Get(after, p).Some?
      ensures p in after ==> after[p] != []
    {
      PendingInOrder(d, p);
    }
  }

  lemma LandedIsTree(before: Files, after: Files, unreadable: set<Path>, epic: Epic, edits: seq<Edit>, runId: string)
    requires SafeProposal(before, unreadable, epic, edits)
    requires var d := Fold(before, unreadable, epic, edits, runId);
             (forall q :: q in d.order ==> q in d.files) && Applied(before, after, ChangesIn(d, d.order))
    ensures LandedTree(before, after, unreadable, epic, edits)
  {
    LandedIsScanned(before, after, unreadable, epic, edits, runId);
    hide Fold, Applied, ChangesIn, Scanned, Plain, TargetOf, Editable, TransformAll, EditsFor, Get;
    forall e, p | e in edits && TargetOf(epic, e) == Some(p)
      ensures before[p] != [] && Get(after, p) == Some(TransformAll(before[p], EditsFor(epic, edits, p)))
    {
      LandedIsItsEdits(before, after, unreadable, epic, edits, runId, p);
    }
  }

  /** A pass that did nothing changes nothing. */
  lemma {:induction false} NothingToChange(after: Files, d: Draft, order: seq<Path>)
    requires forall p :: p in order ==> p in d.files && d.files[p].original == Some(d.files[p].current)
    ensures ChangesIn(d, order) == []
  {
    if order != [] {
      assert order == Init(order) + [Last(order)];
      NothingToChange(after, d, Init(order));
    }
  }

  lemma {:induction false} AllSkipped(fates: seq<Fate>)
    requires forall i :: 0 <= i < |fates| ==> fates[i].Skipped?
    ensures |SkippedOf(fates)| == |SkipEvents(fates)| == |fates|
    ensures forall i :: 0 <= i < |fates| ==> SkipEvents(fates)[i] == EditSkipped(fates[i])
  {
    if fates != [] {
      AllSkipped(Init(fates));
    }
  }

  /** On the tree a landed safe proposal leaves, the same proposal has nothing to change. */
  lemma ReplayChangesNothing(before: Files, after: Files, unreadable: set<Path>, epic: Epic, edits: seq<Edit>,
      runId: string)
    requires LandedTree(before, after, unreadable, epic, edits)
    ensures var d := Fold(after, unreadable, epic, edits, runId);
            && |d.fates| == |edits| && (forall i :: 0 <= i < |edits| ==> d.fates[i].Skipped?)
            && (forall p :: p in d.order ==> p in d.files) && ChangesIn(d, d.order) == []
  {
    var d := Fold(after, unreadable, epic, edits, runId);
    ReplaySkipsEverything(before, after, unreadable, epic, edits, runId, |edits|);
    assert edits[..|edits|] == edits;
    LandedIsScannedTree(before, after, unreadable, epic, edits);
    FoldKeeps(after, unreadable, epic, edits, runId);
    assert Tracks(d) && Remembers(after, d);
    hide Fold, FoldOk, ChangesIn, LandedTree;
    NothingToChange(after, d, d.order);
  }

  lemma LandedIsScannedTree(before: Files, after: Files, unreadable: set<Path>, epic: Epic, edits: seq<Edit>)
    requires LandedTree(before, after, unreadable, epic, edits)
    ensures Scanned(after, epic)
  {
    hide Scanned;
  }

  /** What the gates of one pass look at, and the run it belongs to. */
  datatype Occasion = Occasion(
    mode: MergeGates.Autonomy,
    killed: bool,
    state: RunStates.RunState,
    log: seq<RunStates.RunEvent>,
    budget: Budgets.BudgetConfig,
    now: int,
    runId: string)
  {
    predicate Opens() {
      !mode.ReviewMode? && !killed && Budgets.EvaluateBudget(state, log, budget, now).Within?
    }
  }

  lemma NothingApplied(before: Files)
    ensures Applied(before, before, [])
  {
  }

  /** Neither stopped at a gate nor undone. */
  predicate WentThrough(outcome: ApplyOutcome) {
    outcome.Landed? || outcome.Unchanged?
  }

  /** One pass of a safe proposal: if it was not stopped or undone, every target ends as its own edits make it. */
  method Land(repo: Backlog, unreadable: set<Path>, epic: Epic, now: Occasion, edits: seq<Edit>)
    returns (outcome: ApplyOutcome)
    requires SafeProposal(repo.files, unreadable, epic, edits)
    modifies repo
    ensures outcome.Gated? <==> !now.Opens()
    ensures WentThrough(outcome) ==> LandedTree(old(repo.files), repo.files, unreadable, epic, edits)
    ensures outcome.Landed? <==> repo.commits != old(repo.commits)
  {
    hide Fold, SkipEvents, AppliedEvents, TriageEvents, Applied, PathsOf, ChangesIn, Put, Get, Pending, Gate,
      LandedTree, SkippedOf, AppliedOf, Editable, Plain, Scanned;
    ghost var before := repo.files;
    NothingApplied(before);
    var events;
    ghost var torn;
    outcome, events, torn := RunApplyRefinement(repo, unreadable, epic, now.mode, now.killed, now.state, now.log,
                                                now.budget, now.now, edits, now.runId);
    if WentThrough(outcome) {
      LandedIsTree(before, repo.files, unreadable, epic, edits, now.runId);
    }
  }

  /** Another pass over such a tree: every edit is skipped, and neither the tree nor the history is touched. */
  method LandAgain(ghost before: Files, repo: Backlog, unreadable: set<Path>, epic: Epic, now: Occasion,
      edits: seq<Edit>)
    returns (events: seq<ApplyEvent>)
    requires LandedTree(before, repo.files, unreadable, epic, edits)
    modifies repo
    ensures repo.files == old(repo.files) && repo.commits == old(repo.commits)
    ensures now.Opens() ==>
              && |events| == |edits| + 1 && (forall i :: 0 <= i < |edits| ==> events[i].EditSkipped?)
              && Last(events) == ApplySummary(0, |edits|)
  {
    hide Fold, SkipEvents, AppliedEvents, TriageEvents, Applied, PathsOf, ChangesIn, Put, Get, Pending, Gate,
      LandedTree, SkippedOf, AppliedOf;
    LandedIsScannedTree(before, repo.files, unreadable, epic, edits);
    ReplayChangesNothing(before, repo.files, unreadable, epic, edits, now.runId);
    AllSkipped(Fold(repo.files, unreadable, epic, edits, now.runId).fates);
    var outcome;
    ghost var torn;
    outcome, events, torn := RunApplyRefinement(repo, unreadable, epic, now.mode, now.killed, now.state, now.log,
                                                now.budget, now.now, edits, now.runId);
  }

  /**
   * The same safe proposal applied twice, with the same tickets scanned: if the first pass went
   * through, the second skips every edit and touches neither the tree nor the history.
   */
  method LandTwice(repo: Backlog, unreadable: set<Path>, epic: Epic, first: Occasion, second: Occasion,
      edits: seq<Edit>)
    returns (outcome: ApplyOutcome, events: seq<ApplyEvent>, ghost between: Files, ghost history: seq<seq<Path>>)
    requires SafeProposal(repo.files, unreadable, epic, edits)
    modifies repo
    ensures outcome.Gated? <==> !first.Opens()
    ensures WentThrough(outcome) ==>
              && LandedTree(old(repo.files), between, unreadable, epic, edits)
              && repo.files == between && repo.commits == history
              && (second.Opens() ==>
                    && |events| == |edits| + 1 && (forall i :: 0 <= i < |edits| ==> events[i].EditSkipped?)
                    && Last(events) == ApplySummary(0, |edits|))
  {
    hide LandedTree, SafeProposal, Gate;
    ghost var before := repo.files;
    outcome := Land(repo, unreadable, epic, first, edits);
    between, history, events := repo.files, repo.commits, [];
    if WentThrough(outcome) {
      events := LandAgain(before, repo, unreadable, epic, second, edits);
    }
  }
}
