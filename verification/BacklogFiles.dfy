/**
 * The working tree a refinement writes to, and the write-commit-or-roll-back step at the end of
 * runApplyRefinement (src/applyRefinement.ts). Any write, removal or commit may fail, and a
 * failing write may leave anything behind at its own path.
 */
module BacklogFiles {
  import opened Prelude
  import opened Frontmatters

  type Path = string

  type Files = map<Path, Doc>

  function Get(files: Files, p: Path): Option<Doc> {
    if p in files then Some(files[p]) else None
  }

  function Put(files: Files, p: Path, content: Option<Doc>): (r: Files)
    ensures forall q :: Get(r, q) == if q == p then content else Get(files, q)
  {
    match content
    case Some(doc) => files[p := doc]
    case None => files - {p}
  }

  lemma SameFiles(a: Files, b: Files)
    requires forall p :: Get(a, p) == Get(b, p)
    ensures a == b
  {
    forall p
      ensures p in a <==> p in b
      ensures p in a ==> a[p] == b[p]
    {
      assert Get(a, p) == Get(b, p);
    }
  }

  /** One file's pending change: what it held (None for a file to create) and what it will hold. */
  datatype Change = Change(path: Path, original: Option<Doc>, current: Doc)

  function PathsOf(changes: seq<Change>): (paths: seq<Path>)
    ensures |paths| == |changes| && forall i :: 0 <= i < |changes| ==> paths[i] == changes[i].path
  {
    seq(|changes|, i requires 0 <= i < |changes| => changes[i].path)
  }

  predicate DistinctPaths(changes: seq<Change>) {
    forall i, j :: 0 <= i < j < |changes| ==> changes[i].path != changes[j].path
  }

  /** The pending content of a path, if it is among the changes. */
  function Pending(changes: seq<Change>, p: Path): Option<Doc> {
    if changes == [] then None
    else if changes[0].path == p then Some(changes[0].current)
    else Pending(changes[1..], p)
  }

  /** `files` is `before` with these changes made and, if a write tore, what it left. */
  ghost predicate Overlaid(before: Files, files: Files, changes: seq<Change>, torn: Option<Torn>) {
    forall p :: Get(files, p) ==
      if Pending(changes, p).Some? then Pending(changes, p)
      else if torn.Some? && p == torn.value.path then torn.value.left
      else Get(before, p)
  }

  /** A failed write and what it left at its path. */
  datatype Torn = Torn(path: Path, left: Option<Doc>)

  lemma {:induction false} PendingIsListed(changes: seq<Change>, p: Path)
    requires Pending(changes, p).Some?
    ensures exists i :: 0 <= i < |changes| && changes[i].path == p && Pending(changes, p) == Some(changes[i].current)
  {
    if changes[0].path != p {
      PendingIsListed(changes[1..], p);
      var i :| 0 <= i < |changes[1..]| && changes[1..][i].path == p
        && Pending(changes[1..], p) == Some(changes[1..][i].current);
      assert changes[i + 1] == changes[1..][i];
    }
  }

  lemma {:induction false} UnlistedIsNotPending(changes: seq<Change>, p: Path)
    requires forall c :: c in changes ==> c.path != p
    ensures Pending(changes, p).None?
  {
    if changes != [] {
      assert changes[0] in changes;
      UnlistedIsNotPending(changes[1..], p);
    }
  }

  lemma {:induction false} ListedIsPending(changes: seq<Change>, i: nat)
    requires i < |changes| && DistinctPaths(changes)
    ensures Pending(changes, changes[i].path) == Some(changes[i].current)
  {
    if i > 0 {
      ListedIsPending(changes[1..], i - 1);
    }
  }

  lemma {:induction false} PendingSnoc(changes: seq<Change>, c: Change, p: Path)
    ensures Pending(changes + [c], p) ==
            if Pending(changes, p).Some? then Pending(changes, p) else if c.path == p then Some(c.current) else None
  {
    if changes == [] {
      assert Pending([c][1..], p) == None;
    } else {
      assert (changes + [c])[1..] == changes[1..] + [c];
      PendingSnoc(changes[1..], c, p);
    }
  }

  /** What a successful apply must leave: the tree as it was, overridden on the changed paths only. */
  ghost predicate Applied(before: Files, after: Files, changes: seq<Change>) {
    Overlaid(before, after, changes, None)
  }

  datatype CommitResult = Committed | RolledBack | RollbackFailed

  class Backlog {
    var files: Files
    /** How many writes and removals were tried. */
    var tries: nat
    /** Which of them fail, and what they leave. */
    const faults: map<nat, Option<Doc>>
    const commitFails: bool
    var commits: seq<seq<Path>>

    constructor (files: Files, faults: map<nat, Option<Doc>>, commitFails: bool)
      ensures this.files == files && this.faults == faults && this.commitFails == commitFails
      ensures tries == 0 && commits == []
    {
      this.files, this.faults, this.commitFails := files, faults, commitFails;
      tries, commits := 0, [];
    }

    /** writeFile */
    method WriteFile(p: Path, doc: Doc) returns (ok: bool)
      modifies this`files, this`tries
      ensures tries == old(tries) + 1 && ok == (old(tries) !in faults)
      ensures files == Put(old(files), p, if ok then Some(doc) else faults[old(tries)])
    {
      ok := tries !in faults;
      files := Put(files, p, if ok then Some(doc) else faults[tries]);
      tries := tries + 1;
    }

    /** rm(p, { force: true }) */
    method Remove(p: Path) returns (ok: bool)
      modifies this`files, this`tries
      ensures tries == old(tries) + 1 && ok == (old(tries) !in faults)
      ensures files == Put(old(files), p, if ok then None else faults[old(tries)])
    {
      ok := tries !in faults;
      files := Put(files, p, if ok then None else faults[tries]);
      tries := tries + 1;
    }

    method CommitPaths(paths: seq<Path>) returns (ok: bool)
      modifies this`commits
      ensures ok == !commitFails
      ensures commits == old(commits) + (if ok then [paths] else [])
    {
      ok := !commitFails;
      if ok {
        commits := commits + [paths];
      }
    }

    /** Restore what was written, in the order it was written; stop at the first failure. */
    method RollBack(ghost before: Files, written: seq<Change>, ghost torn: Option<Torn>) returns (ok: bool)
      requires DistinctPaths(written) && Overlaid(before, files, written, torn)
      requires forall c :: c in written ==> c.original == Get(before, c.path)
      requires torn.Some? ==> Pending(written, torn.value.path).None?
      modifies this`files, this`tries
      ensures ok ==> Overlaid(before, files, [], torn)
      ensures !ok ==> exists t :: t in faults && t >= old(tries)
      ensures forall p :: Pending(written, p).None? ==> Get(files, p) == Get(old(files), p)
    {
      ghost var start := files;
      hide Put, Pending;
      assert written[0..] == written;
      for j := 0 to |written|
        invariant Overlaid(before, files, written[j..], torn)
        invariant forall p :: Pending(written, p).None? ==> Get(files, p) == Get(start, p)
        invariant tries >= old(tries)
      {
        var c := written[j];
        ghost var mid := files;
        if c.original.None? {
          ok := Remove(c.path);
        } else {
          ok := WriteFile(c.path, c.original.value);
        }
        ListedIsPending(written, j);
        if !ok {
          return;
        }
        RestoreOne(before, mid, files, written, j, torn);
      }
      assert written[|written|..] == [];
      ok := true;
    }

    /**
     * Write every change, then commit once; on any failure undo what was written. A rollback gives
     * back the tree exactly when no write failed or the one that did had left its own file alone.
     */
    method CommitChanges(changes: seq<Change>) returns (r: CommitResult, ghost torn: Option<Torn>, ghost written: nat)
      requires DistinctPaths(changes) && forall c :: c in changes ==> c.original == Get(files, c.path)
      modifies this
      ensures r.Committed? ==> Applied(old(files), files, changes) && commits == old(commits) + [PathsOf(changes)]
      ensures !r.Committed? ==> commits == old(commits)
      ensures r.RolledBack? ==>
                (files == old(files) <==> torn.None? || torn.value.left == Get(old(files), torn.value.path))
      ensures r.RolledBack? && torn.Some? ==>
                && Pending(changes, torn.value.path).Some?
                && files == Put(old(files), torn.value.path, torn.value.left)
      ensures written <= |changes| && forall t :: old(tries) <= t < old(tries) + written ==> t !in faults
      ensures torn == if written == |changes| then None
                      else if old(tries) + written in faults then
                        Some(Torn(changes[written].path, faults[old(tries) + written]))
                      else None
      ensures torn.None? ==> written == |changes|
      ensures r.Committed? <==> torn.None? && !commitFails
      ensures r.RollbackFailed? ==> exists t :: t in faults && t >= old(tries) + written + (if torn.Some? then 1 else 0)
      ensures forall p :: Pending(changes, p).None? ==> Get(files, p) == Get(old(files), p)
    {
      ghost var before, first := files, tries;
      torn := None;
      var done := 0;
      written := 0;
      var ok := true;
      NothingOverlaid(before);
      while ok && done < |changes|
        invariant 0 <= done <= |changes| && written == done
        invariant tries == first + done + (if ok then 0 else 1)
        invariant ok ==> torn == None
        invariant forall t :: first <= t < first + done ==> t !in faults
        invariant !ok ==> done < |changes| && first + done in faults
                          && torn == Some(Torn(changes[done].path, faults[first + done]))
        invariant Overlaid(before, files, changes[..done], torn)
        invariant commits == old(commits)
        decreases |changes| - done, ok
      {
        ghost var mid := files;
        var c := changes[done];
        ok := WriteFile(c.path, c.current);
        if ok {
          WriteOne(before, mid, files, changes, done);
          done := done + 1;
          written := done;
        } else {
          torn := Some(Torn(c.path, faults[first + done]));
          TearOne(before, mid, files, changes, done, torn.value);
        }
      }
      if ok {
        assert changes[..done] == changes;
        ok := CommitPaths(PathsOf(changes));
        if ok {
          r := Committed;
          return;
        }
      }
      FrontIsDistinct(changes, done);
      if torn.Some? {
        NotWrittenYet(changes, done);
      }
      OverlaidOutside(before, files, changes, done, torn);
      var restored := RollBack(before, changes[..done], torn);
      r := if restored then RolledBack else RollbackFailed;
      if restored {
        RolledBackIs(before, files, torn);
        if torn.Some? {
          TearIsUndoneIff(before, torn.value);
        }
      }
      if torn.Some? {
        ListedIsPending(changes, done);
      }
      forall p | Pending(changes, p).None?
        ensures Get(files, p) == Get(before, p)
      {
        FrontPending(changes, done, p);
      }
    }
  }

  lemma NothingOverlaid(before: Files)
    ensures forall changes: seq<Change> :: Overlaid(before, before, changes[..0], None)
  {
  }

  lemma FrontIsDistinct(changes: seq<Change>, n: nat)
    requires DistinctPaths(changes) && n <= |changes|
    ensures DistinctPaths(changes[..n])
  {
  }

  lemma FrontPending(changes: seq<Change>, n: nat, p: Path)
    requires n <= |changes| && Pending(changes, p).None?
    ensures Pending(changes[..n], p).None?
  {
    if Pending(changes[..n], p).Some? {
      PendingIsListed(changes[..n], p);
      var i :| 0 <= i < n && changes[..n][i].path == p;
      PathIsPending(changes, i);
    }
  }

  lemma {:induction false} PathIsPending(changes: seq<Change>, i: nat)
    requires i < |changes|
    ensures Pending(changes, changes[i].path).Some?
  {
    if changes[0].path != changes[i].path {
      PathIsPending(changes[1..], i - 1);
    }
  }

  lemma NotWrittenYet(changes: seq<Change>, n: nat)
    requires DistinctPaths(changes) && n < |changes|
    ensures Pending(changes[..n], changes[n].path).None?
  {
    if Pending(changes[..n], changes[n].path).Some? {
      PendingIsListed(changes[..n], changes[n].path);
    }
  }

  lemma WriteOne(before: Files, mid: Files, files: Files, changes: seq<Change>, n: nat)
    requires DistinctPaths(changes) && n < |changes| && Overlaid(before, mid, changes[..n], None)
    requires files == Put(mid, changes[n].path, Some(changes[n].current))
    ensures Overlaid(before, files, changes[..n + 1], None)
  {
    NotWrittenYet(changes, n);
    assert changes[..n + 1] == changes[..n] + [changes[n]];
    forall p
      ensures Get(files, p) == if Pending(changes[..n + 1], p).Some? then Pending(changes[..n + 1], p)
              else Get(before, p)
    {
      PendingSnoc(changes[..n], changes[n], p);
    }
  }

  lemma TearOne(before: Files, mid: Files, files: Files, changes: seq<Change>, n: nat, torn: Torn)
    requires DistinctPaths(changes) && n < |changes| && Overlaid(before, mid, changes[..n], None)
    requires torn.path == changes[n].path && files == Put(mid, torn.path, torn.left)
    ensures Overlaid(before, files, changes[..n], Some(torn))
  {
    NotWrittenYet(changes, n);
  }

  lemma RestoreOne(before: Files, mid: Files, files: Files, written: seq<Change>, j: nat, torn: Option<Torn>)
    requires DistinctPaths(written) && j < |written| && Overlaid(before, mid, written[j..], torn)
    requires written[j].original == Get(before, written[j].path)
    requires torn.Some? ==> Pending(written, torn.value.path).None?
    requires files == Put(mid, written[j].path, written[j].original)
    ensures Overlaid(before, files, written[j + 1..], torn)
  {
    var c := written[j];
    assert written[j..][0] == c && written[j..][1..] == written[j + 1..];
    ListedIsPending(written, j);
    assert Pending(written[j + 1..], c.path).None? by {
      if Pending(written[j + 1..], c.path).Some? {
        PendingIsListed(written[j + 1..], c.path);
      }
    }
    forall p
      ensures Pending(written[j..], p) == if p == c.path then Some(c.current) else Pending(written[j + 1..], p)
    {
    }
  }

  /** Outside the changes nothing is touched, torn or not. */
  lemma OverlaidOutside(before: Files, files: Files, changes: seq<Change>, n: nat, torn: Option<Torn>)
    requires n <= |changes| && Overlaid(before, files, changes[..n], torn)
    requires torn.Some? ==> n < |changes| && torn.value.path == changes[n].path
    ensures forall p :: Pending(changes, p).None? ==> Get(files, p) == Get(before, p)
  {
    forall p | Pending(changes, p).None?
      ensures Get(files, p) == Get(before, p)
    {
      FrontPending(changes, n, p);
      if torn.Some? {
        PathIsPending(changes, n);
      }
    }
  }

  lemma RolledBackIs(before: Files, files: Files, torn: Option<Torn>)
    requires Overlaid(before, files, [], torn)
    ensures files == if torn.Some? then Put(before, torn.value.path, torn.value.left) else before
  {
    var expected := if torn.Some? then Put(before, torn.value.path, torn.value.left) else before;
    forall p
      ensures Get(files, p) == Get(expected, p)
    {
    }
    SameFiles(files, expected);
  }

  lemma TearIsUndoneIff(before: Files, torn: Torn)
    ensures Put(before, torn.path, torn.left) == before <==> torn.left == Get(before, torn.path)
  {
    var after := Put(before, torn.path, torn.left);
    assert Get(after, torn.path) == torn.left;
    if torn.left == Get(before, torn.path) {
      SameFiles(after, before);
    }
  }

  /** A write that fails half-way through an existing file: the rollback reports success and leaves it torn. */
  method TornWriteExample() returns (b: Backlog, r: CommitResult)
    ensures r.RolledBack? && b.commits == []
    ensures Get(b.files, "T.md") == Some([""])
  {
    b := new Backlog(map["T.md" := ["# T"]], map[0 := Some([""])], false);
    var changes := [Change("T.md", Some(["# T"]), ["# T", "more"])];
    assert Get(b.files, "T.md") == Some(["# T"]);
    ghost var torn, written;
    r, torn, written := b.CommitChanges(changes);
    assert 0 in b.faults;
    assert written == 0;
    assert torn == Some(Torn("T.md", Some([""])));
  }
}
