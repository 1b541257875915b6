/**
 * The trace of what a run did to the outside world, and the evidence a merge must rest on.
 * `StageOf` reads a trace and keeps, for one ticket, where each piece of evidence was last
 * established; anything that undoes a piece drops it and all that was built on it.
 */
module Evidence {
  import opened Prelude
  import opened RunStates
  import opened LoopStates
  import opened MergeGates

  datatype Bucket = Pass | Fail | Pending | Skipping | Cancel | OtherBucket

  datatype Check = Check(name: string, bucket: Bucket)

  /** One `gh pr checks` poll: unusable output, or the parsed list. */
  datatype CiPoll = Unusable(noChecksReported: bool) | Checks(checks: seq<Check>)

  /** A non-empty list with no failed, cancelled or pending check. */
  predicate GreenPoll(p: CiPoll) {
    p.Checks? && p.checks != []
    && forall c :: c in p.checks ==> c.bucket != Fail && c.bucket != Cancel && c.bucket != Pending
  }

  datatype Effect =
    | Begin(id: TicketId, ticketRel: string, golden: bool, resumed: Option<LoopState>)
    | OpenWorktree(id: TicketId, made: bool)
    | StartCommand(id: TicketId, started: bool)
    | Build(id: TicketId)
    | Verify(id: TicketId, passed: bool)
    | AskConsult(id: TicketId)
    | Capture(id: TicketId, hash: string)
    | Summarize(id: TicketId, diff: DiffSummary)
    | ReviewCall(id: TicketId, verdict: Verdict)
    | CloseTicket(id: TicketId)
    | Push(id: TicketId)
    | CreatePr(id: TicketId)
    | PollCi(id: TicketId, poll: CiPoll)
    | ReadRequest(id: TicketId, request: Option<string>)
    | MergePr(id: TicketId)
    | MergeReturned(id: TicketId)
    | MarkEscalated(id: TicketId)
    | CleanupReturned(id: TicketId)

  type Trace = seq<Effect>

  datatype Baseline = Baseline(at: nat, hash: string)

  /** Where the ticket was taken up, its last builder call and the verification that passed since. */
  datatype Work = Work(
    begin: Option<nat>,
    ticketRel: string,
    golden: bool,
    trusted: bool,
    built: Option<nat>,
    verified: Option<nat>)

  /** Where the build was seen to change something, and to keep the golden output. */
  datatype Checked = Checked(substantive: Option<nat>, baseline: Option<Baseline>, goldenKept: Option<nat>)

  /** Where the reviewer approved and each step towards the merge was taken. */
  datatype Ship = Ship(
    approved: Option<nat>,
    closed: Option<nat>,
    pushed: Option<nat>,
    prOpen: Option<nat>,
    ciGreen: Option<nat>,
    lowRisk: Option<nat>,
    autopilot: Option<nat>)
  {
    /** Everything a merge must rest on. */
    predicate Ready() {
      && approved.Some? && closed.Some? && pushed.Some? && prOpen.Some?
      && ciGreen.Some? && lowRisk.Some? && autopilot.Some?
    }
  }

  /** Positions in the trace at which each piece of evidence currently stands. */
  datatype Stage = Stage(work: Work, checked: Checked, ship: Ship)
  {
    /** What a review may rest on: in a run resumed at Review, the build is taken on trust. */
    predicate Grounded() {
      if work.trusted then work.built.None? || work.verified.Some?
      else work.verified.Some? && checked.substantive.Some? && (work.golden ==> checked.goldenKept.Some?)
    }
  }

  const NO_WORK: Work := Work(None, "", false, false, None, None)
  const NO_CHECKED: Checked := Checked(None, None, None)
  const NO_SHIP: Ship := Ship(None, None, None, None, None, None, None)
  const NO_STAGE: Stage := Stage(NO_WORK, NO_CHECKED, NO_SHIP)

  function NextWork(w: Work, e: Effect, pos: nat): Work {
    match e
    case Begin(_, rel, golden, resumed) => Work(Some(pos), rel, golden, resumed == Some(Review), None, None)
    case Build(_) => w.(built := Some(pos), verified := None)
    case Verify(_, passed) => w.(verified := if passed && w.built.Some? then Some(pos) else None)
    case _ => w
  }

  function NextChecked(c: Checked, w: Work, closed: bool, e: Effect, pos: nat): Checked {
    match e
    case Begin(_, _, _, _) => NO_CHECKED
    case Capture(_, hash) =>
      if w.built.None? then c.(baseline := Some(Baseline(pos, hash)), goldenKept := None)
      else
        var diffed := w.verified.Some? && c.substantive.Some? && w.verified.value < c.substantive.value;
        var kept := diffed && c.baseline.Some? && c.baseline.value.hash == hash;
        c.(goldenKept := if kept then Some(pos) else None)
    case Summarize(_, diff) =>
      if closed then c
      else
        var found := w.verified.Some? && SubstantiveChangedFiles(diff.changedFiles, w.ticketRel) != [];
        c.(substantive := if found then Some(pos) else None, goldenKept := None)
    case _ => c
  }

  function NextShip(s: Ship, grounded: bool, e: Effect, pos: nat, config: LoopConfig): Ship {
    match e
    case ReviewCall(_, verdict) =>
      NO_SHIP.(approved := if verdict == Approve && grounded then Some(pos) else None)
    case CloseTicket(_) =>
      NO_SHIP.(approved := s.approved, closed := Some(pos))
    case Push(_) =>
      NO_SHIP.(approved := s.approved, closed := s.closed, pushed := if s.closed.Some? then Some(pos) else None)
    case CreatePr(_) =>
      s.(prOpen := if s.pushed.Some? then Some(pos) else None, ciGreen := None, lowRisk := None, autopilot := None)
    case PollCi(_, poll) =>
      s.(ciGreen := if s.prOpen.Some? && GreenPoll(poll) then Some(pos) else None, lowRisk := None, autopilot := None)
    case Summarize(_, diff) =>
      if s.closed.None? then NO_SHIP
      else s.(lowRisk := if s.ciGreen.Some? && LowRisk(diff, config) then Some(pos) else None, autopilot := None)
    case ReadRequest(_, request) =>
      var auto := ResolveAutonomy(config.autonomy, request).mode == Autopilot;
      s.(autopilot := if s.lowRisk.Some? && auto then Some(pos) else None)
    case Begin(_, _, _, _) => NO_SHIP
    case Build(_) => NO_SHIP
    case Verify(_, _) => NO_SHIP
    case Capture(_, _) => NO_SHIP
    case _ => s
  }

  function NextStage(s: Stage, e: Effect, pos: nat, config: LoopConfig): Stage {
    Stage(NextWork(s.work, e, pos),
          NextChecked(s.checked, s.work, s.ship.closed.Some?, e, pos),
          NextShip(s.ship, s.Grounded(), e, pos, config))
  }

  /** Effects of other tickets leave a ticket's stage alone. */
  function StepStage(s: Stage, e: Effect, pos: nat, id: TicketId, config: LoopConfig): Stage {
    if e.id == id then NextStage(s, e, pos, config) else s
  }

  function StageOf(t: Trace, id: TicketId, config: LoopConfig): Stage {
    if t == [] then NO_STAGE
    else StepStage(StageOf(Init(t), id, config), Last(t), |t| - 1, id, config)
  }

  lemma StageOfAppend(t: Trace, e: Effect, config: LoopConfig)
    ensures StageOf(t + [e], e.id, config) == NextStage(StageOf(t, e.id, config), e, |t|, config)
    ensures forall id :: id != e.id ==> StageOf(t + [e], id, config) == StageOf(t, id, config)
  {
    InitOfAppend(t, e);
  }

  /** Where the configuration leaves no round for a fix, the build that was checked is the last one. */
  predicate Fresh(s: Stage, config: LoopConfig) {
    config.maxReviewRounds <= 1 && !s.work.trusted ==>
      s.work.built.Some? && s.checked.substantive.Some? && s.work.built.value < s.checked.substantive.value
  }

  predicate MayMerge(s: Stage, config: LoopConfig) {
    s.work.begin.Some? && s.ship.Ready() && Fresh(s, config)
  }

  /** Every merge in the trace came when all of its evidence stood, and only a merge returns as one. */
  predicate MergesAreReady(t: Trace, config: LoopConfig) {
    && (forall m :: 0 <= m < |t| && t[m].MergePr? ==> MayMerge(StageOf(t[..m], t[m].id, config), config))
    && (forall m {:trigger t[m].MergeReturned?} :: 0 <= m < |t| && t[m].MergeReturned? ==>
          m > 0 && t[m - 1] == MergePr(t[m].id))
  }

  lemma MergesAppend(t: Trace, e: Effect, config: LoopConfig)
    requires MergesAreReady(t, config)
    requires e.MergePr? ==> MayMerge(StageOf(t, e.id, config), config)
    requires e.MergeReturned? ==> t != [] && Last(t) == MergePr(e.id)
    ensures MergesAreReady(t + [e], config)
  {
    forall m | 0 <= m < |t + [e]| && (t + [e])[m].MergeReturned?
      ensures m > 0 && (t + [e])[m - 1] == MergePr((t + [e])[m].id)
    {
      if m < |t| {
        assert t[m].MergeReturned?;
      }
    }
    forall m | 0 <= m < |t + [e]| && (t + [e])[m].MergePr?
      ensures MayMerge(StageOf((t + [e])[..m], (t + [e])[m].id, config), config)
    {
      if m < |t| {
        assert (t + [e])[..m] == t[..m] && (t + [e])[m] == t[m];
      } else {
        assert (t + [e])[..m] == t;
      }
    }
  }

  // ----- what the positions mean -----

  datatype Kind = KBegin | KBuild | KVerify | KReview | KPoll | KConsult | KOther

  function KindOf(e: Effect): Kind {
    match e
    case Begin(_, _, _, _) => KBegin
    case Build(_) => KBuild
    case Verify(_, _) => KVerify
    case ReviewCall(_, _) => KReview
    case PollCi(_, _) => KPoll
    case AskConsult(_) => KConsult
    case _ => KOther
  }

  /** No effect of this kind for this ticket in t[lo..hi]. */
  predicate Absent(t: Trace, lo: nat, hi: nat, id: TicketId, kind: Kind)
    requires hi <= |t|
  {
    forall k :: lo <= k < hi && t[k].id == id ==> KindOf(t[k]) != kind
  }

  predicate BeginHolds(t: Trace, id: TicketId, w: Work) {
    w.begin.Some? ==>
      var b := w.begin.value;
      && b < |t| && t[b].Begin? && t[b].id == id
      && t[b].ticketRel == w.ticketRel && t[b].golden == w.golden && (w.trusted <==> t[b].resumed == Some(Review))
      && Absent(t, b + 1, |t|, id, KBegin)
      && (w.built.None? ==> Absent(t, b, |t|, id, KBuild))
  }

  predicate BuildHolds(t: Trace, id: TicketId, w: Work) {
    && (w.built.Some? ==>
          && w.built.value < |t| && t[w.built.value] == Build(id)
          && (w.begin.Some? ==> w.begin.value < w.built.value)
          && Absent(t, w.built.value + 1, |t|, id, KBuild))
    && (w.verified.Some? ==>
          && w.built.Some? && w.built.value < w.verified.value < |t|
          && t[w.verified.value] == Verify(id, true)
          && Absent(t, w.verified.value + 1, |t|, id, KVerify))
  }

  predicate WorkHolds(t: Trace, id: TicketId, w: Work) {
    BeginHolds(t, id, w) && BuildHolds(t, id, w)
  }

  /** At position d a build stood verified, in the lifecycle that work belongs to. */
  predicate VerifiedAt(t: Trace, d: nat, id: TicketId, begin: Option<nat>, config: LoopConfig)
    requires d <= |t|
  {
    var w := StageOf(t[..d], id, config).work;
    w.verified.Some? && w.begin == begin
  }

  /** The diff was summarized while a verified build stood and goes beyond the ticket file. */
  predicate DiffHolds(t: Trace, id: TicketId, s: Stage, config: LoopConfig) {
    s.checked.substantive.Some? ==>
      var d := s.checked.substantive.value;
      && d < |t| && t[d].Summarize? && t[d].id == id
      && (s.work.begin.Some? ==> s.work.begin.value < d)
      && SubstantiveChangedFiles(t[d].diff.changedFiles, s.work.ticketRel) != []
      && VerifiedAt(t, d, id, s.work.begin, config)
  }

  /** A baseline captured before any build. */
  predicate BaselineHolds(t: Trace, id: TicketId, w: Work, c: Checked) {
    c.baseline.Some? ==>
      && c.baseline.value.at < |t| && t[c.baseline.value.at] == Capture(id, c.baseline.value.hash)
      && (w.begin.Some? ==> w.begin.value < c.baseline.value.at
                            && Absent(t, w.begin.value, c.baseline.value.at, id, KBuild))
  }

  /** The baseline's hash captured again after the diff, while the build the diff was taken of still stood. */
  predicate KeptHolds(t: Trace, id: TicketId, w: Work, c: Checked, config: LoopConfig) {
    c.goldenKept.Some? ==>
      && c.baseline.Some? && c.baseline.value.at < c.goldenKept.value < |t|
      && t[c.goldenKept.value] == Capture(id, c.baseline.value.hash)
      && c.substantive.Some? && c.substantive.value < c.goldenKept.value
      && VerifiedAt(t, c.goldenKept.value, id, w.begin, config)
      && StageOf(t[..c.goldenKept.value], id, config).work.verified.value < c.substantive.value
  }

  predicate GoldenHolds(t: Trace, id: TicketId, w: Work, c: Checked, config: LoopConfig) {
    BaselineHolds(t, id, w, c) && KeptHolds(t, id, w, c, config)
  }

  predicate ReviewHolds(t: Trace, id: TicketId, s: Stage) {
    s.ship.approved.Some? ==>
      var r := s.ship.approved.value;
      && r < |t| && t[r] == ReviewCall(id, Approve) && s.Grounded()
      && (s.work.begin.Some? ==> s.work.begin.value < r)
      && (s.work.verified.Some? ==> s.work.verified.value < r)
      && (s.checked.substantive.Some? ==> s.checked.substantive.value < r)
      && (s.checked.goldenKept.Some? ==> s.checked.goldenKept.value < r)
      && Absent(t, r + 1, |t|, id, KReview)
  }

  /** closeTicket, push and createPr in this order, after the review. */
  predicate ShipHolds(t: Trace, id: TicketId, s: Ship) {
    && (s.approved.Some? ==> s.approved.value < |t|)
    && (s.closed.Some? ==>
          && s.closed.value < |t| && t[s.closed.value] == CloseTicket(id)
          && (s.approved.Some? ==> s.approved.value < s.closed.value))
    && (s.pushed.Some? ==> s.closed.Some? && s.closed.value < s.pushed.value < |t| && t[s.pushed.value] == Push(id))
    && (s.prOpen.Some? ==> s.pushed.Some? && s.pushed.value < s.prOpen.value < |t| && t[s.prOpen.value] == CreatePr(id))
  }

  /** Last CI poll green, then a low-risk diff, then an effective mode of autopilot. */
  predicate GateHolds(t: Trace, id: TicketId, s: Ship, config: LoopConfig) {
    && (s.ciGreen.Some? ==>
          && s.prOpen.Some? && s.prOpen.value < s.ciGreen.value < |t|
          && t[s.ciGreen.value].PollCi? && t[s.ciGreen.value].id == id && GreenPoll(t[s.ciGreen.value].poll)
          && Absent(t, s.ciGreen.value + 1, |t|, id, KPoll))
    && (s.lowRisk.Some? ==>
          && s.ciGreen.Some? && s.ciGreen.value < s.lowRisk.value < |t|
          && t[s.lowRisk.value].Summarize? && t[s.lowRisk.value].id == id
          && LowRisk(t[s.lowRisk.value].diff, config))
    && (s.autopilot.Some? ==>
          && s.lowRisk.Some? && s.lowRisk.value < s.autopilot.value < |t|
          && t[s.autopilot.value].ReadRequest? && t[s.autopilot.value].id == id
          && ResolveAutonomy(config.autonomy, t[s.autopilot.value].request).mode == Autopilot)
  }

  /** The facts behind a stage's positions, in the trace they point into. */
  predicate Holds(t: Trace, id: TicketId, s: Stage, config: LoopConfig) {
    && WorkHolds(t, id, s.work)
    && DiffHolds(t, id, s, config)
    && GoldenHolds(t, id, s.work, s.checked, config)
    && ReviewHolds(t, id, s)
    && ShipHolds(t, id, s.ship)
    && GateHolds(t, id, s.ship, config)
  }

  lemma AbsentStep(t: Trace, e: Effect, lo: nat, id: TicketId, kind: Kind)
    ensures Absent(t, lo, |t|, id, kind) && !(e.id == id && KindOf(e) == kind)
            ==> Absent(t + [e], lo, |t| + 1, id, kind)
    ensures lo == |t| + 1 ==> Absent(t + [e], lo, |t| + 1, id, kind)
  {
  }

  lemma AbsentKeep(t: Trace, e: Effect, lo: nat, hi: nat, id: TicketId, kind: Kind)
    requires hi <= |t|
    ensures Absent(t + [e], lo, hi, id, kind) == Absent(t, lo, hi, id, kind)
  {
    assert forall k :: lo <= k < hi ==> (t + [e])[k] == t[k];
  }

  lemma BeginStep(t: Trace, e: Effect, id: TicketId, w: Work)
    requires BeginHolds(t, id, w)
    ensures BeginHolds(t + [e], id, if e.id == id then NextWork(w, e, |t|) else w)
  {
    var w' := if e.id == id then NextWork(w, e, |t|) else w;
    if w'.begin.Some? {
      AbsentStep(t, e, w'.begin.value + 1, id, KBegin);
      if w'.begin.value < |t| {
        AbsentStep(t, e, w'.begin.value, id, KBuild);
      }
    }
  }

  lemma WorkStep(t: Trace, e: Effect, id: TicketId, w: Work)
    requires WorkHolds(t, id, w)
    ensures WorkHolds(t + [e], id, if e.id == id then NextWork(w, e, |t|) else w)
  {
    var w' := if e.id == id then NextWork(w, e, |t|) else w;
    BeginStep(t, e, id, w);
    assert w.begin.Some? ==> w.begin.value < |t|;
    assert BuildHolds(t + [e], id, w') by {
      hide BeginHolds;
      if w'.built.Some? {
        AbsentStep(t, e, w'.built.value + 1, id, KBuild);
      }
      if w'.verified.Some? {
        AbsentStep(t, e, w'.verified.value + 1, id, KVerify);
      }
    }
  }

  lemma DiffStep(t: Trace, e: Effect, id: TicketId, s: Stage, config: LoopConfig)
    requires WorkHolds(t, id, s.work) && DiffHolds(t, id, s, config)
    requires s == StageOf(t, id, config)
    ensures DiffHolds(t + [e], id, StepStage(s, e, |t|, id, config), config)
  {
    if s.checked.substantive.Some? {
      assert (t + [e])[..s.checked.substantive.value] == t[..s.checked.substantive.value];
    }
    assert (t + [e])[..|t|] == t;
  }

  /** What was verified at a position stays so as the trace grows. */
  lemma VerifiedKeeps(t: Trace, e: Effect, d: nat, id: TicketId, begin: Option<nat>, config: LoopConfig)
    requires d <= |t|
    ensures VerifiedAt(t + [e], d, id, begin, config) == VerifiedAt(t, d, id, begin, config)
    ensures (t + [e])[..d] == t[..d]
  {
    assert (t + [e])[..d] == t[..d];
    hide StageOf;
  }

  lemma VerifiedNow(t: Trace, e: Effect, id: TicketId, s: Stage, config: LoopConfig)
    requires s == StageOf(t, id, config) && s.work.verified.Some?
    ensures VerifiedAt(t + [e], |t|, id, s.work.begin, config) && (t + [e])[..|t|] == t
  {
    assert (t + [e])[..|t|] == t;
    hide StageOf;
  }

  lemma BaselineStep(t: Trace, e: Effect, id: TicketId, s: Stage, config: LoopConfig)
    requires BeginHolds(t, id, s.work) && BaselineHolds(t, id, s.work, s.checked)
    ensures var s' := StepStage(s, e, |t|, id, config); BaselineHolds(t + [e], id, s'.work, s'.checked)
  {
    hide StageOf, NextShip, SubstantiveChangedFiles, Stage.Grounded;
    var s' := StepStage(s, e, |t|, id, config);
    if s'.checked.baseline.Some? && s'.work.begin.Some? {
      AbsentKeep(t, e, s'.work.begin.value, s'.checked.baseline.value.at, id, KBuild);
    }
  }

  lemma KeptStep(t: Trace, e: Effect, id: TicketId, s: Stage, config: LoopConfig)
    requires DiffHolds(t, id, s, config) && GoldenHolds(t, id, s.work, s.checked, config)
    requires s == StageOf(t, id, config)
    ensures var s' := StepStage(s, e, |t|, id, config); KeptHolds(t + [e], id, s'.work, s'.checked, config)
  {
    hide StageOf, NextShip, SubstantiveChangedFiles, Stage.Grounded, VerifiedAt, Absent;
    if s.checked.goldenKept.Some? {
      VerifiedKeeps(t, e, s.checked.goldenKept.value, id, s.work.begin, config);
    }
    if s.work.verified.Some? {
      VerifiedNow(t, e, id, s, config);
    }
  }

  lemma ReviewHoldsStep(t: Trace, e: Effect, id: TicketId, s: Stage, config: LoopConfig)
    requires WorkHolds(t, id, s.work) && DiffHolds(t, id, s, config) && GoldenHolds(t, id, s.work, s.checked, config)
    requires ReviewHolds(t, id, s)
    ensures ReviewHolds(t + [e], id, StepStage(s, e, |t|, id, config))
  {
    var s' := StepStage(s, e, |t|, id, config);
    if s'.ship.approved.Some? {
      AbsentStep(t, e, s'.ship.approved.value + 1, id, KReview);
    }
  }

  lemma ShipStep(t: Trace, e: Effect, id: TicketId, s: Stage, config: LoopConfig)
    requires ShipHolds(t, id, s.ship)
    ensures ShipHolds(t + [e], id, if e.id == id then NextShip(s.ship, s.Grounded(), e, |t|, config) else s.ship)
  {
  }

  lemma GateStep(t: Trace, e: Effect, id: TicketId, s: Stage, config: LoopConfig)
    requires ShipHolds(t, id, s.ship) && GateHolds(t, id, s.ship, config)
    ensures var s' := if e.id == id then NextShip(s.ship, s.Grounded(), e, |t|, config) else s.ship;
            GateHolds(t + [e], id, s', config)
  {
    hide GreenPoll, LowRisk, ResolveAutonomy, Stage.Grounded;
    var s' := if e.id == id then NextShip(s.ship, s.Grounded(), e, |t|, config) else s.ship;
    if s'.ciGreen.Some? {
      AbsentStep(t, e, s'.ciGreen.value + 1, id, KPoll);
    }
  }

  lemma HoldsStep(t: Trace, e: Effect, id: TicketId, s: Stage, config: LoopConfig)
    requires Holds(t, id, s, config) && s == StageOf(t, id, config)
    ensures Holds(t + [e], id, StepStage(s, e, |t|, id, config), config)
  {
    WorkStep(t, e, id, s.work);
    DiffStep(t, e, id, s, config);
    BaselineStep(t, e, id, s, config);
    KeptStep(t, e, id, s, config);
    ReviewHoldsStep(t, e, id, s, config);
    ShipStep(t, e, id, s, config);
    GateStep(t, e, id, s, config);
    assert e.id == id ==> StepStage(s, e, |t|, id, config) == NextStage(s, e, |t|, config);
  }

  lemma {:induction false} StageHolds(t: Trace, id: TicketId, config: LoopConfig)
    ensures Holds(t, id, StageOf(t, id, config), config)
  {
    if t != [] {
      hide Holds, NextStage;
      var t0, e := Init(t), Last(t);
      StageHolds(t0, id, config);
      HoldsStep(t0, e, id, StageOf(t0, id, config), config);
      assert t == t0 + [e];
    }
  }

  // ----- the theorem -----

  datatype Positions = Positions(
    begin: nat, baseline: nat, checkedBuild: nat, checkedVerify: nat, diff: nat, golden: nat,
    build: nat, verify: nat, review: nat, close: nat, push: nat, pr: nat, ci: nat, risk: nat, mode: nat)

  /** At position hi the ticket's last build is the one at b, and its last verification, at v, passed. */
  predicate Stands(t: Trace, lo: nat, b: nat, v: nat, hi: nat, id: TicketId) {
    && lo < b < v < hi <= |t|
    && t[b] == Build(id) && Absent(t, b + 1, hi, id, KBuild)
    && t[v] == Verify(id, true) && Absent(t, v + 1, hi, id, KVerify)
  }

  /** A verified build, then its real diff, then (for a refactor ticket) its golden output unchanged. */
  predicate CheckedInOrder(t: Trace, id: TicketId, x: Positions) {
    && Stands(t, x.begin, x.checkedBuild, x.checkedVerify, x.diff, id)
    && x.diff < x.review < |t|
    && t[x.begin].Begin? && t[x.diff].Summarize? && t[x.diff].id == id
    && SubstantiveChangedFiles(t[x.diff].diff.changedFiles, t[x.begin].ticketRel) != []
    && (t[x.begin].golden ==>
          && x.begin < x.baseline < x.checkedBuild && Absent(t, x.begin, x.baseline, id, KBuild)
          && x.diff < x.golden < x.review
          && Stands(t, x.begin, x.checkedBuild, x.checkedVerify, x.golden, id)
          && t[x.baseline].Capture? && t[x.baseline].id == id
          && t[x.golden] == t[x.baseline])
  }

  /** The build that is reviewed and merged: verified, before the approval, and never touched again. */
  predicate BuiltInOrder(t: Trace, id: TicketId, x: Positions) {
    x.begin < x.verify < x.review && Stands(t, x.begin, x.build, x.verify, |t|, id)
  }

  /** From the approval on: close, push, pull request, green checks, low risk, autopilot. */
  predicate ShippedInOrder(t: Trace, id: TicketId, x: Positions, config: LoopConfig) {
    && x.review < x.close < x.push < x.pr < x.ci < x.risk < x.mode < |t|
    && t[x.review] == ReviewCall(id, Approve) && Absent(t, x.review + 1, |t|, id, KReview)
    && t[x.close] == CloseTicket(id) && t[x.push] == Push(id) && t[x.pr] == CreatePr(id)
    && t[x.ci].PollCi? && t[x.ci].id == id && GreenPoll(t[x.ci].poll) && Absent(t, x.ci + 1, |t|, id, KPoll)
    && t[x.risk].Summarize? && t[x.risk].id == id && LowRisk(t[x.risk].diff, config)
    && t[x.mode].ReadRequest? && t[x.mode].id == id
    && ResolveAutonomy(config.autonomy, t[x.mode].request).mode == Autopilot
  }

  /**
   * What stood, in order, in the trace t before a merge. A run resumed at Review takes the
   * build on trust, but whatever it builds itself was verified before the approval. With one
   * review round at most, the build that was checked is the one that merges.
   */
  predicate EvidenceInOrder(t: Trace, id: TicketId, x: Positions, config: LoopConfig) {
    && x.begin < x.review < |t|
    && t[x.begin].Begin? && t[x.begin].id == id && Absent(t, x.begin + 1, |t|, id, KBegin)
    && ShippedInOrder(t, id, x, config)
    && if t[x.begin].resumed == Some(Review)
       then Absent(t, x.begin, |t|, id, KBuild) || BuiltInOrder(t, id, x)
       else CheckedInOrder(t, id, x) && BuiltInOrder(t, id, x)
            && (config.maxReviewRounds <= 1 ==> x.checkedBuild == x.build)
  }

  function Or0(p: Option<nat>): nat {
    if p.Some? then p.value else 0
  }

  /** Positions of a stage; c is the stage of its last check. */
  function PositionsOf(s: Stage, c: Stage): Positions {
    Positions(Or0(s.work.begin), (if s.checked.baseline.Some? then s.checked.baseline.value.at else 0),
              Or0(c.work.built), Or0(c.work.verified), Or0(s.checked.substantive), Or0(s.checked.goldenKept),
              Or0(s.work.built), Or0(s.work.verified),
              Or0(s.ship.approved), Or0(s.ship.closed), Or0(s.ship.pushed), Or0(s.ship.prOpen),
              Or0(s.ship.ciGreen), Or0(s.ship.lowRisk), Or0(s.ship.autopilot))
  }

  /** What a stage remembers as verified at d stands at d in the whole trace. */
  lemma VerifiedStands(t: Trace, d: nat, id: TicketId, begin: nat, config: LoopConfig)
    requires d <= |t| && VerifiedAt(t, d, id, Some(begin), config)
    ensures var w := StageOf(t[..d], id, config).work;
            w.built.Some? && w.verified.Some? && Stands(t, begin, w.built.value, w.verified.value, d, id)
  {
    StageHolds(t[..d], id, config);
    assert forall k :: 0 <= k < d ==> t[..d][k] == t[k];
  }

  /** The checks a review rests on were made, in order, of one verified build. */
  lemma ChecksStand(t: Trace, id: TicketId, s: Stage, config: LoopConfig) returns (c: Stage)
    requires s == StageOf(t, id, config) && s.work.begin.Some? && !s.work.trusted && s.ship.approved.Some?
    ensures CheckedInOrder(t, id, PositionsOf(s, c))
  {
    hide StageOf, SubstantiveChangedFiles, VerifiedAt, ShipHolds, GateHolds;
    StageHolds(t, id, config);
    var begin, d := s.work.begin.value, s.checked.substantive.value;
    var last := if s.work.golden then s.checked.goldenKept.value else d;
    c := StageOf(t[..last], id, config);
    VerifiedStands(t, last, id, begin, config);
    if s.work.golden {
      BaselineComesFirst(t, s.checked.baseline.value.at, begin, c.work.built.value, id);
    }
  }

  lemma BaselineComesFirst(t: Trace, baseline: nat, begin: nat, build: nat, id: TicketId)
    requires begin < build < |t| && t[build] == Build(id) && baseline < |t| && t[baseline].Capture?
    requires Absent(t, begin, baseline, id, KBuild)
    ensures baseline < build
  {
    assert KindOf(t[build]) == KBuild;
  }

  /** The build an approval rests on; only a run resumed at Review may be approved without one. */
  lemma BuildStands(t: Trace, id: TicketId, s: Stage, c: Stage, config: LoopConfig)
    requires Holds(t, id, s, config) && s.work.begin.Some? && s.ship.approved.Some?
    ensures BuiltInOrder(t, id, PositionsOf(s, c))
            || (s.work.trusted && Absent(t, s.work.begin.value, |t|, id, KBuild))
  {
    hide StageOf, DiffHolds, GoldenHolds, ShipHolds, GateHolds;
  }

  /** A last build before the diff is the one the diff was taken of. */
  lemma FreshIsChecked(t: Trace, id: TicketId, x: Positions)
    requires CheckedInOrder(t, id, x) && BuiltInOrder(t, id, x) && x.build < x.diff
    ensures x.checkedBuild == x.build
  {
    assert KindOf(t[x.build]) == KBuild && KindOf(t[x.checkedBuild]) == KBuild;
  }

  /** The way from the approval to the gate's last check. */
  lemma ShippingStands(t: Trace, id: TicketId, s: Stage, c: Stage, config: LoopConfig)
    requires Holds(t, id, s, config) && s.ship.Ready()
    ensures ShippedInOrder(t, id, PositionsOf(s, c), config)
  {
    hide WorkHolds, DiffHolds, GoldenHolds, Stage.Grounded;
    hide SubstantiveChangedFiles, LowRisk, GreenPoll, ResolveAutonomy;
  }

  lemma BeginStands(t: Trace, id: TicketId, s: Stage, c: Stage, config: LoopConfig)
    requires Holds(t, id, s, config) && s.work.begin.Some? && s.ship.approved.Some?
    ensures var x := PositionsOf(s, c);
            && x.begin < x.review < |t| && t[x.begin].Begin? && t[x.begin].id == id
            && Absent(t, x.begin + 1, |t|, id, KBegin)
            && (s.work.trusted <==> t[x.begin].resumed == Some(Review)) && x.begin == s.work.begin.value
  {
    hide DiffHolds, GoldenHolds, ShipHolds, GateHolds, BuildHolds, Stage.Grounded;
  }

  lemma FreshIsBefore(s: Stage, c: Stage, config: LoopConfig)
    requires Fresh(s, config) && config.maxReviewRounds <= 1 && !s.work.trusted
    ensures var x := PositionsOf(s, c); x.build < x.diff
  {
  }

  /** A merge anywhere in a trace rests on the whole chain of evidence, in order, before it. */
  lemma MergeRestsOnEvidence(t: Trace, m: nat, config: LoopConfig)
    requires MergesAreReady(t, config) && m < |t| && t[m].MergePr?
    ensures exists x :: EvidenceInOrder(t[..m], t[m].id, x, config)
  {
    var before, id := t[..m], t[m].id;
    var s := StageOf(before, id, config);
    hide StageOf, Holds, ShippedInOrder, CheckedInOrder, BuiltInOrder, Absent, PositionsOf, Fresh;
    StageHolds(before, id, config);
    var c := s;
    if !s.work.trusted {
      c := ChecksStand(before, id, s, config);
    }
    var x := PositionsOf(s, c);
    ShippingStands(before, id, s, c, config);
    BeginStands(before, id, s, c, config);
    BuildStands(before, id, s, c, config);
    if !s.work.trusted && config.maxReviewRounds <= 1 {
      FreshIsBefore(s, c, config);
      FreshIsChecked(before, id, x);
    }
    assert EvidenceInOrder(before, id, x, config);
  }

  // ----- which build the checks were made of -----

  /**
   * The diff and the golden output are those of the build that merges exactly when no builder
   * call follows the diff; a review that had changes fixed is such a call.
   */
  lemma ChecksSawTheMergedBuildIff(t: Trace, id: TicketId, x: Positions, config: LoopConfig)
    requires EvidenceInOrder(t, id, x, config) && t[x.begin].resumed != Some(Review)
    ensures x.checkedBuild == x.build <==> Absent(t, x.diff + 1, |t|, id, KBuild)
    ensures x.checkedBuild != x.build ==> x.diff < x.build < x.review
    ensures t[x.begin].golden && x.checkedBuild != x.build ==> x.golden < x.build
  {
    assert KindOf(t[x.build]) == KBuild && KindOf(t[x.checkedBuild]) == KBuild;
    assert !t[x.diff].Build?;
    if t[x.begin].golden {
      assert !t[x.golden].Build?;
    }
  }

  /** A refactor ticket whose review asked for one fix: built, checked, fixed, verified, approved. */
  function FixRound(id: TicketId, rel: string, hash: string, diff: DiffSummary): Trace {
    [Begin(id, rel, true, None), Capture(id, hash), Build(id), Verify(id, true), Summarize(id, diff), Capture(id, hash),
     ReviewCall(id, RequestChanges), Build(id), Verify(id, true), ReviewCall(id, Approve)]
  }

  /** From the approval to the gate's last check. */
  function ShipRound(id: TicketId, diff: DiffSummary, ci: CiPoll, request: Option<string>): Trace {
    [CloseTicket(id), Push(id), CreatePr(id), PollCi(id, ci), Summarize(id, diff), ReadRequest(id, request)]
  }

  lemma StageOfNext(t: Trace, k: nat, id: TicketId, config: LoopConfig)
    requires k < |t| && t[k].id == id
    ensures StageOf(t[..k + 1], id, config) == NextStage(StageOf(t[..k], id, config), t[k], k, config)
  {
    hide NextStage;
    assert t[..k + 1] == t[..k] + [t[k]];
    StageOfAppend(t[..k], t[k], config);
  }

  lemma FirstBuildStage(t: Trace, id: TicketId, rel: string, hash: string, diff: DiffSummary, config: LoopConfig)
    requires FixRound(id, rel, hash, diff) <= t
    ensures StageOf(t[..4], id, config)
            == CheckedOnce(rel, hash).(checked := Checked(None, Some(Baseline(1, hash)), None))
  {
    hide SubstantiveChangedFiles, StageOf, Stage.Grounded;
    StageOfNothing(t, id, config);
    StageOfNext(t, 0, id, config);
    StageOfNext(t, 1, id, config);
    StageOfNext(t, 2, id, config);
    StageOfNext(t, 3, id, config);
  }

  /** Up to the golden compare. */
  lemma FirstRoundStage(t: Trace, id: TicketId, rel: string, hash: string, diff: DiffSummary, config: LoopConfig)
    requires SubstantiveChangedFiles(diff.changedFiles, rel) != [] && FixRound(id, rel, hash, diff) <= t
    ensures StageOf(t[..6], id, config) == CheckedOnce(rel, hash)
  {
    hide SubstantiveChangedFiles, StageOf, Stage.Grounded;
    FirstBuildStage(t, id, rel, hash, diff, config);
    StageOfNext(t, 4, id, config);
    StageOfNext(t, 5, id, config);
  }

  function CheckedOnce(rel: string, hash: string): Stage {
    Stage(Work(Some(0), rel, true, false, Some(2), Some(3)),
          Checked(Some(4), Some(Baseline(1, hash)), Some(5)), NO_SHIP)
  }

  lemma FixRoundStage(t: Trace, id: TicketId, rel: string, hash: string, diff: DiffSummary, config: LoopConfig)
    requires SubstantiveChangedFiles(diff.changedFiles, rel) != [] && FixRound(id, rel, hash, diff) <= t
    ensures var s0 := CheckedOnce(rel, hash);
            StageOf(t[..10], id, config)
            == Stage(s0.work.(built := Some(7), verified := Some(8)), s0.checked, NO_SHIP.(approved := Some(9)))
  {
    hide SubstantiveChangedFiles, StageOf;
    FirstRoundStage(t, id, rel, hash, diff, config);
    StageOfNext(t, 6, id, config);
    StageOfNext(t, 7, id, config);
    StageOfNext(t, 8, id, config);
    StageOfNext(t, 9, id, config);
  }

  lemma StageOfNothing(t: Trace, id: TicketId, config: LoopConfig)
    ensures StageOf(t[..0], id, config) == NO_STAGE
  {
  }

  /** An approved stage, shipped without a hitch, may merge; the checks stay where they were. */
  lemma ShipRoundStage(t: Trace, at: nat, id: TicketId, diff: DiffSummary, ci: CiPoll, request: Option<string>,
                       config: LoopConfig)
    requires at + 6 == |t| && t[at..] == ShipRound(id, diff, ci, request)
    requires GreenPoll(ci) && LowRisk(diff, config) && ResolveAutonomy(config.autonomy, request).mode == Autopilot
    requires StageOf(t[..at], id, config).work.begin.Some? && StageOf(t[..at], id, config).ship.approved.Some?
    ensures var s0, s := StageOf(t[..at], id, config), StageOf(t, id, config);
            s.work.begin.Some? && s.ship.Ready() && s.work == s0.work && s.checked == s0.checked
  {
    hide StageOf, LowRisk, GreenPoll, ResolveAutonomy;
    assert forall j :: 0 <= j < 6 ==> t[at + j] == t[at..][j];
    StageOfNext(t, at, id, config);
    StageOfNext(t, at + 1, id, config);
    StageOfNext(t, at + 2, id, config);
    StageOfNext(t, at + 3, id, config);
    StageOfNext(t, at + 4, id, config);
    StageOfNext(t, at + 5, id, config);
    assert t[..at + 6] == t;
  }

  /**
   * After one fix round, where the configuration allows it, the gate lets the merge through, although
   * the diff was summarized and the golden output compared before the build that merges.
   */
  lemma FixRoundOutdatesChecks(id: TicketId, rel: string, hash: string, diff: DiffSummary, ci: CiPoll,
                               request: Option<string>, config: LoopConfig)
    requires SubstantiveChangedFiles(diff.changedFiles, rel) != [] && GreenPoll(ci) && LowRisk(diff, config)
    requires ResolveAutonomy(config.autonomy, request).mode == Autopilot && config.maxReviewRounds > 1
    ensures var t := FixRound(id, rel, hash, diff) + ShipRound(id, diff, ci, request);
            && MergesAreReady(t + [MergePr(id)], config)
            && var s := StageOf(t, id, config);
               s.checked.substantive == Some(4) && s.checked.goldenKept == Some(5) && s.work.built == Some(7)
  {
    hide *;
    var t := FixRound(id, rel, hash, diff) + ShipRound(id, diff, ci, request);
    NothingMergedYet(id, rel, hash, diff, ci, request, config);
    FixRoundStage(t, id, rel, hash, diff, config);
    CheckedOnceIs(rel, hash);
    ShipRoundStage(t, 10, id, diff, ci, request, config);
    MayMergeIf(StageOf(t, id, config), config);
    MergesAppend(t, MergePr(id), config);
  }

  lemma NothingMergedYet(id: TicketId, rel: string, hash: string, diff: DiffSummary, ci: CiPoll,
                         request: Option<string>, config: LoopConfig)
    ensures var built := FixRound(id, rel, hash, diff);
            var t := built + ShipRound(id, diff, ci, request);
            && |t| == 16 && t[..10] == built && built <= t && t[10..] == ShipRound(id, diff, ci, request)
            && MergesAreReady(t, config)
  {
    hide StageOf;
  }

  lemma CheckedOnceIs(rel: string, hash: string)
    ensures var s := CheckedOnce(rel, hash);
            s.work.begin == Some(0) && s.checked.substantive == Some(4) && s.checked.goldenKept == Some(5)
  {
  }

  lemma MayMergeIf(s: Stage, config: LoopConfig)
    requires s.work.begin.Some? && s.ship.Ready() && config.maxReviewRounds > 1
    ensures MayMerge(s, config)
  {
  }
}
