/**
 * Tickets, diffs, autonomy policy and the merge decision
 * (src/types.ts, src/diff.ts, src/autonomy.ts, src/mergeGate.ts, src/ticketExecutionGate.ts).
 */
module MergeGates {
  import opened Prelude
  import opened Text
  import opened RunStates
  import opened Budgets

  datatype Autonomy = ReviewMode | Autopilot

  datatype AutonomyConfig = AutonomyConfig(defaultMode: Autonomy, ceiling: Autonomy)

  datatype LoopConfig = LoopConfig(
    maxIterationsPerTicket: int,
    maxReviewRounds: int,
    maxTicketsPerRun: int,
    pollIntervalSec: int,
    protectedPaths: seq<string>,
    maxAutoMergeDiffLines: int,
    ciWaitTimeoutSec: int,
    ciPollIntervalSec: int,
    diagnosticRetryEnabled: bool,
    maxConsultsPerTicket: int,
    budget: BudgetConfig,
    autonomy: AutonomyConfig)

  datatype Ticket = Ticket(id: TicketId, epicId: string, relPath: string, refactor: bool, dependsOn: seq<TicketId>)

  datatype Finding = Finding(detector: string, file: string, rule: string)

  datatype DiffSummary = DiffSummary(
    changedFiles: seq<string>,
    changedLines: int,
    touchesPublicApi: bool,
    affectedCoverage: Option<real>,
    contentRisks: seq<Finding>)

  // ----- substantive files -----

  predicate Substantive(file: string, ticketRel: string) {
    file != ticketRel && "node_modules" !in Split(file, '/')
  }

  function SubstantiveChangedFiles(files: seq<string>, ticketRel: string): seq<string> {
    if files == [] then []
    else (if Substantive(files[0], ticketRel) then [files[0]] else [])
         + SubstantiveChangedFiles(files[1..], ticketRel)
  }

  /** The filter keeps a file exactly when it is neither the ticket file nor provisioned. */
  lemma {:induction false} SubstantiveIff(files: seq<string>, ticketRel: string, file: string)
    ensures file in SubstantiveChangedFiles(files, ticketRel) <==>
              file in files && file != ticketRel && "node_modules" !in Split(file, '/')
  {
    if files != [] {
      SubstantiveIff(files[1..], ticketRel, file);
    }
  }

  // ----- risk -----

  datatype RiskReason = TouchesProtected(files: seq<string>) | ChangesPublicApi | ThinCoverage
                      | LargeDiff(lines: int) | ContentRisk(finding: Finding)

  const THIN_COVERAGE_THRESHOLD: real := 0.4

  predicate Protected(file: string, paths: seq<string>) {
    exists p :: p in paths && Includes(file, p)
  }

  function ProtectedFiles(files: seq<string>, paths: seq<string>): seq<string> {
    if files == [] then []
    else (if Protected(files[0], paths) then [files[0]] else []) + ProtectedFiles(files[1..], paths)
  }

  lemma {:induction false} ProtectedFilesIff(files: seq<string>, paths: seq<string>)
    ensures ProtectedFiles(files, paths) == [] <==> forall f :: f in files ==> !Protected(f, paths)
  {
    if files != [] {
      ProtectedFilesIff(files[1..], paths);
      assert files[0] in files;
    }
  }

  /** No protected path, no public API change, no thin coverage, a small diff, no finding. */
  predicate LowRisk(diff: DiffSummary, config: LoopConfig) {
    && (forall f :: f in diff.changedFiles ==> !Protected(f, config.protectedPaths))
    && !diff.touchesPublicApi
    && (diff.affectedCoverage.Some? ==> diff.affectedCoverage.value >= 0.4)
    && diff.changedLines <= config.maxAutoMergeDiffLines
    && diff.contentRisks == []
  }

  /** What speaks against merging this diff. */
  predicate IsReason(r: RiskReason, diff: DiffSummary, config: LoopConfig) {
    match r
    case TouchesProtected(files) => files == ProtectedFiles(diff.changedFiles, config.protectedPaths) && files != []
    case ChangesPublicApi => diff.touchesPublicApi
    case ThinCoverage => diff.affectedCoverage.Some? && diff.affectedCoverage.value < 0.4
    case LargeDiff(lines) => lines == diff.changedLines && lines > config.maxAutoMergeDiffLines
    case ContentRisk(finding) => finding in diff.contentRisks
  }

  lemma FindingsAreReasons(findings: seq<Finding>, reasons: seq<RiskReason>)
    requires |reasons| == |findings| && forall k :: 0 <= k < |reasons| ==> reasons[k] == ContentRisk(findings[k])
    ensures forall f :: ContentRisk(f) in reasons <==> f in findings
    ensures forall r :: r in reasons ==> r.ContentRisk?
  {
    forall f
      ensures ContentRisk(f) in reasons <==> f in findings
    {
      if k :| 0 <= k < |findings| && findings[k] == f {
        assert reasons[k] == ContentRisk(f);
      }
    }
  }

  /** The reasons that are not findings in the diff's content. */
  method StructuralReasons(diff: DiffSummary, config: LoopConfig) returns (reasons: seq<RiskReason>)
    ensures forall r :: r in reasons <==> !r.ContentRisk? && IsReason(r, diff, config)
  {
    reasons := [];
    var hit := ProtectedFiles(diff.changedFiles, config.protectedPaths);
    if hit != [] {
      reasons := reasons + [TouchesProtected(hit)];
    }
    if diff.touchesPublicApi {
      reasons := reasons + [ChangesPublicApi];
    }
    if diff.affectedCoverage.Some? && diff.affectedCoverage.value < THIN_COVERAGE_THRESHOLD {
      reasons := reasons + [ThinCoverage];
    }
    if diff.changedLines > config.maxAutoMergeDiffLines {
      reasons := reasons + [LargeDiff(diff.changedLines)];
    }
  }

  /** classifyRisk: the level is low exactly when no reason was pushed. */
  method ClassifyRisk(diff: DiffSummary, config: LoopConfig) returns (low: bool, reasons: seq<RiskReason>)
    ensures low == (reasons == []) == LowRisk(diff, config)
    ensures forall r :: r in reasons <==> IsReason(r, diff, config)
  {
    reasons := StructuralReasons(diff, config);
    ghost var before := reasons;
    for i := 0 to |diff.contentRisks|
      invariant |reasons| == |before| + i
      invariant reasons[..|before|] == before
      invariant forall k :: 0 <= k < i ==> reasons[|before| + k] == ContentRisk(diff.contentRisks[k])
    {
      reasons := reasons + [ContentRisk(diff.contentRisks[i])];
    }
    ghost var found := reasons[|before|..];
    assert reasons == before + found;
    FindingsAreReasons(diff.contentRisks, found);
    LowIsReasonless(diff, config);
    assert reasons != [] ==> reasons[0] in reasons;
    low := reasons == [];
    hide LowRisk, IsReason;
  }

  lemma LowIsReasonless(diff: DiffSummary, config: LoopConfig)
    ensures LowRisk(diff, config) <==> forall r :: !IsReason(r, diff, config)
  {
    ProtectedFilesIff(diff.changedFiles, config.protectedPaths);
    var hit := ProtectedFiles(diff.changedFiles, config.protectedPaths);
    if forall r :: !IsReason(r, diff, config) {
      assert !IsReason(TouchesProtected(hit), diff, config) && !IsReason(ChangesPublicApi, diff, config);
      assert !IsReason(ThinCoverage, diff, config) && !IsReason(LargeDiff(diff.changedLines), diff, config);
      assert diff.contentRisks != [] ==> IsReason(ContentRisk(diff.contentRisks[0]), diff, config);
    }
    hide Protected, ProtectedFiles;
  }

  // ----- autonomy -----

  datatype EffectiveAutonomy = EffectiveAutonomy(mode: Autonomy, fromEpic: bool, clamped: bool, invalidRequest: bool)

  function Rank(mode: Autonomy): int {
    if mode == Autopilot then 1 else 0
  }

  function ResolveAutonomy(config: AutonomyConfig, epicRequest: Option<string>): EffectiveAutonomy {
    if epicRequest.None? then EffectiveAutonomy(config.defaultMode, false, false, false)
    else if epicRequest.value != "review" && epicRequest.value != "autopilot" then
      EffectiveAutonomy(ReviewMode, true, false, true)
    else
      var request := if epicRequest.value == "autopilot" then Autopilot else ReviewMode;
      if Rank(request) > Rank(config.ceiling) then EffectiveAutonomy(config.ceiling, true, true, false)
      else EffectiveAutonomy(request, true, false, false)
  }

  /** What is said about a request: that it was made, that the ceiling held it back, that it was no mode at all. */
  lemma RequestIsReported(config: AutonomyConfig, request: Option<string>)
    ensures var e := ResolveAutonomy(config, request);
            && (e.fromEpic <==> request.Some?)
            && (e.clamped <==> request == Some("autopilot") && config.ceiling == ReviewMode)
            && (e.invalidRequest <==> request.Some? && request.value !in {"review", "autopilot"})
  {
  }

  /** The module comment's formula: min(epicRequest ?? default, ceiling), invalid reads as review. */
  function DocumentedMode(config: AutonomyConfig, epicRequest: Option<string>): Autonomy {
    var asked := match epicRequest
      case None => config.defaultMode
      case Some(r) => if r == "autopilot" then Autopilot else ReviewMode;
    if Rank(asked) <= Rank(config.ceiling) then asked else config.ceiling
  }

  /**
   * The mode is the documented one for every request exactly under a configuration whose default
   * does not exceed its ceiling; only an absent request can tell, since it alone is not clamped.
   */
  lemma AutonomyMeetsDocumentation(config: AutonomyConfig)
    ensures (forall r :: ResolveAutonomy(config, r).mode == DocumentedMode(config, r))
            <==> Rank(config.defaultMode) <= Rank(config.ceiling)
    ensures forall r: Option<string> :: r.Some? ==>
              ResolveAutonomy(config, r).mode == DocumentedMode(config, r)
              && Rank(ResolveAutonomy(config, r).mode) <= Rank(config.ceiling)
  {
    assert ResolveAutonomy(config, None).mode == config.defaultMode;
    assert DocumentedMode(config, None) ==
           if Rank(config.defaultMode) <= Rank(config.ceiling) then config.defaultMode else config.ceiling;
  }

  datatype LaunchError = IllegalMode(flag: string, value: string) | DefaultAboveCeiling

  datatype Launch = Launched(config: AutonomyConfig) | Refused(error: LaunchError)

  function ParseMode(value: string): Option<Autonomy> {
    if value == "review" then Some(ReviewMode) else if value == "autopilot" then Some(Autopilot) else None
  }

  /** resolveAutonomyConfig: an illegal flag or a default above the ceiling refuses the launch. */
  function LaunchAutonomy(defaultFlag: Option<string>, ceilingFlag: Option<string>): Launch {
    var def := if defaultFlag.Some? then ParseMode(defaultFlag.value) else Some(ReviewMode);
    var ceiling := if ceilingFlag.Some? then ParseMode(ceilingFlag.value) else Some(ReviewMode);
    if def.None? then Refused(IllegalMode("--autonomy-default", defaultFlag.value))
    else if ceiling.None? then Refused(IllegalMode("--autonomy-ceiling", ceilingFlag.value))
    else if Rank(def.value) > Rank(ceiling.value) then Refused(DefaultAboveCeiling)
    else Launched(AutonomyConfig(def.value, ceiling.value))
  }

  /** A loop that was launched never grants more than its ceiling, and always the documented mode. */
  lemma LaunchedAutonomyIsDocumented(defaultFlag: Option<string>, ceilingFlag: Option<string>, request: Option<string>)
    requires LaunchAutonomy(defaultFlag, ceilingFlag).Launched?
    ensures var config := LaunchAutonomy(defaultFlag, ceilingFlag).config;
            && ResolveAutonomy(config, request).mode == DocumentedMode(config, request)
            && Rank(ResolveAutonomy(config, request).mode) <= Rank(config.ceiling)
            && (ResolveAutonomy(config, request).mode == Autopilot ==> ceilingFlag == Some("autopilot"))
  {
    AutonomyMeetsDocumentation(LaunchAutonomy(defaultFlag, ceilingFlag).config);
  }

  // ----- decision -----

  datatype CiState = Green | Red | PendingTimeout | NoSignal

  function DecideMerge(ci: CiState, verdict: Verdict, lowRisk: bool): MergeAction {
    if ci == Red then OpenPr
    else if ci == PendingTimeout then OpenPr
    else if ci == NoSignal then OpenPr
    else if verdict == Escalate then OpenPr
    else if verdict == RequestChanges then OpenPr
    else if !lowRisk then OpenPr
    else AutoMerge
  }

  function ApplyAutonomy(action: MergeAction, mode: Autonomy): MergeAction {
    if mode == Autopilot then action
    else if action == AutoMerge then OpenPr
    else action
  }

  /** Everything the gate must have seen to merge, and that nothing less is enough. */
  lemma AutoMergeIff(ci: CiState, verdict: Verdict, diff: DiffSummary, config: LoopConfig, epicRequest: Option<string>)
    ensures ApplyAutonomy(DecideMerge(ci, verdict, LowRisk(diff, config)),
                          ResolveAutonomy(config.autonomy, epicRequest).mode) == AutoMerge
            <==> && ci == Green && verdict == Approve && LowRisk(diff, config)
                 && (if epicRequest.None? then config.autonomy.defaultMode == Autopilot
                     else epicRequest.value == "autopilot" && config.autonomy.ceiling == Autopilot)
  {
  }
}
