/** The durable snapshot and the event log of one run (src/runState.ts, src/runStore.ts). */
module RunStates {
  import opened Prelude
  import opened LoopStates

  type TicketId = string
  /** Run ids are only ever compared and kept fresh: a counter stands for the stamped name. */
  type RunId = nat

  datatype RunStatus = Running | Completed | Stopped | Failed

  /** RunState.budget once the loop head has written it. */
  datatype BudgetView = BudgetView(iterationsUsed: int, maxIterations: int, elapsedMs: int, maxWallClockMs: int)

  /** RunState.noProgress once the loop head has written it. */
  datatype NoProgressView = NoProgressView(
    iterationsSinceProgress: int, maxNoProgressIterations: int, msSinceProgress: int, maxNoProgressMs: int)

  datatype RunState = RunState(
    epicId: Option<string>,
    status: RunStatus,
    startedAt: int,
    currentTicketId: Option<TicketId>,
    currentPhase: Option<LoopState>,
    processed: seq<TicketId>,
    remaining: seq<TicketId>,
    budget: Option<BudgetView>,
    noProgress: Option<NoProgressView>)
  {
    /** parseLoopState(currentPhase): null is Idle. */
    function Phase(): LoopState {
      if currentPhase.Some? then currentPhase.value else Idle
    }
  }

  datatype Site = Builder | Verification | CodexReview | Consult | SlashCommand

  datatype MergeAction = AutoMerge | OpenPr

  datatype Verdict = Approve | RequestChanges | Escalate

  datatype StopReason = KillSwitch | BudgetTrip(arm: BudgetArm) | FlagRecordFailed
                      | GuardDenied | IllegalTransition | ResumeSkipped | RollbackFailed

  datatype BudgetArm = WallClock | Iterations | NoProgressCount | NoProgressTime

  /** One line of events.jsonl: what happened, without its timestamp and attribution. */
  datatype EventKind =
    | RunStarted
    | RunCompleted
    | RunStopped(reason: StopReason)
    | RunFailed
    | LoopTransition(from: LoopState)
    | TicketStarted
    | TicketBuilt(substantive: bool, changedFiles: nat)
    | VerificationResult(passed: bool)
    | VerificationDiagnosis(attempt: int)
    | VerificationConsult(attempt: int)
    | ReviewResult(verdict: Verdict)
    | TicketClosed
    | MergeDecision(action: MergeAction)
    | TicketFlagged
    | Triage
    | RunnerStarted(site: Site, callIndex: nat, cwd: string)
    | RunnerSettle(site: Site)
    | Note(name: string)

  datatype RunEvent = RunEvent(ts: int, kind: EventKind, ticketId: Option<TicketId>, phase: Option<LoopState>)

  datatype Run = Run(state: RunState, events: seq<RunEvent>)

  /** The event types deriveTicketOutcomes reads, each attributed to one ticket. */
  predicate Anchor(k: EventKind) {
    k.TicketStarted? || k.TicketBuilt? || k.VerificationResult? || k.MergeDecision?
    || k.TicketClosed? || k.TicketFlagged?
  }
}
