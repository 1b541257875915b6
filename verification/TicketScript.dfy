/**
 * What one ticket does and says, given everything the outside world answers: the whole lifecycle
 * (src/ticketStart.ts, src/ticketExecutionGate.ts, src/ticketReviewClose.ts, src/mergeGateStep.ts)
 * as an account of its effects and of the events that tell its progress.
 */
module TicketScripts {
  import opened Prelude
  import opened LoopStates
  import opened RunStates
  import opened MergeGates
  import opened Evidence
  import opened LoopDependencies
  import opened ExecutePlans
  import opened ReviewSteps
  import opened CiObservers

  /** What a ticket is taken up with. */
  datatype Setting = Setting(ticket: Ticket, resumed: Option<LoopState>, env: Environment, config: LoopConfig)

  /** What the outside world answers on the way; an answer that is never asked for is anything. */
  datatype Life = Life(
    worktree: bool,
    started: bool,
    before: string,
    attempts: seq<Attempt>,
    diff: DiffSummary,
    after: string,
    rounds: seq<Round>,
    polls: seq<CiPoll>,
    shipped: DiffSummary,
    request: Option<string>)

  // ----- the start -----

  predicate Starts(c: Setting, l: Life) {
    c.resumed.Some? || (c.env.hasTicketingCommands && l.worktree && l.started)
  }

  function StartDeeds(c: Setting, l: Life): Trace {
    if c.resumed.Some? || !c.env.hasTicketingCommands then []
    else if !l.worktree then [OpenWorktree(c.ticket.id, false)]
    else [OpenWorktree(c.ticket.id, true), StartCommand(c.ticket.id, l.started)]
  }

  // ----- the build and its checks -----

  predicate Captures(c: Setting) {
    c.resumed.None? && c.ticket.refactor && c.env.goldenCapture
  }

  predicate Verifies(l: Life) {
    l.attempts != [] && Last(l.attempts).passed
  }

  /** Something changed besides the ticket file and what was provisioned. */
  predicate Changes(c: Setting, l: Life) {
    exists f :: f in l.diff.changedFiles && Substantive(f, c.ticket.relPath)
  }

  /** A resumed refactor ticket has lost its baseline; one resumed at its review was built before. */
  predicate Builds(c: Setting, l: Life) {
    && !(c.resumed.Some? && c.ticket.refactor)
    && (c.resumed != Some(Review) ==> Verifies(l) && Changes(c, l) && (Captures(c) ==> l.after == l.before))
  }

  /** A resumed ticket is only built again if it was building, and has no baseline to compare with. */
  predicate IsBuilt(c: Setting) {
    c.resumed != Some(Review) && !(c.resumed.Some? && c.ticket.refactor)
  }

  function CheckDeeds(c: Setting, l: Life): Trace {
    PlanTrace(c.ticket.id, l.attempts, KnobsOf(c.config, c.env))
    + (if Verifies(l) then [Summarize(c.ticket.id, l.diff)] else [])
    + (if Verifies(l) && Changes(c, l) && Captures(c) then [Capture(c.ticket.id, l.after)] else [])
  }

  function BuildDeeds(c: Setting, l: Life): Trace {
    if !IsBuilt(c) then []
    else (if Captures(c) then [Capture(c.ticket.id, l.before)] else []) + CheckDeeds(c, l)
  }

  function BuildWords(c: Setting, l: Life): seq<EventKind> {
    if c.resumed.Some? && c.ticket.refactor then [TicketFlagged]
    else if c.resumed == Some(Review) then []
    else
      [VerificationResult(Verifies(l))]
      + (if Verifies(l)
         then [TicketBuilt(Changes(c, l), |SubstantiveChangedFiles(l.diff.changedFiles, c.ticket.relPath)|)]
         else [])
      + (if Builds(c, l) then [] else [TicketFlagged])
  }

  // ----- the review, the close and the gate -----

  /** The verdict, or None if a fix broke the build. */
  function VerdictOf(c: Setting, l: Life): Option<Verdict> {
    Conclusion(l.rounds, c.config.maxReviewRounds)
  }

  /** What the gate must have seen to merge. */
  predicate Merges(c: Setting, l: Life, verdict: Verdict) {
    && l.polls != [] && GreenPoll(Last(l.polls)) && verdict == Approve && LowRisk(l.shipped, c.config)
    && (if l.request.None? then c.config.autonomy.defaultMode == Autopilot
        else l.request.value == "autopilot" && c.config.autonomy.ceiling == Autopilot)
  }

  function GateDeeds(c: Setting, l: Life, verdict: Verdict): Trace {
    var id := c.ticket.id;
    if !c.env.hasRemote then []
    else
      [Push(id), CreatePr(id)] + PollTrace(id, l.polls) + [Summarize(id, l.shipped), ReadRequest(id, l.request)]
      + (if Merges(c, l, verdict) then [MergePr(id), MergeReturned(id)] else [MarkEscalated(id)])
      + [CleanupReturned(id)]
  }

  function GateWords(c: Setting, l: Life, verdict: Verdict): seq<EventKind> {
    if !c.env.hasRemote then [] else [MergeDecision(if Merges(c, l, verdict) then AutoMerge else OpenPr)]
  }

  function ReviewDeeds(c: Setting, l: Life): Trace {
    ReviewTrace(c.ticket.id, l.rounds)
    + match VerdictOf(c, l)
      case None => []
      case Some(verdict) => [CloseTicket(c.ticket.id)] + GateDeeds(c, l, verdict)
  }

  function ReviewWords(c: Setting, l: Life): seq<EventKind> {
    match VerdictOf(c, l)
    case None => [TicketFlagged]
    case Some(verdict) => [ReviewResult(verdict), TicketClosed] + GateWords(c, l, verdict)
  }

  // ----- the whole ticket -----

  function LifeDeeds(c: Setting, l: Life): Trace {
    StartDeeds(c, l)
    + if !Starts(c, l) then []
      else BuildDeeds(c, l) + if Builds(c, l) then ReviewDeeds(c, l) else []
  }

  function LifeWords(c: Setting, l: Life): seq<EventKind> {
    if !Starts(c, l) then [TicketFlagged]
    else BuildWords(c, l) + if Builds(c, l) then ReviewWords(c, l) else []
  }

  ghost predicate PlanAsked(c: Setting, l: Life) {
    exists outcome: ExecuteOutcome :: Returns(l.attempts, outcome, KnobsOf(c.config, c.env))
  }

  predicate PollsAsked(c: Setting, l: Life) {
    Polled(l.polls, MaxPolls(c.config.ciWaitTimeoutSec, c.config.ciPollIntervalSec))
  }

  /** The answers are to what was asked: as many attempts, rounds and polls as the loops make of them. */
  ghost predicate Lived(c: Setting, l: Life) {
    Starts(c, l) ==>
      && (IsBuilt(c) ==> PlanAsked(c, l))
      && (Builds(c, l) ==>
            && Ended(l.rounds, c.config.maxReviewRounds)
            && (VerdictOf(c, l).Some? && c.env.hasRemote ==> PollsAsked(c, l)))
  }

  // ----- what the account comes to -----

  /** The last poll of a trace is green. */
  predicate LastPollGreen(t: Trace) {
    exists i :: 0 <= i < |t| && t[i].PollCi? && GreenPoll(t[i].poll) && forall j :: i < j < |t| ==> !t[j].PollCi?
  }

  predicate SummarizesLowRisk(t: Trace, config: LoopConfig) {
    exists i :: 0 <= i < |t| && t[i].Summarize? && LowRisk(t[i].diff, config)
  }

  /** The epic's request was read, and it resolves to autopilot. */
  predicate ReadsAutopilot(t: Trace, autonomy: AutonomyConfig) {
    exists i :: 0 <= i < |t| && t[i].ReadRequest?
                && (if t[i].request.None? then autonomy.defaultMode == Autopilot
                    else t[i].request.value == "autopilot" && autonomy.ceiling == Autopilot)
  }

  /** A trace of the gate, position by position. */
  predicate Gated(t: Trace, c: Setting, l: Life, merged: bool) {
    var n, id := |l.polls|, c.ticket.id;
    && |t| == n + (if merged then 7 else 6)
    && t[0] == Push(id) && t[1] == CreatePr(id)
    && (forall k :: 2 <= k < 2 + n ==> t[k] == PollCi(id, l.polls[k - 2]))
    && t[2 + n] == Summarize(id, l.shipped) && t[3 + n] == ReadRequest(id, l.request)
    && t[4 + n] == (if merged then MergePr(id) else MarkEscalated(id))
    && (merged ==> t[5 + n] == MergeReturned(id)) && t[|t| - 1] == CleanupReturned(id)
  }

  lemma GateIsGated(c: Setting, l: Life, verdict: Verdict)
    requires c.env.hasRemote
    ensures Gated(GateDeeds(c, l, verdict), c, l, Merges(c, l, verdict))
  {
    hide Merges;
  }

  lemma GatedMeans(t: Trace, c: Setting, l: Life, merged: bool)
    requires Gated(t, c, l, merged) && l.polls != []
    ensures LastPollGreen(t) <==> GreenPoll(Last(l.polls))
    ensures SummarizesLowRisk(t, c.config) <==> LowRisk(l.shipped, c.config)
    ensures ReadsAutopilot(t, c.config.autonomy) <==>
              if l.request.None? then c.config.autonomy.defaultMode == Autopilot
              else l.request.value == "autopilot" && c.config.autonomy.ceiling == Autopilot
    ensures (MergePr(c.ticket.id) in t <==> merged) && (MarkEscalated(c.ticket.id) in t <==> !merged)
  {
    hide LowRisk, GreenPoll;
    var n := |l.polls|;
    assert t[1 + n] == PollCi(c.ticket.id, Last(l.polls));
    assert t[2 + n].Summarize? && t[3 + n].ReadRequest? && t[4 + n] in t;
    assert forall k :: 2 + n <= k < |t| ==> !t[k].PollCi?;
  }

  /**
   * The gate pushes and opens the pull request first, and then merges exactly on a green last poll,
   * an approving verdict, a low-risk diff and a request for autopilot; else it escalates to a human.
   * The log names what it did.
   */
  lemma GateMergesIff(c: Setting, l: Life, verdict: Verdict)
    requires c.env.hasRemote && l.polls != []
    ensures var t, id := GateDeeds(c, l, verdict), c.ticket.id;
            && |t| >= 2 && t[0] == Push(id) && t[1] == CreatePr(id)
            && (MergePr(id) in t <==>
                  && LastPollGreen(t) && verdict == Approve && SummarizesLowRisk(t, c.config)
                  && ReadsAutopilot(t, c.config.autonomy))
            && (MarkEscalated(id) in t <==> MergePr(id) !in t)
            && GateWords(c, l, verdict) == [MergeDecision(if MergePr(id) in t then AutoMerge else OpenPr)]
  {
    GateIsGated(c, l, verdict);
    GatedMeans(GateDeeds(c, l, verdict), c, l, Merges(c, l, verdict));
    hide LowRisk, GreenPoll, LastPollGreen, SummarizesLowRisk, ReadsAutopilot, GateDeeds;
  }

  /** Nothing before the gate ships anything. */
  predicate Unshipping(t: Trace) {
    forall k :: 0 <= k < |t| ==> !t[k].Push? && !t[k].CreatePr? && !t[k].MergePr? && !t[k].MarkEscalated?
  }

  lemma {:induction false} PlanUnshipping(id: TicketId, seen: seq<Attempt>, k: Knobs)
    ensures Unshipping(PlanTrace(id, seen, k))
  {
    if seen != [] {
      PlanUnshipping(id, Init(seen), k);
      hide After;
    }
  }

  lemma {:induction false} ReviewUnshipping(id: TicketId, seen: seq<Round>)
    ensures Unshipping(ReviewTrace(id, seen))
  {
    if seen != [] {
      ReviewUnshipping(id, Init(seen));
    }
  }

  lemma BuildUnshipping(c: Setting, l: Life)
    ensures Unshipping(StartDeeds(c, l)) && Unshipping(BuildDeeds(c, l))
  {
    PlanUnshipping(c.ticket.id, l.attempts, KnobsOf(c.config, c.env));
    hide PlanTrace, Changes;
  }

  /** What is not shipped before the gate is shipped in it. */
  lemma OnlyTheGateShips(before: Trace, gate: Trace, e: Effect)
    requires Unshipping(before) && (e.Push? || e.CreatePr? || e.MergePr? || e.MarkEscalated?)
    ensures e in before + gate <==> e in gate
  {
  }

  /**
   * A ticket's pull request is merged exactly when it was started (or resumed) and built, its last
   * review approved, there is a remote, and the gate saw a green last poll, a low-risk diff and a
   * request for autopilot.
   */
  lemma MergedIff(c: Setting, l: Life)
    requires Lived(c, l)
    ensures MergePr(c.ticket.id) in LifeDeeds(c, l) <==>
              && (c.resumed.Some? || (c.env.hasTicketingCommands && l.worktree && l.started))
              && !(c.resumed.Some? && c.ticket.refactor)
              && (c.resumed != Some(Review) ==>
                    && l.attempts != [] && Last(l.attempts).passed
                    && (exists f :: f in l.diff.changedFiles && Substantive(f, c.ticket.relPath))
                    && (c.resumed.None? && c.ticket.refactor && c.env.goldenCapture ==> l.after == l.before))
              && l.rounds != [] && Last(l.rounds).review.verdict == Approve
              && c.env.hasRemote && l.polls != [] && GreenPoll(Last(l.polls)) && LowRisk(l.shipped, c.config)
              && (if l.request.None? then c.config.autonomy.defaultMode == Autopilot
                  else l.request.value == "autopilot" && c.config.autonomy.ceiling == Autopilot)
  {
    var merge := MergePr(c.ticket.id);
    InLife(c, l, merge);
    BuildsIff(c, l);
    if VerdictOf(c, l).Some? {
      InGate(c, l, VerdictOf(c, l).value);
    }
    hide LifeDeeds, GateDeeds, LowRisk, GreenPoll, PlanAsked, PollsAsked, Polled, Builds;
    assert Starts(c, l) && Builds(c, l) && VerdictOf(c, l) == Some(Approve) && c.env.hasRemote ==> PollsAsked(c, l);
  }

  /** What ships a ticket is in its account exactly if it is in its gate's. */
  lemma InLife(c: Setting, l: Life, e: Effect)
    requires e.Push? || e.CreatePr? || e.MergePr? || e.MarkEscalated?
    ensures e in LifeDeeds(c, l) <==>
              Starts(c, l) && Builds(c, l) && VerdictOf(c, l).Some? && e in GateDeeds(c, l, VerdictOf(c, l).value)
  {
    BuildUnshipping(c, l);
    ReviewUnshipping(c.ticket.id, l.rounds);
    hide Starts, StartDeeds, Builds, BuildDeeds, ReviewTrace, GateDeeds, VerdictOf;
    var review := ReviewDeeds(c, l);
    assert e in review <==> VerdictOf(c, l).Some? && e in GateDeeds(c, l, VerdictOf(c, l).value);
    hide ReviewDeeds;
  }

  lemma InGate(c: Setting, l: Life, verdict: Verdict)
    ensures MergePr(c.ticket.id) in GateDeeds(c, l, verdict) <==> c.env.hasRemote && Merges(c, l, verdict)
  {
    hide Merges, PollTrace;
    assert forall k :: 0 <= k < |PollTrace(c.ticket.id, l.polls)| ==> PollTrace(c.ticket.id, l.polls)[k].PollCi? by {
      PollsOnly(c.ticket.id, l.polls);
    }
  }

  lemma PollsOnly(id: TicketId, polls: seq<CiPoll>)
    ensures forall k :: 0 <= k < |PollTrace(id, polls)| ==> PollTrace(id, polls)[k].PollCi?
  {
  }

  lemma BuildsIff(c: Setting, l: Life)
    ensures Builds(c, l) <==>
              && !(c.resumed.Some? && c.ticket.refactor)
              && (c.resumed != Some(Review) ==>
                    && l.attempts != [] && Last(l.attempts).passed
                    && (exists f :: f in l.diff.changedFiles && Substantive(f, c.ticket.relPath))
                    && (c.resumed.None? && c.ticket.refactor && c.env.goldenCapture ==> l.after == l.before))
  {
    hide Substantive;
  }

  /** A ticket is flagged exactly if it did not start, was not built, or a fix in its review broke the build. */
  lemma FlaggedIff(c: Setting, l: Life)
    requires Lived(c, l)
    ensures TicketFlagged in LifeWords(c, l) <==>
              || !(c.resumed.Some? || (c.env.hasTicketingCommands && l.worktree && l.started))
              || !Builds(c, l)
              || (l.rounds != [] && Last(l.rounds).review.verdict == RequestChanges && Last(l.rounds).refixed
                  && !Last(l.rounds).reverified)
  {
    hide Builds, PlanAsked, PollsAsked, GateDeeds, Merges;
    if Starts(c, l) && Builds(c, l) {
      BuiltUnflagged(c, l);
      BrokenIff(c, l);
      hide ReviewTrace, Conclusion, Ended;
    } else if Starts(c, l) {
      UnbuiltFlagged(c, l);
    }
  }

  lemma BuiltUnflagged(c: Setting, l: Life)
    requires Builds(c, l)
    ensures TicketFlagged !in BuildWords(c, l)
  {
    hide SubstantiveChangedFiles, Changes;
  }

  lemma UnbuiltFlagged(c: Setting, l: Life)
    requires !Builds(c, l)
    ensures TicketFlagged in BuildWords(c, l)
  {
    hide SubstantiveChangedFiles, Changes;
  }

  lemma BrokenIff(c: Setting, l: Life)
    requires Ended(l.rounds, c.config.maxReviewRounds)
    ensures VerdictOf(c, l).None? <==>
              l.rounds != [] && Last(l.rounds).review.verdict == RequestChanges && Last(l.rounds).refixed
              && !Last(l.rounds).reverified
  {
  }
}
