/**
 * Planning one ticket (runPlanningLoop in src/planning.ts): draft, review, and revise within a
 * round budget, with one decision taken on the ticket's behalf when the rounds run out.
 */
module PlanningLoops {
  import opened Prelude
  import opened Text

  datatype GateDecision = Brainstorm | OtherGate

  datatype Artifacts = Artifacts(spec: string, plan: string)

  datatype Verdict = Approve | RequestChanges | Escalate

  datatype Review = Review(verdict: Verdict, findings: string)

  datatype Scoring = Scoreable(comparison: string) | NotScoreable(reason: string)

  datatype Reason = CodexEscalate | RoundsExhausted | DependencyUnresolved | PlanningError

  /** A terminal outcome, without its timestamp. */
  datatype PlanningOutcome =
    | Approved(artifacts: Artifacts, decisions: seq<string>)
    | Escalated(reason: Reason, findings: string, scoring: Option<Scoring>, decisions: seq<string>)

  /** What a draft is asked to address. */
  datatype Brief = Opening | Findings(findings: string) | Decision(findings: string, decision: string)

  /** A call to a collaborator with its answer, or the terminal event; None is a throw. */
  datatype Call =
    | Drafted(brief: Brief, drafted: Option<Artifacts>)
    | Reviewed(artifacts: Artifacts, round: int, review: Option<Review>)
    | Decided(findings: string, decision: Option<string>)
    | Recorded(decisions: seq<string>, kept: bool)
    | Scored(artifacts: Artifacts, findings: string, scoring: Option<Scoring>)
    | Announced(approved: bool, reason: Option<Reason>)

  /** Which optional collaborators are wired. */
  datatype Hooks = Hooks(decides: bool, recordsDecisions: bool, scores: bool)

  function RoundBudget(gate: GateDecision, maxPlanningRounds: int): int {
    if gate.Brainstorm? then maxPlanningRounds else Min(2, maxPlanningRounds)
  }

  /** The findings of a parked escalation that could not be scored. */
  function Unscored(findings: string, scoring: Option<Scoring>): string {
    match scoring
    case Some(NotScoreable(reason)) => findings + ("\n\nScoring: not available \U{2014} " + reason)
    case _ => findings + "\n\nScoring: not available \U{2014} scoring unavailable"
  }

  // ----- what a trace says -----

  function Count(trace: seq<Call>, counted: Call -> bool): nat {
    if trace == [] then 0 else Count(Init(trace), counted) + (if counted(Last(trace)) then 1 else 0)
  }

  function Drafts(trace: seq<Call>): nat {
    Count(trace, (c: Call) => c.Drafted?)
  }

  function Reviews(trace: seq<Call>): nat {
    Count(trace, (c: Call) => c.Reviewed?)
  }

  function Decisions(trace: seq<Call>): nat {
    Count(trace, (c: Call) => c.Decided?)
  }

  function Terminals(trace: seq<Call>): nat {
    Count(trace, (c: Call) => c.Announced?)
  }

  lemma CountOfAppend(trace: seq<Call>, c: Call, counted: Call -> bool)
    ensures Count(trace + [c], counted) == Count(trace, counted) + (if counted(c) then 1 else 0)
  {
    InitOfAppend(trace, c);
  }

  lemma StartCounts()
    ensures Drafts([]) == 0 && Reviews([]) == 0 && Decisions([]) == 0 && Terminals([]) == 0 && Taken([]) == []
  {
  }

  lemma CountsOfAppend(trace: seq<Call>, c: Call)
    ensures Drafts(trace + [c]) == Drafts(trace) + (if c.Drafted? then 1 else 0)
    ensures Reviews(trace + [c]) == Reviews(trace) + (if c.Reviewed? then 1 else 0)
    ensures Decisions(trace + [c]) == Decisions(trace) + (if c.Decided? then 1 else 0)
    ensures Terminals(trace + [c]) == Terminals(trace) + (if c.Announced? then 1 else 0)
  {
    CountOfAppend(trace, c, (d: Call) => d.Drafted?);
    CountOfAppend(trace, c, (d: Call) => d.Reviewed?);
    CountOfAppend(trace, c, (d: Call) => d.Decided?);
    CountOfAppend(trace, c, (d: Call) => d.Announced?);
  }

  /** The decisions the drafts were told to incorporate. */
  function Taken(trace: seq<Call>): seq<string> {
    if trace == [] then []
    else
      Taken(Init(trace)) +
      if Last(trace).Drafted? && Last(trace).brief.Decision? then [Last(trace).brief.decision] else []
  }

  predicate AnsweredWith(c: Call, verdict: Verdict, findings: string) {
    c.Reviewed? && c.review == Some(Review(verdict, findings))
  }

  /**
   * A decision on `findings` that may be acted on just before `i`: answered, not blank, and kept if
   * there is a keeper.
   */
  predicate TakenBefore(before: seq<Call>, findings: string, decision: string, hooks: Hooks) {
    var n := |before|;
    && Trim(decision) != ""
    && (if hooks.recordsDecisions
        then n >= 2 && before[n - 1] == Recorded([decision], true) && before[n - 2] == Decided(findings, Some(decision))
        else n >= 1 && before[n - 1] == Decided(findings, Some(decision)))
  }

  /** The protocol: which call may follow the calls made before it. */
  predicate MayFollow(before: seq<Call>, c: Call, hooks: Hooks) {
    match c
    case Drafted(Opening, _) => before == []
    case Drafted(Findings(findings), _) => before != [] && AnsweredWith(Last(before), RequestChanges, findings)
    case Drafted(Decision(findings, decision), _) => TakenBefore(before, findings, decision, hooks)
    case Reviewed(artifacts, round, _) =>
      before != [] && Last(before).Drafted? && Last(before).drafted == Some(artifacts) && round == Drafts(before)
    case Decided(findings, _) =>
      hooks.decides && before != [] && AnsweredWith(Last(before), RequestChanges, findings)
    case Recorded(decisions, _) =>
      hooks.recordsDecisions && before != [] && Last(before).Decided? && Last(before).decision.Some?
        && decisions == [Last(before).decision.value]
    case Scored(artifacts, findings, _) =>
      hooks.scores && before != [] && AnsweredWith(Last(before), Escalate, findings)
        && Last(before).artifacts == artifacts
    case Announced(_, _) => before != []
  }

  predicate Orderly(trace: seq<Call>, hooks: Hooks) {
    forall i :: 0 <= i < |trace| ==> MayFollow(trace[..i], trace[i], hooks)
  }

  lemma NothingYet(hooks: Hooks)
    ensures Orderly([], hooks)
  {
  }

  lemma OrderlyAppend(trace: seq<Call>, c: Call, hooks: Hooks)
    requires Orderly(trace, hooks) && MayFollow(trace, c, hooks)
    ensures Orderly(trace + [c], hooks)
  {
    hide MayFollow;
    forall i | 0 <= i < |trace + [c]|
      ensures MayFollow((trace + [c])[..i], (trace + [c])[i], hooks)
    {
      assert (trace + [c])[..i] == trace[..i];
      if i == |trace| {
        assert trace[..i] == trace;
      }
    }
  }

  /** How a planned ticket's calls end: the outcome is what the last review said. */
  predicate Justified(o: PlanningOutcome, calls: seq<Call>, budget: int, hooks: Hooks) {
    && o.decisions == Taken(calls)
    && calls != []
    && match o
       case Approved(artifacts, _) =>
         Last(calls).Reviewed? && Last(calls).artifacts == artifacts && Last(calls).review.Some?
           && Last(calls).review.value.verdict.Approve?
       case Escalated(reason, findings, scoring, _) =>
         if reason.CodexEscalate? then Parked(findings, scoring, calls, hooks)
         else reason.RoundsExhausted? && scoring.None? && Exhausted(findings, calls, budget, hooks)
  }

  lemma ApprovalIsJustified(calls: seq<Call>, artifacts: Artifacts, decisions: seq<string>, budget: int, hooks: Hooks)
    requires calls != [] && Last(calls).Reviewed? && Last(calls).artifacts == artifacts
    requires Last(calls).review.Some? && Last(calls).review.value.verdict.Approve? && decisions == Taken(calls)
    ensures Justified(Approved(artifacts, decisions), calls, budget, hooks)
  {
    hide Taken;
  }

  lemma ParkingIsJustified(calls: seq<Call>, findings: string, scoring: Option<Scoring>, decisions: seq<string>,
      budget: int, hooks: Hooks)
    requires calls != [] && Parked(findings, scoring, calls, hooks) && decisions == Taken(calls)
    ensures Justified(Escalated(CodexEscalate, findings, scoring, decisions), calls, budget, hooks)
  {
    hide Taken, Parked;
  }

  lemma ExhaustionIsJustified(calls: seq<Call>, findings: string, decisions: seq<string>, budget: int, hooks: Hooks)
    requires calls != [] && Exhausted(findings, calls, budget, hooks) && decisions == Taken(calls)
    ensures Justified(Escalated(RoundsExhausted, findings, None, decisions), calls, budget, hooks)
  {
    hide Taken, Exhausted;
  }

  /** With a decision already taken, a spent budget is the end. */
  lemma SpentAfterDecision(calls: seq<Call>, findings: string, budget: int, hooks: Hooks)
    requires calls != [] && AnsweredWith(Last(calls), RequestChanges, findings) && Taken(calls) != []
    requires Drafts(calls) == 1 + Max(budget, 0) + |Taken(calls)|
    ensures Exhausted(findings, calls, budget, hooks)
  {
    hide Taken, Drafts;
  }

  lemma NothingTaken(calls: seq<Call>, c: Call)
    requires !c.Drafted?
    ensures Taken(calls + [c]) == Taken(calls)
  {
    InitOfAppend(calls, c);
  }

  /** No decision to be had: nobody to ask, or no answer. */
  lemma UndecidedIsExhausted(calls: seq<Call>, findings: string, hooks: Hooks)
    requires calls != [] && Taken(calls) == []
    requires if hooks.decides
             then Last(calls).Decided? && Last(calls).findings == findings
                  && (Last(calls).decision.None? || Trim(Last(calls).decision.value) == "")
             else AnsweredWith(Last(calls), RequestChanges, findings)
    ensures forall budget :: Drafts(calls) == 1 + Max(budget, 0) ==> Exhausted(findings, calls, budget, hooks)
  {
    hide Drafts, Taken, Trim;
  }

  /** A decision that could not be kept is none. */
  lemma UnkeptIsExhausted(decided: seq<Call>, decision: string, findings: string, hooks: Hooks)
    requires decided != [] && Last(decided).Decided? && Last(decided).findings == findings
    requires var calls := decided + [Recorded([decision], false)]; Taken(calls) == []
    ensures var calls := decided + [Recorded([decision], false)];
            forall budget :: Drafts(calls) == 1 + Max(budget, 0) ==> Exhausted(findings, calls, budget, hooks)
  {
    var calls := decided + [Recorded([decision], false)];
    assert calls[|calls| - 2] == Last(decided) && Last(calls) == Recorded([decision], false);
    hide Drafts, Taken;
  }

  /** The reviewer escalated: parked, scored if that can be done, never continued. */
  predicate Parked(findings: string, scoring: Option<Scoring>, calls: seq<Call>, hooks: Hooks)
    requires calls != []
  {
    if hooks.scores then
      && Last(calls).Scored?
      && scoring == (if Last(calls).scoring.Some? && Last(calls).scoring.value.Scoreable? then Last(calls).scoring
                     else None)
      && findings == Last(calls).findings +
           match Last(calls).scoring
           case Some(Scoreable(_)) => ""
           case Some(NotScoreable(reason)) => "\n\nScoring: not available \U{2014} " + reason
           case None => "\n\nScoring: not available \U{2014} scoring unavailable"
    else scoring.None? && AnsweredWith(Last(calls), Escalate, findings)
  }

  /** Every round is spent, and a decision on these findings was taken already or cannot be had. */
  predicate Exhausted(findings: string, calls: seq<Call>, budget: int, hooks: Hooks)
    requires calls != []
  {
    var last := Last(calls);
    && Drafts(calls) == 1 + Max(budget, 0) + |Taken(calls)|
    && match last
       case Reviewed(_, _, _) =>
         AnsweredWith(last, RequestChanges, findings) && (hooks.decides ==> Taken(calls) != [])
       case Decided(asked, decision) =>
         asked == findings && Taken(calls) == [] && (decision.None? || Trim(decision.value) == "")
       case Recorded(_, kept) =>
         !kept && Taken(calls) == [] && |calls| >= 2
         && calls[|calls| - 2].Decided? && calls[|calls| - 2].findings == findings
       case _ => false
  }

  lemma ScoredIsParked(calls: seq<Call>, scoring: Option<Scoring>, noted: string, hooks: Hooks)
    requires hooks.scores && calls != [] && Last(calls).Scored?
    requires var scored := Last(calls).scoring;
             && scoring == (if scored.Some? && scored.value.Scoreable? then scored else None)
             && noted == (if scoring.Some? then Last(calls).findings else Unscored(Last(calls).findings, scored))
    ensures Parked(noted, scoring, calls, hooks)
  {
    assert Last(calls).findings + "" == Last(calls).findings;
  }

  // ----- what an orderly run implies -----

  lemma OrderlyAt(trace: seq<Call>, hooks: Hooks, i: int)
    requires Orderly(trace, hooks) && 0 <= i < |trace|
    ensures MayFollow(trace[..i], trace[i], hooks)
    ensures i > 0 ==> Last(trace[..i]) == trace[i - 1]
  {
  }

  /** A reviewer's ESCALATE always parks: nothing is drafted, reviewed or decided after it. */
  lemma {:induction false} EscalateParks(trace: seq<Call>, hooks: Hooks, i: int, j: int)
    requires Orderly(trace, hooks) && 0 <= i < j < |trace|
    requires trace[i].Reviewed? && trace[i].review.Some? && trace[i].review.value.verdict.Escalate?
    ensures trace[j].Scored? || trace[j].Announced?
    decreases j
  {
    OrderlyAt(trace, hooks, j);
    if j > i + 1 {
      EscalateParks(trace, hooks, i, j - 1);
    }
  }

  /** A draft that follows a decision follows a durable record of that very decision. */
  lemma DecisionIsKeptFirst(trace: seq<Call>, hooks: Hooks, i: int)
    requires Orderly(trace, hooks) && 0 <= i < |trace| && hooks.recordsDecisions
    requires trace[i].Drafted? && trace[i].brief.Decision?
    ensures i >= 3 && trace[i - 1] == Recorded([trace[i].brief.decision], true)
    ensures trace[i - 2] == Decided(trace[i].brief.findings, Some(trace[i].brief.decision))
    ensures AnsweredWith(trace[i - 3], RequestChanges, trace[i].brief.findings)
  {
    OrderlyAt(trace, hooks, i);
    OrderlyAt(trace, hooks, i - 2);
    assert trace[..i][i - 2] == trace[i - 2];
  }

  /** What is approved is what the last draft produced and the last review read. */
  lemma ApprovalIsOfTheLastDraft(o: PlanningOutcome, calls: seq<Call>, budget: int, hooks: Hooks)
    requires Orderly(calls, hooks) && Justified(o, calls, budget, hooks) && o.Approved?
    ensures |calls| >= 2 && calls[|calls| - 2].Drafted? && calls[|calls| - 2].drafted == Some(o.artifacts)
  {
    OrderlyAt(calls, hooks, |calls| - 1);
  }

  class PlanningDeps {
    const hooks: Hooks
    ghost var trace: seq<Call>

    constructor (hooks: Hooks)
      ensures this.hooks == hooks && trace == []
    {
      this.hooks := hooks;
      trace := [];
    }

    method Draft(brief: Brief) returns (r: Option<Artifacts>)
      modifies this
      ensures trace == old(trace) + [Drafted(brief, r)]
    {
      r := *;
      trace := trace + [Drafted(brief, r)];
    }

    method Consider(artifacts: Artifacts, round: int) returns (r: Option<Review>)
      modifies this
      ensures trace == old(trace) + [Reviewed(artifacts, round, r)]
    {
      r := *;
      trace := trace + [Reviewed(artifacts, round, r)];
    }

    method Score(artifacts: Artifacts, findings: string) returns (r: Option<Scoring>)
      modifies this
      ensures trace == old(trace) + [Scored(artifacts, findings, r)]
    {
      r := *;
      trace := trace + [Scored(artifacts, findings, r)];
    }

    /** tryDecide: absent, throwing or blank is no decision. */
    method TryDecide(findings: string) returns (r: Option<string>)
      modifies this
      ensures !hooks.decides ==> r.None? && trace == old(trace)
      ensures hooks.decides ==>
                && |trace| == |old(trace)| + 1 && trace == old(trace) + [Last(trace)]
                && Last(trace).Decided? && Last(trace).findings == findings
                && (r.Some? ==> Last(trace).decision == r && Trim(r.value) != "")
                && (r.None? ==> Last(trace).decision.None? || Trim(Last(trace).decision.value) == "")
    {
      if !hooks.decides {
        return None;
      }
      var answer: Option<string> := *;
      trace := trace + [Decided(findings, answer)];
      r := if answer.Some? && Trim(answer.value) != "" then answer else None;
    }

    /** tryPersistDecision: an absent hook counts as kept, a throw does not. */
    method TryPersistDecision(decisions: seq<string>) returns (kept: bool)
      modifies this
      ensures !hooks.recordsDecisions ==> kept && trace == old(trace)
      ensures hooks.recordsDecisions ==> trace == old(trace) + [Recorded(decisions, kept)]
    {
      if !hooks.recordsDecisions {
        return true;
      }
      kept := *;
      trace := trace + [Recorded(decisions, kept)];
    }

    method Announce(approved: bool, reason: Option<Reason>)
      modifies this
      ensures trace == old(trace) + [Announced(approved, reason)]
    {
      trace := trace + [Announced(approved, reason)];
    }

    /** The terminal event. */
    method Finish(approved: bool, reason: Option<Reason>)
      requires Orderly(trace, hooks) && trace != []
      modifies this
      ensures Orderly(trace, hooks) && trace == old(trace) + [Announced(approved, reason)]
      ensures Init(trace) == old(trace)
      ensures Drafts(trace) == old(Drafts(trace)) && Reviews(trace) == old(Reviews(trace))
              && Decisions(trace) == old(Decisions(trace))
    {
      Announce(approved, reason);
      OrderlyAppend(old(trace), Last(trace), hooks);
      CountsOfAppend(old(trace), Last(trace));
    }

    /** Scoring a parked escalation; a throw, or no comparison, leaves a note in the findings. */
    method ScoreEscalation(artifacts: Artifacts, findings: string) returns (noted: string, scoring: Option<Scoring>)
      requires Orderly(trace, hooks) && Unannounced(trace)
      requires trace != [] && AnsweredWith(Last(trace), Escalate, findings) && Last(trace).artifacts == artifacts
      modifies this
      ensures Orderly(trace, hooks) && Unannounced(trace) && trace != []
      ensures Drafts(trace) == old(Drafts(trace)) && Reviews(trace) == old(Reviews(trace))
              && Decisions(trace) == old(Decisions(trace))
      ensures Taken(trace) == old(Taken(trace)) && Parked(noted, scoring, trace, hooks)
    {
      if !hooks.scores {
        return findings, None;
      }
      hide Parked, Unscored, Count, Taken;
      var scored := Score(artifacts, findings);
      NothingTaken(old(trace), Last(trace));
      OrderlyAppend(old(trace), Last(trace), hooks);
      CountsOfAppend(old(trace), Last(trace));
      scoring := if scored.Some? && scored.value.Scoreable? then scored else None;
      noted := if scoring.Some? then findings else Unscored(findings, scored);
      ScoredIsParked(trace, scoring, noted, hooks);
    }

    /** A decision that was answered and kept; None parks the ticket. */
    method TakeDecision(findings: string) returns (r: Option<string>)
      requires Orderly(trace, hooks) && Unannounced(trace) && Taken(trace) == [] && Decisions(trace) == 0
      requires trace != [] && AnsweredWith(Last(trace), RequestChanges, findings)
      modifies this
      ensures Orderly(trace, hooks) && Unannounced(trace) && trace != [] && Taken(trace) == []
      ensures Drafts(trace) == old(Drafts(trace)) && Reviews(trace) == old(Reviews(trace))
      ensures Decisions(trace) <= 1 && (r.Some? ==> Decisions(trace) == 1)
      ensures r.Some? ==> TakenBefore(trace, findings, r.value, hooks)
      ensures r.None? ==>
                forall budget :: Drafts(trace) == 1 + Max(budget, 0) ==> Exhausted(findings, trace, budget, hooks)
    {
      hide Orderly, Exhausted, Taken, Count;
      ghost var before := trace;
      r := TryDecide(findings);
      if hooks.decides {
        OrderlyAppend(before, Last(trace), hooks);
        CountsOfAppend(before, Last(trace));
        NothingTaken(before, Last(trace));
      }
      if r.None? {
        UndecidedIsExhausted(trace, findings, hooks);
        return None;
      }
      ghost var decided := trace;
      var kept := TryPersistDecision([r.value]);
      if hooks.recordsDecisions {
        OrderlyAppend(decided, Last(trace), hooks);
        CountsOfAppend(decided, Last(trace));
        NothingTaken(decided, Last(trace));
      }
      if !kept {
        UnkeptIsExhausted(decided, r.value, findings, hooks);
        return None;
      }
    }

    /** One draft and its review; None when either throws. */
    method DraftAndReview(brief: Brief, round: int) returns (r: Option<(Artifacts, Review)>)
      requires Orderly(trace, hooks) && Unannounced(trace)
      requires MayFollow(trace, Drafted(brief, None), hooks) && round == Drafts(trace) + 1
      modifies this
      ensures Orderly(trace, hooks) && Unannounced(trace)
      ensures r.Some? ==>
                && Drafts(trace) == old(Drafts(trace)) + 1 && Reviews(trace) == old(Reviews(trace)) + 1
                && Decisions(trace) == old(Decisions(trace))
                && Last(trace) == Reviewed(r.value.0, round, Some(r.value.1))
                && Taken(trace) == old(Taken(trace)) + (if brief.Decision? then [brief.decision] else [])
      ensures r.None? ==> Drafts(trace) == old(Drafts(trace)) + 1 && Decisions(trace) == old(Decisions(trace))
      ensures r.None? ==> Threw(Last(trace)) && Reviews(trace) <= old(Reviews(trace)) + 1
    {
      ghost var before := trace;
      var artifacts := Draft(brief);
      OrderlyAppend(before, Last(trace), hooks);
      CountsOfAppend(before, Last(trace));
      if artifacts.None? {
        return None;
      }
      ghost var drafted := trace;
      var review := Consider(artifacts.value, round);
      OrderlyAppend(drafted, Last(trace), hooks);
      CountsOfAppend(drafted, Last(trace));
      r := if review.None? then None else Some((artifacts.value, review.value));
    }
  }

  predicate Threw(c: Call) {
    (c.Drafted? && c.drafted.None?) || (c.Reviewed? && c.review.None?)
  }

  predicate Unannounced(trace: seq<Call>) {
    Terminals(trace) == 0
  }

  /**
   * runPlanningLoop. None is a throw out of the draft or the review. The calls are orderly
   * whatever the collaborators answer; what is returned is what the last answers justify.
   */
  method RunPlanningLoop(deps: PlanningDeps, gate: GateDecision, maxPlanningRounds: int)
      returns (r: Option<PlanningOutcome>)
    requires deps.trace == []
    modifies deps
    ensures Orderly(deps.trace, deps.hooks)
    ensures Drafts(deps.trace)
            <= Max(if gate.Brainstorm? then maxPlanningRounds else Min(2, maxPlanningRounds), 0) + 2
    ensures Decisions(deps.trace) <= 1
    ensures var budget := if gate.Brainstorm? then maxPlanningRounds else Min(2, maxPlanningRounds);
            r.Some? ==>
              && deps.trace != [] && Reviews(deps.trace) == Drafts(deps.trace)
              && Last(deps.trace) == Announced(r.value.Approved?, if r.value.Approved? then None
                   else Some(r.value.reason))
              && Unannounced(Init(deps.trace))
              && Justified(r.value, Init(deps.trace), budget, deps.hooks)
    ensures r.None? ==> deps.trace != [] && Threw(Last(deps.trace)) && Unannounced(deps.trace)
  {
    hide Orderly, Parked, Exhausted, Justified, Count, Drafts, Reviews, Decisions, Terminals, Unscored, TakenBefore,
      Taken;
    StartCounts();
    NothingYet(deps.hooks);
    var budget := RoundBudget(gate, maxPlanningRounds);
    var round, revision := 1, 0;
    var decisions: seq<string> := [];
    var answer := deps.DraftAndReview(Opening, round);
    if answer.None? {
      return None;
    }
    while true
      invariant Orderly(deps.trace, deps.hooks) && Unannounced(deps.trace)
      invariant answer.Some? && deps.trace != []
                && Last(deps.trace) == Reviewed(answer.value.0, round, Some(answer.value.1))
      invariant Drafts(deps.trace) == Reviews(deps.trace) == round == 1 + revision + |decisions|
      invariant decisions == Taken(deps.trace) && Decisions(deps.trace) == |decisions| <= 1
      invariant 0 <= revision <= Max(budget, 0)
      invariant decisions != [] ==> revision >= budget
      decreases Max(budget, 0) - revision + 1 - |decisions|
    {
      var artifacts, verdict := answer.value.0, answer.value.1;
      if verdict.verdict.Approve? {
        ApprovalIsJustified(deps.trace, artifacts, decisions, budget, deps.hooks);
        deps.Finish(true, None);
        return Some(Approved(artifacts, decisions));
      }
      if verdict.verdict.Escalate? {
        var findings, scoring := deps.ScoreEscalation(artifacts, verdict.findings);
        ParkingIsJustified(deps.trace, findings, scoring, decisions, budget, deps.hooks);
        deps.Finish(false, Some(CodexEscalate));
        return Some(Escalated(CodexEscalate, findings, scoring, decisions));
      }
      if revision >= budget {
        if decisions == [] {
          var decision := deps.TakeDecision(verdict.findings);
          if decision.Some? {
            decisions := decisions + [decision.value];
            round := round + 1;
            answer := deps.DraftAndReview(Decision(verdict.findings, decision.value), round);
            if answer.None? {
              return None;
            }
            continue;
          }
        } else {
          SpentAfterDecision(deps.trace, verdict.findings, budget, deps.hooks);
        }
        ExhaustionIsJustified(deps.trace, verdict.findings, decisions, budget, deps.hooks);
        deps.Finish(false, Some(RoundsExhausted));
        return Some(Escalated(RoundsExhausted, verdict.findings, None, decisions));
      }
      revision := revision + 1;
      round := round + 1;
      answer := deps.DraftAndReview(Findings(verdict.findings), round);
      if answer.None? {
        return None;
      }
    }
  }
}
