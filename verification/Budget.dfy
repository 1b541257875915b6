/**
 * Budget ceilings and the no-progress detector (src/budget.ts): the evaluator the loop
 * head consults, the guard the kernel consults, and how far they agree.
 */
module Budgets {
  import opened Prelude
  import opened LoopStates
  import opened RunStates

  datatype BudgetConfig = BudgetConfig(
    maxIterations: int,
    maxWallClockMs: int,
    maxNoProgressIterations: int,
    maxNoProgressMs: int,
    flagsCountAsProgress: bool)

  datatype Marker = Marker(
    iterationsUsed: int,
    maxIterations: int,
    elapsedMs: int,
    maxWallClockMs: int,
    iterationsSinceProgress: int,
    maxNoProgressIterations: int,
    msSinceProgress: int,
    maxNoProgressMs: int)

  datatype BudgetVerdict = Within(marker: Marker) | Tripped(marker: Marker, arm: BudgetArm)

  /** The terminal state an arm routes to. */
  function ArmState(arm: BudgetArm): LoopState {
    match arm
    case WallClock => BudgetExceeded
    case Iterations => BudgetExceeded
    case NoProgressCount => NoProgress
    case NoProgressTime => NoProgress
  }

  // ----- what the log says -----

  predicate IsProgress(e: RunEvent, flagsCount: bool) {
    e.kind.MergeDecision? || (flagsCount && e.kind.TicketFlagged?)
  }

  function CountStarts(events: seq<RunEvent>): nat {
    if events == [] then 0
    else CountStarts(Init(events)) + (if Last(events).kind.TicketStarted? then 1 else 0)
  }

  /** Tickets started after the last progress event. */
  function StartsSinceProgress(events: seq<RunEvent>, flagsCount: bool): nat {
    if events == [] then 0
    else if IsProgress(Last(events), flagsCount) then 0
    else StartsSinceProgress(Init(events), flagsCount) + (if Last(events).kind.TicketStarted? then 1 else 0)
  }

  function LastProgressAt(events: seq<RunEvent>, flagsCount: bool): Option<int> {
    if events == [] then None
    else if IsProgress(Last(events), flagsCount) then Some(Last(events).ts)
    else LastProgressAt(Init(events), flagsCount)
  }

  /** The two index scans of noProgress agree with the definitions over the log. */
  method NoProgressScan(events: seq<RunEvent>, flagsCount: bool) returns (starts: nat, lastAt: Option<int>)
    ensures starts == StartsSinceProgress(events, flagsCount)
    ensures lastAt == LastProgressAt(events, flagsCount)
  {
    var lastIdx := -1;
    for i := 0 to |events|
      invariant -1 <= lastIdx < i
      invariant lastIdx >= 0 ==> IsProgress(events[lastIdx], flagsCount)
      invariant forall k :: lastIdx < k < i ==> !IsProgress(events[k], flagsCount)
    {
      if IsProgress(events[i], flagsCount) {
        lastIdx := i;
      }
    }
    lastAt := if lastIdx >= 0 then Some(events[lastIdx].ts) else None;
    starts := 0;
    assert lastIdx == -1 ==> events[..lastIdx + 1] == [];
    assert lastIdx >= 0 ==> Init(events[..lastIdx + 1]) == events[..lastIdx];
    for i := lastIdx + 1 to |events|
      invariant starts == StartsSinceProgress(events[..i], flagsCount)
      invariant lastAt == LastProgressAt(events[..i], flagsCount)
    {
      assert Init(events[..i + 1]) == events[..i] && Last(events[..i + 1]) == events[i];
      if events[i].kind.TicketStarted? {
        starts := starts + 1;
      }
    }
    assert events[..|events|] == events;
  }

  function MarkerOf(state: RunState, events: seq<RunEvent>, config: BudgetConfig, now: int): Marker {
    var progressAt := LastProgressAt(events, config.flagsCountAsProgress);
    Marker(CountStarts(events), config.maxIterations,
           now - state.startedAt, config.maxWallClockMs,
           StartsSinceProgress(events, config.flagsCountAsProgress), config.maxNoProgressIterations,
           now - (if progressAt.Some? then progressAt.value else state.startedAt), config.maxNoProgressMs)
  }

  // ----- the arms -----

  const ARMS: seq<BudgetArm> := [WallClock, Iterations, NoProgressCount, NoProgressTime]

  /** Whether one arm is at or over its ceiling. */
  predicate ArmTripped(m: Marker, arm: BudgetArm) {
    match arm
    case WallClock => m.elapsedMs >= m.maxWallClockMs
    case Iterations => m.iterationsUsed >= m.maxIterations
    case NoProgressCount => m.iterationsSinceProgress >= m.maxNoProgressIterations
    case NoProgressTime => m.msSinceProgress >= m.maxNoProgressMs
  }

  /** The first arm for which `trips` holds, in the order the table lists them. */
  function FirstArm(trips: BudgetArm -> bool, arms: seq<BudgetArm>): Option<BudgetArm> {
    if arms == [] then None
    else if trips(arms[0]) then Some(arms[0])
    else FirstArm(trips, arms[1..])
  }

  function EvaluateBudget(state: RunState, events: seq<RunEvent>, config: BudgetConfig, now: int): BudgetVerdict {
    var m := MarkerOf(state, events, config, now);
    match FirstArm(arm => ArmTripped(m, arm), ARMS)
    case None => Within(m)
    case Some(arm) => Tripped(m, arm)
  }

  // ----- the projected views and the guard -----

  function ViewOf(m: Marker): BudgetView {
    BudgetView(m.iterationsUsed, m.maxIterations, m.elapsedMs, m.maxWallClockMs)
  }

  function NoProgressViewOf(m: Marker): NoProgressView {
    NoProgressView(m.iterationsSinceProgress, m.maxNoProgressIterations, m.msSinceProgress, m.maxNoProgressMs)
  }

  /** viewNumber(used) >= viewNumber(max); an empty view has neither number. */
  predicate ViewTripped(b: Option<BudgetView>, n: Option<NoProgressView>, arm: BudgetArm) {
    match arm
    case WallClock => b.Some? && b.value.elapsedMs >= b.value.maxWallClockMs
    case Iterations => b.Some? && b.value.iterationsUsed >= b.value.maxIterations
    case NoProgressCount => n.Some? && n.value.iterationsSinceProgress >= n.value.maxNoProgressIterations
    case NoProgressTime => n.Some? && n.value.msSinceProgress >= n.value.maxNoProgressMs
  }

  predicate GuardExempt(to: LoopState) {
    to.BudgetExceeded? || to.NoProgress? || to.NeedsHuman?
  }

  /** makeBudgetGuard().check: None allows the move, Some names the arm that denies it. */
  function GuardDenial(state: RunState, to: LoopState): Option<BudgetArm> {
    if GuardExempt(to) then None
    else FirstArm(arm => ViewTripped(state.budget, state.noProgress, arm), ARMS)
  }

  /** No arm of the persisted views is tripped, so the guard lets every move through. */
  predicate Untripped(state: RunState) {
    forall arm :: !ViewTripped(state.budget, state.noProgress, arm)
  }

  lemma {:induction false} FirstArmProperties(trips: BudgetArm -> bool, arms: seq<BudgetArm>)
    ensures var r := FirstArm(trips, arms);
            && (r.Some? ==> trips(r.value) && r.value in arms)
            && (r.None? ==> forall arm :: arm in arms ==> !trips(arm))
  {
    if arms != [] && !trips(arms[0]) {
      FirstArmProperties(trips, arms[1..]);
    }
  }

  lemma {:induction false} FirstArmCongruence(f: BudgetArm -> bool, g: BudgetArm -> bool, arms: seq<BudgetArm>)
    requires forall arm :: f(arm) == g(arm)
    ensures FirstArm(f, arms) == FirstArm(g, arms)
  {
    if arms != [] && !f(arms[0]) {
      FirstArmCongruence(f, g, arms[1..]);
    }
  }

  lemma ArmListed(arm: BudgetArm)
    ensures arm in ARMS
  {
    assert ARMS[match arm case WallClock => 0 case Iterations => 1 case NoProgressCount => 2 case NoProgressTime => 3]
      == arm;
  }

  lemma UntrippedMeansNoDenial(state: RunState, to: LoopState)
    ensures Untripped(state) ==> GuardDenial(state, to).None?
    ensures to !in {BudgetExceeded, NoProgress, NeedsHuman} && GuardDenial(state, to).None? ==> Untripped(state)
  {
    FirstArmProperties(arm => ViewTripped(state.budget, state.noProgress, arm), ARMS);
    forall arm ensures arm in ARMS { ArmListed(arm); }
  }

  /** What the evaluator answers, in terms of the arms alone: the highest-precedence tripped one. */
  lemma EvaluatorMeaning(state: RunState, events: seq<RunEvent>, config: BudgetConfig, now: int)
    ensures var v := EvaluateBudget(state, events, config, now);
            && (v.Within? <==> forall arm :: !ArmTripped(v.marker, arm))
            && (v.Tripped? ==> ArmTripped(v.marker, v.arm))
            && (v.Tripped? && v.arm != WallClock ==> !ArmTripped(v.marker, WallClock))
            && (v.Tripped? && v.arm in {NoProgressCount, NoProgressTime} ==> !ArmTripped(v.marker, Iterations))
            && (v.Tripped? && v.arm == NoProgressTime ==> !ArmTripped(v.marker, NoProgressCount))
  {
    var m := MarkerOf(state, events, config, now);
    FirstArmProperties(arm => ArmTripped(m, arm), ARMS);
    forall arm ensures arm in ARMS { ArmListed(arm); }
    assert ARMS[1..][1..][1..] == [NoProgressTime];
  }

  /**
   * The guard and the evaluator agree: on the views the loop head writes, the guard denies
   * every move that is not a trip route, and with the evaluator's own arm, exactly when
   * the evaluator tripped.
   */
  lemma GuardAgreesWithEvaluator(state: RunState, events: seq<RunEvent>, config: BudgetConfig, now: int, to: LoopState)
    ensures var v := EvaluateBudget(state, events, config, now);
            var written := state.(budget := Some(ViewOf(v.marker)), noProgress := Some(NoProgressViewOf(v.marker)));
            GuardDenial(written, to) ==
              if to in {BudgetExceeded, NoProgress, NeedsHuman} || v.Within? then None else Some(v.arm)
  {
    var m := MarkerOf(state, events, config, now);
    FirstArmCongruence(arm => ArmTripped(m, arm),
                       arm => ViewTripped(Some(ViewOf(m)), Some(NoProgressViewOf(m)), arm), ARMS);
  }

  // ----- the marker, read off the log by position -----

  /** The positions of the starts from `from` on. */
  function StartsFrom(events: seq<RunEvent>, from: nat): set<nat> {
    set k: nat | from <= k < |events| && events[k].kind.TicketStarted?
  }

  lemma StartsOfAppend(events: seq<RunEvent>, e: RunEvent, from: nat)
    requires from <= |events|
    ensures |StartsFrom(events + [e], from)| == |StartsFrom(events, from)| + (if e.kind.TicketStarted? then 1 else 0)
  {
    var all, n: nat := events + [e], |events|;
    assert forall k: nat :: k < n ==> all[k] == events[k];
    assert n !in StartsFrom(events, from);
    if e.kind.TicketStarted? {
      assert StartsFrom(all, from) == StartsFrom(events, from) + {n};
    } else {
      assert StartsFrom(all, from) == StartsFrom(events, from);
    }
  }

  lemma {:induction false} CountIsCardinality(events: seq<RunEvent>)
    ensures CountStarts(events) == |StartsFrom(events, 0)|
  {
    if events == [] {
      assert StartsFrom(events, 0) == {};
    } else {
      CountIsCardinality(Init(events));
      StartsOfAppend(Init(events), Last(events), 0);
      assert events == Init(events) + [Last(events)];
    }
  }

  /** The last event of progress: a merge decision, or a flag when flags count. */
  predicate LastProgress(events: seq<RunEvent>, flagsCount: bool, i: nat) {
    && i < |events| && (events[i].kind.MergeDecision? || (flagsCount && events[i].kind.TicketFlagged?))
    && forall k :: i < k < |events| ==>
         !events[k].kind.MergeDecision? && !(flagsCount && events[k].kind.TicketFlagged?)
  }

  lemma {:induction false} SinceProgress(events: seq<RunEvent>, flagsCount: bool, i: nat)
    requires LastProgress(events, flagsCount, i)
    ensures StartsSinceProgress(events, flagsCount) == |StartsFrom(events, i + 1)|
    ensures LastProgressAt(events, flagsCount) == Some(events[i].ts)
  {
    if i == |events| - 1 {
      assert StartsFrom(events, i + 1) == {};
    } else {
      SinceProgress(Init(events), flagsCount, i);
      StartsOfAppend(Init(events), Last(events), i + 1);
      assert events == Init(events) + [Last(events)];
    }
  }

  lemma {:induction false} NeverProgressed(events: seq<RunEvent>, flagsCount: bool)
    requires forall k :: 0 <= k < |events| ==>
               !events[k].kind.MergeDecision? && !(flagsCount && events[k].kind.TicketFlagged?)
    ensures StartsSinceProgress(events, flagsCount) == |StartsFrom(events, 0)|
    ensures LastProgressAt(events, flagsCount) == None
  {
    if events == [] {
      assert StartsFrom(events, 0) == {};
    } else {
      NeverProgressed(Init(events), flagsCount);
      StartsOfAppend(Init(events), Last(events), 0);
      assert events == Init(events) + [Last(events)];
    }
  }

  /**
   * What the evaluator measures: all starts, the starts after the last progress, the time since the
   * run started, and the time since the last progress, or since the start if there was none.
   */
  lemma MarkerMeans(state: RunState, events: seq<RunEvent>, config: BudgetConfig, now: int)
    ensures var m := EvaluateBudget(state, events, config, now).marker;
            && m.iterationsUsed == |StartsFrom(events, 0)| && m.elapsedMs == now - state.startedAt
            && (forall i: nat :: LastProgress(events, config.flagsCountAsProgress, i) ==>
                  m.iterationsSinceProgress == |StartsFrom(events, i + 1)| && m.msSinceProgress == now - events[i].ts)
            && ((forall k :: 0 <= k < |events| ==>
                   !events[k].kind.MergeDecision?
                   && !(config.flagsCountAsProgress && events[k].kind.TicketFlagged?)) ==>
                  && m.iterationsSinceProgress == m.iterationsUsed && m.msSinceProgress == m.elapsedMs)
            && m.maxIterations == config.maxIterations && m.maxWallClockMs == config.maxWallClockMs
            && m.maxNoProgressIterations == config.maxNoProgressIterations
            && m.maxNoProgressMs == config.maxNoProgressMs
  {
    var flags := config.flagsCountAsProgress;
    CountIsCardinality(events);
    forall i: nat | LastProgress(events, flags, i)
      ensures StartsSinceProgress(events, flags) == |StartsFrom(events, i + 1)|
      ensures LastProgressAt(events, flags) == Some(events[i].ts)
    {
      SinceProgress(events, flags, i);
    }
    if forall k :: 0 <= k < |events| ==> !events[k].kind.MergeDecision? && !(flags && events[k].kind.TicketFlagged?) {
      NeverProgressed(events, flags);
    }
    hide CountStarts, StartsSinceProgress, LastProgressAt, StartsFrom, LastProgress, FirstArm;
  }

  /** The verdict by its measures: a ceiling that is reached trips, and the wall clock is asked first. */
  lemma VerdictMeans(state: RunState, events: seq<RunEvent>, config: BudgetConfig, now: int)
    ensures var v := EvaluateBudget(state, events, config, now); var m := v.marker;
            if m.elapsedMs >= config.maxWallClockMs then v == Tripped(m, WallClock)
            else if m.iterationsUsed >= config.maxIterations then v == Tripped(m, Iterations)
            else if m.iterationsSinceProgress >= config.maxNoProgressIterations then v == Tripped(m, NoProgressCount)
            else if m.msSinceProgress >= config.maxNoProgressMs then v == Tripped(m, NoProgressTime)
            else v == Within(m)
  {
    EvaluatorMeaning(state, events, config, now);
    var m := MarkerOf(state, events, config, now);
    assert ArmTripped(m, WallClock) <==> m.elapsedMs >= config.maxWallClockMs;
    assert ArmTripped(m, Iterations) <==> m.iterationsUsed >= config.maxIterations;
    assert ArmTripped(m, NoProgressCount) <==> m.iterationsSinceProgress >= config.maxNoProgressIterations;
    assert ArmTripped(m, NoProgressTime) <==> m.msSinceProgress >= config.maxNoProgressMs;
    hide CountStarts, StartsSinceProgress, LastProgressAt;
  }

  /** Events after which a trip cannot be undone: no progress among them. */
  predicate NoProgressEvents(events: seq<RunEvent>, flagsCount: bool) {
    forall e :: e in events ==> !IsProgress(e, flagsCount)
  }

  lemma {:induction false} CountersOnlyGrow(events: seq<RunEvent>, more: seq<RunEvent>, flagsCount: bool)
    requires NoProgressEvents(more, flagsCount)
    ensures CountStarts(events + more) >= CountStarts(events)
    ensures StartsSinceProgress(events + more, flagsCount) >= StartsSinceProgress(events, flagsCount)
    ensures LastProgressAt(events + more, flagsCount) == LastProgressAt(events, flagsCount)
    decreases |more|
  {
    if more == [] {
      assert events + more == events;
    } else {
      CountersOnlyGrow(events, Init(more), flagsCount);
      assert Init(events + more) == events + Init(more) && Last(events + more) == Last(more);
      assert Last(more) in more;
    }
  }

  /** A trip stays tripped while time passes and only non-progress events are appended. */
  lemma TripsPersist(state: RunState, events: seq<RunEvent>, more: seq<RunEvent>, config: BudgetConfig, now: int,
      later: int)
    requires now <= later
    requires NoProgressEvents(more, config.flagsCountAsProgress)
    requires EvaluateBudget(state, events, config, now).Tripped?
    ensures EvaluateBudget(state, events + more, config, later).Tripped?
  {
    CountersOnlyGrow(events, more, config.flagsCountAsProgress);
    EvaluatorMeaning(state, events, config, now);
    EvaluatorMeaning(state, events + more, config, later);
    var arm := EvaluateBudget(state, events, config, now).arm;
    assert ArmTripped(MarkerOf(state, events + more, config, later), arm);
  }
}
