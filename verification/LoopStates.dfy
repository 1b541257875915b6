/**
 * The loop's state vocabulary, its transition table and the failure routes
 * (src/loopState.ts), with what the failure router relies on.
 */
module LoopStates {
  import opened Prelude

  datatype LoopState =
    | Idle
    | SelectTicket
    | RefineBacklog
    | StartTicket
    | ExecutePlan
    | PlanTicket
    | Review
    | Close
    | MergeGate
    | Done
    | Blocked
    | NeedsHuman
    | VerificationFailed
    | ReviewRejected
    | BudgetExceeded
    | NoProgress

  /** The TRANSITIONS table, read as a relation: the successors each state allows. */
  predicate CanTransition(from: LoopState, to: LoopState) {
    match from
    case Idle => to.SelectTicket?
    case SelectTicket => to.StartTicket? || to.Done? || to.BudgetExceeded? || to.NoProgress? || to.RefineBacklog?
    case RefineBacklog => to.SelectTicket? || to.NeedsHuman?
    case StartTicket => to.ExecutePlan? || to.Blocked? || to.BudgetExceeded? || to.NoProgress?
    case ExecutePlan => to.Review? || to.VerificationFailed? || to.BudgetExceeded? || to.NoProgress? || to.PlanTicket?
    case PlanTicket => to.SelectTicket? || to.NeedsHuman?
    case Review => to.Close? || to.ReviewRejected? || to.BudgetExceeded? || to.NoProgress?
    case Close => to.MergeGate? || to.SelectTicket? || to.Done? || to.NeedsHuman? || to.BudgetExceeded?
      || to.NoProgress?
    case MergeGate => to.SelectTicket? || to.Done? || to.BudgetExceeded? || to.NoProgress?
    case Blocked => to.SelectTicket? || to.NeedsHuman?
    case VerificationFailed => to.ExecutePlan? || to.SelectTicket? || to.NeedsHuman?
    case ReviewRejected => to.ExecutePlan? || to.SelectTicket? || to.NeedsHuman?
    case Done => false
    case NeedsHuman => false
    case BudgetExceeded => false
    case NoProgress => false
  }

  predicate Terminal(s: LoopState) {
    s.Done? || s.NeedsHuman? || s.BudgetExceeded? || s.NoProgress?
  }

  /** FAILURE_ROUTE: the failure state an active state passes through. */
  function FailureRoute(s: LoopState): Option<LoopState> {
    match s
    case StartTicket => Some(Blocked)
    case ExecutePlan => Some(VerificationFailed)
    case Review => Some(ReviewRejected)
    case _ => None
  }

  /** The states strictly between leaving SelectTicket for a ticket and coming back to it. */
  predicate InTicket(s: LoopState) {
    s.StartTicket? || s.ExecutePlan? || s.PlanTicket? || s.Review? || s.Close? || s.MergeGate?
    || s.Blocked? || s.VerificationFailed? || s.ReviewRejected?
  }

  /** The moves the failure router proposes once it believes the phase is `s`. */
  function RoutingMoves(s: LoopState): seq<LoopState> {
    (if FailureRoute(s).Some? then [FailureRoute(s).value] else [])
    + (if s != SelectTicket then [SelectTicket] else [])
  }

  /** Making `moves` from `at`, every one is in the table and the last lands on SelectTicket. */
  predicate LandsAtSelect(at: LoopState, moves: seq<LoopState>)
    decreases |moves|
  {
    if moves == [] then at == SelectTicket
    else CanTransition(at, moves[0]) && LandsAtSelect(moves[0], moves[1..])
  }

  lemma TerminalIffNoSuccessors(s: LoopState)
    ensures Terminal(s) <==> forall t :: !CanTransition(s, t)
  {
    assert CanTransition(s, SelectTicket) || CanTransition(s, Done) || CanTransition(s, Blocked)
           || CanTransition(s, Review) || CanTransition(s, Close) || Terminal(s);
  }

  /**
   * Routing a failure from the phase that is really persisted is legal move by move and
   * lands on SelectTicket exactly when the run is not already over.
   */
  lemma RoutingFromPersistedPhase(s: LoopState)
    ensures LandsAtSelect(s, RoutingMoves(s)) <==> !Terminal(s)
  {
    TwoMoves(s, RoutingMoves(s));
  }

  /**
   * Routing from a mirror that lags one legal move behind the persisted phase fails for
   * every pair of phases but one: the single safe lag is Close behind MergeGate.
   */
  lemma RoutingFromStaleMirror(mirror: LoopState, persisted: LoopState)
    requires CanTransition(mirror, persisted)
    ensures LandsAtSelect(persisted, RoutingMoves(mirror)) <==> mirror == Close && persisted == MergeGate
  {
    TwoMoves(persisted, RoutingMoves(mirror));
  }

  lemma TwoMoves(at: LoopState, moves: seq<LoopState>)
    requires |moves| <= 2
    ensures LandsAtSelect(at, moves) <==>
            match |moves|
            case 0 => at == SelectTicket
            case 1 => CanTransition(at, moves[0]) && moves[0] == SelectTicket
            case _ => CanTransition(at, moves[0]) && CanTransition(moves[0], moves[1]) && moves[1] == SelectTicket
  {
    if |moves| == 2 {
      assert LandsAtSelect(moves[0], moves[1..]) <==>
             CanTransition(moves[0], moves[1]) && LandsAtSelect(moves[1], moves[1..][1..]);
    }
  }

  // ----- persisted names -----

  datatype Parsed = Parsed(state: LoopState) | Unknown(name: string)

  /** The string under which a state is persisted. */
  function Name(s: LoopState): string {
    match s
    case Idle => "Idle"
    case SelectTicket => "SelectTicket"
    case RefineBacklog => "RefineBacklog"
    case StartTicket => "StartTicket"
    case ExecutePlan => "ExecutePlan"
    case PlanTicket => "PlanTicket"
    case Review => "Review"
    case Close => "Close"
    case MergeGate => "MergeGate"
    case Done => "Done"
    case Blocked => "Blocked"
    case NeedsHuman => "NeedsHuman"
    case VerificationFailed => "VerificationFailed"
    case ReviewRejected => "ReviewRejected"
    case BudgetExceeded => "BudgetExceeded"
    case NoProgress => "NoProgress"
  }

  const ALL_STATES: seq<LoopState> :=
    [Idle, SelectTicket, RefineBacklog, StartTicket, ExecutePlan, PlanTicket, Review, Close, MergeGate,
     Done, Blocked, NeedsHuman, VerificationFailed, ReviewRejected, BudgetExceeded, NoProgress]

  function FindByName(states: seq<LoopState>, name: string): Option<LoopState> {
    if states == [] then None
    else if Name(states[0]) == name then Some(states[0])
    else FindByName(states[1..], name)
  }

  /** parseLoopState: null reads as Idle, a name outside the table is rejected. */
  function ParseLoopState(value: Option<string>): Parsed {
    if value.None? then Parsed(Idle)
    else match FindByName(ALL_STATES, value.value)
         case Some(s) => Parsed(s)
         case None => Unknown(value.value)
  }

  lemma {:induction false} FindByNameSound(states: seq<LoopState>, name: string)
    ensures FindByName(states, name).Some? ==> Name(FindByName(states, name).value) == name
    ensures FindByName(states, name).None? ==> forall s :: s in states ==> Name(s) != name
  {
    if states != [] {
      FindByNameSound(states[1..], name);
    }
  }

  lemma NamesAreDistinct(s: LoopState, t: LoopState)
    requires Name(s) == Name(t)
    ensures s == t
  {
    // Length and one character tell every pair of names apart.
    assert |Name(s)| == |Name(t)| && Name(s)[0] == Name(t)[0];
    assert |Name(s)| > 4 ==> Name(s)[4] == Name(t)[4];
  }

  lemma AllStatesListed(s: LoopState)
    ensures s in ALL_STATES
  {
    var i := match s
      case Idle => 0 case SelectTicket => 1 case RefineBacklog => 2 case StartTicket => 3
      case ExecutePlan => 4 case PlanTicket => 5 case Review => 6 case Close => 7
      case MergeGate => 8 case Done => 9 case Blocked => 10 case NeedsHuman => 11
      case VerificationFailed => 12 case ReviewRejected => 13 case BudgetExceeded => 14
      case NoProgress => 15;
    assert ALL_STATES[i] == s;
  }

  /** What is persisted reads back, and nothing but the table's own names is accepted. */
  lemma NamesRoundTrip(value: Option<string>, s: LoopState)
    ensures ParseLoopState(Some(Name(s))) == Parsed(s)
    ensures ParseLoopState(value) == Parsed(s) <==> value == Some(Name(s)) || (value.None? && s == Idle)
  {
    FindByNameSound(ALL_STATES, Name(s));
    AllStatesListed(s);
    var found := FindByName(ALL_STATES, Name(s));
    if found.Some? {
      NamesAreDistinct(found.value, s);
    }
    if value.Some? {
      FindByNameSound(ALL_STATES, value.value);
    }
  }
}
