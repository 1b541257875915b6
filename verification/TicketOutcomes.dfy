/** Per-ticket outcomes read back from the event log (src/ticketOutcomes.ts). */
module TicketOutcomes {
  import opened Prelude
  import opened LoopStates
  import opened RunStates

  datatype Built = Built(substantive: bool, changedFiles: nat)

  datatype TicketOutcome = TicketOutcome(
    ticketId: TicketId,
    built: Option<Built>,
    verified: Option<bool>,
    prOpened: Option<bool>,
    merged: bool,
    closed: bool,
    cleanupPending: bool,
    shippingUncertain: bool)

  // ----- what the log says about one ticket, without any index -----

  datatype Account = Account(
    built: Option<Built>,
    verified: Option<bool>,
    decision: Option<MergeAction>,
    flaggedSince: bool,
    flaggedAtGate: bool,
    closed: bool)
  {
    /** A merge decision with no flag after it: the ticket went through to the end. */
    predicate Clean() {
      decision.Some? && !flaggedSince
    }

    function Outcome(id: TicketId): TicketOutcome {
      TicketOutcome(id, built, verified,
                    if decision.Some? then Some(true) else if flaggedAtGate then None else Some(false),
                    decision == Some(AutoMerge) && Clean(), closed, !Clean(), decision.Some? && flaggedSince)
    }
  }

  const NO_ACCOUNT: Account := Account(None, None, None, false, false, false)

  /** An anchor event attributed to this ticket. */
  predicate About(e: RunEvent, id: TicketId) {
    Anchor(e.kind) && e.ticketId == Some(id) && id != ""
  }

  function Book(a: Account, e: RunEvent): Account {
    match e.kind
    case TicketBuilt(substantive, changedFiles) => a.(built := Some(Built(substantive, changedFiles)))
    case VerificationResult(passed) => a.(verified := Some(passed))
    case MergeDecision(action) => a.(decision := Some(action), flaggedSince := false)
    case TicketClosed => a.(closed := true)
    case TicketFlagged =>
      a.(flaggedSince := a.decision.Some?, flaggedAtGate := a.flaggedAtGate || e.phase == Some(MergeGate))
    case _ => a
  }

  function AccountOf(events: seq<RunEvent>, id: TicketId): Account {
    if events == [] then NO_ACCOUNT
    else
      var a := AccountOf(Init(events), id);
      if About(Last(events), id) then Book(a, Last(events)) else a
  }

  lemma AccountOfAppend(events: seq<RunEvent>, e: RunEvent, id: TicketId)
    ensures AccountOf(events + [e], id) ==
            if About(e, id) then Book(AccountOf(events, id), e) else AccountOf(events, id)
  {
    InitOfAppend(events, e);
  }

  /** What an event may tell about a ticket. */
  datatype Fact = OfBuild | OfVerification | OfDecision | OfClosing | OfFlag

  predicate Tells(k: EventKind, fact: Fact) {
    match fact
    case OfBuild => k.TicketBuilt?
    case OfVerification => k.VerificationResult?
    case OfDecision => k.MergeDecision?
    case OfClosing => k.TicketClosed?
    case OfFlag => k.TicketFlagged?
  }

  /** Event k is the last that tells this about the ticket. */
  predicate LastOf(events: seq<RunEvent>, id: TicketId, fact: Fact, k: nat) {
    && k < |events| && Tells(events[k].kind, fact) && events[k].ticketId == Some(id)
    && forall j :: k < j < |events| && Tells(events[j].kind, fact) ==> events[j].ticketId != Some(id)
  }

  predicate NoneOf(events: seq<RunEvent>, id: TicketId, fact: Fact) {
    forall j :: 0 <= j < |events| && Tells(events[j].kind, fact) ==> events[j].ticketId != Some(id)
  }

  lemma LastOfAppend(events: seq<RunEvent>, e: RunEvent, id: TicketId, fact: Fact)
    ensures Tells(e.kind, fact) && e.ticketId == Some(id) ==>
              LastOf(events + [e], id, fact, |events|) && !NoneOf(events + [e], id, fact)
              && forall k: nat :: LastOf(events + [e], id, fact, k) ==> k == |events|
    ensures !(Tells(e.kind, fact) && e.ticketId == Some(id)) ==>
              (NoneOf(events + [e], id, fact) <==> NoneOf(events, id, fact))
              && forall k: nat :: LastOf(events + [e], id, fact, k) <==> LastOf(events, id, fact, k)
  {
    var all := events + [e];
    assert all[|events|] == e && forall k :: 0 <= k < |events| ==> all[k] == events[k];
  }

  /** Built and verified as last told, closed if ever told. */
  ghost predicate ProgressMeans(events: seq<RunEvent>, id: TicketId, a: Account) {
    && (NoneOf(events, id, OfBuild) ==> a.built == None)
    && (forall k: nat :: LastOf(events, id, OfBuild, k) ==>
          a.built == Some(Built(events[k].kind.substantive, events[k].kind.changedFiles)))
    && (NoneOf(events, id, OfVerification) ==> a.verified == None)
    && (forall k: nat :: LastOf(events, id, OfVerification, k) ==> a.verified == Some(events[k].kind.passed))
    && (a.closed <==> !NoneOf(events, id, OfClosing))
  }

  /** Decided as last told, and flagged since if a flag came later. */
  ghost predicate DecisionMeans(events: seq<RunEvent>, id: TicketId, a: Account) {
    && (NoneOf(events, id, OfDecision) ==> a.decision == None && !a.flaggedSince)
    && (forall k: nat :: LastOf(events, id, OfDecision, k) ==>
          && a.decision == Some(events[k].kind.action)
          && (a.flaggedSince <==> exists j: nat :: k < j && LastOf(events, id, OfFlag, j)))
  }

  predicate FlaggedIn(events: seq<RunEvent>, id: TicketId, phase: LoopState) {
    exists j :: 0 <= j < |events| && events[j].kind.TicketFlagged? && events[j].ticketId == Some(id)
                && events[j].phase == Some(phase)
  }

  lemma ProgressStep(events: seq<RunEvent>, e: RunEvent, id: TicketId, a: Account)
    requires id != "" && ProgressMeans(events, id, a)
    ensures ProgressMeans(events + [e], id, if About(e, id) then Book(a, e) else a)
  {
    hide NoneOf, LastOf;
    LastOfAppend(events, e, id, OfBuild);
    LastOfAppend(events, e, id, OfVerification);
    LastOfAppend(events, e, id, OfClosing);
    LastOfIn(events, e, id, OfBuild);
    LastOfIn(events, e, id, OfVerification);
  }

  lemma DecisionStep(events: seq<RunEvent>, e: RunEvent, id: TicketId, a: Account)
    requires id != "" && DecisionMeans(events, id, a)
    ensures DecisionMeans(events + [e], id, if About(e, id) then Book(a, e) else a)
  {
    hide NoneOf, LastOf;
    LastOfAppend(events, e, id, OfDecision);
    LastOfAppend(events, e, id, OfFlag);
    LastOfIn(events, e, id, OfDecision);
    LastOfIn(events, e, id, OfFlag);
    SomeOrNone(events, id, OfDecision);
  }

  lemma LastOfIn(events: seq<RunEvent>, e: RunEvent, id: TicketId, fact: Fact)
    ensures forall k: nat :: LastOf(events, id, fact, k) ==> k < |events| && (events + [e])[k] == events[k]
  {
  }

  lemma {:induction false} SomeOrNone(events: seq<RunEvent>, id: TicketId, fact: Fact)
    ensures NoneOf(events, id, fact) || exists k: nat :: LastOf(events, id, fact, k)
  {
    if events != [] {
      SomeOrNone(Init(events), id, fact);
      LastOfAppend(Init(events), Last(events), id, fact);
      assert events == Init(events) + [Last(events)];
      hide NoneOf, LastOf;
    }
  }

  /** The account of a ticket, by the positions of its events. */
  lemma {:induction false} AccountMeans(events: seq<RunEvent>, id: TicketId)
    requires id != ""
    ensures ProgressMeans(events, id, AccountOf(events, id)) && DecisionMeans(events, id, AccountOf(events, id))
    ensures AccountOf(events, id).flaggedAtGate <==> FlaggedIn(events, id, MergeGate)
  {
    hide ProgressMeans, DecisionMeans, FlaggedIn, Book;
    if events == [] {
      NothingTold(id);
    } else {
      var before, e := Init(events), Last(events);
      AccountMeans(before, id);
      assert events == before + [e];
      ProgressStep(before, e, id, AccountOf(before, id));
      DecisionStep(before, e, id, AccountOf(before, id));
      GateStep(before, e, id, AccountOf(before, id));
    }
  }

  lemma NothingTold(id: TicketId)
    ensures ProgressMeans([], id, NO_ACCOUNT) && DecisionMeans([], id, NO_ACCOUNT) && !FlaggedIn([], id, MergeGate)
  {
  }

  lemma GateStep(events: seq<RunEvent>, e: RunEvent, id: TicketId, a: Account)
    requires id != "" && (a.flaggedAtGate <==> FlaggedIn(events, id, MergeGate))
    ensures (if About(e, id) then Book(a, e) else a).flaggedAtGate <==> FlaggedIn(events + [e], id, MergeGate)
  {
    var all := events + [e];
    assert all[|events|] == e && forall k :: 0 <= k < |events| ==> all[k] == events[k];
  }

  /** The ids the log is about, in order of first appearance. */
  function FirstSeen(events: seq<RunEvent>): seq<TicketId> {
    if events == [] then []
    else
      var ids, e := FirstSeen(Init(events)), Last(events);
      if Anchor(e.kind) && e.ticketId.Some? && e.ticketId.value != "" && e.ticketId.value !in ids
      then ids + [e.ticketId.value] else ids
  }

  /** The log filtered to one ticket's own events. */
  function OwnEvents(events: seq<RunEvent>, id: TicketId): seq<RunEvent> {
    if events == [] then []
    else OwnEvents(Init(events), id) + (if Last(events).ticketId == Some(id) then [Last(events)] else [])
  }

  /** A ticket's outcome depends on its own events alone. */
  lemma {:induction false} OutcomeIsLocal(events: seq<RunEvent>, id: TicketId)
    ensures AccountOf(OwnEvents(events, id), id) == AccountOf(events, id)
  {
    if events != [] {
      OutcomeIsLocal(Init(events), id);
      var own, e := OwnEvents(Init(events), id), Last(events);
      if e.ticketId == Some(id) {
        AccountOfAppend(own, e, id);
      } else {
        assert OwnEvents(events, id) == own;
      }
    }
  }

  // ----- the fold the code runs, with positions -----

  datatype Flag = Flag(index: nat, phase: Option<LoopState>)

  datatype Acc = Acc(
    built: Option<Built>,
    verified: Option<bool>,
    mergeIndex: Option<nat>,
    mergeAction: Option<MergeAction>,
    closed: bool,
    flags: seq<Flag>)
  {
    predicate FlaggedAfter() {
      mergeIndex.Some? && exists k :: 0 <= k < |flags| && flags[k].index > mergeIndex.value
    }

    predicate FlaggedAtGate() {
      exists k :: 0 <= k < |flags| && flags[k].phase == Some(MergeGate)
    }

    /** The positions say what the position-free account says. */
    predicate Matches(a: Account, i: nat) {
      && built == a.built && verified == a.verified && closed == a.closed
      && mergeAction == a.decision && mergeIndex.Some? == a.decision.Some?
      && (mergeIndex.Some? ==> mergeIndex.value < i)
      && (forall k :: 0 <= k < |flags| ==> flags[k].index < i)
      && FlaggedAfter() == a.flaggedSince
      && FlaggedAtGate() == a.flaggedAtGate
    }
  }

  function FeedAcc(acc: Acc, e: RunEvent, index: nat): Acc {
    match e.kind
    case TicketBuilt(substantive, changedFiles) => acc.(built := Some(Built(substantive, changedFiles)))
    case VerificationResult(passed) => acc.(verified := Some(passed))
    case MergeDecision(action) => acc.(mergeIndex := Some(index), mergeAction := Some(action))
    case TicketClosed => acc.(closed := true)
    case TicketFlagged => acc.(flags := acc.flags + [Flag(index, e.phase)])
    case _ => acc
  }

  lemma AnotherFlag(acc: Acc, f: Flag)
    requires acc.mergeIndex.Some? ==> acc.mergeIndex.value < f.index
    ensures var next := acc.(flags := acc.flags + [f]);
            && next.FlaggedAfter() == acc.mergeIndex.Some?
            && next.FlaggedAtGate() == (acc.FlaggedAtGate() || f.phase == Some(MergeGate))
  {
    var next := acc.(flags := acc.flags + [f]);
    assert next.flags[|acc.flags|] == f;
    assert forall k :: 0 <= k < |acc.flags| ==> next.flags[k] == acc.flags[k];
  }

  lemma AnotherDecision(acc: Acc, i: nat, action: Option<MergeAction>)
    requires forall k :: 0 <= k < |acc.flags| ==> acc.flags[k].index < i
    ensures var next := acc.(mergeIndex := Some(i), mergeAction := action);
            !next.FlaggedAfter() && next.FlaggedAtGate() == acc.FlaggedAtGate()
  {
  }

  lemma FlagMatches(acc: Acc, a: Account, e: RunEvent, i: nat)
    requires acc.Matches(a, i) && e.kind.TicketFlagged?
    ensures FeedAcc(acc, e, i).Matches(Book(a, e), i + 1)
  {
    AnotherFlag(acc, Flag(i, e.phase));
    hide Acc.FlaggedAfter, Acc.FlaggedAtGate;
  }

  lemma DecisionMatches(acc: Acc, a: Account, e: RunEvent, i: nat)
    requires acc.Matches(a, i) && e.kind.MergeDecision?
    ensures FeedAcc(acc, e, i).Matches(Book(a, e), i + 1)
  {
    AnotherDecision(acc, i, Some(e.kind.action));
    hide Acc.FlaggedAfter, Acc.FlaggedAtGate;
  }

  lemma SamePositions(acc: Acc, next: Acc)
    requires next.flags == acc.flags && next.mergeIndex == acc.mergeIndex
    ensures next.FlaggedAfter() == acc.FlaggedAfter() && next.FlaggedAtGate() == acc.FlaggedAtGate()
  {
  }

  lemma FeedMatches(acc: Acc, a: Account, e: RunEvent, i: nat)
    requires acc.Matches(a, i)
    ensures FeedAcc(acc, e, i).Matches(Book(a, e), i + 1)
  {
    if e.kind.TicketFlagged? {
      FlagMatches(acc, a, e, i);
    } else if e.kind.MergeDecision? {
      DecisionMatches(acc, a, e, i);
    } else {
      SamePositions(acc, FeedAcc(acc, e, i));
      hide Acc.FlaggedAfter, Acc.FlaggedAtGate;
    }
  }

  /** The outcome the code computes from one accumulator. */
  function Settle(acc: Acc, id: TicketId): TicketOutcome {
    var cleanlyCompleted := acc.mergeIndex.Some? && !acc.FlaggedAfter();
    TicketOutcome(id, acc.built, acc.verified,
                  if acc.mergeIndex.Some? then Some(true) else if acc.FlaggedAtGate() then None else Some(false),
                  acc.mergeAction == Some(AutoMerge) && cleanlyCompleted,
                  acc.closed, !cleanlyCompleted, acc.FlaggedAfter())
  }

  /** One outcome per ticket the log is about, in order of discovery. */
  method DeriveTicketOutcomes(events: seq<RunEvent>) returns (outcomes: seq<TicketOutcome>)
    ensures |outcomes| == |FirstSeen(events)|
    ensures forall k :: 0 <= k < |outcomes| ==>
              outcomes[k] == AccountOf(events, FirstSeen(events)[k]).Outcome(FirstSeen(events)[k])
  {
    var order: seq<TicketId> := [];
    var accs: map<TicketId, Acc> := map[];
    for index := 0 to |events|
      invariant order == FirstSeen(events[..index])
      invariant forall id :: id in accs <==> id in order
      invariant forall id :: id in accs ==> accs[id].Matches(AccountOf(events[..index], id), index)
      invariant forall id :: id !in accs ==> AccountOf(events[..index], id) == NO_ACCOUNT
    {
      var e := events[index];
      assert Init(events[..index + 1]) == events[..index] && Last(events[..index + 1]) == e;
      ghost var before := accs;
      if Anchor(e.kind) && e.ticketId.Some? && e.ticketId.value != "" {
        var id := e.ticketId.value;
        if id !in accs {
          accs := accs[id := Acc(None, None, None, None, false, [])];
          order := order + [id];
        }
        FeedMatches(accs[id], AccountOf(events[..index], id), e, index);
        accs := accs[id := FeedAcc(accs[id], e, index)];
        assert About(e, id);
      }
      forall id | id in accs
        ensures accs[id].Matches(AccountOf(events[..index + 1], id), index + 1)
      {
        if !About(e, id) {
          assert accs[id] == before[id];
        }
      }
    }
    assert events[..|events|] == events;
    outcomes := [];
    for k := 0 to |order|
      invariant |outcomes| == k
      invariant forall j :: 0 <= j < k ==> outcomes[j] == AccountOf(events, order[j]).Outcome(order[j])
    {
      assert order[k] in accs;
      outcomes := outcomes + [Settle(accs[order[k]], order[k])];
    }
  }
}
