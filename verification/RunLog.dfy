/** What the log of one run promises about starts, flags and endings, and what keeps it so. */
module RunLogs {
  import opened Prelude
  import opened LoopStates
  import opened RunStates
  import opened Budgets
  import opened RunStores
  import opened LoopDependencies

  predicate FlaggedFor(e: RunEvent, id: TicketId) {
    e.kind.TicketFlagged? && e.ticketId == Some(id)
  }

  /** Every flag so far is about a skipped ticket. */
  predicate FlagsSkipped(events: seq<RunEvent>, skipped: set<TicketId>) {
    forall k :: 0 <= k < |events| && events[k].kind.TicketFlagged? ==>
      events[k].ticketId.Some? && events[k].ticketId.value in skipped
  }

  /** A ticket flagged in the run is not started again in it. */
  predicate NeverRestarted(events: seq<RunEvent>) {
    forall i, j :: 0 <= i < j < |events| && events[i].kind.TicketFlagged? && events[j].kind.TicketStarted? ==>
      events[i].ticketId != events[j].ticketId
  }

  /** At every point of the log, starts since the last progress stay within the ceiling. */
  predicate ProgressKept(events: seq<RunEvent>, config: BudgetConfig) {
    forall k :: 0 <= k <= |events| ==>
      StartsSinceProgress(events[..k], config.flagsCountAsProgress) <= Max(0, config.maxNoProgressIterations)
  }

  /** The bounds a run keeps on its log. */
  predicate LogKept(events: seq<RunEvent>, starts: int, config: BudgetConfig) {
    && CountStarts(events) == starts
    && starts <= Max(0, config.maxIterations)
    && ProgressKept(events, config)
    && NeverRestarted(events)
  }

  function CountEnds(events: seq<RunEvent>): nat {
    if events == [] then 0
    else CountEnds(Init(events)) + (if EndEvent(Last(events)) then 1 else 0)
  }

  lemma {:induction false} NoEndsCountZero(events: seq<RunEvent>)
    requires forall e :: e in events ==> !EndEvent(e)
    ensures CountEnds(events) == 0
  {
    if events != [] {
      assert Last(events) in events;
      NoEndsCountZero(Init(events));
    }
  }

  lemma OneEnd(events: seq<RunEvent>, e: RunEvent)
    requires (forall x :: x in events ==> !EndEvent(x)) && EndEvent(e)
    ensures CountEnds(events + [e]) == 1 && Last(events + [e]) == e
  {
    NoEndsCountZero(events);
    InitOfAppend(events, e);
  }

  /** Events that start nothing keep every bound. */
  lemma {:induction false} StartlessKeeps(a: seq<RunEvent>, b: seq<RunEvent>, starts: int, config: BudgetConfig)
    requires a <= b && (forall k :: |a| <= k < |b| ==> !b[k].kind.TicketStarted?)
    requires LogKept(a, starts, config)
    ensures LogKept(b, starts, config)
    decreases |b|
  {
    if |a| < |b| {
      var c := Init(b);
      StartlessKeeps(a, c, starts, config);
      forall k | 0 <= k <= |b|
        ensures StartsSinceProgress(b[..k], config.flagsCountAsProgress) <= Max(0, config.maxNoProgressIterations)
      {
        if k <= |c| {
          assert b[..k] == c[..k];
        } else {
          assert b[..k] == b;
          assert c[..|c|] == c;
        }
      }
      forall i, j | 0 <= i < j < |b| && b[i].kind.TicketFlagged? && b[j].kind.TicketStarted?
        ensures b[i].ticketId != b[j].ticketId
      {
        assert j < |c| && b[i] == c[i] && b[j] == c[j];
      }
    } else {
      assert a == b;
    }
  }

  /** A start the budget allowed, of a ticket not flagged before, keeps every bound. */
  lemma StartKeeps(events: seq<RunEvent>, e: RunEvent, starts: int, skipped: set<TicketId>, config: BudgetConfig)
    requires LogKept(events, starts, config) && FlagsSkipped(events, skipped)
    requires e.kind.TicketStarted? && e.ticketId.Some? && e.ticketId.value !in skipped
    requires starts < config.maxIterations
    requires StartsSinceProgress(events, config.flagsCountAsProgress) < config.maxNoProgressIterations
    ensures LogKept(events + [e], starts + 1, config) && FlagsSkipped(events + [e], skipped)
  {
    var b := events + [e];
    InitOfAppend(events, e);
    forall k | 0 <= k <= |b|
      ensures StartsSinceProgress(b[..k], config.flagsCountAsProgress) <= Max(0, config.maxNoProgressIterations)
    {
      if k <= |events| {
        assert b[..k] == events[..k];
      } else {
        assert b[..k] == b;
      }
    }
  }

  /** A ticket's own lifecycle only flags that ticket. */
  lemma OwnFlagsSkipped(a: seq<RunEvent>, b: seq<RunEvent>, id: TicketId, skipped: set<TicketId>)
    requires OwnLog(a, b, id) && FlagsSkipped(a, skipped)
    ensures FlagsSkipped(b, skipped + {id})
    ensures (forall k :: |a| <= k < |b| ==> !FlaggedFor(b[k], id)) ==> FlagsSkipped(b, skipped)
  {
    forall k | 0 <= k < |b| && b[k].kind.TicketFlagged?
      ensures b[k].ticketId.Some? && b[k].ticketId.value in skipped + {id}
      ensures k >= |a| ==> FlaggedFor(b[k], id)
      ensures k < |a| ==> b[k].ticketId.value in skipped
    {
      if k < |a| {
        assert b[k] == a[k];
      } else {
        assert OwnEvent(b[k], id);
      }
    }
  }

  lemma StartlessFlags(a: seq<RunEvent>, b: seq<RunEvent>, skipped: set<TicketId>)
    requires Anchorless(a, b) && FlagsSkipped(a, skipped)
    ensures FlagsSkipped(b, skipped)
  {
    forall k | 0 <= k < |b| && b[k].kind.TicketFlagged?
      ensures b[k].ticketId.Some? && b[k].ticketId.value in skipped
    {
      assert k < |a| && b[k] == a[k];
    }
  }

  // ----- which tickets the log started, and which it flagged -----

  /** The tickets started, in order. */
  function StartedIds(events: seq<RunEvent>): seq<TicketId> {
    if events == [] then []
    else
      StartedIds(Init(events))
      + (if Last(events).kind.TicketStarted? && Last(events).ticketId.Some? then [Last(events).ticketId.value] else [])
  }

  /** The tickets flagged. */
  function FlaggedIds(events: seq<RunEvent>): set<TicketId> {
    set k | 0 <= k < |events| && events[k].kind.TicketFlagged? && events[k].ticketId.Some? :: events[k].ticketId.value
  }

  lemma {:induction false} StartlessStartsNone(a: seq<RunEvent>, b: seq<RunEvent>)
    requires a <= b && forall k :: |a| <= k < |b| ==> !b[k].kind.TicketStarted?
    ensures StartedIds(b) == StartedIds(a)
    decreases |b|
  {
    if |a| < |b| {
      StartlessStartsNone(a, Init(b));
    } else {
      assert a == b;
    }
  }

  lemma OneStart(events: seq<RunEvent>, e: RunEvent, t: TicketId)
    requires e.kind.TicketStarted? && e.ticketId == Some(t)
    ensures StartedIds(events + [e]) == StartedIds(events) + [t]
    ensures FlaggedIds(events + [e]) == FlaggedIds(events)
  {
    InitOfAppend(events, e);
    FlaggedAppend(events, e);
  }

  lemma FlaggedAppend(events: seq<RunEvent>, e: RunEvent)
    ensures FlaggedIds(events + [e]) ==
            FlaggedIds(events) + (if e.kind.TicketFlagged? && e.ticketId.Some? then {e.ticketId.value} else {})
  {
    var all := events + [e];
    assert all[|events|] == e && forall k :: 0 <= k < |events| ==> all[k] == events[k];
    forall t
      ensures t in FlaggedIds(all) <==>
              t in FlaggedIds(events) + (if e.kind.TicketFlagged? && e.ticketId.Some? then {e.ticketId.value} else {})
    {
      if t in FlaggedIds(events) {
        var k :| 0 <= k < |events| && events[k].kind.TicketFlagged? && events[k].ticketId == Some(t);
        assert all[k].ticketId == Some(t);
      }
    }
  }

  /** Nothing anchored was added, so nothing was started or flagged. */
  lemma {:induction false} AnchorlessKeepsIds(a: seq<RunEvent>, b: seq<RunEvent>)
    requires Anchorless(a, b)
    ensures StartedIds(b) == StartedIds(a) && FlaggedIds(b) == FlaggedIds(a)
    decreases |b|
  {
    if |a| < |b| {
      AnchorlessKeepsIds(a, Init(b));
      FlaggedAppend(Init(b), Last(b));
      assert b == Init(b) + [Last(b)];
    } else {
      assert a == b;
    }
  }

  /** A ticket's own lifecycle starts nothing, and flags that ticket or none. */
  lemma {:induction false} OwnLogKeepsIds(a: seq<RunEvent>, b: seq<RunEvent>, id: TicketId)
    requires OwnLog(a, b, id)
    ensures StartedIds(b) == StartedIds(a)
    ensures FlaggedIds(b) ==
            FlaggedIds(a) + (if exists k :: |a| <= k < |b| && FlaggedFor(b[k], id) then {id} else {})
    decreases |b|
  {
    if |a| < |b| {
      var c, e := Init(b), Last(b);
      OwnLogKeepsIds(a, c, id);
      FlaggedAppend(c, e);
      assert b == c + [e] && OwnEvent(b[|b| - 1], id);
      if k :| |a| <= k < |c| && FlaggedFor(c[k], id) {
        assert FlaggedFor(b[k], id);
      }
      if FlaggedFor(e, id) {
        assert FlaggedFor(b[|b| - 1], id);
      }
    } else {
      assert a == b;
    }
  }
}
