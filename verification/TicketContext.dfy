/**
 * The per-ticket run context and the failure router
 * (src/ticketRunContext.ts, src/ticketRecorder.ts, src/ticketFailure.ts).
 */
module TicketContexts {
  import opened Prelude
  import opened LoopStates
  import opened RunStates
  import opened Budgets
  import opened Failures
  import opened MergeGates
  import opened Evidence
  import opened TicketOutcomes
  import opened RunStores
  import opened LoopDependencies
  import opened LoopKernels

  const FLAG_RECORD_MAX_ATTEMPTS := 3

  /** Back where the next ticket is selected, with none in hand. */
  predicate Settled(s: RunState) {
    s.Phase() == SelectTicket && s.currentTicketId.None?
  }

  /** What the log says about the ticket from a position on: a resumed process answers only for its own part. */
  function Claims(w: World, runId: RunId, id: TicketId, since: nat): Account
    requires runId in w.runs && since <= |w.runs[runId].events|
  {
    AccountOf(w.runs[runId].events[since..], id)
  }

  /** What the log claims, from `since` on, about this ticket's shipping really happened. */
  predicate Proven(w: World, runId: RunId, id: TicketId, since: nat)
    requires runId in w.runs
  {
    && since <= |w.runs[runId].events|
    && var a := Claims(w, runId, id, since);
    a.Clean() ==>
      && CleanupReturned(id) in w.trace
      && (a.decision == Some(AutoMerge) ==> MergeReturned(id) in w.trace)
  }

  lemma SliceAppend(events: seq<RunEvent>, e: RunEvent, since: nat)
    requires since <= |events|
    ensures (events + [e])[since..] == events[since..] + [e]
  {
  }

  lemma SliceAnchorless(a: seq<RunEvent>, b: seq<RunEvent>, since: nat)
    requires Anchorless(a, b) && since <= |a|
    ensures Anchorless(a[since..], b[since..])
  {
    forall k | |a[since..]| <= k < |b[since..]|
      ensures !Anchor(b[since..][k].kind)
    {
      assert b[since..][k] == b[since + k];
    }
  }

  /** Nothing deriveTicketOutcomes reads was added, so the claims are the same. */
  lemma AnchorlessClaims(w0: World, w1: World, runId: RunId, id: TicketId, since: nat)
    requires runId in w0.runs && runId in w1.runs && since <= |w0.runs[runId].events|
    requires Anchorless(w0.runs[runId].events, w1.runs[runId].events)
    ensures Claims(w1, runId, id, since) == Claims(w0, runId, id, since)
  {
    SliceAnchorless(w0.runs[runId].events, w1.runs[runId].events, since);
    QuietAccount(w0.runs[runId].events[since..], w1.runs[runId].events[since..], id);
  }

  lemma QuietKeepsProven(w0: World, w1: World, runId: RunId, id: TicketId, since: nat)
    requires Quiet(w0, w1, runId, id) && Proven(w0, runId, id, since)
    ensures Proven(w1, runId, id, since)
  {
    AnchorlessClaims(w0, w1, runId, id, since);
  }

  /** A step that may move the phase, but does nothing outside and logs no anchor event. */
  ghost predicate MoveOnly(w0: World, w1: World, runId: RunId, id: TicketId) {
    && Later(w0, w1, runId, id)
    && QuietLog(w0.runs[runId].events, w1.runs[runId].events)
    && w1.trace == w0.trace
  }

  lemma MoveOnlyReflexive(w: World, runId: RunId, id: TicketId)
    requires runId in w.runs
    ensures MoveOnly(w, w, runId, id)
  {
    QuietReflexive(w, runId, id);
  }

  lemma MoveOnlyTransitive(w0: World, w1: World, w2: World, runId: RunId, id: TicketId)
    requires MoveOnly(w0, w1, runId, id) && MoveOnly(w1, w2, runId, id)
    ensures MoveOnly(w0, w2, runId, id)
  {
    LaterTransitive(w0, w1, w2, runId, id);
  }

  lemma MovingIsLater(w0: World, w1: World, runId: RunId, id: TicketId)
    requires MoveOnly(w0, w1, runId, id)
    ensures Later(w0, w1, runId, id) && w1.trace == w0.trace
  {
  }

  lemma LaterGrows(w0: World, w1: World, runId: RunId, id: TicketId)
    requires Later(w0, w1, runId, id)
    ensures runId in w0.runs && runId in w1.runs && |w0.runs[runId].events| <= |w1.runs[runId].events|
  {
  }

  /** An unclean ticket claims nothing, whatever moves follow. */
  lemma UncleanStays(w0: World, w1: World, runId: RunId, id: TicketId, since: nat)
    requires MoveOnly(w0, w1, runId, id) && since <= |w0.runs[runId].events|
    requires !Claims(w0, runId, id, since).Clean()
    ensures Proven(w1, runId, id, since)
  {
    AnchorlessClaims(w0, w1, runId, id, since);
  }

  /** Moving does nothing outside and tells nothing. */
  lemma MovingIsWordless(w0: World, w1: World, runId: RunId, id: TicketId)
    requires MoveOnly(w0, w1, runId, id)
    ensures Deeds(w0, w1) == [] && Words(w0, w1, runId) == []
  {
    QuietTellsNothing(w0.runs[runId].events, w1.runs[runId].events);
    hide Told;
  }

  /** A kernel move of a ticket changes the phase and the current ticket and logs no anchor. */
  lemma AdvancedIsLater(w0: World, w1: World, runId: RunId, id: TicketId, to: LoopState, patch: TicketPatch,
      r: Outcome<()>)
    requires runId in w0.runs && !Terminal(to)
    requires Advanced(w0.runs, w1.runs, runId, to, Some(id), patch, r, w1.clock)
    requires w0.disks <= w1.disks && w0.clock <= w1.clock && w0.trace == w1.trace && w0.throws == w1.throws
    ensures MoveOnly(w0, w1, runId, id)
    ensures w1.runs[runId].state == w0.runs[runId].state
            || w1.runs[runId].state == Moved(w0.runs[runId].state, to, patch)
  {
    var events := w0.runs[runId].events;
    if r.Ok? {
      assert w1.runs[runId].events[..|events|] == events;
    }
  }

  lemma NothingYet(w: World, runId: RunId, id: TicketId)
    requires runId in w.runs
    ensures Later(w, w, runId, id) && Deeds(w, w) == [] && Words(w, w, runId) == []
  {
    QuietReflexive(w, runId, id);
    QuietIsWordless(w, w, runId, id);
  }

  /** A flag makes the claims about the ticket unclean. */
  lemma FlagsUnclean(before: seq<RunEvent>, e: RunEvent, id: TicketId, since: nat)
    requires e.kind.TicketFlagged? && e.ticketId == Some(id) && since <= |before|
    ensures !AccountOf((before + [e])[since..], id).Clean()
  {
    NamelessIsNeverClean((before + [e])[since..], id);
    SliceAppend(before, e, since);
    AccountOfAppend(before[since..], e, id);
  }

  /** The log gained one flag of this ticket, at this phase. */
  predicate FlagOf(a: seq<RunEvent>, b: seq<RunEvent>, id: TicketId, atPhase: LoopState) {
    && |b| == |a| + 1 && a <= b
    && Last(b).kind == TicketFlagged && Last(b).ticketId == Some(id) && Last(b).phase == Some(atPhase)
  }

  /** Among what the log gained is a flag of this ticket, at this phase. */
  predicate FlagAmong(a: seq<RunEvent>, b: seq<RunEvent>, id: TicketId, atPhase: LoopState) {
    exists k :: |a| <= k < |b| && b[k].kind == TicketFlagged && b[k].ticketId == Some(id)
                && b[k].phase == Some(atPhase)
  }

  lemma FlagStays(w0: World, w1: World, w2: World, runId: RunId, id: TicketId, atPhase: LoopState)
    requires runId in w0.runs && Later(w1, w2, runId, id)
    requires FlagOf(w0.runs[runId].events, w1.runs[runId].events, id, atPhase)
    ensures FlagAmong(w0.runs[runId].events, w2.runs[runId].events, id, atPhase)
  {
    var a, c := w0.runs[runId].events, w2.runs[runId].events;
    assert c[|a|] == w1.runs[runId].events[|a|];
  }

  class TicketRunContext {
    const deps: LoopDeps
    const runId: RunId
    const ticket: Ticket
    /** The length of the log when this process took the ticket up. */
    ghost const since: nat
    /** The in-memory mirror of the phase; only a completed `Enter` moves it. */
    var phase: LoopState

    constructor (deps: LoopDeps, runId: RunId, ticket: Ticket, initialPhase: LoopState, ghost since: nat)
      ensures this.deps == deps && this.runId == runId && this.ticket == ticket && this.phase == initialPhase
      ensures this.since == since
    {
      this.since := since;
      this.deps := deps;
      this.runId := runId;
      this.ticket := ticket;
      this.phase := initialPhase;
    }

    ghost function View(): World
      reads deps, deps.store
    {
      deps.View()
    }

    /** The run is known and its snapshot is one a ticket's lifecycle can be in. */
    ghost predicate Active()
      reads deps, deps.store
    {
      && deps.Valid()
      && runId in deps.store.runs
      && Untripped(deps.store.runs[runId].state)
      && (deps.store.runs[runId].state.Phase() == SelectTicket || InTicket(deps.store.runs[runId].state.Phase()))
    }

    ghost function Snapshot(): RunState
      reads deps, deps.store
      requires runId in deps.store.runs
    {
      deps.store.runs[runId].state
    }

    ghost function Events(): seq<RunEvent>
      reads deps, deps.store
      requires runId in deps.store.runs
    {
      deps.store.runs[runId].events
    }

    ghost predicate Reliable()
    {
      !deps.store.faults.readsFail
    }

    ghost predicate FaultFree()
    {
      !deps.store.faults.readsFail && !deps.store.faults.writesFail
    }

    /** enter(to): drive the kernel, then move the mirror. */
    method Enter(to: LoopState, patch: TicketPatch) returns (r: Outcome<()>)
      requires Active() && (to == SelectTicket || InTicket(to))
      requires PatchFits(Snapshot(), to, patch)
      modifies this`phase, deps.store
      ensures Active() && MoveOnly(old(View()), View(), runId, ticket.id)
      ensures r.Ok? ==> Snapshot() == Moved(old(Snapshot()), to, patch) && CanTransition(old(Snapshot().Phase()), to)
      ensures r.Err? ==> !CanTransition(old(Snapshot().Phase()), to) || (r.error == StoreFailure && !FaultFree())
    {
      hide RunStore.Valid, MoveOnly;
      UntrippedMeansNoDenial(Snapshot(), to);
      ghost var w0 := View();
      r := Advance(deps, runId, to, Some(ticket.id), patch);
      AdvancedIsLater(w0, View(), runId, ticket.id, to, patch, r);
      assert Untripped(Snapshot());
      if r.Ok? {
        phase := to;
      }
    }

    /** rec.event for an event of this ticket. */
    method Log(kind: EventKind, atPhase: Option<LoopState>) returns (r: Outcome<()>)
      requires Active()
      requires !kind.TicketStarted? && !kind.RunCompleted? && !kind.RunStopped?
      modifies deps.store
      ensures Active() && Later(old(View()), View(), runId, ticket.id) && deps.trace == old(deps.trace)
      ensures Snapshot() == old(Snapshot())
      ensures r.Ok? ==> Events() == old(Events()) + [RunEvent(deps.store.clock, kind, Some(ticket.id), atPhase)]
      ensures r.Err? ==> Events() == old(Events())
      ensures r.Err? ==> r.error == StoreFailure && deps.store.faults.writesFail
    {
      r := deps.store.AppendEvent(runId, kind, Some(ticket.id), atPhase);
    }

    /** rec.artifact: no state any property reads, but it may throw. */
    method Artifact() returns (r: Outcome<()>)
      ensures r.Err? ==> r.error == StoreFailure && deps.store.faults.writesFail
    {
      r := Ok(());
      if deps.store.faults.writesFail {
        var fails: bool := *;
        if fails {
          r := Err(StoreFailure);
        }
      }
    }

    /** One attempt to record ticket.flagged. */
    method FlagOnce(atPhase: LoopState) returns (r: Outcome<()>)
      requires Active()
      modifies deps.store
      ensures Active() && Later(old(View()), View(), runId, ticket.id) && deps.trace == old(deps.trace)
      ensures Snapshot() == old(Snapshot())
      ensures r.Ok? && since <= |old(Events())| ==> !Claims(View(), runId, ticket.id, since).Clean()
      ensures Deeds(old(View()), View()) == []
      ensures Words(old(View()), View(), runId) == if r.Ok? then [TicketFlagged] else []
      ensures r.Ok? ==> FlagOf(old(Events()), Events(), ticket.id, atPhase)
      ensures r.Err? ==> Events() == old(Events()) && deps.store.faults.writesFail
    {
      ghost var before := Events();
      r := Log(TicketFlagged, Some(atPhase));
      hide LoopDeps.Valid, RunStore.Valid, Later, Told, AccountOf;
      if r.Ok? {
        OneWord(before, Last(Events()));
        if since <= |before| {
          FlagsUnclean(before, Last(Events()), ticket.id, since);
        }
      } else {
        assert before[|before|..] == [];
        NothingToldIn([]);
      }
    }

    /** Record ticket.flagged, at most three times over. */
    method Flagged(atPhase: LoopState) returns (r: Outcome<()>, ghost tries: nat)
      requires Active()
      modifies deps.store
      ensures Active() && Later(old(View()), View(), runId, ticket.id) && deps.trace == old(deps.trace)
      ensures Snapshot() == old(Snapshot())
      ensures r.Ok? && since <= |old(Events())| ==> !Claims(View(), runId, ticket.id, since).Clean()
      ensures r.Ok? ==> Words(old(View()), View(), runId) == [TicketFlagged]
      ensures r.Ok? ==> FlagOf(old(Events()), Events(), ticket.id, atPhase)
      ensures 1 <= tries <= 3 && (r.Err? ==> tries == 3)
      ensures r.Err? ==> r.error == FlagRecord(ticket.id) && deps.store.faults.writesFail
    {
      hide LoopDeps.Valid, RunStore.Valid, Later, Claims, Words, Deeds;
      ghost var w0 := View();
      NothingYet(w0, runId, ticket.id);
      tries := 0;
      for attempt := 1 to FLAG_RECORD_MAX_ATTEMPTS + 1
        invariant Active() && Later(w0, View(), runId, ticket.id) && deps.trace == old(deps.trace)
        invariant Words(w0, View(), runId) == []
        invariant Snapshot() == old(Snapshot()) && Events() == old(Events())
        invariant tries == attempt - 1
        invariant attempt > 1 ==> deps.store.faults.writesFail
      {
        ghost var w1 := View();
        var logged := FlagOnce(atPhase);
        tries := tries + 1;
        LaterTransitive(w0, w1, View(), runId, ticket.id);
        if logged.Ok? {
          return Ok(()), tries;
        }
      }
      r := Err(FlagRecord(ticket.id));
    }

    /** The phase on disk; the mirror only when the store cannot be read. */
    method PersistedPhase() returns (p: LoopState)
      requires Active()
      ensures Reliable() ==> p == Snapshot().Phase()
      ensures p == Snapshot().Phase() || p == phase
    {
      var current := Current(deps, runId);
      p := if current.Ok? then current.value else phase;
    }

    method BackToSelect() returns (r: Outcome<()>)
      requires Active()
      modifies this`phase, deps.store
      ensures Active() && MoveOnly(old(View()), View(), runId, ticket.id)
      ensures r.Ok? ==> Settled(Snapshot())
      ensures r.Err? ==>
                !CanTransition(old(Snapshot().Phase()), SelectTicket) || (r.error == StoreFailure && !FaultFree())
    {
      r := Enter(SelectTicket, SetTicket(None));
    }

    /**
     * failAndContinue: flag, note, and route back to SelectTicket from the persisted phase.
     * With readable state it proposes only legal moves, and returning normally means settled.
     */
    method FailAndContinue() returns (r: Outcome<()>)
      requires Active()
      modifies this`phase, deps.store
      ensures Active() && Later(old(View()), View(), runId, ticket.id) && deps.trace == old(deps.trace)
      ensures r.Ok? && since <= |old(Events())| ==> Proven(View(), runId, ticket.id, since)
      ensures r.Ok? ==> Words(old(View()), View(), runId) == [TicketFlagged]
      ensures r.Ok? && Reliable() ==> Settled(Snapshot())
      ensures r.Ok? && Reliable() ==> FlagAmong(old(Events()), Events(), ticket.id, old(Snapshot().Phase()))
      ensures r.Err? && Reliable() ==> !r.error.IsLoopStateError() && !FaultFree()
    {
      hide LoopDeps.Valid, RunStore.Valid, Later, Claims, Words, Deeds, MoveOnly, Proven, RoutingMoves;
      ghost var w0 := View();
      var current := PersistedPhase();
      var flagged;
      ghost var tries;
      flagged, tries := Flagged(current);
      if flagged.Err? {
        return flagged;
      }
      ghost var w1 := View();
      var note := Artifact();
      r := Route(current);
      ghost var w2 := View();
      MovingIsLater(w1, w2, runId, ticket.id);
      LaterTransitive(w0, w1, w2, runId, ticket.id);
      MovingIsWordless(w1, w2, runId, ticket.id);
      LaterGrows(w0, w1, runId, ticket.id);
      FlagStays(w0, w1, w2, runId, ticket.id, current);
      if since <= |w0.runs[runId].events| {
        UncleanStays(w1, w2, runId, ticket.id, since);
      }
    }

    /** The moves RoutingMoves(current) lists, made one by one. */
    method Route(current: LoopState) returns (r: Outcome<()>)
      requires Active()
      modifies this`phase, deps.store
      ensures Active() && MoveOnly(old(View()), View(), runId, ticket.id)
      ensures r.Ok? && current == old(Snapshot().Phase()) ==> Settled(Snapshot())
      ensures r.Err? && current == old(Snapshot().Phase()) ==> r.error == StoreFailure && !FaultFree()
    {
      hide MoveOnly, LoopDeps.Valid, RunStore.Valid;
      ghost var w0 := View();
      MoveOnlyReflexive(w0, runId, ticket.id);
      var failure := FailureRoute(current);
      if failure.Some? {
        var _ :- EnterRoute(failure.value);
        ghost var w1 := View();
        r := BackToSelect();
        MoveOnlyTransitive(w0, w1, View(), runId, ticket.id);
      } else if current != SelectTicket {
        r := BackToSelect();
      } else {
        SelectHoldsNoTicket();
        r := Ok(());
      }
    }

    /** At SelectTicket the snapshot never holds a ticket. */
    lemma SelectHoldsNoTicket()
      requires Active()
      ensures Snapshot().currentTicketId.Some? <==> InTicket(Snapshot().Phase())
    {
      assert RunOk(deps.store.runs[runId]) by {
        assert Last(deps.store.disks) in deps.store.disks;
      }
    }

    /** A move into one of the failure states. */
    method EnterRoute(failure: LoopState) returns (r: Outcome<()>)
      requires Active() && (failure.Blocked? || failure.VerificationFailed? || failure.ReviewRejected?)
      modifies this`phase, deps.store
      ensures Active() && MoveOnly(old(View()), View(), runId, ticket.id)
      ensures r.Ok? ==> Snapshot().Phase() == failure
      ensures r.Err? ==> !CanTransition(old(Snapshot().Phase()), failure) || (r.error == StoreFailure && !FaultFree())
    {
      SelectHoldsNoTicket();
      r := Enter(failure, Keep);
    }
  }

  /** deriveTicketOutcomes skips events with an empty ticket id, so nothing is ever claimed for it. */
  lemma {:induction false} NamelessIsNeverClean(events: seq<RunEvent>, id: TicketId)
    ensures id == "" ==> !AccountOf(events, id).Clean()
  {
    if events != [] {
      NamelessIsNeverClean(Init(events), id);
    }
  }
}
