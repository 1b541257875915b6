/**
 * The run driver (runLoop in src/orchestrator.ts): open a run, refine the backlog once, take
 * tickets one at a time under the budget, end the run durably. Modelled with readable state;
 * writes, appends and the repository's files may fail at any point.
 */
module RunLoops {
  import opened Prelude
  import Ids
  import opened LoopStates
  import opened RunStates
  import opened Budgets
  import opened Failures
  import opened MergeGates
  import opened Evidence
  import opened TicketOutcomes
  import opened RunStores
  import opened LoopDependencies
  import opened LoopKernels
  import opened TicketContexts
  import opened TicketLifecycles
  import opened TicketScripts
  import opened Resumes
  import opened RunLogs

  /** A scan of the backlog: what may be picked up, and which tickets are done. */
  datatype Scan = Scan(loopReady: seq<Ticket>, done: set<TicketId>, refineEpic: bool)

  ghost predicate AllProven(w: World, id: RunId)
    requires id in w.runs
  {
    forall t: TicketId :: Proven(w, id, t, 0)
  }

  /** A step of the run that starts, flags and decides nothing. */
  ghost predicate Around(w0: World, w1: World, id: RunId) {
    && id in w0.runs && id in w1.runs
    && w1.runs == w0.runs[id := w1.runs[id]]
    && w1.runs[id].state.startedAt == w0.runs[id].state.startedAt
    && Anchorless(w0.runs[id].events, w1.runs[id].events)
    && w1.trace == w0.trace && w1.throws == w0.throws && w0.disks <= w1.disks && w0.clock <= w1.clock
  }

  lemma AroundTransitive(w0: World, w1: World, w2: World, id: RunId)
    requires Around(w0, w1, id) && Around(w1, w2, id)
    ensures Around(w0, w2, id)
  {
    assert w2.runs == w0.runs[id := w2.runs[id]];
  }

  /** The bounds a run's log keeps whatever happens. */
  predicate Bounded(events: seq<RunEvent>, config: LoopConfig) {
    && LogKept(events, CountStarts(events), config.budget)
    && CountStarts(events) <= Max(0, config.maxTicketsPerRun)
  }

  /** The loop's local variables fit the log, and what the log claims happened. */
  ghost predicate Fits(w: World, id: RunId, processed: int, skipped: set<TicketId>, config: LoopConfig) {
    && id in w.runs
    && LogKept(w.runs[id].events, processed, config.budget)
    && FlagsSkipped(w.runs[id].events, skipped) && skipped == FlaggedIds(w.runs[id].events)
    && AllProven(w, id)
  }

  lemma AroundFits(w0: World, w1: World, id: RunId, processed: int, skipped: set<TicketId>, config: LoopConfig)
    requires Around(w0, w1, id) && Fits(w0, id, processed, skipped, config)
    ensures Fits(w1, id, processed, skipped, config)
  {
    var a, b := w0.runs[id].events, w1.runs[id].events;
    StartlessKeeps(a, b, processed, config.budget);
    StartlessFlags(a, b, skipped);
    AnchorlessKeepsIds(a, b);
    forall t: TicketId
      ensures Proven(w1, id, t, 0)
    {
      assert Proven(w0, id, t, 0);
      AnchorlessClaims(w0, w1, id, t, 0);
    }
  }

  /** The run is open at selection: nothing in hand, no ceiling tripped. */
  ghost predicate Open(deps: LoopDeps, id: RunId)
    reads deps, deps.store
  {
    && deps.Valid() && !deps.store.faults.readsFail
    && id in deps.store.runs
    && var s := deps.store.runs[id].state;
    && s.status == Running && Untripped(s) && s.currentTicketId.None?
    && (s.Phase() == Idle || s.Phase() == SelectTicket)
  }

  /** The run may have been interrupted anywhere; its log is still bounded. */
  ghost predicate Interrupted(deps: LoopDeps, id: RunId)
    reads deps, deps.store
  {
    && deps.Valid() && !deps.store.faults.readsFail
    && id in deps.store.runs
  }

  /** The log ends with its only end event, and the snapshot's status agrees with it. */
  predicate EndedWell(run: Run) {
    && run.events != [] && CountEnds(run.events) == 1
    && (Last(run.events).kind.RunCompleted? || Last(run.events).kind.RunStopped?)
    && (Last(run.events).kind.RunCompleted? <==> run.state.status == Completed)
    && (Last(run.events).kind.RunStopped? <==> run.state.status == Stopped)
  }

  ghost predicate FaultFree(deps: LoopDeps) {
    var f := deps.store.faults;
    !f.readsFail && !f.writesFail && !f.filesFail
  }

  // ----- small steps on the run -----

  /** A status-level write of the snapshot. */
  method WriteSnapshot(deps: LoopDeps, id: RunId, s: RunState) returns (r: Outcome<()>)
    requires deps.Valid() && id in deps.store.runs
    requires RunOk(Run(s, deps.store.runs[id].events))
             && LegalWrite(deps.store.runs[id], Run(s, deps.store.runs[id].events))
    requires s.startedAt == deps.store.runs[id].state.startedAt
    modifies deps.store
    ensures deps.Valid() && Around(old(deps.View()), deps.View(), id)
    ensures deps.store.runs[id].events == old(deps.store.runs[id].events)
    ensures r.Ok? ==> deps.store.runs[id].state == s
    ensures r.Err? ==> deps.store.runs[id].state == old(deps.store.runs[id].state)
                       && r.error == StoreFailure && deps.store.faults.writesFail
  {
    var written :- deps.store.WriteState(id, s);
    r := Ok(());
  }

  /** An event of the run itself. */
  method LogRun(deps: LoopDeps, id: RunId, kind: EventKind) returns (r: Outcome<()>)
    requires deps.Valid() && id in deps.store.runs && !Anchor(kind)
    requires deps.store.runs[id].state.status == Running ==> !EndEvent(RunEvent(0, kind, None, None))
    modifies deps.store
    ensures deps.Valid() && Around(old(deps.View()), deps.View(), id)
    ensures deps.store.runs[id].state == old(deps.store.runs[id].state)
    ensures r.Ok? ==> exists ts ::
              deps.store.runs[id].events == old(deps.store.runs[id].events) + [RunEvent(ts, kind, None, None)]
    ensures r.Err? ==> r.error == StoreFailure && deps.store.faults.writesFail
  {
    r := deps.store.AppendEvent(id, kind, None, None);
  }

  /** Close the run: from a running snapshot, the last event written is the run's only end. */
  method LogEnd(deps: LoopDeps, id: RunId, kind: EventKind) returns (r: Outcome<()>)
    requires deps.Valid() && id in deps.store.runs
    requires kind.RunCompleted? || (kind.RunStopped? && kind.reason != RollbackFailed)
    requires deps.store.runs[id].state.status == (if kind.RunCompleted? then Completed else Stopped)
    requires forall e :: e in deps.store.runs[id].events ==> !EndEvent(e)
    modifies deps.store
    ensures deps.Valid() && Around(old(deps.View()), deps.View(), id)
    ensures r.Ok? ==> EndedWell(deps.store.runs[id]) && Last(deps.store.runs[id].events).kind == kind
    ensures deps.store.runs[id].state == old(deps.store.runs[id].state)
    ensures r.Err? ==> r.error == StoreFailure && deps.store.faults.writesFail
  {
    ghost var before := deps.store.runs[id].events;
    r := LogRun(deps, id, kind);
    if r.Ok? {
      OneEnd(before, Last(deps.store.runs[id].events));
    }
  }

  /** While a run is running its log has no end. */
  lemma RunningHasNoEnd(deps: LoopDeps, id: RunId)
    requires deps.Valid() && id in deps.store.runs && deps.store.runs[id].state.status == Running
    ensures forall e :: e in deps.store.runs[id].events ==> !EndEvent(e)
    ensures RunOk(deps.store.runs[id])
  {
    assert Last(deps.store.disks) in deps.store.disks;
    assert RunOk(deps.store.runs[id]);
  }

  /** kernel.advance for the run itself: legal and allowed here, so only the store can fail. */
  method MoveRun(deps: LoopDeps, id: RunId, to: LoopState) returns (r: Outcome<()>)
    requires deps.Valid() && !deps.store.faults.readsFail && id in deps.store.runs
    requires var s := deps.store.runs[id].state;
             CanTransition(s.Phase(), to) && (GuardExempt(to) || Untripped(s))
             && s.currentTicketId.None? && !InTicket(to)
    modifies deps.store
    ensures deps.Valid() && Around(old(deps.View()), deps.View(), id)
    ensures QuietLog(old(deps.store.runs[id].events), deps.store.runs[id].events)
    ensures r.Ok? ==> deps.store.runs[id].state == Moved(old(deps.store.runs[id].state), to, Keep)
    ensures r.Err? ==> r.error == StoreFailure && deps.store.faults.writesFail
  {
    UntrippedMeansNoDenial(deps.store.runs[id].state, to);
    ghost var w0 := deps.View();
    r := Advance(deps, id, to, None, Keep);
    AdvancedIsAround(w0, deps.View(), id, to, r);
  }

  lemma AdvancedIsAround(w0: World, w1: World, id: RunId, to: LoopState, r: Outcome<()>)
    requires id in w0.runs && Advanced(w0.runs, w1.runs, id, to, None, Keep, r, w1.clock)
    requires w0.disks <= w1.disks && w0.clock <= w1.clock && w0.trace == w1.trace && w0.throws == w1.throws
    ensures Around(w0, w1, id) && QuietLog(w0.runs[id].events, w1.runs[id].events)
  {
    var events := w0.runs[id].events;
    if r.Ok? {
      assert w1.runs[id].events[..|events|] == events;
    }
  }

  /** The tickets processed and remaining, and the epic, are as before. */
  predicate SameQueue(a: RunState, b: RunState) {
    b.processed == a.processed && b.remaining == a.remaining && b.epicId == a.epicId
  }

  /** Idle -> SelectTicket, when the run is still idle. */
  method ToSelect(deps: LoopDeps, id: RunId) returns (r: Outcome<()>)
    requires Open(deps, id)
    modifies deps.store
    ensures Interrupted(deps, id) && Around(old(deps.View()), deps.View(), id)
    ensures r.Ok? ==> Open(deps, id) && deps.store.runs[id].state.Phase() == SelectTicket
    ensures r.Ok? ==> SameQueue(old(deps.store.runs[id].state), deps.store.runs[id].state)
    ensures r.Err? ==> r.error == StoreFailure && deps.store.faults.writesFail
  {
    ghost var w0 := deps.View();
    AroundReflexive(w0, id);
    r := Ok(());
    if deps.store.runs[id].state.Phase() == Idle {
      r := MoveRun(deps, id, SelectTicket);
      assert r.Ok? ==> forall arm ::
        ViewTripped(deps.store.runs[id].state.budget, deps.store.runs[id].state.noProgress, arm)
        == ViewTripped(w0.runs[id].state.budget, w0.runs[id].state.noProgress, arm);
    }
  }

  lemma AroundReflexive(w: World, id: RunId)
    requires id in w.runs
    ensures Around(w, w, id)
  {
    assert w.runs == w.runs[id := w.runs[id]];
  }

  // ----- the head of the loop -----

  /** The kill switch: snapshot stopped first, event second. */
  method StopByKillSwitch(deps: LoopDeps, id: RunId) returns (r: Outcome<()>)
    requires Open(deps, id)
    modifies deps.store
    ensures Interrupted(deps, id) && Around(old(deps.View()), deps.View(), id)
    ensures r.Ok? ==> EndedWell(deps.store.runs[id]) && Last(deps.store.runs[id].events).kind == RunStopped(KillSwitch)
    ensures r.Ok? ==> deps.store.runs[id].state == old(deps.store.runs[id].state).(
                        status := Stopped, currentTicketId := None, currentPhase := None)
    ensures r.Err? ==> r.error == StoreFailure && deps.store.faults.writesFail
  {
    ghost var w0 := deps.View();
    RunningHasNoEnd(deps, id);
    var s := deps.store.runs[id].state;
    r := WriteSnapshot(deps, id, s.(status := Stopped, currentTicketId := None, currentPhase := None));
    if r.Err? {
      return;
    }
    ghost var w1 := deps.View();
    r := LogEnd(deps, id, RunStopped(KillSwitch));
    AroundTransitive(w0, w1, deps.View(), id);
  }

  /** Write the budget views; the arm when a ceiling tripped and the run was ended for it. */
  method CheckBudget(deps: LoopDeps, id: RunId) returns (r: Outcome<Option<BudgetArm>>, ghost now: int)
    requires Open(deps, id) && deps.store.runs[id].state.Phase() == SelectTicket
    modifies deps.store
    ensures Interrupted(deps, id) && Around(old(deps.View()), deps.View(), id)
    ensures old(deps.store.clock) <= now <= deps.store.clock
    ensures var v := EvaluateBudget(old(deps.store.runs[id].state), old(deps.store.runs[id].events),
            deps.config.budget, now);
            && (r.Ok? ==> SameQueue(old(deps.store.runs[id].state), deps.store.runs[id].state))
            && (r.Ok? && r.value.Some? ==>
                  && EndedWell(deps.store.runs[id]) && v.Tripped? && r.value == Some(v.arm)
                  && Last(deps.store.runs[id].events).kind == RunStopped(BudgetTrip(v.arm)))
            && (r.Ok? && r.value.None? ==>
                  && v.Within? && Open(deps, id)
                  && deps.store.runs[id].state
                     == old(deps.store.runs[id].state).(budget := Some(ViewOf(v.marker)),
                                                        noProgress := Some(NoProgressViewOf(v.marker)))
                  && deps.store.runs[id].events == old(deps.store.runs[id].events))
    ensures r.Err? ==> r.error == StoreFailure && deps.store.faults.writesFail
  {
    hide LoopDeps.Valid, RunStore.Valid, Around, EvaluateBudget;
    ghost var w0 := deps.View();
    RunningHasNoEnd(deps, id);
    var s, events := deps.store.runs[id].state, deps.store.runs[id].events;
    var time := ReadClock(deps, id);
    now := time;
    ghost var w1 := deps.View();
    var verdict := EvaluateBudget(s, events, deps.config.budget, time);
    var written := s.(budget := Some(ViewOf(verdict.marker)), noProgress := Some(NoProgressViewOf(verdict.marker)));
    WrittenViews(s, events, deps.config.budget, time);
    var wrote := WriteSnapshot(deps, id, written);
    ghost var w2 := deps.View();
    AroundTransitive(w0, w1, w2, id);
    if wrote.Err? {
      return Err(wrote.error), now;
    }
    if verdict.Within? {
      return Ok(None), now;
    }
    var ended := EndByBudget(deps, id, verdict.arm);
    AroundTransitive(w0, w2, deps.View(), id);
    r := if ended.Ok? then Ok(Some(verdict.arm)) else Err(ended.error);
  }

  method ReadClock(deps: LoopDeps, id: RunId) returns (now: int)
    requires deps.Valid() && id in deps.store.runs
    modifies deps.store`clock
    ensures deps.Valid() && Around(old(deps.View()), deps.View(), id)
    ensures now == deps.store.clock >= old(deps.store.clock)
    ensures deps.store.runs == old(deps.store.runs)
  {
    now := deps.store.Now();
    AroundReflexive(old(deps.View()), id);
  }

  /** The written views are untripped exactly when the evaluator found nothing. */
  lemma WrittenViews(s: RunState, events: seq<RunEvent>, config: BudgetConfig, now: int)
    ensures var v := EvaluateBudget(s, events, config, now);
            && Untripped(s.(budget := Some(ViewOf(v.marker)), noProgress := Some(NoProgressViewOf(v.marker))))
            <==> v.Within?
  {
    var v := EvaluateBudget(s, events, config, now);
    var written := s.(budget := Some(ViewOf(v.marker)), noProgress := Some(NoProgressViewOf(v.marker)));
    GuardAgreesWithEvaluator(s, events, config, now, SelectTicket);
    UntrippedMeansNoDenial(written, SelectTicket);
  }

  /** The trip route: the guard exempts it, so the tripped views do not deny it. */
  method EndByBudget(deps: LoopDeps, id: RunId, arm: BudgetArm) returns (r: Outcome<()>)
    requires deps.Valid() && !deps.store.faults.readsFail && id in deps.store.runs
    requires var s := deps.store.runs[id].state;
             s.status == Running && s.currentTicketId.None? && s.Phase() == SelectTicket
    modifies deps.store
    ensures Interrupted(deps, id) && Around(old(deps.View()), deps.View(), id)
    ensures r.Ok? ==>
              EndedWell(deps.store.runs[id]) && Last(deps.store.runs[id].events).kind == RunStopped(BudgetTrip(arm))
    ensures r.Ok? ==> deps.store.runs[id].state.Phase()
                      == (if arm in {WallClock, Iterations} then BudgetExceeded else LoopState.NoProgress)
    ensures r.Ok? ==> SameQueue(old(deps.store.runs[id].state), deps.store.runs[id].state)
    ensures r.Err? ==> r.error == StoreFailure && deps.store.faults.writesFail
  {
    ghost var w0 := deps.View();
    RunningHasNoEnd(deps, id);
    r := MoveRun(deps, id, ArmState(arm));
    if r.Err? {
      return;
    }
    ghost var w1 := deps.View();
    QuietHasNoEnd(w0.runs[id].events, w1.runs[id].events);
    r := LogEnd(deps, id, RunStopped(BudgetTrip(arm)));
    AroundTransitive(w0, w1, deps.View(), id);
  }

  lemma QuietHasNoEnd(a: seq<RunEvent>, b: seq<RunEvent>)
    requires QuietLog(a, b) && forall e :: e in a ==> !EndEvent(e)
    ensures forall e :: e in b ==> !EndEvent(e)
  {
    forall e | e in b
      ensures !EndEvent(e)
    {
      var k :| 0 <= k < |b| && b[k] == e;
      if k < |a| {
        assert a[k] == e;
      }
    }
  }

  // ----- one ticket of the run -----

  /** What any stretch of a run leaves as it was. */
  ghost predicate RunFrame(w0: World, w1: World, id: RunId) {
    && id in w0.runs && id in w1.runs
    && w1.runs == w0.runs[id := w1.runs[id]]
    && w1.runs[id].state.startedAt == w0.runs[id].state.startedAt
    && w0.runs[id].events <= w1.runs[id].events
    && w0.trace <= w1.trace && w0.throws <= w1.throws && w0.disks <= w1.disks && w0.clock <= w1.clock
  }

  lemma FrameTransitive(w0: World, w1: World, w2: World, id: RunId)
    requires RunFrame(w0, w1, id) && RunFrame(w1, w2, id)
    ensures RunFrame(w0, w2, id)
  {
    assert w2.runs == w0.runs[id := w2.runs[id]];
  }

  lemma AroundIsFrame(w0: World, w1: World, id: RunId)
    requires Around(w0, w1, id)
    ensures RunFrame(w0, w1, id)
  {
  }

  lemma LaterIsFrame(w0: World, w1: World, id: RunId, ticketId: TicketId)
    requires Later(w0, w1, id, ticketId)
    ensures RunFrame(w0, w1, id)
    ensures w1.runs[id].state.status == w0.runs[id].state.status
  {
  }

  /** After a ticket that returned normally the bookkeeping fits again. */
  lemma TicketFits(w0: World, w1: World, id: RunId, ticketId: TicketId, processed: int, skipped: set<TicketId>,
      config: LoopConfig)
    requires Later(w0, w1, id, ticketId) && Fits(w0, id, processed, skipped, config)
    requires Proven(w1, id, ticketId, 0)
    ensures var a, b := w0.runs[id].events, w1.runs[id].events;
            && (if exists k :: |a| <= k < |b| && FlaggedFor(b[k], ticketId)
                then Fits(w1, id, processed, skipped + {ticketId}, config)
                else Fits(w1, id, processed, skipped, config))
            && StartedIds(b) == StartedIds(a) && a <= b
            && w1.runs[id].state.processed == w0.runs[id].state.processed
            && w1.runs[id].state.epicId == w0.runs[id].state.epicId
  {
    var a, b := w0.runs[id].events, w1.runs[id].events;
    OwnLogKeepsIds(a, b, ticketId);
    StartlessKeeps(a, b, processed, config.budget);
    OwnFlagsSkipped(a, b, ticketId, skipped);
    forall t: TicketId
      ensures Proven(w1, id, t, 0)
    {
      if t != ticketId {
        assert Proven(w0, id, t, 0);
        OtherAccount(a, b, ticketId, t);
        assert a[0..] == a && b[0..] == b;
      }
    }
  }

  lemma TicketBounded(w0: World, w1: World, id: RunId, ticketId: TicketId, starts: int, config: LoopConfig)
    requires Later(w0, w1, id, ticketId) && LogKept(w0.runs[id].events, starts, config.budget)
    ensures LogKept(w1.runs[id].events, starts, config.budget)
  {
    StartlessKeeps(w0.runs[id].events, w1.runs[id].events, starts, config.budget);
  }

  /** ticket.started, for a ticket the budget allows and no flag forbids. */
  method TakeUp(deps: LoopDeps, id: RunId, ticket: Ticket, remaining: seq<TicketId>, processed: nat,
      skipped: set<TicketId>)
    returns (r: Outcome<()>)
    requires Open(deps, id) && deps.store.runs[id].state.Phase() == SelectTicket
    requires Fits(deps.View(), id, processed, skipped, deps.config) && ticket.id !in skipped
    requires processed < deps.config.maxTicketsPerRun && processed < deps.config.budget.maxIterations
    requires StartsSinceProgress(deps.store.runs[id].events, deps.config.budget.flagsCountAsProgress)
             < deps.config.budget.maxNoProgressIterations
    modifies deps.store
    ensures Interrupted(deps, id) && RunFrame(old(deps.View()), deps.View(), id)
    ensures deps.trace == old(deps.trace) && deps.throws == old(deps.throws)
    ensures Bounded(deps.store.runs[id].events, deps.config)
    ensures deps.store.runs[id].state.status == Running
    ensures r.Ok? ==>
              && Open(deps, id) && Settled(deps.store.runs[id].state)
              && Fits(deps.View(), id, processed + 1, skipped, deps.config)
              && StartedIds(deps.store.runs[id].events) == StartedIds(old(deps.store.runs[id].events)) + [ticket.id]
              && var s0, s := old(deps.store.runs[id].state), deps.store.runs[id].state;
                 && s.processed == s0.processed && s.remaining == remaining
                 && s.epicId == (if s0.epicId.Some? then s0.epicId else Some(ticket.epicId))
    ensures r.Err? ==> r.error == StoreFailure && deps.store.faults.writesFail
  {
    ghost var w0 := deps.View();
    RunningHasNoEnd(deps, id);
    var s := deps.store.runs[id].state;
    var epicId := if s.epicId.Some? then s.epicId else Some(ticket.epicId);
    r := WriteSnapshot(deps, id, s.(epicId := epicId, remaining := remaining));
    ghost var w1 := deps.View();
    AroundIsFrame(w0, w1, id);
    assert Untripped(deps.store.runs[id].state) by {
      assert forall arm :: ViewTripped(deps.store.runs[id].state.budget, deps.store.runs[id].state.noProgress, arm)
                           == ViewTripped(s.budget, s.noProgress, arm);
    }
    if r.Err? {
      return;
    }
    AroundFits(w0, w1, id, processed, skipped, deps.config);
    assert deps.store.runs[id].events == w0.runs[id].events;
    r := LogStart(deps, id, ticket, processed, skipped);
    FrameTransitive(w0, w1, deps.View(), id);
  }

  /** A start the budget allowed, of a ticket no flag forbids, keeps the bookkeeping and the bounds. */
  lemma StartFits(w0: World, w1: World, id: RunId, t: TicketId, processed: nat, skipped: set<TicketId>,
      config: LoopConfig)
    requires Fits(w0, id, processed, skipped, config) && t !in skipped && id in w1.runs && w1.trace == w0.trace
    requires processed < config.maxTicketsPerRun && processed < config.budget.maxIterations
    requires StartsSinceProgress(w0.runs[id].events, config.budget.flagsCountAsProgress)
             < config.budget.maxNoProgressIterations
    requires exists ts :: w1.runs[id].events == w0.runs[id].events + [RunEvent(ts, TicketStarted, Some(t), None)]
    ensures Fits(w1, id, processed + 1, skipped, config) && Bounded(w1.runs[id].events, config)
    ensures StartedIds(w1.runs[id].events) == StartedIds(w0.runs[id].events) + [t]
  {
    var before, e := w0.runs[id].events, Last(w1.runs[id].events);
    OneStart(before, e, t);
    StartKeeps(before, e, processed, skipped, config.budget);
    forall u: TicketId
      ensures Proven(w1, id, u, 0)
    {
      assert Proven(w0, id, u, 0);
      AccountOfAppend(before, e, u);
      SliceAppend(before, e, 0);
      assert before[0..] == before;
    }
    FitsIsBounded(w1, id, processed + 1, skipped, config);
  }

  method LogStart(deps: LoopDeps, id: RunId, ticket: Ticket, processed: nat, skipped: set<TicketId>)
      returns (r: Outcome<()>)
    requires Interrupted(deps, id) && Fits(deps.View(), id, processed, skipped, deps.config) && ticket.id !in skipped
    requires processed < deps.config.maxTicketsPerRun && processed < deps.config.budget.maxIterations
    requires StartsSinceProgress(deps.store.runs[id].events, deps.config.budget.flagsCountAsProgress)
             < deps.config.budget.maxNoProgressIterations
    modifies deps.store
    ensures Interrupted(deps, id) && RunFrame(old(deps.View()), deps.View(), id)
    ensures deps.trace == old(deps.trace) && deps.throws == old(deps.throws)
    ensures Bounded(deps.store.runs[id].events, deps.config)
    ensures deps.store.runs[id].state == old(deps.store.runs[id].state)
    ensures r.Ok? ==> Fits(deps.View(), id, processed + 1, skipped, deps.config)
    ensures r.Ok? ==>
              StartedIds(deps.store.runs[id].events) == StartedIds(old(deps.store.runs[id].events)) + [ticket.id]
    ensures r.Err? ==> r.error == StoreFailure && deps.store.faults.writesFail
  {
    ghost var w0 := deps.View();
    r := deps.store.AppendEvent(id, TicketStarted, Some(ticket.id), None);
    hide Fits, LoopDeps.Valid, RunStore.Valid, Bounded, StartedIds;
    FitsIsBounded(w0, id, processed, skipped, deps.config);
    if r.Ok? {
      StartFits(w0, deps.View(), id, ticket.id, processed, skipped, deps.config);
    }
  }

  /** One ticket more: started once in the log, appended to the processed ones, the others remaining. */
  ghost predicate Counted(w0: World, w1: World, id: RunId, ticket: Ticket, remaining: seq<TicketId>) {
    && id in w0.runs && id in w1.runs
    && StartedIds(w1.runs[id].events) == StartedIds(w0.runs[id].events) + [ticket.id]
    && w1.runs[id].state.processed == w0.runs[id].state.processed + [ticket.id]
    && w1.runs[id].state.remaining == remaining
    && w1.runs[id].state.epicId
       == (if w0.runs[id].state.epicId.Some? then w0.runs[id].state.epicId else Some(ticket.epicId))
  }

  /** What a run is held to: its configuration and surroundings, and whether state and files can fail. */
  datatype Terms = Terms(config: LoopConfig, env: Environment, faultFree: bool)

  ghost function TermsOf(deps: LoopDeps): Terms {
    Terms(deps.config, deps.env, FaultFree(deps))
  }

  /**
   * One ticket taken: what was done for it, and the stretch of the log it was told in. It has a life
   * if nothing went wrong on the way.
   */
  datatype Visit = Visit(ticket: Ticket, from: nat, upto: nat, deeds: Trace, life: Option<Life>)

  /** With a life, the ticket's whole account was done and told; without one, the ticket was flagged. */
  ghost predicate VisitOk(events: seq<RunEvent>, v: Visit, terms: Terms) {
    && v.from <= v.upto <= |events|
    && match v.life
       case Some(l) =>
         var c := Setting(v.ticket, None, terms.env, terms.config);
         && Lived(c, l)
         && v.deeds == [Begin(v.ticket.id, v.ticket.relPath, Captures(c), None)] + LifeDeeds(c, l)
         && Told(events[v.from..v.upto]) == LifeWords(c, l)
       case None =>
         terms.faultFree ==> exists k :: v.from <= k < v.upto && FlaggedFor(events[k], v.ticket.id)
  }

  /** A stretch of the run is one visit; something went wrong in it if it has no life. */
  ghost predicate Visited(w0: World, w1: World, id: RunId, v: Visit, terms: Terms) {
    && id in w0.runs && id in w1.runs && w1.trace == w0.trace + v.deeds
    && VisitOk(w1.runs[id].events, v, terms)
    && (v.life.None? && terms.faultFree ==> w0.throws < w1.throws)
  }

  lemma VisitKeeps(a: seq<RunEvent>, b: seq<RunEvent>, v: Visit, terms: Terms)
    requires a <= b && VisitOk(a, v, terms)
    ensures VisitOk(b, v, terms)
  {
    assert a[v.from..v.upto] == b[v.from..v.upto];
    hide Told, Lived, LifeDeeds, LifeWords, Captures;
    if v.life.None? && terms.faultFree {
      var k :| v.from <= k < v.upto && FlaggedFor(a[k], v.ticket.id);
      assert FlaggedFor(b[k], v.ticket.id);
    }
  }

  lemma {:induction false} ToldIsLogged(events: seq<RunEvent>, word: EventKind)
    requires word in Told(events)
    ensures exists k :: 0 <= k < |events| && events[k].kind == word
  {
    if events != [] && !(Telling(Last(events).kind) && Last(events).kind == word) {
      ToldIsLogged(Init(events), word);
      var k :| 0 <= k < |Init(events)| && Init(events)[k].kind == word;
      assert events[k].kind == word;
    }
  }

  /** The visit a ticket's lifecycle makes: with its life, or without one if something went wrong. */
  function VisitOf(w0: World, w1: World, id: RunId, ticket: Ticket, l: Option<Life>): Visit
    requires id in w0.runs && id in w1.runs
  {
    Visit(ticket, |w0.runs[id].events|, |w1.runs[id].events|, Deeds(w0, w1), l)
  }

  lemma LifecycleVisits(w0: World, w1: World, id: RunId, ticket: Ticket, l: Option<Life>, terms: Terms)
    requires Later(w0, w1, id, ticket.id)
    requires l.Some? ==>
               var c := Setting(ticket, None, terms.env, terms.config);
               && Lived(c, l.value)
               && Went(w0, w1, id, [Begin(ticket.id, ticket.relPath, Captures(c), None)] + LifeDeeds(c, l.value),
                       LifeWords(c, l.value))
    requires l.None? && terms.faultFree ==>
               w0.throws < w1.throws && var words := Words(w0, w1, id); words != [] && Last(words) == TicketFlagged
    ensures Visited(w0, w1, id, VisitOf(w0, w1, id, ticket, l), terms)
  {
    var a, b := w0.runs[id].events, w1.runs[id].events;
    assert b[|a|..] == b[|a|..|b|];
    hide Told, Lived, LifeDeeds, LifeWords, Captures;
    if l.None? && terms.faultFree {
      assert Last(Words(w0, w1, id)) in Told(b[|a|..]);
      ToldIsLogged(b[|a|..], TicketFlagged);
      var k :| 0 <= k < |b[|a|..]| && b[|a|..][k].kind == TicketFlagged;
      assert OwnEvent(b[|a| + k], ticket.id);
      assert FlaggedFor(b[|a| + k], ticket.id);
    }
  }

  /** A step of the run before it or after it leaves a visit a visit. */
  lemma VisitedAround(w0: World, w1: World, w2: World, w3: World, id: RunId, v: Visit, terms: Terms)
    requires Visited(w1, w2, id, v, terms) && Around(w2, w3, id)
    requires id in w0.runs && w0.trace == w1.trace && w0.throws == w1.throws
    ensures Visited(w0, w3, id, v, terms)
  {
    hide VisitOk;
    VisitKeeps(w2.runs[id].events, w3.runs[id].events, v, terms);
  }

  lemma AroundKeepsIds(w0: World, w1: World, id: RunId)
    requires Around(w0, w1, id)
    ensures StartedIds(w1.runs[id].events) == StartedIds(w0.runs[id].events)
    ensures FlaggedIds(w1.runs[id].events) == FlaggedIds(w0.runs[id].events)
  {
    AnchorlessKeepsIds(w0.runs[id].events, w1.runs[id].events);
  }

  /** One ticket: start, run its lifecycle, skip it for the rest of the run if it was flagged. */
  method ProcessTicket(deps: LoopDeps, id: RunId, ticket: Ticket, remaining: seq<TicketId>, processed: nat,
      skipped: set<TicketId>)
    returns (r: Outcome<set<TicketId>>, ghost v: Visit)
    requires Open(deps, id) && deps.store.runs[id].state.Phase() == SelectTicket
    requires Fits(deps.View(), id, processed, skipped, deps.config) && ticket.id !in skipped
    requires processed < deps.config.maxTicketsPerRun && processed < deps.config.budget.maxIterations
    requires StartsSinceProgress(deps.store.runs[id].events, deps.config.budget.flagsCountAsProgress)
             < deps.config.budget.maxNoProgressIterations
    modifies deps, deps.store
    ensures Interrupted(deps, id) && RunFrame(old(deps.View()), deps.View(), id)
    ensures Bounded(deps.store.runs[id].events, deps.config)
    ensures deps.store.runs[id].state.status == Running
    ensures r.Ok? ==> Open(deps, id) && Fits(deps.View(), id, processed + 1, r.value, deps.config)
    ensures r.Ok? ==> Counted(old(deps.View()), deps.View(), id, ticket, remaining)
    ensures r.Ok? ==> v.ticket == ticket && Visited(old(deps.View()), deps.View(), id, v, TermsOf(deps))
    ensures r.Err? ==> !r.error.IsLoopStateError() && !FaultFree(deps)
  {
    hide LoopDeps.Valid, RunStore.Valid, RunFrame, Later, Bounded, Fits, Proven, StartedIds, FlaggedIds, Around;
    hide Visited, Lived, LifeDeeds, LifeWords, Went, Words, Captures, Deeds;
    ghost var w0 := deps.View();
    v := Visit(ticket, 0, 0, [], None);
    var started := TakeUp(deps, id, ticket, remaining, processed, skipped);
    ghost var w1 := deps.View();
    if started.Err? {
      return Err(started.error), v;
    }
    FitsProves(w1, id, processed + 1, skipped, deps.config, ticket.id);
    var before := |deps.store.runs[id].events|;
    var ran;
    ghost var life;
    ran, life := RunTicket(deps, id, ticket, None, 0);
    ghost var w2 := deps.View();
    LaterIsFrame(w1, w2, id, ticket.id);
    FrameTransitive(w0, w1, w2, id);
    FitsStaysBounded(w1, w2, id, ticket.id, processed + 1, skipped, deps.config);
    if ran.Err? {
      return Err(ran.error), v;
    }
    ghost var lived := if deps.Disturbed(w1) then None else Some(life);
    LifecycleVisits(w1, w2, id, ticket, lived, TermsOf(deps));
    v := VisitOf(w1, w2, id, ticket, lived);
    TicketFits(w1, w2, id, ticket.id, processed + 1, skipped, deps.config);
    var flagged := FlaggedSince(deps.store.runs[id].events, before, ticket.id);
    var nowSkipped := if flagged then skipped + {ticket.id} else skipped;
    var wrote := RecordProcessed(deps, id, ticket.id, remaining);
    ghost var w3 := deps.View();
    AroundIsFrame(w2, w3, id);
    FrameTransitive(w0, w2, w3, id);
    AroundFits(w2, w3, id, processed + 1, nowSkipped, deps.config);
    AroundKeepsIds(w2, w3, id);
    FitsIsBounded(w3, id, processed + 1, nowSkipped, deps.config);
    VisitedAround(w0, w1, w2, w3, id, v, TermsOf(deps));
    r := if wrote.Ok? then Ok(nowSkipped) else Err(wrote.error);
  }

  lemma FitsProves(w: World, id: RunId, processed: int, skipped: set<TicketId>, config: LoopConfig, t: TicketId)
    requires Fits(w, id, processed, skipped, config)
    ensures Proven(w, id, t, 0)
  {
  }

  lemma FitsIsBounded(w: World, id: RunId, processed: int, skipped: set<TicketId>, config: LoopConfig)
    requires Fits(w, id, processed, skipped, config) && processed <= config.maxTicketsPerRun
    ensures Bounded(w.runs[id].events, config)
  {
  }

  lemma FitsStaysBounded(w0: World, w1: World, id: RunId, t: TicketId, processed: int, skipped: set<TicketId>,
      config: LoopConfig)
    requires Fits(w0, id, processed, skipped, config) && processed <= config.maxTicketsPerRun && Later(w0, w1, id, t)
    ensures Bounded(w1.runs[id].events, config)
  {
    TicketBounded(w0, w1, id, t, processed, config);
  }

  /** Whether the events since position `from` flag this ticket. */
  method FlaggedSince(events: seq<RunEvent>, from: nat, t: TicketId) returns (flagged: bool)
    requires from <= |events|
    ensures flagged <==> exists k :: from <= k < |events| && FlaggedFor(events[k], t)
  {
    flagged := false;
    for i := from to |events|
      invariant flagged <==> exists k :: from <= k < i && FlaggedFor(events[k], t)
    {
      flagged := flagged || FlaggedFor(events[i], t);
    }
  }

  /** Move the ticket from the remaining to the processed queue. */
  method RecordProcessed(deps: LoopDeps, id: RunId, t: TicketId, remaining: seq<TicketId>) returns (r: Outcome<()>)
    requires Open(deps, id)
    modifies deps.store
    ensures Open(deps, id) && Around(old(deps.View()), deps.View(), id)
    ensures r.Ok? ==>
              var s0, s := old(deps.store.runs[id].state), deps.store.runs[id].state;
              s.processed == s0.processed + [t] && s.remaining == remaining && s.epicId == s0.epicId
    ensures r.Err? ==> r.error == StoreFailure && deps.store.faults.writesFail
  {
    RunningHasNoEnd(deps, id);
    var s := deps.store.runs[id].state;
    r := WriteSnapshot(deps, id, s.(processed := s.processed + [t], remaining := remaining));
    assert Untripped(deps.store.runs[id].state) by {
      assert forall arm :: ViewTripped(deps.store.runs[id].state.budget, deps.store.runs[id].state.noProgress, arm)
                           == ViewTripped(s.budget, s.noProgress, arm);
    }
  }

  // ----- the run -----

  /** A ticket the loop may start: loop-ready, not skipped, every dependency done. */
  predicate Pickable(t: Ticket, scan: Scan, skipped: set<TicketId>) {
    t in scan.loopReady && t.id !in skipped && forall d :: d in t.dependsOn ==> d in scan.done
  }

  /** pickNext: the pickable ticket with the least id, and none only when there is none. */
  method PickNext(scan: Scan, skipped: set<TicketId>) returns (r: Option<Ticket>)
    ensures r.Some? ==> Pickable(r.value, scan, skipped)
    ensures r.Some? ==> forall t :: t in scan.loopReady && Pickable(t, scan, skipped) ==> !Ids.Less(t.id, r.value.id)
    ensures r.None? ==> forall t :: t in scan.loopReady ==> !Pickable(t, scan, skipped)
  {
    r := None;
    for i := 0 to |scan.loopReady|
      invariant r.Some? ==> Pickable(r.value, scan, skipped)
      invariant r.Some? ==> forall k :: 0 <= k < i && Pickable(scan.loopReady[k], scan, skipped) ==>
                !Ids.Less(scan.loopReady[k].id, r.value.id)
      invariant r.None? ==> forall k :: 0 <= k < i ==> !Pickable(scan.loopReady[k], scan, skipped)
    {
      var t := scan.loopReady[i];
      if t.id !in skipped && forall d | d in t.dependsOn :: d in scan.done {
        if r.None? || Ids.Less(t.id, r.value.id) {
          if r.Some? {
            LeastSoFar(scan, skipped, i, t, r.value);
          }
          r := Some(t);
        }
        Ids.LessTrichotomy(t.id, t.id);  // no id is below itself, so t may be the least
      }
    }
  }

  /** A smaller id is smaller than everything the least one so far was not above. */
  lemma LeastSoFar(scan: Scan, skipped: set<TicketId>, i: nat, t: Ticket, least: Ticket)
    requires i <= |scan.loopReady| && Ids.Less(t.id, least.id)
    requires forall k :: 0 <= k < i && Pickable(scan.loopReady[k], scan, skipped) ==>
             !Ids.Less(scan.loopReady[k].id, least.id)
    ensures forall k :: 0 <= k < i && Pickable(scan.loopReady[k], scan, skipped) ==>
            !Ids.Less(scan.loopReady[k].id, t.id)
  {
    forall k | 0 <= k < i && Pickable(scan.loopReady[k], scan, skipped)
      ensures !Ids.Less(scan.loopReady[k].id, t.id)
    {
      if Ids.Less(scan.loopReady[k].id, t.id) {
        Ids.LessTransitive(scan.loopReady[k].id, t.id, least.id);
      }
    }
  }

  /** scanTickets: any backlog, or a read error when files may fail. */
  method ScanTickets(deps: LoopDeps) returns (r: Outcome<Scan>)
    ensures r.Err? ==> r.error == Thrown && deps.store.faults.filesFail
  {
    if deps.store.faults.filesFail {
      var fails: bool := *;
      if fails {
        return Err(Thrown);
      }
    }
    var scan: Scan := *;
    r := Ok(scan);
  }

  /** The proposal and its application: whatever they log, they neither move nor end the run. */
  method RefineAndApply(deps: LoopDeps, id: RunId) returns (r: Outcome<()>)
    requires deps.Valid() && id in deps.store.runs
    modifies deps.store
    ensures deps.Valid() && Around(old(deps.View()), deps.View(), id)
    ensures deps.store.runs[id].state == old(deps.store.runs[id].state)
    ensures r.Ok? ==> exists e :: e in deps.store.runs[id].events && e.kind == Note("backlog.refinement")
    ensures r.Err? ==> !r.error.IsLoopStateError() && !r.error.FlagRecord?
                       && (deps.store.faults.writesFail || deps.store.faults.filesFail)
  {
    r := LogRun(deps, id, Note("backlog.refinement"));
    if r.Ok? && deps.store.faults.filesFail {
      var rollbackFailed: bool := *;
      if rollbackFailed {
        ghost var w1 := deps.View();
        var logged := LogRun(deps, id, RunStopped(RollbackFailed));
        AroundTransitive(old(deps.View()), w1, deps.View(), id);
        r := Err(Thrown);
      }
    }
  }

  /** The one refinement pass: SelectTicket -> RefineBacklog -> SelectTicket. */
  method RefinePass(deps: LoopDeps, id: RunId) returns (r: Outcome<()>)
    requires Open(deps, id)
    modifies deps.store
    ensures Interrupted(deps, id) && Around(old(deps.View()), deps.View(), id)
    ensures r.Ok? ==> Open(deps, id)
    ensures r.Ok? ==> SameQueue(old(deps.store.runs[id].state), deps.store.runs[id].state)
    ensures r.Ok? ==> exists e :: e in deps.store.runs[id].events && e.kind == Note("backlog.refinement")
    ensures r.Err? ==> !r.error.IsLoopStateError() && !r.error.FlagRecord? && !FaultFree(deps)
  {
    hide LoopDeps.Valid, RunStore.Valid, Around;
    ghost var w0 := deps.View();
    r := ToSelect(deps, id);
    ghost var w1 := deps.View();
    if r.Err? {
      return;
    }
    r := ThereAndBack(deps, id);
    AroundTransitive(w0, w1, deps.View(), id);
  }

  lemma QueueStays(a: RunState, b: RunState, c: RunState)
    requires SameQueue(a, b) && SameQueue(b, c)
    ensures SameQueue(a, c)
  {
  }

  method ThereAndBack(deps: LoopDeps, id: RunId) returns (r: Outcome<()>)
    requires Open(deps, id) && deps.store.runs[id].state.Phase() == SelectTicket
    modifies deps.store
    ensures Interrupted(deps, id) && Around(old(deps.View()), deps.View(), id)
    ensures r.Ok? ==> Open(deps, id)
    ensures r.Ok? ==> SameQueue(old(deps.store.runs[id].state), deps.store.runs[id].state)
    ensures r.Ok? ==> exists e :: e in deps.store.runs[id].events && e.kind == Note("backlog.refinement")
    ensures r.Err? ==> !r.error.IsLoopStateError() && !r.error.FlagRecord? && !FaultFree(deps)
  {
    hide *;
    OpenMeans(deps, id);
    StoreFails(deps);
    ghost var w0, s0 := deps.View(), deps.store.runs[id].state;
    RefineMoves(s0, RefineBacklog);
    r := MoveRun(deps, id, RefineBacklog);
    ghost var w1 := deps.View();
    StillThere(deps, id, w0);
    if r.Err? {
      return;
    }
    ghost var s1 := deps.store.runs[id].state;
    r := RefineAndApply(deps, id);
    ghost var w2 := deps.View();
    AroundTransitive(w0, w1, w2, id);
    StillThere(deps, id, w0);
    if r.Err? {
      return;
    }
    ghost var noted := deps.store.runs[id].events;
    RefineMoves(s1, SelectTicket);
    r := MoveRun(deps, id, SelectTicket);
    AroundTransitive(w0, w2, deps.View(), id);
    StillThere(deps, id, w0);
    if r.Ok? {
      ThenOpen(deps, id);
      StillNoted(noted, deps.store.runs[id].events, Note("backlog.refinement"));
      QueueStays(s0, s1, deps.store.runs[id].state);
    }
  }

  lemma StillNoted(a: seq<RunEvent>, b: seq<RunEvent>, kind: EventKind)
    requires QuietLog(a, b) && exists e :: e in a && e.kind == kind
    ensures exists e :: e in b && e.kind == kind
  {
    var e :| e in a && e.kind == kind;
    assert b == a + b[|a|..];
    assert e in b;
  }

  lemma OpenMeans(deps: LoopDeps, id: RunId)
    requires Open(deps, id)
    ensures deps.Valid() && !deps.store.faults.readsFail && id in deps.store.runs
    ensures var s := deps.store.runs[id].state; s.status == Running && Untripped(s) && s.currentTicketId.None?
    ensures Interrupted(deps, id)
  {
  }

  lemma ThenOpen(deps: LoopDeps, id: RunId)
    requires Interrupted(deps, id)
    requires var s := deps.store.runs[id].state;
             s.status == Running && Untripped(s) && s.currentTicketId.None? && s.Phase() == SelectTicket
    ensures Open(deps, id)
  {
  }

  lemma StillThere(deps: LoopDeps, id: RunId, since: World)
    requires deps.Valid() && !deps.store.faults.readsFail && Around(since, deps.View(), id)
    ensures Interrupted(deps, id) && id in deps.store.runs
  {
  }

  lemma StoreFails(deps: LoopDeps)
    ensures !Error.StoreFailure.IsLoopStateError()
    ensures deps.store.faults.writesFail || deps.store.faults.filesFail ==> !FaultFree(deps)
  {
  }

  /** Into the refinement and back: legal outside any ticket, and nothing but the phase changes. */
  lemma RefineMoves(s: RunState, to: LoopState)
    requires (s.Phase() == SelectTicket && to == RefineBacklog) || (s.Phase() == RefineBacklog && to == SelectTicket)
    ensures CanTransition(s.Phase(), to) && !InTicket(to)
    ensures var t := Moved(s, to, Keep);
            && t.Phase() == to && t.status == s.status && t.currentTicketId == s.currentTicketId
            && SameQueue(s, t) && (Untripped(s) ==> Untripped(t))
  {
    var t := Moved(s, to, Keep);
    if Untripped(s) {
      SameViews(s, t);
    }
  }
  lemma SameViews(a: RunState, b: RunState)
    requires Untripped(a) && a.budget == b.budget && a.noProgress == b.noProgress
    ensures Untripped(b)
  {
    assert forall arm :: ViewTripped(b.budget, b.noProgress, arm) == ViewTripped(a.budget, a.noProgress, arm);
  }

  // ----- what the loop's passes come to -----

  /** One pass: the kill switch, a tripped ceiling, or a look at the backlog when the log was `at` long. */
  datatype Pass = Killed | Overspent(arm: BudgetArm) | Looked(at: nat, scan: Scan, taken: Option<Visit>)

  /** Nothing is due, and nothing can become due: what is ready was flagged, or the run is for one ticket. */
  predicate Drains(scan: Scan, flagged: set<TicketId>, config: LoopConfig) {
    || (scan.loopReady != [] && forall t :: t in scan.loopReady ==> t.id in flagged)
    || config.maxTicketsPerRun == 1
  }

  /** The ticket taken is the due one with the least id, and none is only when none is due. */
  predicate Chose(scan: Scan, flagged: set<TicketId>, taken: Option<Ticket>) {
    if taken.Some? then
      && Pickable(taken.value, scan, flagged)
      && forall u :: u in scan.loopReady && Pickable(u, scan, flagged) ==> !Ids.Less(u.id, taken.value.id)
    else forall t :: t in scan.loopReady ==> !Pickable(t, scan, flagged)
  }

  predicate Takes(p: Pass) {
    p.Looked? && p.taken.Some?
  }

  /** The tickets taken, in order. */
  function Taken(passes: seq<Pass>): seq<TicketId> {
    if passes == [] then []
    else Taken(Init(passes)) + (if Takes(Last(passes)) then [Last(passes).taken.value.ticket.id] else [])
  }

  /** What was done for them, in order. */
  function DeedsOf(passes: seq<Pass>): Trace {
    if passes == [] then []
    else DeedsOf(Init(passes)) + (if Takes(Last(passes)) then Last(passes).taken.value.deeds else [])
  }

  /** Nothing went wrong for any ticket taken. */
  predicate AllLived(passes: seq<Pass>) {
    forall k :: 0 <= k < |passes| && Takes(passes[k]) ==> passes[k].taken.value.life.Some?
  }

  ghost predicate PassOk(events: seq<RunEvent>, p: Pass, terms: Terms) {
    p.Looked? ==>
      && p.at <= |events|
      && Chose(p.scan, FlaggedIds(events[..p.at]), if p.taken.Some? then Some(p.taken.value.ticket) else None)
      && (p.taken.Some? ==> VisitOk(events, p.taken.value, terms))
  }

  /** The loop went on after this pass: it took a ticket, or slept because something may still become due. */
  predicate WentOnAfter(events: seq<RunEvent>, p: Pass, config: LoopConfig) {
    p.Looked? && p.at <= |events| && (p.taken.None? ==> !Drains(p.scan, FlaggedIds(events[..p.at]), config))
  }

  /** Every pass chose rightly, all but the last went on, and what they took is what the log started. */
  ghost predicate Ground(events: seq<RunEvent>, passes: seq<Pass>, terms: Terms) {
    && (forall k :: 0 <= k < |passes| ==> PassOk(events, passes[k], terms))
    && (forall k :: 0 <= k < |passes| - 1 ==> WentOnAfter(events, passes[k], terms.config))
    && StartedIds(events) == Taken(passes)
  }

  /** The loop is over at selection: as many tickets as allowed were taken, or the last look found it drained. */
  predicate Exhausted(events: seq<RunEvent>, passes: seq<Pass>, config: LoopConfig) {
    || |Taken(passes)| == config.maxTicketsPerRun
    || (passes != [] && Last(passes).Looked? && Last(passes).at <= |events| && Last(passes).taken.None?
        && Drains(Last(passes).scan, FlaggedIds(events[..Last(passes).at]), config))
  }

  /** The last pass stopped the run, and its log says why. */
  predicate StoppedBy(events: seq<RunEvent>, passes: seq<Pass>) {
    && passes != [] && events != []
    && match Last(passes)
       case Killed => Last(events).kind == RunStopped(KillSwitch)
       case Overspent(arm) => Last(events).kind == RunStopped(BudgetTrip(arm))
       case Looked(_, _, _) => false
  }

  /** What the log gains without a start changes nothing about the passes so far. */
  lemma GroundKeeps(a: seq<RunEvent>, b: seq<RunEvent>, passes: seq<Pass>, terms: Terms)
    requires a <= b && StartedIds(b) == StartedIds(a)
    requires Ground(a, passes, terms)
    ensures Ground(b, passes, terms)
    ensures Exhausted(a, passes, terms.config) ==> Exhausted(b, passes, terms.config)
  {
    hide Chose, Drains, FlaggedIds, Taken, StartedIds, VisitOk;
    forall k | 0 <= k < |passes|
      ensures PassOk(b, passes[k], terms)
      ensures WentOnAfter(a, passes[k], terms.config) ==> WentOnAfter(b, passes[k], terms.config)
    {
      PassKeeps(a, b, passes[k], terms);
    }
    if passes != [] && Last(passes).Looked? && Last(passes).at <= |a| {
      assert a[..Last(passes).at] == b[..Last(passes).at];
    }
  }

  lemma PassKeeps(a: seq<RunEvent>, b: seq<RunEvent>, p: Pass, terms: Terms)
    requires a <= b && PassOk(a, p, terms)
    ensures PassOk(b, p, terms) && (WentOnAfter(a, p, terms.config) ==> WentOnAfter(b, p, terms.config))
  {
    hide Chose, Drains, FlaggedIds, VisitOk;
    if p.Looked? {
      assert a[..p.at] == b[..p.at];
      if p.taken.Some? {
        VisitKeeps(a, b, p.taken.value, terms);
      }
    }
  }

  /** One pass more. */
  lemma GroundGrows(a: seq<RunEvent>, b: seq<RunEvent>, passes: seq<Pass>, p: Pass, terms: Terms)
    requires a <= b && Ground(a, passes, terms)
    requires forall k :: 0 <= k < |passes| ==> WentOnAfter(a, passes[k], terms.config)
    requires PassOk(b, p, terms)
    requires StartedIds(b) == StartedIds(a) + (if Takes(p) then [p.taken.value.ticket.id] else [])
    ensures Ground(b, passes + [p], terms)
    ensures forall k :: 0 <= k < |passes| ==> WentOnAfter(b, passes[k], terms.config)
  {
    hide Chose, Drains, FlaggedIds, StartedIds, VisitOk;
    OneMore(passes, p);
    var all := passes + [p];
    forall k | 0 <= k < |passes|
      ensures all[k] == passes[k] && PassOk(b, passes[k], terms) && WentOnAfter(b, passes[k], terms.config)
    {
      PassKeeps(a, b, passes[k], terms);
    }
  }

  lemma OneMore(passes: seq<Pass>, p: Pass)
    ensures Last(passes + [p]) == p
    ensures Taken(passes + [p]) == Taken(passes) + (if Takes(p) then [p.taken.value.ticket.id] else [])
    ensures DeedsOf(passes + [p]) == DeedsOf(passes) + (if Takes(p) then p.taken.value.deeds else [])
    ensures AllLived(passes + [p]) <==> AllLived(passes) && (Takes(p) ==> p.taken.value.life.Some?)
  {
    InitOfAppend(passes, p);
    assert forall k :: 0 <= k < |passes| ==> (passes + [p])[k] == passes[k];
    assert (passes + [p])[|passes|] == p;
  }

  /** What one pass of the loop decided. */
  datatype Turn = Took(skipped: set<TicketId>) | Slept | Drained | Ended

  /** What a pass did, by what it decided. */
  ghost predicate Passed(w0: World, w1: World, id: RunId, p: Pass, turn: Turn, terms: Terms)
    requires id in w0.runs && id in w1.runs
  {
    var a, b := w0.runs[id].events, w1.runs[id].events;
    var ids := if Takes(p) then [p.taken.value.ticket.id] else [];
    && a <= b && PassOk(b, p, terms)
    && (turn.Took? <==> Takes(p)) && (turn.Ended? <==> !p.Looked?)
    && (turn.Slept? ==> WentOnAfter(b, p, terms.config))
    && (turn.Drained? ==>
          p.Looked? && p.at <= |b| && p.taken.None? && Drains(p.scan, FlaggedIds(b[..p.at]), terms.config))
    && StartedIds(b) == StartedIds(a) + ids
    && w1.runs[id].state.processed == w0.runs[id].state.processed + ids
    && w1.trace == w0.trace + (if Takes(p) then p.taken.value.deeds else []) && w0.throws <= w1.throws
    && (Takes(p) && p.taken.value.life.None? && terms.faultFree ==> w0.throws < w1.throws)
    && (turn.Ended? ==> StoppedBy(b, [p]))
  }

  /** One pass: kill switch, budget, scan, pick; then a ticket, a sleep, or the end. */
  method TakeTurn(deps: LoopDeps, id: RunId, processed: nat, skipped: set<TicketId>)
    returns (r: Outcome<Turn>, ghost now: int, ghost p: Pass, ghost killSwitch: bool)
    requires Open(deps, id) && Fits(deps.View(), id, processed, skipped, deps.config)
    requires processed < deps.config.maxTicketsPerRun
    modifies deps, deps.store
    ensures Interrupted(deps, id) && RunFrame(old(deps.View()), deps.View(), id)
    ensures Bounded(deps.store.runs[id].events, deps.config)
    ensures r.Err? ==> !r.error.IsLoopStateError() && !FaultFree(deps)
    ensures r.Err? && r.error.FlagRecord? ==> deps.store.runs[id].state.status == Running
    ensures r.Ok? && r.value.Took? ==>
              Open(deps, id) && Fits(deps.View(), id, processed + 1, r.value.skipped, deps.config)
    ensures r.Ok? && (r.value.Slept? || r.value.Drained?) ==>
              Open(deps, id) && Fits(deps.View(), id, processed, skipped, deps.config)
    ensures r.Ok? && r.value.Slept? ==>
              && old(deps.store.clock) <= now && now + PollMs(deps.config) <= deps.store.clock
              && now - old(deps.store.runs[id].state.startedAt) < deps.config.budget.maxWallClockMs
    ensures r.Ok? && r.value.Ended? ==>
              EndedWell(deps.store.runs[id]) && AllProven(deps.View(), id)
              && Last(deps.store.runs[id].events).kind != RunStopped(FlagRecordFailed)
    ensures r.Ok? ==>
              Passed(old(deps.View()), deps.View(), id, p, r.value, TermsOf(deps)) && (p.Killed? <==> killSwitch)
  {
    hide LoopDeps.Valid, RunStore.Valid, Around, RunFrame, Bounded, Fits, EndedWell, AllProven, Passed, StartedIds;
    hide LookedAt, Chose;
    ghost var w0 := deps.View();
    now, p := w0.clock, Killed;
    FitsIsBounded(w0, id, processed, skipped, deps.config);
    var killed: bool := *;
    killSwitch := killed;
    if killed {
      var stopped := StopByKillSwitch(deps, id);
      Kept(w0, deps.View(), id, processed, skipped, deps.config);
      if stopped.Ok? {
        StoppedPasses(w0, deps.View(), id, p, TermsOf(deps));
      }
      r := if stopped.Ok? then Ok(Ended) else Err(stopped.error);
      return;
    }
    var checked;
    checked, now := ReachBudget(deps, id, processed, skipped);
    ghost var w1 := deps.View();
    if checked.Err? {
      return Err(checked.error), now, p, killSwitch;
    }
    if checked.value.Some? {
      p := Overspent(checked.value.value);
      StoppedPasses(w0, w1, id, p, TermsOf(deps));
      return Ok(Ended), now, p, killSwitch;
    }
    FitsCounts(w1, id, processed, skipped, deps.config);
    ghost var scan, taken;
    r, scan, taken := PickAndRun(deps, id, processed, skipped);
    FrameTransitive(w0, w1, deps.View(), id);
    p := Looked(|w1.runs[id].events|, scan, taken);
    if r.Ok? {
      LookPasses(w0, w1, deps.View(), id, scan, skipped, r.value, taken, TermsOf(deps));
    }
  }

  lemma StoppedPasses(w0: World, w1: World, id: RunId, p: Pass, terms: Terms)
    requires Around(w0, w1, id) && SameQueue(w0.runs[id].state, w1.runs[id].state) && !p.Looked?
    requires EndedWell(w1.runs[id])
    requires Last(w1.runs[id].events).kind
             == (match p case Killed => RunStopped(KillSwitch) case Overspent(arm) => RunStopped(BudgetTrip(arm)))
    ensures Passed(w0, w1, id, p, Ended, terms)
  {
    AroundKeepsIds(w0, w1, id);
    assert Last([p]) == p;
    hide StartedIds, FlaggedIds;
  }

  lemma LookPasses(w0: World, w1: World, w2: World, id: RunId, scan: Scan, skipped: set<TicketId>, turn: Turn,
      taken: Option<Visit>, terms: Terms)
    requires Around(w0, w1, id) && SameQueue(w0.runs[id].state, w1.runs[id].state) && RunFrame(w1, w2, id)
    requires skipped == FlaggedIds(w1.runs[id].events) && !turn.Ended?
    requires LookedAt(w1, w2, id, scan, skipped, turn, taken, terms)
    ensures Passed(w0, w2, id, Looked(|w1.runs[id].events|, scan, taken), turn, terms)
  {
    AroundKeepsIds(w0, w1, id);
    var b := w2.runs[id].events;
    assert b[..|w1.runs[id].events|] == w1.runs[id].events;
    hide StartedIds, FlaggedIds, Chose, StayFor, Drains, VisitOk;
  }

  /** Up to the budget check: None, or the arm that ended the run. */
  method ReachBudget(deps: LoopDeps, id: RunId, processed: nat, skipped: set<TicketId>)
    returns (r: Outcome<Option<BudgetArm>>, ghost now: int)
    requires Open(deps, id) && Fits(deps.View(), id, processed, skipped, deps.config)
    requires processed < deps.config.maxTicketsPerRun
    modifies deps.store
    ensures Interrupted(deps, id) && RunFrame(old(deps.View()), deps.View(), id)
    ensures Around(old(deps.View()), deps.View(), id)
    ensures Fits(deps.View(), id, processed, skipped, deps.config)
    ensures Bounded(deps.store.runs[id].events, deps.config) && AllProven(deps.View(), id)
    ensures r.Err? ==> r.error == StoreFailure && deps.store.faults.writesFail
    ensures r.Ok? ==> SameQueue(old(deps.store.runs[id].state), deps.store.runs[id].state)
    ensures r.Ok? && r.value.Some? ==>
              EndedWell(deps.store.runs[id])
              && Last(deps.store.runs[id].events).kind == RunStopped(BudgetTrip(r.value.value))
    ensures r.Ok? && r.value.None? ==>
              && Open(deps, id) && deps.store.runs[id].state.Phase() == SelectTicket
              && old(deps.store.clock) <= now <= deps.store.clock
              && now - old(deps.store.runs[id].state.startedAt) < deps.config.budget.maxWallClockMs
              && CountStarts(deps.store.runs[id].events) < deps.config.budget.maxIterations
              && StartsSinceProgress(deps.store.runs[id].events, deps.config.budget.flagsCountAsProgress)
                 < deps.config.budget.maxNoProgressIterations
  {
    hide LoopDeps.Valid, RunStore.Valid, Around, RunFrame, Bounded, Fits, EndedWell, AllProven;
    ghost var w0 := deps.View();
    now := w0.clock;
    var selected := ToSelect(deps, id);
    ghost var w1 := deps.View();
    Kept(w0, w1, id, processed, skipped, deps.config);
    if selected.Err? {
      return Err(selected.error), now;
    }
    ghost var v := EvaluateBudget(w1.runs[id].state, w1.runs[id].events, deps.config.budget, now);
    var tripped;
    tripped, now := CheckBudget(deps, id);
    ghost var w2 := deps.View();
    Kept(w1, w2, id, processed, skipped, deps.config);
    FrameTransitive(w0, w1, w2, id);
    AroundTransitive(w0, w1, w2, id);
    FrameStart(w0, w1, id);
    if tripped.Ok? {
      r := Ok(tripped.value);
      if tripped.value.None? {
        WithinMeans(w1.runs[id].state, w1.runs[id].events, deps.config.budget, now);
      }
    } else {
      r := Err(tripped.error);
    }
  }

  /** Milliseconds an idle poll sleeps: setTimeout never waits less than one. */
  function PollMs(config: LoopConfig): int {
    Max(1, config.pollIntervalSec * 1000)
  }

  /** A step around the bookkeeping keeps all of it. */
  lemma Kept(w0: World, w1: World, id: RunId, processed: int, skipped: set<TicketId>, config: LoopConfig)
    requires Around(w0, w1, id) && Fits(w0, id, processed, skipped, config) && processed <= config.maxTicketsPerRun
    ensures Fits(w1, id, processed, skipped, config) && Bounded(w1.runs[id].events, config)
    ensures RunFrame(w0, w1, id) && AllProven(w1, id)
  {
    AroundFits(w0, w1, id, processed, skipped, config);
    FitsIsBounded(w1, id, processed, skipped, config);
  }

  lemma WithinMeans(s: RunState, events: seq<RunEvent>, config: BudgetConfig, now: int)
    requires EvaluateBudget(s, events, config, now).Within?
    ensures CountStarts(events) < config.maxIterations
    ensures StartsSinceProgress(events, config.flagsCountAsProgress) < config.maxNoProgressIterations
    ensures now - s.startedAt < config.maxWallClockMs
  {
    EvaluatorMeaning(s, events, config, now);
    var m := EvaluateBudget(s, events, config, now).marker;
    assert !ArmTripped(m, Iterations) && !ArmTripped(m, NoProgressCount) && !ArmTripped(m, WallClock);
  }

  lemma FitsCounts(w: World, id: RunId, processed: int, skipped: set<TicketId>, config: LoopConfig)
    requires Fits(w, id, processed, skipped, config)
    ensures CountStarts(w.runs[id].events) == processed && skipped == FlaggedIds(w.runs[id].events)
  {
  }

  /** The ids of the ready tickets that stay for later passes, in the backlog's order. */
  ghost predicate StayFor(remaining: seq<TicketId>, scan: Scan, flagged: set<TicketId>, taken: TicketId) {
    && (forall x :: x in remaining <==> (exists t :: t in scan.loopReady && t.id == x) && x !in flagged && x != taken)
    && |remaining| <= |scan.loopReady|
  }

  /** What a look at the backlog did, by what it decided. */
  ghost predicate LookedAt(w0: World, w1: World, id: RunId, scan: Scan, skipped: set<TicketId>, turn: Turn,
      taken: Option<Visit>, terms: Terms)
    requires id in w0.runs && id in w1.runs
  {
    && Chose(scan, skipped, if taken.Some? then Some(taken.value.ticket) else None) && (turn.Took? <==> taken.Some?)
    && (turn.Took? ==>
          && Visited(w0, w1, id, taken.value, terms)
          && exists remaining ::
               StayFor(remaining, scan, skipped, taken.value.ticket.id)
               && Counted(w0, w1, id, taken.value.ticket, remaining))
    && (!turn.Took? ==>
          && (turn.Drained? <==> Drains(scan, skipped, terms.config))
          && w1.trace == w0.trace && w1.throws == w0.throws
          && StartedIds(w1.runs[id].events) == StartedIds(w0.runs[id].events)
          && SameQueue(w0.runs[id].state, w1.runs[id].state))
  }

  /** The part of a turn after the budget: scan, pick, and run, sleep or drain. */
  method PickAndRun(deps: LoopDeps, id: RunId, processed: nat, skipped: set<TicketId>)
    returns (r: Outcome<Turn>, ghost scan: Scan, ghost taken: Option<Visit>)
    requires Open(deps, id) && deps.store.runs[id].state.Phase() == SelectTicket
    requires Fits(deps.View(), id, processed, skipped, deps.config)
    requires processed < deps.config.maxTicketsPerRun && processed < deps.config.budget.maxIterations
    requires StartsSinceProgress(deps.store.runs[id].events, deps.config.budget.flagsCountAsProgress)
             < deps.config.budget.maxNoProgressIterations
    modifies deps, deps.store
    ensures Interrupted(deps, id) && RunFrame(old(deps.View()), deps.View(), id)
    ensures Bounded(deps.store.runs[id].events, deps.config)
    ensures r.Err? ==> !r.error.IsLoopStateError() && !FaultFree(deps)
    ensures r.Err? && r.error.FlagRecord? ==> deps.store.runs[id].state.status == Running
    ensures r.Ok? ==> !r.value.Ended?
    ensures r.Ok? && r.value.Took? ==>
              Open(deps, id) && Fits(deps.View(), id, processed + 1, r.value.skipped, deps.config)
    ensures r.Ok? && !r.value.Took? ==> Open(deps, id) && Fits(deps.View(), id, processed, skipped, deps.config)
    ensures r.Ok? && r.value.Slept? ==> old(deps.store.clock) + PollMs(deps.config) <= deps.store.clock
    ensures r.Ok? ==> LookedAt(old(deps.View()), deps.View(), id, scan, skipped, r.value, taken, TermsOf(deps))
  {
    hide LoopDeps.Valid, RunStore.Valid, RunFrame, Bounded, Fits, Around, Counted, StartedIds, StayFor, Visited;
    ghost var w0 := deps.View();
    scan, taken := Scan([], {}, false), None;
    FitsIsBounded(w0, id, processed, skipped, deps.config);
    FrameReflexive(w0, id);
    var looked := ScanTickets(deps);
    if looked.Err? {
      return Err(looked.error), scan, taken;
    }
    scan := looked.value;
    var ticket := PickNext(looked.value, skipped);
    if ticket.Some? {
      var remaining := RemainingIds(looked.value, skipped, ticket.value.id);
      RemainingStay(looked.value, skipped, ticket.value.id);
      var ran;
      ghost var v;
      ran, v := ProcessTicket(deps, id, ticket.value, remaining, processed, skipped);
      taken := Some(v);
      return if ran.Ok? then Ok(Took(ran.value)) else Err(ran.error), scan, taken;
    }
    var onlySkipped := looked.value.loopReady != [] && forall t | t in looked.value.loopReady :: t.id in skipped;
    if onlySkipped || deps.config.maxTicketsPerRun == 1 {
      return Ok(Drained), scan, taken;
    }
    Nap(deps, id);
    Kept(w0, deps.View(), id, processed, skipped, deps.config);
    AroundKeepsIds(w0, deps.View(), id);
    AroundDoesNothing(w0, deps.View(), id);
    r := Ok(Slept);
  }

  lemma AroundDoesNothing(w0: World, w1: World, id: RunId)
    requires Around(w0, w1, id)
    ensures w1.trace == w0.trace && w1.throws == w0.throws
  {
  }

  method Nap(deps: LoopDeps, id: RunId)
    requires Open(deps, id)
    modifies deps.store`clock
    ensures Open(deps, id) && Around(old(deps.View()), deps.View(), id)
    ensures deps.store.clock >= old(deps.store.clock) + PollMs(deps.config)
    ensures deps.store.runs == old(deps.store.runs)
  {
    deps.store.Sleep(PollMs(deps.config));
    AroundReflexive(old(deps.View()), id);
  }

  lemma FrameReflexive(w: World, id: RunId)
    requires id in w.runs
    ensures RunFrame(w, w, id)
  {
    AroundReflexive(w, id);
  }

  /** eligible.map(id).filter(id !== ticket.id) */
  function RemainingIds(scan: Scan, skipped: set<TicketId>, taken: TicketId): seq<TicketId> {
    IdsOf(scan.loopReady, skipped + {taken})
  }

  function IdsOf(tickets: seq<Ticket>, except: set<TicketId>): seq<TicketId> {
    if tickets == [] then []
    else (if tickets[0].id !in except then [tickets[0].id] else []) + IdsOf(tickets[1..], except)
  }

  lemma {:induction false} IdsOfMeans(tickets: seq<Ticket>, except: set<TicketId>)
    ensures var ids := IdsOf(tickets, except);
            && (forall x :: x in ids <==> (exists t :: t in tickets && t.id == x) && x !in except)
            && |ids| <= |tickets|
  {
    if tickets != [] {
      IdsOfMeans(tickets[1..], except);
      var ids := IdsOf(tickets, except);
      assert tickets == [tickets[0]] + tickets[1..];
      forall x
        ensures x in ids <==> (exists t :: t in tickets && t.id == x) && x !in except
      {
        if t :| t in tickets && t.id == x {
          assert t == tickets[0] || t in tickets[1..];
        }
      }
    }
  }

  lemma RemainingStay(scan: Scan, skipped: set<TicketId>, taken: TicketId)
    ensures StayFor(RemainingIds(scan, skipped, taken), scan, skipped, taken)
  {
    IdsOfMeans(scan.loopReady, skipped + {taken});
    hide IdsOf;
  }

  /** Iterations the loop may make: one per ticket, one per poll the wall clock leaves room for, one to stop. */
  function IterationBound(config: LoopConfig): int {
    config.maxTicketsPerRun + Max(0, CeilDiv(config.budget.maxWallClockMs, PollMs(config))) + 1
  }

  function CeilDiv(a: int, b: int): int
    requires b > 0
  {
    (a + b - 1) / b
  }

  lemma PollsFit(polls: int, interval: int, elapsed: int, wall: int)
    requires interval > 0 && polls >= 0 && polls * interval <= elapsed < wall
    ensures polls + 1 <= CeilDiv(wall, interval)
    ensures (polls + 1) * interval == polls * interval + interval
  {
    var q := CeilDiv(wall, interval);
    assert q * interval >= wall by {
      assert (wall + interval - 1) == q * interval + (wall + interval - 1) % interval;
    }
    if polls >= q {
      MulMonotone(q, polls, interval);
    }
  }

  lemma MulMonotone(a: int, b: int, c: int)
    requires a <= b && c >= 0
    ensures a * c <= b * c
  {
  }

  /** How the while loop was left. */
  datatype Exit = AtSelection | RunEnded

  /**
   * The loop. It terminates: each iteration takes a ticket, or sleeps through a poll interval
   * the wall-clock ceiling had room for, or ends.
   */
  method Grind(deps: LoopDeps, id: RunId) returns (r: Outcome<Exit>, ghost passes: seq<Pass>)
    requires Open(deps, id) && Fits(deps.View(), id, 0, {}, deps.config)
    requires deps.config.maxTicketsPerRun >= 1 && deps.store.runs[id].state.startedAt <= deps.store.clock
    requires deps.store.runs[id].state.processed == []
    modifies deps, deps.store
    ensures Interrupted(deps, id) && RunFrame(old(deps.View()), deps.View(), id)
    ensures Bounded(deps.store.runs[id].events, deps.config)
    ensures |passes| <= IterationBound(deps.config)
    ensures r.Err? ==> !r.error.IsLoopStateError() && !FaultFree(deps)
    ensures r.Err? && r.error.FlagRecord? ==> deps.store.runs[id].state.status == Running
    ensures r.Ok? ==> AllProven(deps.View(), id)
    ensures r.Ok? && r.value == AtSelection ==> Open(deps, id)
    ensures r.Ok? && r.value == RunEnded ==>
              EndedWell(deps.store.runs[id]) && Last(deps.store.runs[id].events).kind != RunStopped(FlagRecordFailed)
    ensures r.Ok? ==>
              && Ground(deps.store.runs[id].events, passes, TermsOf(deps))
              && deps.store.runs[id].state.processed == Taken(passes)
              && Did(old(deps.View()), deps.View(), passes, TermsOf(deps))
              && (if r.value == AtSelection then Exhausted(deps.store.runs[id].events, passes, deps.config)
                  else StoppedBy(deps.store.runs[id].events, passes))
  {
    hide *;
    OpenMeans(deps, id);
    Knows(deps);
    ghost var w0 := deps.View();
    ghost var start := w0.runs[id].state.startedAt;
    var processed := 0;
    var skipped: set<TicketId> := {};
    ghost var polls := 0;
    passes := [];
    FrameReflexive(w0, id);
    PollsStart(deps.config, deps.store.clock - start);
    NothingGround(w0, id, TermsOf(deps));
    while processed < deps.config.maxTicketsPerRun
      invariant Open(deps, id) && Fits(deps.View(), id, processed, skipped, deps.config)
      invariant RunFrame(w0, deps.View(), id)
      invariant 0 <= processed <= deps.config.maxTicketsPerRun
      invariant PollsOk(polls, deps.config, deps.store.clock - start)
      invariant |passes| == processed + polls && processed + polls + 1 <= IterationBound(deps.config)
      invariant GoingOn(deps.View(), id, passes, processed, TermsOf(deps))
      invariant Did(w0, deps.View(), passes, TermsOf(deps))
      decreases deps.config.maxTicketsPerRun - processed, deps.config.budget.maxWallClockMs - (deps.store.clock - start)
    {
      ghost var w1, clock := deps.View(), deps.store.clock;
      FrameStart(w0, w1, id);
      Knows(deps);
      var turn;
      ghost var now, p, killSwitch;
      turn, now, p, killSwitch := TakeTurn(deps, id, processed, skipped);
      FrameTransitive(w0, w1, deps.View(), id);
      FrameStart(w1, deps.View(), id);
      Knows(deps);
      if turn.Err? {
        return Err(turn.error), passes;
      }
      OnePass(w1, deps.View(), id, passes, p, processed, turn.value, TermsOf(deps));
      OneDone(w0, w1, deps.View(), id, passes, p, turn.value, TermsOf(deps));
      passes := passes + [p];
      match turn.value {
        case Ended =>
          return Ok(RunEnded), passes;
        case Drained =>
          OpenMeans(deps, id);
          FitsEnds(deps.View(), id, processed, skipped, deps.config);
          return Ok(AtSelection), passes;
        case Slept =>
          OneSleep(polls, deps.config, clock - start, now - start, deps.store.clock - start);
          polls := polls + 1;
          PollsBound(processed, polls, deps.config, deps.store.clock - start, deps.store.clock - start);
        case Took(nowSkipped) =>
          skipped := nowSkipped;
          processed := processed + 1;
          PollsBound(processed, polls, deps.config, clock - start, deps.store.clock - start);
      }
    }
    Knows(deps);
    OpenMeans(deps, id);
    FitsEnds(deps.View(), id, processed, skipped, deps.config);
    AllTaken(deps.View(), id, passes, processed, TermsOf(deps));
    r := Ok(AtSelection);
  }

  lemma Knows(deps: LoopDeps)
    ensures deps.View().runs == deps.store.runs && deps.View().clock == deps.store.clock
    ensures TermsOf(deps).config == deps.config
  {
  }

  /** Each poll took its interval, and there were no more than the wall clock leaves room for. */
  predicate PollsOk(polls: int, config: LoopConfig, elapsed: int) {
    && polls * PollMs(config) <= elapsed
    && 0 <= polls <= Max(0, CeilDiv(config.budget.maxWallClockMs, PollMs(config)))
  }

  lemma PollsStart(config: LoopConfig, elapsed: int)
    requires elapsed >= 0 && config.maxTicketsPerRun >= 1
    ensures PollsOk(0, config, elapsed) && 1 <= IterationBound(config)
  {
  }

  lemma OneSleep(polls: int, config: LoopConfig, before: int, now: int, after: int)
    requires PollsOk(polls, config, before) && before <= now < config.budget.maxWallClockMs
    requires now + PollMs(config) <= after
    ensures PollsOk(polls + 1, config, after) && before < after
  {
    PollsFit(polls, PollMs(config), now, config.budget.maxWallClockMs);
    hide CeilDiv;
  }

  lemma PollsBound(processed: int, polls: int, config: LoopConfig, before: int, elapsed: int)
    requires PollsOk(polls, config, before) && processed <= config.maxTicketsPerRun && before <= elapsed
    ensures processed + polls + 1 <= IterationBound(config) && PollsOk(polls, config, elapsed)
  {
    hide CeilDiv;
  }

  /** The passes so far, each of which went on, and what they took. */
  ghost predicate GoingOn(w: World, id: RunId, passes: seq<Pass>, processed: nat, terms: Terms) {
    && id in w.runs && Ground(w.runs[id].events, passes, terms)
    && (forall k :: 0 <= k < |passes| ==> WentOnAfter(w.runs[id].events, passes[k], terms.config))
    && w.runs[id].state.processed == Taken(passes) && |Taken(passes)| == processed
  }

  /** What was done in a stretch is what its passes did; nothing went wrong for a ticket unless something threw. */
  ghost predicate Did(w0: World, w1: World, passes: seq<Pass>, terms: Terms) {
    && w1.trace == w0.trace + DeedsOf(passes) && w0.throws <= w1.throws
    && (terms.faultFree && w1.throws == w0.throws ==> AllLived(passes))
  }

  lemma OneDone(w0: World, w1: World, w2: World, id: RunId, passes: seq<Pass>, p: Pass, turn: Turn, terms: Terms)
    requires id in w1.runs && id in w2.runs && Did(w0, w1, passes, terms) && Passed(w1, w2, id, p, turn, terms)
    ensures Did(w0, w2, passes + [p], terms)
  {
    OneMore(passes, p);
    hide PassOk, WentOnAfter, StartedIds, Taken, DeedsOf, AllLived, StoppedBy, Drains, FlaggedIds;
  }

  lemma {:induction false} NoStartsNoIds(events: seq<RunEvent>)
    requires CountStarts(events) == 0
    ensures StartedIds(events) == []
  {
    if events != [] {
      NoStartsNoIds(Init(events));
    }
  }

  lemma NothingGround(w: World, id: RunId, terms: Terms)
    requires Fits(w, id, 0, {}, terms.config) && w.runs[id].state.processed == []
    ensures GoingOn(w, id, [], 0, terms) && Did(w, w, [], terms)
  {
    NoStartsNoIds(w.runs[id].events);
  }

  /** What one pass more leaves. */
  lemma OnePass(w0: World, w1: World, id: RunId, passes: seq<Pass>, p: Pass, processed: nat, turn: Turn,
      terms: Terms)
    requires GoingOn(w0, id, passes, processed, terms) && id in w1.runs && Passed(w0, w1, id, p, turn, terms)
    ensures var b := w1.runs[id].events;
            && Ground(b, passes + [p], terms) && w1.runs[id].state.processed == Taken(passes + [p])
            && (turn.Ended? ==> StoppedBy(b, passes + [p]))
            && (turn.Drained? ==> Exhausted(b, passes + [p], terms.config))
            && (turn.Slept? ==> GoingOn(w1, id, passes + [p], processed, terms))
            && (turn.Took? ==> GoingOn(w1, id, passes + [p], processed + 1, terms))
  {
    var a, b := w0.runs[id].events, w1.runs[id].events;
    hide StartedIds, FlaggedIds, Chose, Drains, Taken, Ground, PassOk;
    GroundGrows(a, b, passes, p, terms);
    OneMore(passes, p);
    assert Last([p]) == p && (passes + [p])[|passes|] == p;
    assert forall k :: 0 <= k < |passes| ==> (passes + [p])[k] == passes[k];
  }

  lemma AllTaken(w: World, id: RunId, passes: seq<Pass>, processed: nat, terms: Terms)
    requires GoingOn(w, id, passes, processed, terms) && processed == terms.config.maxTicketsPerRun
    ensures Ground(w.runs[id].events, passes, terms) && Exhausted(w.runs[id].events, passes, terms.config)
    ensures w.runs[id].state.processed == Taken(passes)
  {
    hide StartedIds, FlaggedIds, Chose, Drains, Taken, Ground, WentOnAfter;
  }

  lemma FrameStart(w0: World, w1: World, id: RunId)
    requires RunFrame(w0, w1, id)
    ensures id in w0.runs && id in w1.runs
    ensures w1.runs[id].state.startedAt == w0.runs[id].state.startedAt && w0.clock <= w1.clock
  {
  }

  lemma FitsEnds(w: World, id: RunId, processed: int, skipped: set<TicketId>, config: LoopConfig)
    requires Fits(w, id, processed, skipped, config) && processed <= config.maxTicketsPerRun
    ensures Bounded(w.runs[id].events, config) && AllProven(w, id)
  {
    FitsIsBounded(w, id, processed, skipped, config);
  }

  /** SelectTicket -> Done, then run.completed. */
  method Finish(deps: LoopDeps, id: RunId) returns (r: Outcome<()>)
    requires Open(deps, id)
    modifies deps.store
    ensures Interrupted(deps, id) && Around(old(deps.View()), deps.View(), id)
    ensures r.Ok? ==> EndedWell(deps.store.runs[id]) && Last(deps.store.runs[id].events).kind == RunCompleted
    ensures r.Ok? ==> deps.store.runs[id].state.Phase() == Done
    ensures r.Ok? ==> SameQueue(old(deps.store.runs[id].state), deps.store.runs[id].state)
    ensures r.Err? ==> r.error == StoreFailure && deps.store.faults.writesFail
  {
    hide Around;
    ghost var w0 := deps.View();
    r := ToSelect(deps, id);
    ghost var w1 := deps.View();
    if r.Err? {
      return;
    }
    RunningHasNoEnd(deps, id);
    r := MoveRun(deps, id, Done);
    ghost var w2 := deps.View();
    AroundTransitive(w0, w1, w2, id);
    if r.Err? {
      return;
    }
    QuietHasNoEnd(w1.runs[id].events, w2.runs[id].events);
    r := LogEnd(deps, id, RunCompleted);
    AroundTransitive(w0, w2, deps.View(), id);
  }

  /** The catch for a flag that could not be recorded: stop loudly, or surface the root error. */
  method StopOnFlagError(deps: LoopDeps, id: RunId, error: Error) returns (r: Outcome<()>)
    requires Interrupted(deps, id) && deps.store.runs[id].state.status == Running
    requires error.FlagRecord?
    modifies deps.store
    ensures Interrupted(deps, id) && Around(old(deps.View()), deps.View(), id)
    ensures r.Ok? ==>
              EndedWell(deps.store.runs[id]) && Last(deps.store.runs[id].events).kind == RunStopped(FlagRecordFailed)
    ensures r.Err? ==> r.error == error && deps.store.faults.writesFail
  {
    ghost var w0 := deps.View();
    RunningHasNoEnd(deps, id);
    var s := deps.store.runs[id].state;
    r := WriteSnapshot(deps, id, s.(status := Stopped));
    ghost var w1 := deps.View();
    if r.Ok? {
      r := LogEnd(deps, id, RunStopped(FlagRecordFailed));
      AroundTransitive(w0, w1, deps.View(), id);
    }
    if r.Err? {
      r := Err(error);
    }
  }

  /** The try block of a fresh run: refine once, grind, finish. */
  method TryRun(deps: LoopDeps, id: RunId) returns (r: Outcome<()>, ghost passes: seq<Pass>, ghost wanted: bool)
    requires Open(deps, id) && Fits(deps.View(), id, 0, {}, deps.config)
    requires deps.config.maxTicketsPerRun >= 1 && deps.store.runs[id].state.startedAt <= deps.store.clock
    requires deps.store.runs[id].state.processed == []
    modifies deps, deps.store
    ensures Interrupted(deps, id) && RunFrame(old(deps.View()), deps.View(), id)
    ensures Bounded(deps.store.runs[id].events, deps.config)
    ensures |passes| <= IterationBound(deps.config)
    ensures r.Err? ==> !r.error.IsLoopStateError() && !FaultFree(deps)
    ensures r.Err? && r.error.FlagRecord? ==> deps.store.runs[id].state.status == Running
    ensures r.Ok? ==> EndedWell(deps.store.runs[id]) && AllProven(deps.View(), id)
                      && Last(deps.store.runs[id].events).kind != RunStopped(FlagRecordFailed)
    ensures r.Ok? ==> RanThrough(deps.store.runs[id], passes, TermsOf(deps))
    ensures r.Ok? ==> Did(old(deps.View()), deps.View(), passes, TermsOf(deps))
    ensures r.Ok? && wanted ==> exists e :: e in deps.store.runs[id].events && e.kind == Note("backlog.refinement")
  {
    hide LoopDeps.Valid, RunStore.Valid, RunFrame, Bounded, Fits, EndedWell, AllProven, Around, CeilDiv;
    assert Interrupted(deps, id);
    hide Ground, Exhausted, StoppedBy, Taken, RanThrough, Open;
    ghost var w0 := deps.View();
    passes, wanted := [], false;
    FrameReflexive(w0, id);
    FitsIsBounded(w0, id, 0, {}, deps.config);
    BoundIsPositive(deps.config);
    var scan := ScanTickets(deps);
    if scan.Err? {
      return Err(scan.error), passes, wanted;
    }
    wanted := scan.value.refineEpic;
    AroundReflexive(w0, id);
    if scan.value.refineEpic {
      var refined := RefinePass(deps, id);
      Kept(w0, deps.View(), id, 0, {}, deps.config);
      if refined.Err? {
        return Err(refined.error), passes, wanted;
      }
    }
    ghost var w1 := deps.View();
    FrameStart(w0, w1, id);
    r, passes := GrindAndFinish(deps, id);
    ghost var w2 := deps.View();
    FrameTransitive(w0, w1, w2, id);
    FrameGrows(w1, w2, id);
  }

  lemma FrameGrows(w0: World, w1: World, id: RunId)
    requires RunFrame(w0, w1, id)
    ensures id in w0.runs && id in w1.runs
    ensures forall e :: e in w0.runs[id].events ==> e in w1.runs[id].events
  {
    var a, b := w0.runs[id].events, w1.runs[id].events;
    assert forall k :: 0 <= k < |a| ==> a[k] == b[k];
  }

  /** The loop and, when it was left at selection, the end of the run. */
  method GrindAndFinish(deps: LoopDeps, id: RunId) returns (r: Outcome<()>, ghost passes: seq<Pass>)
    requires Open(deps, id) && Fits(deps.View(), id, 0, {}, deps.config)
    requires deps.config.maxTicketsPerRun >= 1 && deps.store.runs[id].state.startedAt <= deps.store.clock
    requires deps.store.runs[id].state.processed == []
    modifies deps, deps.store
    ensures Interrupted(deps, id) && RunFrame(old(deps.View()), deps.View(), id)
    ensures Bounded(deps.store.runs[id].events, deps.config)
    ensures |passes| <= IterationBound(deps.config)
    ensures r.Err? ==> !r.error.IsLoopStateError() && !FaultFree(deps)
    ensures r.Err? && r.error.FlagRecord? ==> deps.store.runs[id].state.status == Running
    ensures r.Ok? ==> EndedWell(deps.store.runs[id]) && AllProven(deps.View(), id)
                      && Last(deps.store.runs[id].events).kind != RunStopped(FlagRecordFailed)
    ensures r.Ok? ==> RanThrough(deps.store.runs[id], passes, TermsOf(deps))
    ensures r.Ok? ==> Did(old(deps.View()), deps.View(), passes, TermsOf(deps))
  {
    hide LoopDeps.Valid, RunStore.Valid, RunFrame, Bounded, Fits, AllProven, Around, CeilDiv;
    hide Ground, Exhausted, StoppedBy, Taken, Open;
    ghost var w0 := deps.View();
    var left;
    left, passes := Grind(deps, id);
    ghost var w1 := deps.View();
    if left.Err? {
      return Err(left.error), passes;
    }
    if left.value == RunEnded {
      StoppedIsStopped(deps.store.runs[id].events, passes);
      return Ok(()), passes;
    }
    r := Finish(deps, id);
    Finished0(w1, deps.View(), id, deps.config);
    FrameTransitive(w0, w1, deps.View(), id);
    if r.Ok? {
      AroundKeepsIds(w1, deps.View(), id);
      AroundGrows(w1, deps.View(), id);
      AroundDoesNothing(w1, deps.View(), id);
      GroundKeeps(w1.runs[id].events, deps.store.runs[id].events, passes, TermsOf(deps));
    }
  }

  lemma AroundGrows(w0: World, w1: World, id: RunId)
    requires Around(w0, w1, id)
    ensures w0.runs[id].events <= w1.runs[id].events
  {
  }

  lemma StoppedIsStopped(events: seq<RunEvent>, passes: seq<Pass>)
    requires StoppedBy(events, passes)
    ensures events != [] && Last(events).kind.RunStopped?
  {
  }

  /**
   * A run from its first pass to its end: what its passes took is what it started and processed, and
   * it was completed with nothing left to take, or stopped for the reason its last pass gives.
   */
  ghost predicate RanThrough(run: Run, passes: seq<Pass>, terms: Terms) {
    && run.events != [] && Ground(run.events, passes, terms) && run.state.processed == Taken(passes)
    && (if Last(run.events).kind.RunCompleted? then Exhausted(run.events, passes, terms.config)
        else StoppedBy(run.events, passes))
  }

  lemma BoundIsPositive(config: LoopConfig)
    requires config.maxTicketsPerRun >= 1
    ensures IterationBound(config) >= 0
  {
  }

  lemma Finished0(w0: World, w1: World, id: RunId, config: LoopConfig)
    requires Around(w0, w1, id) && Bounded(w0.runs[id].events, config) && AllProven(w0, id)
    ensures Bounded(w1.runs[id].events, config) && AllProven(w1, id) && RunFrame(w0, w1, id)
  {
    var a, b := w0.runs[id].events, w1.runs[id].events;
    StartlessKeeps(a, b, CountStarts(a), config.budget);
    forall t: TicketId
      ensures Proven(w1, id, t, 0)
    {
      assert Proven(w0, id, t, 0);
      AnchorlessClaims(w0, w1, id, t, 0);
    }
  }

  // ----- fresh runs, resumed runs -----

  /** A run opened by this process: ended well if it returned, bounded however it ended. */
  ghost predicate RanFresh(deps: LoopDeps, id: RunId, r: Outcome<()>, passes: seq<Pass>)
    reads deps, deps.store
  {
    && id in deps.store.runs
    && Bounded(deps.store.runs[id].events, deps.config)
    && (r.Ok? ==>
          && EndedWell(deps.store.runs[id])
          && (Last(deps.store.runs[id].events).kind != RunStopped(FlagRecordFailed) ==>
                AllProven(deps.View(), id) && RanThrough(deps.store.runs[id], passes, TermsOf(deps))))
  }

  /**
   * A run taken up again from a point: completed, with one end on its log, and what the log says
   * about shipping the ticket since then happened.
   */
  ghost predicate RanResumed(deps: LoopDeps, p: ResumePoint, since: nat)
    reads deps, deps.store
  {
    && p.runId in deps.store.runs
    && EndedWell(deps.store.runs[p.runId]) && deps.store.runs[p.runId].state.status == Completed
    && Last(deps.store.runs[p.runId].events).kind == RunCompleted
    && Proven(deps.View(), p.runId, p.ticketId, since)
  }

  /** The ticket of a resumed run moved from the remaining ones to the processed ones. */
  ghost predicate Dequeued(a: RunState, b: RunState, t: TicketId) {
    && b.processed == a.processed + [t]
    && (forall x :: x in b.remaining <==> x in a.remaining && x != t)
  }

  /** createRun and run.started. */
  method OpenRun(deps: LoopDeps) returns (r: Outcome<RunId>)
    requires deps.Valid() && !deps.store.faults.readsFail
    modifies deps.store
    ensures deps.Valid() && deps.trace == old(deps.trace) && deps.throws == old(deps.throws)
    ensures deps.store.clock >= old(deps.store.clock)
    ensures old(deps.store.disks) <= deps.store.disks
    ensures forall k :: k in old(deps.store.runs) ==>
            k in deps.store.runs && deps.store.runs[k] == old(deps.store.runs)[k]
    ensures r.Ok? ==>
              && r.value !in old(deps.store.runs) && Open(deps, r.value)
              && Fits(deps.View(), r.value, 0, {}, deps.config)
              && deps.store.runs[r.value].state.startedAt <= deps.store.clock
              && deps.store.runs[r.value].state.processed == []
              && |deps.store.runs[r.value].events| == 1 && deps.store.runs[r.value].events[0].kind == RunStarted
    ensures r.Err? ==> r.error == StoreFailure && deps.store.faults.writesFail
  {
    var id :- deps.store.CreateRun();
    ghost var w1 := deps.View();
    assert Fits(w1, id, 0, {}, deps.config) by {
      assert ProgressKept([], deps.config.budget);
    }
    var _ :- LogRun(deps, id, RunStarted);
    AroundFits(w1, deps.View(), id, 0, {}, deps.config);
    r := Ok(id);
  }

  /** A fresh run from its opening to its end, with the structured stop of the catch. */
  method RunFresh(deps: LoopDeps) returns (r: Outcome<()>, ghost id: Option<RunId>, ghost passes: seq<Pass>)
    requires deps.Valid() && !deps.store.faults.readsFail && deps.config.maxTicketsPerRun >= 1
    modifies deps, deps.store
    ensures deps.Valid() && old(deps.trace) <= deps.trace && old(deps.store.disks) <= deps.store.disks
    ensures forall k :: k in old(deps.store.runs) ==>
            k in deps.store.runs && deps.store.runs[k] == old(deps.store.runs)[k]
    ensures id.Some? ==> id.value !in old(deps.store.runs) && RanFresh(deps, id.value, r, passes)
    ensures id.None? ==> r.Err?
    ensures r.Err? ==> !r.error.IsLoopStateError() && !FaultFree(deps)
    ensures r.Ok? && Last(deps.store.runs[id.value].events).kind != RunStopped(FlagRecordFailed) ==>
              Did(old(deps.View()), deps.View(), passes, TermsOf(deps))
    ensures |passes| <= IterationBound(deps.config)
  {
    hide LoopDeps.Valid, RunStore.Valid, Around, Bounded, Fits, EndedWell, AllProven, Open, CeilDiv, Max, RanThrough;
    BoundIsPositive(deps.config);
    passes := [];
    var made := OpenRun(deps);
    if made.Err? {
      return Err(made.error), None, passes;
    }
    ghost var w1 := deps.View();
    FitsIsBounded(w1, made.value, 0, {}, deps.config);
    id := Some(made.value);
    ghost var wanted;
    r, passes, wanted := TryRun(deps, made.value);
    ghost var w2 := deps.View();
    if r.Err? && r.error.FlagRecord? {
      r := StopOnFlagError(deps, made.value, r.error);
      StillBounded(w2, deps.View(), made.value, deps.config);
    }
  }

  lemma StillBounded(w0: World, w1: World, id: RunId, config: LoopConfig)
    requires Around(w0, w1, id) && Bounded(w0.runs[id].events, config)
    ensures Bounded(w1.runs[id].events, config) && RunFrame(w0, w1, id)
  {
    StartlessKeeps(w0.runs[id].events, w1.runs[id].events, CountStarts(w0.runs[id].events), config.budget);
  }

  /** Re-enter the crashed ticket, then Done: only legal moves, whatever writes fail. */
  method ResumeRun(deps: LoopDeps, p: ResumePoint)
    returns (r: Outcome<()>, ghost reopened: Option<Ticket>, ghost life: Life)
    requires deps.Valid() && !deps.store.faults.readsFail && Faithful(deps.store.runs, p)
    modifies deps, deps.store
    ensures Interrupted(deps, p.runId) && RunFrame(old(deps.View()), deps.View(), p.runId)
    ensures r.Ok? ==> RanResumed(deps, p, |old(deps.store.runs[p.runId].events)|)
                      && Dequeued(old(deps.store.runs[p.runId].state), deps.store.runs[p.runId].state, p.ticketId)
    ensures r.Err? ==> !r.error.IsLoopStateError()
    ensures reopened.Some? ==> reopened.value.id == p.ticketId && (r.Err? ==> !FaultFree(deps))
    ensures reopened.None? ==> r.Err? && deps.trace == old(deps.trace)
    ensures reopened.Some? && !deps.Disturbed(old(deps.View())) ==>
              Relived(old(deps.View()), deps.View(), reopened.value, p.phase, life, TermsOf(deps))
  {
    hide LoopDeps.Valid, RunStore.Valid, Around, RunFrame, Later, Proven, EndedWell;
    ghost var w0 := deps.View();
    FrameReflexive(w0, p.runId);
    // The ticket may be gone, and the worktree may fail to reopen.
    var ticket: Ticket := *;
    var opens: bool := *;
    ghost var anything: Life := *;
    life := anything;
    reopened := None;
    if ticket.id != p.ticketId || !opens {
      return Err(Thrown), reopened, life;
    }
    reopened := Some(ticket);
    NothingClaimedYet(w0, p.runId, p.ticketId);
    ghost var since := |w0.runs[p.runId].events|;
    var ran;
    ran, life := RunTicket(deps, p.runId, ticket, Some(Resume(p.phase, p.cwd)), since);
    ghost var w1 := deps.View();
    LaterIsFrame(w0, w1, p.runId, p.ticketId);
    if ran.Err? {
      return Err(ran.error), reopened, life;
    }
    StillRunning(w0, w1, p.runId, p.ticketId);
    r := CompleteResumed(deps, p.runId, p.ticketId);
    ghost var w2 := deps.View();
    AroundIsFrame(w1, w2, p.runId);
    FrameTransitive(w0, w1, w2, p.runId);
    AroundProves(w1, w2, p.runId, p.ticketId, since);
    AroundDoesNothing(w1, w2, p.runId);
    if !deps.Disturbed(w0) {
      WentFurther(w0, w1, p.runId, p.ticketId);
    }
  }

  /** What was done is the account of a ticket taken up again in this phase. */
  ghost predicate Relived(w0: World, w1: World, ticket: Ticket, phase: LoopState, l: Life, terms: Terms) {
    var c := Setting(ticket, Some(phase), terms.env, terms.config);
    && Lived(c, l)
    && w1.trace == w0.trace + [Begin(ticket.id, ticket.relPath, Captures(c), Some(phase))] + LifeDeeds(c, l)
  }

  lemma WentFurther(w0: World, w1: World, id: RunId, t: TicketId)
    requires Later(w0, w1, id, t)
    ensures w1.trace == w0.trace + Deeds(w0, w1)
  {
  }

  lemma AroundProves(w0: World, w1: World, id: RunId, t: TicketId, since: nat)
    requires Around(w0, w1, id) && Proven(w0, id, t, since)
    ensures Proven(w1, id, t, since)
  {
    AnchorlessClaims(w0, w1, id, t, since);
  }

  lemma NothingClaimedYet(w: World, id: RunId, t: TicketId)
    requires id in w.runs
    ensures Proven(w, id, t, |w.runs[id].events|)
  {
    assert w.runs[id].events[|w.runs[id].events|..] == [];
  }

  lemma StillRunning(w0: World, w1: World, id: RunId, t: TicketId)
    requires Later(w0, w1, id, t)
    ensures w1.runs[id].state.status == w0.runs[id].state.status
    ensures SameQueue(w0.runs[id].state, w1.runs[id].state)
  {
  }

  /** The tail of a resumed run: the queues, Done, run.completed. */
  method CompleteResumed(deps: LoopDeps, id: RunId, t: TicketId) returns (r: Outcome<()>)
    requires Open(deps, id)
    modifies deps.store
    ensures Interrupted(deps, id) && Around(old(deps.View()), deps.View(), id)
    ensures r.Ok? ==> EndedWell(deps.store.runs[id]) && Last(deps.store.runs[id].events).kind == RunCompleted
                      && deps.store.runs[id].state.status == Completed
    ensures r.Ok? ==> Dequeued(old(deps.store.runs[id].state), deps.store.runs[id].state, t)
    ensures r.Err? ==> r.error == StoreFailure && deps.store.faults.writesFail
  {
    ghost var w0 := deps.View();
    WithoutMeans(deps.store.runs[id].state.remaining, t);
    r := RecordProcessed(deps, id, t, IdsWithout(deps.store.runs[id].state.remaining, t));
    if r.Err? {
      return;
    }
    ghost var w1 := deps.View();
    r := Finish(deps, id);
    AroundTransitive(w0, w1, deps.View(), id);
  }

  function IdsWithout(ids: seq<TicketId>, t: TicketId): seq<TicketId> {
    if ids == [] then []
    else (if ids[0] != t then [ids[0]] else []) + IdsWithout(ids[1..], t)
  }

  lemma {:induction false} WithoutMeans(ids: seq<TicketId>, t: TicketId)
    ensures forall x :: x in IdsWithout(ids, t) <==> x in ids && x != t
  {
    if ids != [] {
      WithoutMeans(ids[1..], t);
      assert ids == [ids[0]] + ids[1..];
    }
  }

  /** The catch of a resume: mark the interrupted run stopped, best effort. */
  method MarkSkipped(deps: LoopDeps, p: ResumePoint)
    requires Interrupted(deps, p.runId)
    modifies deps.store
    ensures Interrupted(deps, p.runId) && Around(old(deps.View()), deps.View(), p.runId)
    ensures !deps.store.faults.writesFail ==>
              var run := deps.store.runs[p.runId];
              run.state.status == Stopped && run.events != [] && Last(run.events).kind == RunStopped(ResumeSkipped)
  {
    ghost var w0 := deps.View();
    assert RunOk(deps.store.runs[p.runId]) by {
      assert Last(deps.store.disks) in deps.store.disks;
    }
    var wrote := WriteSnapshot(deps, p.runId, deps.store.runs[p.runId].state.(status := Stopped));
    ghost var w1 := deps.View();
    if wrote.Ok? {
      var logged := LogRun(deps, p.runId, RunStopped(ResumeSkipped));
      AroundTransitive(w0, w1, deps.View(), p.runId);
    }
  }

  lemma StoreIsOk(store: RunStore)
    requires store.Valid()
    ensures DiskOk(store.runs)
  {
    assert Last(store.disks) in store.disks;
  }

  /** The one attempt to take a crashed run up again: completed, or marked stopped and left. */
  method Reenter(deps: LoopDeps, p: ResumePoint) returns (r: Outcome<()>, ghost reopened: bool)
    requires deps.Valid() && !deps.store.faults.readsFail && Faithful(deps.store.runs, p)
    modifies deps, deps.store
    ensures Interrupted(deps, p.runId) && RunFrame(old(deps.View()), deps.View(), p.runId)
    ensures r.Ok? ==> RanResumed(deps, p, |old(deps.store.runs[p.runId].events)|)
                      && Dequeued(old(deps.store.runs[p.runId].state), deps.store.runs[p.runId].state, p.ticketId)
    ensures r.Err? ==> !r.error.IsLoopStateError()
    ensures r.Err? && !deps.store.faults.writesFail ==> deps.store.runs[p.runId].state.status == Stopped
    ensures reopened && FaultFree(deps) ==> r.Ok?
  {
    hide LoopDeps.Valid, RunStore.Valid, Around, RunFrame, Faithful, RanResumed, Dequeued;
    ghost var w0 := deps.View();
    ghost var ticket, life;
    r, ticket, life := ResumeRun(deps, p);
    reopened := ticket.Some?;
    if r.Err? {
      ghost var w1 := deps.View();
      MarkSkipped(deps, p);
      AroundIsFrame(w1, deps.View(), p.runId);
      FrameTransitive(w0, w1, deps.View(), p.runId);
    }
  }

  /** The latest running run was tried if it has a point, and nothing was if none is running or it has none. */
  ghost predicate Tried(d: Disk, tried: Option<ResumePoint>) {
    match tried
    case Some(p) => LatestRunning(d, p.runId) && PointOf(p.runId, d[p.runId]) == tried
    case None =>
      || (forall k :: k in d ==> d[k].state.status != Running)
      || (exists id :: LatestRunning(d, id) && PointOf(id, d[id]).None?)
  }

  /** What became of a call: a resumed run completed, or a fresh run ran. */
  datatype Report = Resumed(point: ResumePoint) | Fresh

  /**
   * runLoop. Every snapshot it persists is coherent and every move legal (the store's own
   * invariant); it ends no run with a guard denial or an illegal move; a run that
   * returns, fresh or resumed, has logged exactly one end, agreeing with its status, and a fresh
   * one kept every bound.
   */
  method RunLoop(deps: LoopDeps)
    returns (r: Outcome<Report>, ghost id: Option<RunId>, ghost passes: seq<Pass>, ghost tried: Option<ResumePoint>,
             ghost reopened: bool, ghost ready: bool)
    requires deps.Valid() && !deps.store.faults.readsFail
    modifies deps, deps.store
    ensures deps.Valid() && old(deps.store.disks) <= deps.store.disks && old(deps.trace) <= deps.trace
    ensures deps.config.maxTicketsPerRun < 1 ==> r.Err? && deps.store.runs == old(deps.store.runs)
    ensures r.Err? ==> !r.error.IsLoopStateError()
    ensures r.Ok? && r.value.Fresh? ==> id.Some? && RanFresh(deps, id.value, Ok(()), passes)
    ensures id.Some? ==>
              && id.value !in old(deps.store.runs)
              && RanFresh(deps, id.value, if r.Ok? then Ok(()) else Err(r.error), passes)
    ensures r.Ok? && r.value.Resumed? ==>
              var p := r.value.point;
              && id.None? && p.runId in old(deps.store.runs)
              && RanResumed(deps, p, |old(deps.store.runs)[p.runId].events|)
              && Dequeued(old(deps.store.runs)[p.runId].state, deps.store.runs[p.runId].state, p.ticketId)
    ensures |passes| <= Max(0, IterationBound(deps.config))
    ensures deps.config.maxTicketsPerRun >= 1 ==> Tried(old(deps.store.runs), tried)
    ensures tried.Some? ==>
              && tried.value.runId in deps.store.runs
              && (r.Ok? && r.value.Resumed? ==> r.value.point == tried.value)
              && (!(r.Ok? && r.value.Resumed?) && !deps.store.faults.writesFail ==>
                    deps.store.runs[tried.value.runId].state.status == Stopped)
              && (reopened && FaultFree(deps) ==> r.Ok? && r.value.Resumed?)
    ensures tried.None? && r.Ok? ==> r.value.Fresh?
    ensures r.Err? && deps.config.maxTicketsPerRun >= 1 && ready ==> !FaultFree(deps)
    ensures tried.None? && r.Ok? && Last(deps.store.runs[id.value].events).kind != RunStopped(FlagRecordFailed) ==>
              Did(old(deps.View()), deps.View(), passes, TermsOf(deps))
  {
    hide RanThrough, RanResumed, Dequeued, Faithful, PointOf, Did, RunStore.Valid, DiskOk, IterationBound;
    hide LatestRunning;
    id, passes, tried, reopened, ready := None, [], None, false, false;
    if deps.config.maxTicketsPerRun < 1 {
      r := Err(Thrown);
      return;
    }
    BoundIsPositive(deps.config);
    var found := ResolveResumePoint(deps.store);
    var point := if found.Ok? then found.value else None;
    tried := point;
    if point.Some? {
      StoreIsOk(deps.store);
      PointIsFaithful(deps.store.runs, point.value.runId);
      var again;
      again, reopened := Reenter(deps, point.value);
      if again.Ok? {
        r := Ok(Resumed(point.value));
        return;
      }
    }
    // assertLoopReadyPreflight: refuses before a run is opened.
    var isReady: bool := *;
    ready := isReady;
    if !isReady {
      r := Err(Thrown);
      return;
    }
    var outcome;
    outcome, id, passes := RunFresh(deps);
    r := if outcome.Ok? then Ok(Fresh) else Err(outcome.error);
  }

  /** Crash a loop after any durable write and start it again on what was on disk then. */
  method RestartAfterCrash(ghost crashed: RunStore, ghost crash: nat, disk: Disk, nextId: nat, clock: int,
                           faults: FaultModel, env: Environment, config: LoopConfig)
    returns (deps: LoopDeps, r: Outcome<Report>)
    requires crashed.Valid() && crash < |crashed.disks| && disk == crashed.disks[crash]
    requires (forall id :: id in disk ==> id < nextId) && !faults.readsFail
    ensures deps.Valid() && disk == deps.store.disks[0]
    ensures r.Err? ==> !r.error.IsLoopStateError()
    ensures r.Ok? && r.value.Fresh? ==> exists id, passes :: id !in disk && RanFresh(deps, id, Ok(()), passes)
    ensures r.Ok? && r.value.Resumed? ==>
              Tried(disk, Some(r.value.point)) && r.value.point.runId in disk
              && RanResumed(deps, r.value.point, |disk[r.value.point.runId].events|)
  {
    ghost var id;
    ghost var passes, tried, reopened, ready;
    var store := new RunStore(faults, disk, nextId, clock);
    deps := new LoopDeps(store, env, config);
    r, id, passes, tried, reopened, ready := RunLoop(deps);
  }

  /** What the outcome report of a run says about shipping is what happened, with all its evidence. */
  lemma ReportedOutcomesHappened(w: World, id: RunId, t: TicketId, config: LoopConfig)
    requires id in w.runs && AllProven(w, id) && MergesAreReady(w.trace, config)
    ensures var o := AccountOf(w.runs[id].events, t).Outcome(t);
            && (!o.cleanupPending ==> CleanupReturned(t) in w.trace)
            && (o.merged ==>
                  exists m, x :: 0 <= m < |w.trace| && w.trace[m] == MergePr(t)
                                 && EvidenceInOrder(w.trace[..m], t, x, config))
  {
    assert Proven(w, id, t, 0);
    assert w.runs[id].events[0..] == w.runs[id].events;
    if AccountOf(w.runs[id].events, t).Outcome(t).merged {
      var k :| 0 <= k < |w.trace| && w.trace[k] == MergeReturned(t);
      assert w.trace[k].MergeReturned?;
      MergeRestsOnEvidence(w.trace, k - 1, config);
    }
  }
}
