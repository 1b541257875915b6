/**
 * One ticket from selection to the merge gate (src/ticketStart.ts, src/ticketExecutionGate.ts,
 * src/ticketReviewClose.ts, src/mergeGateStep.ts, and runTicket in src/orchestrator.ts).
 */
module TicketLifecycles {
  import opened Prelude
  import opened LoopStates
  import opened RunStates
  import opened Budgets
  import opened Failures
  import opened MergeGates
  import opened Evidence
  import opened TicketOutcomes
  import opened RunStores
  import opened LoopDependencies
  import opened LoopKernels
  import opened TicketContexts
  import opened ExecutePlans
  import opened ReviewSteps
  import opened CiObservers
  import opened TicketScripts

  /** Where a crashed run is re-entered: its phase and its worktree. */
  datatype Resume = Resume(phase: LoopState, dir: string)

  /** How far the ticket got: nothing is left half-claimed, and the loop can select again. */
  ghost predicate Finished(ctx: TicketRunContext)
    reads ctx, ctx.deps, ctx.deps.store
  {
    && ctx.Active()
    && Proven(ctx.View(), ctx.runId, ctx.ticket.id, ctx.since)
    && (ctx.Reliable() ==> Settled(ctx.Snapshot()))
  }

  /** An error the loop may still route: with readable state it is never an illegal or denied move. */
  ghost predicate Routable(ctx: TicketRunContext, error: Error)
    reads ctx, ctx.deps, ctx.deps.store
  {
    ctx.Reliable() ==> !error.IsLoopStateError()
  }

  /** The setting of an account is this ticket's. */
  ghost predicate Of(ctx: TicketRunContext, c: Setting) {
    c.ticket == ctx.ticket && c.env == ctx.deps.env && c.config == ctx.deps.config
  }

  lemma OfMeans(ctx: TicketRunContext, c: Setting)
    requires Of(ctx, c)
    ensures c.ticket == ctx.ticket && c.env == ctx.deps.env && c.config == ctx.deps.config
  {
  }

  /** The phase a resumed ticket is taken up at. */
  function ResumedAt(resume: Option<Resume>): Option<LoopState> {
    if resume.Some? then Some(resume.value.phase) else None
  }

  /** A stretch of a ticket did and said this, and nothing in it threw. */
  ghost predicate Went(w0: World, w1: World, runId: RunId, deeds: Trace, words: seq<EventKind>) {
    Deeds(w0, w1) == deeds && Words(w0, w1, runId) == words && w1.throws == w0.throws
  }

  /** Stretches follow one another. */
  lemma WentOn(w0: World, w1: World, w2: World, runId: RunId, id: TicketId, deeds: Trace, words: seq<EventKind>,
      more: Trace, further: seq<EventKind>)
    requires Later(w0, w1, runId, id) && Later(w1, w2, runId, id)
    requires Went(w0, w1, runId, deeds, words) && Went(w1, w2, runId, more, further)
    ensures Later(w0, w2, runId, id) && Went(w0, w2, runId, deeds + more, words + further)
    ensures (deeds == [] ==> deeds + more == more) && (more == [] ==> deeds + more == deeds)
    ensures (words == [] ==> words + further == further) && (further == [] ==> words + further == words)
    ensures w0.throws <= w1.throws <= w2.throws
  {
    hide Later, Deeds, Words;
    LaterTransitive(w0, w1, w2, runId, id);
  }

  /** Quietly, only deeds are added. */
  lemma QuietWent(w0: World, w1: World, runId: RunId, id: TicketId)
    requires Quiet(w0, w1, runId, id) && w1.throws == w0.throws
    ensures Went(w0, w1, runId, Deeds(w0, w1), [])
  {
    QuietIsWordless(w0, w1, runId, id);
  }

  // ----- steps that keep what the log claims true -----

  /** An outside call that moves no phase and logs nothing. */
  method Do(ctx: TicketRunContext, e: Effect) returns (r: Outcome<()>)
    requires ctx.Active() && e.id == ctx.ticket.id
    requires !e.MergeReturned? && (e.MergePr? ==> MayMerge(ctx.deps.StageFor(e.id), ctx.deps.config))
    modifies ctx.deps, ctx.deps.store`clock
    ensures ctx.Active() && Quiet(old(ctx.View()), ctx.View(), ctx.runId, ctx.ticket.id)
    ensures ctx.Snapshot() == old(ctx.Snapshot()) && ctx.Events() == old(ctx.Events())
    ensures ctx.deps.trace == old(ctx.deps.trace) + [e]
    ensures ctx.deps.StageFor(e.id)
            == NextStage(old(ctx.deps.StageFor(e.id)), e, |old(ctx.deps.trace)|, ctx.deps.config)
    ensures r.Ok? ==> Went(old(ctx.View()), ctx.View(), ctx.runId, [e], [])
    ensures r.Err? ==> r.error == Thrown && ctx.deps.Disturbed(old(ctx.View()))
  {
    ghost var w0 := ctx.View();
    r := ctx.deps.Act(ctx.runId, e);
    QuietIsWordless(w0, ctx.View(), ctx.runId, ctx.ticket.id);
  }

  /** rec.event for anything but a merge decision. */
  method LogFact(ctx: TicketRunContext, kind: EventKind, atPhase: Option<LoopState>) returns (r: Outcome<()>)
    requires ctx.Active() && Proven(ctx.View(), ctx.runId, ctx.ticket.id, ctx.since)
    requires !kind.TicketStarted? && !kind.RunCompleted? && !kind.RunStopped? && !kind.MergeDecision?
    modifies ctx.deps.store
    ensures ctx.Active() && Later(old(ctx.View()), ctx.View(), ctx.runId, ctx.ticket.id)
    ensures Proven(ctx.View(), ctx.runId, ctx.ticket.id, ctx.since)
    ensures ctx.Snapshot() == old(ctx.Snapshot()) && ctx.deps.trace == old(ctx.deps.trace)
    ensures r.Ok? ==> Went(old(ctx.View()), ctx.View(), ctx.runId, [], if Telling(kind) then [kind] else [])
    ensures r.Err? ==> r.error == StoreFailure && ctx.deps.Disturbed(old(ctx.View()))
  {
    hide *;
    Known(ctx);
    ghost var w0 := ctx.View();
    r := ctx.Log(kind, atPhase);
    Known(ctx);
    FaultyIsDisturbed(ctx.deps, w0);
    ghost var e := RunEvent(ctx.deps.store.clock, kind, Some(ctx.ticket.id), atPhase);
    SaidProves(w0, ctx.View(), ctx.runId, e, ctx.ticket.id, ctx.since);
    if r.Ok? {
      SaidOnce(w0, ctx.View(), ctx.runId, e);
    }
  }

  lemma SaidProves(w0: World, w1: World, runId: RunId, e: RunEvent, id: TicketId, since: nat)
    requires Later(w0, w1, runId, id) && Proven(w0, runId, id, since) && w1.trace == w0.trace
    requires w1.runs[runId].events == w0.runs[runId].events + [e] || w1.runs[runId].events == w0.runs[runId].events
    requires e.ticketId == Some(id) && !e.kind.TicketStarted? && !e.kind.MergeDecision?
    requires !e.kind.RunCompleted? && !e.kind.RunStopped?
    ensures Proven(w1, runId, id, since)
  {
    var before := w0.runs[runId].events;
    SliceAppend(before, e, since);
    AccountOfAppend(before[since..], e, id);
    hide AccountOf;
  }

  /** The moves of the happy path, and the errors that are no loop-state errors. */
  lemma Rules()
    ensures !Error.StoreFailure.IsLoopStateError() && !Error.Thrown.IsLoopStateError()
    ensures InTicket(PlanTicket) && CanTransition(ExecutePlan, PlanTicket) && CanTransition(PlanTicket, SelectTicket)
    ensures InTicket(MergeGate) && CanTransition(Close, MergeGate) && CanTransition(MergeGate, SelectTicket)
    ensures CanTransition(Close, SelectTicket) && InTicket(Close) && CanTransition(Review, Close)
    ensures InTicket(Review) && CanTransition(ExecutePlan, Review)
    ensures InTicket(ExecutePlan) && CanTransition(StartTicket, ExecutePlan)
    ensures Telling(TicketClosed) && !Telling(Note(""))
  {
  }

  lemma Known(ctx: TicketRunContext)
    requires ctx.Active()
    ensures ctx.runId in ctx.View().runs && ctx.Events() == ctx.View().runs[ctx.runId].events
    ensures ctx.View().trace == ctx.deps.trace && ctx.View().throws == ctx.deps.throws
  {
  }

  lemma ProvenCovers(ctx: TicketRunContext)
    requires ctx.Active() && Proven(ctx.View(), ctx.runId, ctx.ticket.id, ctx.since)
    ensures ctx.runId in ctx.deps.store.runs && ctx.since <= |ctx.Events()|
  {
  }

  /** One event more is one word more, if it tells anything. */
  lemma SaidOnce(w0: World, w1: World, runId: RunId, e: RunEvent)
    requires runId in w0.runs && runId in w1.runs && w1.trace == w0.trace && w1.throws == w0.throws
    requires w1.runs[runId].events == w0.runs[runId].events + [e]
    ensures Went(w0, w1, runId, [], if Telling(e.kind) then [e.kind] else [])
  {
    OneWord(w0.runs[runId].events, e);
    hide Told;
  }

  lemma QuietIsLater(w0: World, w1: World, runId: RunId, id: TicketId)
    requires Quiet(w0, w1, runId, id)
    ensures Later(w0, w1, runId, id)
  {
  }

  lemma MoveOnlyKeepsProven(w0: World, w1: World, runId: RunId, id: TicketId, since: nat)
    requires MoveOnly(w0, w1, runId, id) && Proven(w0, runId, id, since)
    ensures Proven(w1, runId, id, since) && Later(w0, w1, runId, id)
  {
    AnchorlessClaims(w0, w1, runId, id, since);
  }

  /** A legal move along the happy path. */
  method Move(ctx: TicketRunContext, to: LoopState, patch: TicketPatch) returns (r: Outcome<()>)
    requires ctx.Active() && Proven(ctx.View(), ctx.runId, ctx.ticket.id, ctx.since)
    requires InTicket(to) && CanTransition(ctx.Snapshot().Phase(), to)
    requires if to == StartTicket then patch == SetTicket(Some(ctx.ticket.id)) else patch == Keep
    modifies ctx`phase, ctx.deps.store
    ensures ctx.Active() && Later(old(ctx.View()), ctx.View(), ctx.runId, ctx.ticket.id)
    ensures Proven(ctx.View(), ctx.runId, ctx.ticket.id, ctx.since) && ctx.deps.trace == old(ctx.deps.trace)
    ensures r.Ok? ==> ctx.Snapshot().Phase() == to
    ensures Went(old(ctx.View()), ctx.View(), ctx.runId, [], [])
    ensures r.Err? ==> r.error == StoreFailure && ctx.deps.Disturbed(old(ctx.View()))
  {
    ghost var w0 := ctx.View();
    ctx.SelectHoldsNoTicket();
    r := ctx.Enter(to, patch);
    MoveOnlyKeepsProven(w0, ctx.View(), ctx.runId, ctx.ticket.id, ctx.since);
    MovingIsWordless(w0, ctx.View(), ctx.runId, ctx.ticket.id);
  }

  /** Back to selection from a state that allows it. */
  method GoBack(ctx: TicketRunContext) returns (r: Outcome<()>)
    requires ctx.Active() && Proven(ctx.View(), ctx.runId, ctx.ticket.id, ctx.since)
    requires CanTransition(ctx.Snapshot().Phase(), SelectTicket)
    modifies ctx`phase, ctx.deps.store
    ensures ctx.Active() && Later(old(ctx.View()), ctx.View(), ctx.runId, ctx.ticket.id)
    ensures r.Ok? ==> Finished(ctx)
    ensures Went(old(ctx.View()), ctx.View(), ctx.runId, [], [])
    ensures r.Err? ==> r.error == StoreFailure && ctx.deps.Disturbed(old(ctx.View()))
  {
    ghost var w0 := ctx.View();
    r := ctx.BackToSelect();
    MoveOnlyKeepsProven(w0, ctx.View(), ctx.runId, ctx.ticket.id, ctx.since);
    MovingIsWordless(w0, ctx.View(), ctx.runId, ctx.ticket.id);
  }

  /** Flag the ticket and leave it to the human; the step is over. */
  method GiveUp(ctx: TicketRunContext) returns (r: Outcome<()>)
    requires ctx.Active() && ctx.since <= |ctx.Events()|
    modifies ctx`phase, ctx.deps.store
    ensures ctx.Active() && Later(old(ctx.View()), ctx.View(), ctx.runId, ctx.ticket.id)
    ensures ctx.deps.trace == old(ctx.deps.trace)
    ensures r.Ok? ==> Finished(ctx) && Went(old(ctx.View()), ctx.View(), ctx.runId, [], [TicketFlagged])
    ensures r.Err? ==> Routable(ctx, r.error) && ctx.deps.Disturbed(old(ctx.View()))
  {
    r := ctx.FailAndContinue();
  }

  // ----- starting -----

  /** The stage of a ticket that has just been taken up. */
  predicate JustBegun(s: Stage, ticket: Ticket, env: Environment, resume: Option<Resume>) {
    var golden := ticket.refactor && env.goldenCapture && resume.None?;
    && s.work.begin.Some?
    && s == Stage(Work(s.work.begin, ticket.relPath, golden, resume.Some? && resume.value.phase == Review, None, None),
                  NO_CHECKED, NO_SHIP)
  }

  /** The phase a ticket is in once its worktree is ready. */
  function PhaseAfterStart(resume: Option<Resume>): LoopState {
    if resume.Some? then resume.value.phase else StartTicket
  }

  /** Flag and stop: the shape every early return of the lifecycle has. */
  method Refuse<T>(ctx: TicketRunContext, stop: T) returns (r: Outcome<T>)
    requires ctx.Active() && Proven(ctx.View(), ctx.runId, ctx.ticket.id, ctx.since)
    modifies ctx`phase, ctx.deps.store
    ensures ctx.Active() && Later(old(ctx.View()), ctx.View(), ctx.runId, ctx.ticket.id)
    ensures ctx.deps.trace == old(ctx.deps.trace)
    ensures r.Ok? ==> r.value == stop && Finished(ctx)
    ensures r.Ok? ==> Went(old(ctx.View()), ctx.View(), ctx.runId, [], [TicketFlagged])
    ensures r.Err? ==> Routable(ctx, r.error) && ctx.deps.Disturbed(old(ctx.View()))
  {
    var _ :- GiveUp(ctx);
    r := Ok(stop);
  }

  /**
   * prepareTicketWorktree: None when the ticket was refused and routed back, otherwise the
   * worktree, with the phase persisted and nothing else established yet.
   */
  method PrepareTicketWorktree(ctx: TicketRunContext, resume: Option<Resume>, ghost c: Setting, ghost l0: Life)
    returns (r: Outcome<Option<string>>, ghost l: Life)
    requires Of(ctx, c) && c.resumed == ResumedAt(resume)
    requires ctx.Active() && Proven(ctx.View(), ctx.runId, ctx.ticket.id, ctx.since)
    requires ctx.Snapshot().Phase() == (if resume.Some? then resume.value.phase else SelectTicket)
    requires resume.Some? ==> resume.value.phase == ExecutePlan || resume.value.phase == Review
    modifies ctx, ctx.deps, ctx.deps.store
    ensures ctx.Active() && Later(old(ctx.View()), ctx.View(), ctx.runId, ctx.ticket.id)
    ensures r.Ok? && r.value.None? ==> Finished(ctx)
    ensures r.Ok? && r.value.Some? ==>
              && Proven(ctx.View(), ctx.runId, ctx.ticket.id, ctx.since)
              && ctx.Snapshot().Phase() == PhaseAfterStart(resume)
              && ctx.deps.StageFor(ctx.ticket.id) == old(ctx.deps.StageFor(ctx.ticket.id))
    ensures l == l0.(worktree := l.worktree, started := l.started)
    ensures r.Ok? && ctx.FaultFree() ==>
              && (r.value.Some? <==> Starts(c, l))
              && Went(old(ctx.View()), ctx.View(), ctx.runId, StartDeeds(c, l),
                      if Starts(c, l) then [] else [TicketFlagged])
    ensures r.Err? ==> Routable(ctx, r.error) && ctx.deps.Disturbed(old(ctx.View()))
  {
    assert ctx.runId in ctx.View().runs;
    hide Later, Quiet, LoopDeps.Valid, RunStore.Valid, Proven, Went, Finished, Told, Deeds, Words;
    hide TicketRunContext.Active, StageOf;
    l := l0;
    ghost var w0 := ctx.View();
    if resume.Some? {
      NothingWent(w0, ctx.runId, ctx.ticket.id);
      return Ok(Some(resume.value.dir)), l;
    }
    var entered := Move(ctx, StartTicket, SetTicket(Some(ctx.ticket.id)));
    ghost var w1 := ctx.View();
    if entered.Err? || !ctx.deps.env.hasTicketingCommands {
      r := Refuse(ctx, None);
      LaterTransitive(w0, w1, ctx.View(), ctx.runId, ctx.ticket.id);
      if r.Ok? {
        WentOn(w0, w1, ctx.View(), ctx.runId, ctx.ticket.id, [], [], [], [TicketFlagged]);
      }
      return;
    }
    r, l := StartWork(ctx, l0);
    LaterTransitive(w0, w1, ctx.View(), ctx.runId, ctx.ticket.id);
    if r.Ok? {
      WentOn(w0, w1, ctx.View(), ctx.runId, ctx.ticket.id, [], [], WorkDeeds(ctx.ticket.id, l),
             if r.value.Some? then [] else [TicketFlagged]);
    } else {
      DisturbedSince(ctx.deps, w0, w1);
    }
  }

  /** The effects of creating a worktree and starting the ticket in it. */
  function WorkDeeds(id: TicketId, l: Life): Trace {
    if !l.worktree then [OpenWorktree(id, false)] else [OpenWorktree(id, true), StartCommand(id, l.started)]
  }

  lemma NothingWent(w: World, runId: RunId, id: TicketId)
    requires runId in w.runs
    ensures Later(w, w, runId, id) && Went(w, w, runId, [], [])
  {
    QuietReflexive(w, runId, id);
    QuietIsWordless(w, w, runId, id);
  }

  lemma LaterReflexive(w: World, runId: RunId, id: TicketId)
    requires runId in w.runs
    ensures Later(w, w, runId, id)
  {
    QuietReflexive(w, runId, id);
  }

  /** Create the worktree and run /ticket-start in it, branching on its structured outcome. */
  method StartWork(ctx: TicketRunContext, ghost l0: Life) returns (r: Outcome<Option<string>>, ghost l: Life)
    requires ctx.Active() && Proven(ctx.View(), ctx.runId, ctx.ticket.id, ctx.since)
    requires ctx.Snapshot().Phase() == StartTicket
    modifies ctx, ctx.deps, ctx.deps.store
    ensures ctx.Active() && Later(old(ctx.View()), ctx.View(), ctx.runId, ctx.ticket.id)
    ensures r.Ok? && r.value.None? ==> Finished(ctx)
    ensures r.Ok? && r.value.Some? ==>
              && Proven(ctx.View(), ctx.runId, ctx.ticket.id, ctx.since)
              && ctx.Snapshot().Phase() == StartTicket
              && ctx.deps.StageFor(ctx.ticket.id) == old(ctx.deps.StageFor(ctx.ticket.id))
    ensures l == l0.(worktree := l.worktree, started := l.started)
    ensures r.Ok? ==>
              && (r.value.Some? <==> l.worktree && l.started)
              && Went(old(ctx.View()), ctx.View(), ctx.runId, WorkDeeds(ctx.ticket.id, l),
                      if r.value.Some? then [] else [TicketFlagged])
    ensures r.Err? ==> Routable(ctx, r.error) && ctx.deps.Disturbed(old(ctx.View()))
  {
    assert ctx.runId in ctx.View().runs;
    hide Later, Quiet, LoopDeps.Valid, RunStore.Valid, Proven, Went, Finished, Told, Deeds, Words;
    hide TicketRunContext.Active, StageOf;
    ghost var w0 := ctx.View();
    r, l := OpenAndStart(ctx, l0);
    ghost var w1 := ctx.View();
    if r.Err? || r.value.Some? {
      return;
    }
    r := Refuse(ctx, None);
    LaterTransitive(w0, w1, ctx.View(), ctx.runId, ctx.ticket.id);
    if r.Ok? {
      WentOn(w0, w1, ctx.View(), ctx.runId, ctx.ticket.id, WorkDeeds(ctx.ticket.id, l), [], [], [TicketFlagged]);
    } else {
      DisturbedSince(ctx.deps, w0, w1);
    }
  }

  /** The worktree with the ticket started in it, or None. */
  method OpenAndStart(ctx: TicketRunContext, ghost l0: Life) returns (r: Outcome<Option<string>>, ghost l: Life)
    requires ctx.Active() && Proven(ctx.View(), ctx.runId, ctx.ticket.id, ctx.since)
    modifies ctx.deps, ctx.deps.store
    ensures ctx.Active() && Later(old(ctx.View()), ctx.View(), ctx.runId, ctx.ticket.id)
    ensures Proven(ctx.View(), ctx.runId, ctx.ticket.id, ctx.since) && ctx.Snapshot() == old(ctx.Snapshot())
    ensures r.Ok? ==> ctx.deps.StageFor(ctx.ticket.id) == old(ctx.deps.StageFor(ctx.ticket.id))
    ensures l == l0.(worktree := l.worktree, started := l.started)
    ensures r.Ok? ==>
              && (r.value.Some? <==> l.worktree && l.started)
              && Went(old(ctx.View()), ctx.View(), ctx.runId, WorkDeeds(ctx.ticket.id, l), [])
    ensures r.Err? ==> !r.error.IsLoopStateError() && ctx.deps.Disturbed(old(ctx.View()))
  {
    assert ctx.runId in ctx.View().runs;
    hide Later, Quiet, LoopDeps.Valid, RunStore.Valid, Proven, Went, Told, Deeds, Words;
    hide TicketRunContext.Active, StageOf;
    ghost var w0, id := ctx.View(), ctx.ticket.id;
    var created := CreateWorktree(ctx);
    ghost var w1 := ctx.View();
    var dir: string := *;
    l := l0.(worktree := created, started := false);
    if !created {
      return Ok(None), l;
    }
    var start := RunStartCommand(ctx, dir);
    ghost var w2 := ctx.View();
    LaterTransitive(w0, w1, w2, ctx.runId, id);
    if start.Err? {
      DisturbedSince(ctx.deps, w0, w1);
      return Err(start.error), l;
    }
    l := l.(started := start.value == StartOk);
    WentOn(w0, w1, w2, ctx.runId, id, [OpenWorktree(id, true)], [], [StartCommand(id, l.started)], []);
    assert [OpenWorktree(id, true)] + [StartCommand(id, l.started)] == WorkDeeds(id, l);
    r := Ok(if start.value == StartOk then Some(dir) else None);
  }

  /** git worktree add; a failure is told apart and flagged, not thrown. */
  method CreateWorktree(ctx: TicketRunContext) returns (made: bool)
    requires ctx.Active() && Proven(ctx.View(), ctx.runId, ctx.ticket.id, ctx.since)
    modifies ctx.deps`trace
    ensures ctx.Active() && Later(old(ctx.View()), ctx.View(), ctx.runId, ctx.ticket.id)
    ensures Proven(ctx.View(), ctx.runId, ctx.ticket.id, ctx.since) && ctx.Snapshot() == old(ctx.Snapshot())
    ensures ctx.deps.StageFor(ctx.ticket.id) == old(ctx.deps.StageFor(ctx.ticket.id))
    ensures Went(old(ctx.View()), ctx.View(), ctx.runId, [OpenWorktree(ctx.ticket.id, made)], [])
  {
    ghost var w0 := ctx.View();
    made := *;
    ctx.deps.Emit(OpenWorktree(ctx.ticket.id, made));
    assert w0.runs == w0.runs[ctx.runId := w0.runs[ctx.runId]];
    QuietIsWordless(w0, ctx.View(), ctx.runId, ctx.ticket.id);
    QuietKeepsProven(w0, ctx.View(), ctx.runId, ctx.ticket.id, ctx.since);
  }

  method RunStartCommand(ctx: TicketRunContext, dir: string) returns (r: Outcome<StartOutput>)
    requires ctx.Active() && Proven(ctx.View(), ctx.runId, ctx.ticket.id, ctx.since)
    modifies ctx.deps, ctx.deps.store
    ensures ctx.Active() && Later(old(ctx.View()), ctx.View(), ctx.runId, ctx.ticket.id)
    ensures Proven(ctx.View(), ctx.runId, ctx.ticket.id, ctx.since) && ctx.Snapshot() == old(ctx.Snapshot())
    ensures r.Ok? ==> ctx.deps.StageFor(ctx.ticket.id) == old(ctx.deps.StageFor(ctx.ticket.id))
    ensures r.Ok? ==>
              Went(old(ctx.View()), ctx.View(), ctx.runId, [StartCommand(ctx.ticket.id, r.value == StartOk)], [])
    ensures r.Err? ==> !r.error.IsLoopStateError() && ctx.deps.Disturbed(old(ctx.View()))
  {
    ghost var w0 := ctx.View();
    r := ctx.deps.RunSlashCommand(ctx.runId, ctx.ticket.id, dir);
    QuietKeepsProven(w0, ctx.View(), ctx.runId, ctx.ticket.id, ctx.since);
    QuietIsWordless(w0, ctx.View(), ctx.runId, ctx.ticket.id);
  }

  // ----- building -----

  /** runPlanTicket: a plan is proposed or skipped, and the ticket flagged either way. */
  method RunPlanTicket(ctx: TicketRunContext) returns (r: Outcome<()>)
    requires ctx.Active() && Proven(ctx.View(), ctx.runId, ctx.ticket.id, ctx.since)
    modifies ctx.deps.store
    ensures ctx.Active() && Later(old(ctx.View()), ctx.View(), ctx.runId, ctx.ticket.id)
    ensures Proven(ctx.View(), ctx.runId, ctx.ticket.id, ctx.since)
    ensures ctx.Snapshot() == old(ctx.Snapshot()) && ctx.deps.trace == old(ctx.deps.trace)
    ensures r.Ok? ==> Went(old(ctx.View()), ctx.View(), ctx.runId, [], [TicketFlagged])
    ensures r.Err? ==> r.error == StoreFailure && ctx.deps.Disturbed(old(ctx.View()))
  {
    assert ctx.runId in ctx.View().runs;
    hide Later, Quiet, LoopDeps.Valid, RunStore.Valid, Proven, Went, Finished, Told, Deeds, Words;
    hide TicketRunContext.Active, StageOf;
    ghost var w0 := ctx.View();
    NothingWent(w0, ctx.runId, ctx.ticket.id);
    var proposed: bool := *;
    if proposed {
      var logged := LogNote(ctx, "plan.proposed");
      // A failed write degrades to a skip; it never leaves the ticket unflagged.
      proposed := logged.Ok?;
    }
    ghost var w1 := ctx.View();
    if !proposed {
      var skipped := LogNote(ctx, "plan.authoring.skipped");
      WentOn(w0, w1, ctx.View(), ctx.runId, ctx.ticket.id, [], [], [], []);
      if skipped.Err? {
        return skipped;
      }
    }
    ghost var w2 := ctx.View();
    r := LogFact(ctx, TicketFlagged, Some(PlanTicket));
    LaterTransitive(w0, w2, ctx.View(), ctx.runId, ctx.ticket.id);
    if r.Ok? {
      WentOn(w0, w2, ctx.View(), ctx.runId, ctx.ticket.id, [], [], [], [TicketFlagged]);
    }
  }

  /** An event that tells nothing: logged or not, nothing is told. */
  method LogNote(ctx: TicketRunContext, name: string) returns (r: Outcome<()>)
    requires ctx.Active() && Proven(ctx.View(), ctx.runId, ctx.ticket.id, ctx.since)
    modifies ctx.deps.store
    ensures ctx.Active() && Later(old(ctx.View()), ctx.View(), ctx.runId, ctx.ticket.id)
    ensures Proven(ctx.View(), ctx.runId, ctx.ticket.id, ctx.since)
    ensures ctx.Snapshot() == old(ctx.Snapshot()) && ctx.deps.trace == old(ctx.deps.trace)
    ensures Went(old(ctx.View()), ctx.View(), ctx.runId, [], [])
    ensures r.Err? ==> r.error == StoreFailure && ctx.deps.Disturbed(old(ctx.View()))
  {
    ghost var w0 := ctx.View();
    r := LogQuiet(ctx, Note(name));
    QuietKeepsProven(w0, ctx.View(), ctx.runId, ctx.ticket.id, ctx.since);
    QuietIsWordless(w0, ctx.View(), ctx.runId, ctx.ticket.id);
  }

  /** The plan was judged unworkable: propose a repair, flag, and go on with the run. */
  method RepairPlan(ctx: TicketRunContext) returns (r: Outcome<bool>)
    requires ctx.Active() && Proven(ctx.View(), ctx.runId, ctx.ticket.id, ctx.since)
    requires ctx.Snapshot().Phase() == ExecutePlan
    modifies ctx`phase, ctx.deps.store
    ensures ctx.Active() && Later(old(ctx.View()), ctx.View(), ctx.runId, ctx.ticket.id)
    ensures r.Ok? ==> !r.value && Finished(ctx)
    ensures r.Ok? ==> Went(old(ctx.View()), ctx.View(), ctx.runId, [], [TicketFlagged])
    ensures r.Err? ==> !r.error.IsLoopStateError() && ctx.deps.Disturbed(old(ctx.View()))
  {
    hide *;
    Known(ctx);
    Rules();
    ghost var w0 := ctx.View();
    var moved := Move(ctx, PlanTicket, Keep);
    if moved.Err? {
      return Err(moved.error);
    }
    ghost var w1 := ctx.View();
    var planned := RunPlanTicket(ctx);
    ghost var w2 := ctx.View();
    LaterTransitive(w0, w1, w2, ctx.runId, ctx.ticket.id);
    if planned.Err? {
      DisturbedSince(ctx.deps, w0, w1);
      return Err(planned.error);
    }
    WentOn(w0, w1, w2, ctx.runId, ctx.ticket.id, [], [], [], [TicketFlagged]);
    var back := GoBack(ctx);
    if back.Ok? {
      WentOn(w0, w2, ctx.View(), ctx.runId, ctx.ticket.id, [], [TicketFlagged], [], []);
      r := Ok(false);
    } else {
      LaterTransitive(w0, w2, ctx.View(), ctx.runId, ctx.ticket.id);
      DisturbedSince(ctx.deps, w0, w2);
      r := Err(back.error);
    }
  }

  /** executePlan and its result event. */
  method RunPlan(ctx: TicketRunContext, cwd: string) returns (r: Outcome<ExecuteOutcome>, ghost seen: seq<Attempt>)
    requires ctx.Active() && Proven(ctx.View(), ctx.runId, ctx.ticket.id, ctx.since)
    modifies ctx.deps, ctx.deps.store
    ensures ctx.Active() && Later(old(ctx.View()), ctx.View(), ctx.runId, ctx.ticket.id)
    ensures Proven(ctx.View(), ctx.runId, ctx.ticket.id, ctx.since) && ctx.Snapshot() == old(ctx.Snapshot())
    ensures r.Ok? && r.value.Verified? ==>
              && Reworked(old(ctx.deps.StageFor(ctx.ticket.id)), ctx.deps.StageFor(ctx.ticket.id))
              && ctx.deps.StageFor(ctx.ticket.id).ship == NO_SHIP
              && ctx.deps.StageFor(ctx.ticket.id).work.verified.Some?
    ensures r.Ok? ==>
              var k := KnobsOf(ctx.deps.config, ctx.deps.env);
              && Returns(seen, r.value, k)
              && Went(old(ctx.View()), ctx.View(), ctx.runId, PlanTrace(ctx.ticket.id, seen, k),
                      [VerificationResult(r.value.Verified?)])
    ensures r.Err? ==> !r.error.IsLoopStateError() && ctx.deps.Disturbed(old(ctx.View()))
  {
    assert ctx.runId in ctx.View().runs;
    hide Later, Quiet, LoopDeps.Valid, RunStore.Valid, Proven, Went, Finished, Told, Deeds, Words;
    hide TicketRunContext.Active, StageOf, Returns, PlanTrace, Reworked;
    ghost var w0 := ctx.View();
    r, seen := ExecutePlans.ExecutePlan(ctx, cwd);
    ghost var w1 := ctx.View();
    QuietKeepsProven(w0, w1, ctx.runId, ctx.ticket.id, ctx.since);
    QuietIsLater(w0, w1, ctx.runId, ctx.ticket.id);
    if r.Ok? {
      QuietWent(w0, w1, ctx.runId, ctx.ticket.id);
      var logged := LogFact(ctx, VerificationResult(r.value.Verified?), None);
      LaterTransitive(w0, w1, ctx.View(), ctx.runId, ctx.ticket.id);
      if logged.Err? {
        return Err(logged.error), seen;
      }
      WentOn(w0, w1, ctx.View(), ctx.runId, ctx.ticket.id, Deeds(w0, w1), [], [],
             [VerificationResult(r.value.Verified?)]);
    }
  }

  /** Build until verified; anything else is routed back before this returns false. */
  method BuildVerified(ctx: TicketRunContext, cwd: string, firstTime: bool)
    returns (r: Outcome<bool>, ghost seen: seq<Attempt>)
    requires ctx.Active() && Proven(ctx.View(), ctx.runId, ctx.ticket.id, ctx.since)
    requires ctx.Snapshot().Phase() == (if firstTime then StartTicket else ExecutePlan)
    modifies ctx, ctx.deps, ctx.deps.store
    ensures ctx.Active() && Later(old(ctx.View()), ctx.View(), ctx.runId, ctx.ticket.id)
    ensures r.Ok? && !r.value ==> Finished(ctx)
    ensures r.Ok? && r.value ==>
              && Proven(ctx.View(), ctx.runId, ctx.ticket.id, ctx.since) && ctx.Snapshot().Phase() == ExecutePlan
              && Reworked(old(ctx.deps.StageFor(ctx.ticket.id)), ctx.deps.StageFor(ctx.ticket.id))
              && ctx.deps.StageFor(ctx.ticket.id).ship == NO_SHIP
              && ctx.deps.StageFor(ctx.ticket.id).work.verified.Some?
    ensures r.Ok? ==>
              var k := KnobsOf(ctx.deps.config, ctx.deps.env);
              && (exists outcome :: Returns(seen, outcome, k)) && (r.value <==> seen != [] && Last(seen).passed)
              && Went(old(ctx.View()), ctx.View(), ctx.runId, PlanTrace(ctx.ticket.id, seen, k),
                      if r.value then [VerificationResult(true)] else [VerificationResult(false), TicketFlagged])
    ensures r.Err? ==> Routable(ctx, r.error) && ctx.deps.Disturbed(old(ctx.View()))
  {
    hide *;
    Known(ctx);
    ghost var w0, id := ctx.View(), ctx.ticket.id;
    var exec;
    exec, seen := EnterPlan(ctx, cwd, firstTime);
    ghost var w1 := ctx.View();
    if exec.Err? {
      Blameless(ctx, exec);
      return Err(exec.error), seen;
    }
    ghost var k := KnobsOf(ctx.deps.config, ctx.deps.env);
    ghost var plan := PlanTrace(id, seen, k);
    VerifiedIffPassed(seen, exec.value, k);
    if exec.value.Verified? {
      return Ok(true), seen;
    }
    if exec.value.Escalated? && exec.value.reason == PlanUnworkable {
      r := RepairPlan(ctx);
      Blameless(ctx, r);
    } else {
      r := Refuse(ctx, false);
    }
    LaterTransitive(w0, w1, ctx.View(), ctx.runId, id);
    if r.Ok? {
      WentOn(w0, w1, ctx.View(), ctx.runId, id, plan, [VerificationResult(false)], [], [TicketFlagged]);
      assert [VerificationResult(false)] + [TicketFlagged] == [VerificationResult(false), TicketFlagged];
    } else {
      DisturbedSince(ctx.deps, w0, w1);
    }
  }

  /** Into the plan, unless the ticket was resumed in it, and the plan. */
  method EnterPlan(ctx: TicketRunContext, cwd: string, firstTime: bool)
    returns (r: Outcome<ExecuteOutcome>, ghost seen: seq<Attempt>)
    requires ctx.Active() && Proven(ctx.View(), ctx.runId, ctx.ticket.id, ctx.since)
    requires ctx.Snapshot().Phase() == (if firstTime then StartTicket else ExecutePlan)
    modifies ctx, ctx.deps, ctx.deps.store
    ensures ctx.Active() && Later(old(ctx.View()), ctx.View(), ctx.runId, ctx.ticket.id)
    ensures Proven(ctx.View(), ctx.runId, ctx.ticket.id, ctx.since)
    ensures r.Ok? ==> ctx.Snapshot().Phase() == ExecutePlan
    ensures r.Ok? && r.value.Verified? ==>
              && Reworked(old(ctx.deps.StageFor(ctx.ticket.id)), ctx.deps.StageFor(ctx.ticket.id))
              && ctx.deps.StageFor(ctx.ticket.id).ship == NO_SHIP
              && ctx.deps.StageFor(ctx.ticket.id).work.verified.Some?
    ensures r.Ok? ==>
              var k := KnobsOf(ctx.deps.config, ctx.deps.env);
              && Returns(seen, r.value, k)
              && Went(old(ctx.View()), ctx.View(), ctx.runId, PlanTrace(ctx.ticket.id, seen, k),
                      [VerificationResult(r.value.Verified?)])
    ensures r.Err? ==> !r.error.IsLoopStateError() && ctx.deps.Disturbed(old(ctx.View()))
  {
    assert ctx.runId in ctx.View().runs;
    Rules();
    hide Later, Quiet, LoopDeps.Valid, RunStore.Valid, Proven, Reworked, Went, Returns, PlanTrace;
    hide TicketRunContext.Active, StageOf, Finished, Deeds, Words;
    ghost var w0, id := ctx.View(), ctx.ticket.id;
    seen := [];
    NothingWent(w0, ctx.runId, id);
    if firstTime {
      var entered := Move(ctx, ExecutePlan, Keep);
      if entered.Err? {
        return Err(entered.error), seen;
      }
    }
    ghost var w1 := ctx.View();
    r, seen := RunPlan(ctx, cwd);
    LaterTransitive(w0, w1, ctx.View(), ctx.runId, id);
    if r.Err? {
      DisturbedSince(ctx.deps, w0, w1);
    } else {
      WentOn(w0, w1, ctx.View(), ctx.runId, id, [], [], PlanTrace(id, seen, KnobsOf(ctx.deps.config, ctx.deps.env)),
             [VerificationResult(r.value.Verified?)]);
    }
  }

  /** Verified is what the last attempt was. */
  lemma VerifiedIffPassed(seen: seq<Attempt>, outcome: ExecuteOutcome, k: Knobs)
    requires Returns(seen, outcome, k)
    ensures outcome.Verified? <==> seen != [] && Last(seen).passed
  {
    if k.max >= 1 {
      ExecuteOutcomeMeans(seen, outcome, k);
    }
  }

  /** The no-implementation guard: a diff of nothing but the ticket file is flagged, never shipped. */
  method RequireSubstance(ctx: TicketRunContext) returns (r: Outcome<bool>, ghost diff: DiffSummary)
    requires ctx.Active() && Proven(ctx.View(), ctx.runId, ctx.ticket.id, ctx.since)
    requires ctx.deps.StageFor(ctx.ticket.id).work.verified.Some? && ctx.deps.StageFor(ctx.ticket.id).ship == NO_SHIP
    requires ctx.deps.StageFor(ctx.ticket.id).work.ticketRel == ctx.ticket.relPath
    modifies ctx, ctx.deps, ctx.deps.store
    ensures ctx.Active() && Later(old(ctx.View()), ctx.View(), ctx.runId, ctx.ticket.id)
    ensures r.Ok? && !r.value ==> Finished(ctx)
    ensures var s0, s := old(ctx.deps.StageFor(ctx.ticket.id)), ctx.deps.StageFor(ctx.ticket.id);
            r.Ok? && r.value ==>
              && Proven(ctx.View(), ctx.runId, ctx.ticket.id, ctx.since)
              && ctx.Snapshot() == old(ctx.Snapshot())
              && s.work == s0.work && s.ship == NO_SHIP
              && s.checked.substantive.Some? && s.work.verified.value < s.checked.substantive.value
              && s.work.built.Some? && s.work.built.value < s.checked.substantive.value
              && s.checked.baseline == s0.checked.baseline
    ensures var substantive := SubstantiveChangedFiles(diff.changedFiles, ctx.ticket.relPath);
            r.Ok? ==>
              && (r.value <==> substantive != [])
              && Went(old(ctx.View()), ctx.View(), ctx.runId, [Summarize(ctx.ticket.id, diff)],
                      [TicketBuilt(r.value, |substantive|)] + if r.value then [] else [TicketFlagged])
    ensures r.Err? ==> Routable(ctx, r.error) && ctx.deps.Disturbed(old(ctx.View()))
  {
    hide *;
    Known(ctx);
    Rules();
    ghost var w0, id := ctx.View(), ctx.ticket.id;
    ghost var s0, pos := ctx.deps.StageFor(ctx.ticket.id), |ctx.deps.trace|;
    BuiltSinceVerified(ctx.deps.trace, ctx.ticket.id, ctx.deps.config);
    SameStage(ctx.deps, id);
    var found: DiffSummary := *;
    diff := found;
    SubstanceStage(s0, id, diff, pos, ctx.deps.config);
    var summarized := Summarized(ctx, found);
    if summarized.Err? {
      Blameless(ctx, summarized);
      return Err(summarized.error), diff;
    }
    ghost var w1 := ctx.View();
    var substantive := SubstantiveChangedFiles(found.changedFiles, ctx.ticket.relPath);
    ghost var word := TicketBuilt(substantive != [], |substantive|);
    TellsBuild(substantive != [], |substantive|);
    var built := LogFact(ctx, TicketBuilt(substantive != [], |substantive|), None);
    ghost var w2 := ctx.View();
    LaterTransitive(w0, w1, w2, ctx.runId, id);
    if built.Err? {
      DisturbedSince(ctx.deps, w0, w1);
      Blameless(ctx, built);
      return Err(built.error), diff;
    }
    SameStage(ctx.deps, id);
    WentOn(w0, w1, w2, ctx.runId, id, [Summarize(id, diff)], [], [], [word]);
    assert [word] + [] == [word];
    if substantive != [] {
      return Ok(true), diff;
    }
    r := Refuse(ctx, false);
    LaterTransitive(w0, w2, ctx.View(), ctx.runId, id);
    if r.Ok? {
      WentOn(w0, w2, ctx.View(), ctx.runId, id, [Summarize(id, diff)], [word], [], [TicketFlagged]);
    } else {
      DisturbedSince(ctx.deps, w0, w2);
    }
  }

  /** A diff summarized on a verified build counts where it goes beyond the ticket file. */
  lemma SubstanceStage(s: Stage, id: TicketId, diff: DiffSummary, pos: nat, config: LoopConfig)
    requires s.work.verified.Some? && s.ship == NO_SHIP
    ensures var s' := NextStage(s, Summarize(id, diff), pos, config);
            && s'.work == s.work && s'.ship == NO_SHIP && s'.checked.baseline == s.checked.baseline
            && (SubstantiveChangedFiles(diff.changedFiles, s.work.ticketRel) != [] ==>
                  s'.checked.substantive == Some(pos))
  {
    hide SubstantiveChangedFiles, LowRisk;
  }

  lemma TellsBuild(found: bool, n: nat)
    ensures Telling(TicketBuilt(found, n))
  {
  }

  method Summarized(ctx: TicketRunContext, diff: DiffSummary) returns (r: Outcome<()>)
    requires ctx.Active() && Proven(ctx.View(), ctx.runId, ctx.ticket.id, ctx.since)
    modifies ctx.deps, ctx.deps.store`clock
    ensures ctx.Active() && Later(old(ctx.View()), ctx.View(), ctx.runId, ctx.ticket.id)
    ensures Proven(ctx.View(), ctx.runId, ctx.ticket.id, ctx.since) && ctx.Snapshot() == old(ctx.Snapshot())
    ensures ctx.deps.StageFor(ctx.ticket.id)
            == NextStage(old(ctx.deps.StageFor(ctx.ticket.id)), Summarize(ctx.ticket.id, diff), |old(ctx.deps.trace)|,
              ctx.deps.config)
    ensures r.Ok? ==> Went(old(ctx.View()), ctx.View(), ctx.runId, [Summarize(ctx.ticket.id, diff)], [])
    ensures r.Err? ==> r.error == Thrown && ctx.deps.Disturbed(old(ctx.View()))
  {
    ghost var w0 := ctx.View();
    r := Do(ctx, Summarize(ctx.ticket.id, diff));
    QuietKeepsProven(w0, ctx.View(), ctx.runId, ctx.ticket.id, ctx.since);
  }

  /** One golden capture. */
  method CaptureGolden(ctx: TicketRunContext) returns (r: Outcome<string>)
    requires ctx.Active() && Proven(ctx.View(), ctx.runId, ctx.ticket.id, ctx.since)
    modifies ctx.deps, ctx.deps.store`clock
    ensures ctx.Active() && Later(old(ctx.View()), ctx.View(), ctx.runId, ctx.ticket.id)
    ensures Proven(ctx.View(), ctx.runId, ctx.ticket.id, ctx.since) && ctx.Snapshot() == old(ctx.Snapshot())
    ensures r.Ok? ==> ctx.deps.StageFor(ctx.ticket.id)
                      == NextStage(old(ctx.deps.StageFor(ctx.ticket.id)), Capture(ctx.ticket.id, r.value),
                        |old(ctx.deps.trace)|, ctx.deps.config)
    ensures r.Ok? ==> Went(old(ctx.View()), ctx.View(), ctx.runId, [Capture(ctx.ticket.id, r.value)], [])
    ensures r.Err? ==> r.error == Thrown && ctx.deps.Disturbed(old(ctx.View()))
  {
    ghost var w0 := ctx.View();
    var hash: string := *;
    var done := Do(ctx, Capture(ctx.ticket.id, hash));
    QuietKeepsProven(w0, ctx.View(), ctx.runId, ctx.ticket.id, ctx.since);
    r := if done.Ok? then Ok(hash) else Err(done.error);
  }

  /** The post-edit golden compare of a refactor ticket. */
  method CompareGolden(ctx: TicketRunContext, baseline: string) returns (r: Outcome<bool>, ghost after: string)
    requires ctx.Active() && Proven(ctx.View(), ctx.runId, ctx.ticket.id, ctx.since)
    requires var s := ctx.deps.StageFor(ctx.ticket.id);
             && s.work.verified.Some? && s.work.built.Some? && s.ship == NO_SHIP
             && s.checked.baseline.Some? && s.checked.baseline.value.hash == baseline
             && s.checked.substantive.Some? && s.work.verified.value < s.checked.substantive.value
    modifies ctx, ctx.deps, ctx.deps.store
    ensures ctx.Active() && Later(old(ctx.View()), ctx.View(), ctx.runId, ctx.ticket.id)
    ensures r.Ok? && !r.value ==> Finished(ctx)
    ensures var s0, s := old(ctx.deps.StageFor(ctx.ticket.id)), ctx.deps.StageFor(ctx.ticket.id);
            r.Ok? && r.value ==>
              && Proven(ctx.View(), ctx.runId, ctx.ticket.id, ctx.since) && ctx.Snapshot() == old(ctx.Snapshot())
              && s.work == s0.work && s.ship == NO_SHIP && s.checked.substantive == s0.checked.substantive
              && s.checked.goldenKept.Some?
    ensures r.Ok? ==>
              && (r.value <==> after == baseline)
              && Went(old(ctx.View()), ctx.View(), ctx.runId, [Capture(ctx.ticket.id, after)],
                      if r.value then [] else [TicketFlagged])
    ensures r.Err? ==> Routable(ctx, r.error) && ctx.deps.Disturbed(old(ctx.View()))
  {
    assert ctx.runId in ctx.View().runs;
    hide Later, Quiet, LoopDeps.Valid, RunStore.Valid, Proven, Went, Finished, Told, Deeds, Words;
    hide TicketRunContext.Active, StageOf;
    ghost var w0 := ctx.View();
    after := "";
    var post := CaptureGolden(ctx);
    if post.Err? {
      return Err(post.error), after;
    }
    after := post.value;
    ghost var w1 := ctx.View();
    if post.value != baseline {
      r := Refuse(ctx, false);
      LaterTransitive(w0, w1, ctx.View(), ctx.runId, ctx.ticket.id);
      if r.Ok? {
        WentOn(w0, w1, ctx.View(), ctx.runId, ctx.ticket.id, [Capture(ctx.ticket.id, after)], [], [], [TicketFlagged]);
      }
      return;
    }
    r := Ok(true);
  }

  /** What a ticket brings to its review: a stage a review may rest on, nothing shipped, in hand. */
  ghost predicate ReadyForReview(ctx: TicketRunContext, resume: Option<Resume>)
    reads ctx, ctx.deps, ctx.deps.store
  {
    var s := ctx.deps.StageFor(ctx.ticket.id);
    && ctx.Active() && Proven(ctx.View(), ctx.runId, ctx.ticket.id, ctx.since)
    && ctx.Snapshot().Phase() == (if resume.Some? && resume.value.phase == Review then Review else ExecutePlan)
    && s.Grounded() && s.ship == NO_SHIP && s.work.begin.Some? && Fresh(s, ctx.deps.config)
  }

  lemma ReadyMeans(ctx: TicketRunContext, resume: Option<Resume>)
    requires ReadyForReview(ctx, resume)
    ensures ctx.Active() && ctx.runId in ctx.View().runs
  {
  }

  /**
   * runTicketExecutionGate: true only with a verified, substantive build and, for a fresh
   * refactor ticket with a capture, an unchanged golden output; otherwise already routed.
   */
  method ExecutionGate(ctx: TicketRunContext, cwd: string, resume: Option<Resume>, ghost c: Setting, ghost l0: Life)
    returns (r: Outcome<bool>, ghost l: Life)
    requires ctx.Active() && Proven(ctx.View(), ctx.runId, ctx.ticket.id, ctx.since)
    requires ctx.Snapshot().Phase() == PhaseAfterStart(resume)
    requires resume.Some? ==> resume.value.phase == ExecutePlan || resume.value.phase == Review
    requires JustBegun(ctx.deps.StageFor(ctx.ticket.id), ctx.ticket, ctx.deps.env, resume)
    requires Of(ctx, c) && c.resumed == ResumedAt(resume)
    modifies ctx, ctx.deps, ctx.deps.store
    ensures ctx.Active() && Later(old(ctx.View()), ctx.View(), ctx.runId, ctx.ticket.id)
    ensures r.Ok? ==> if r.value then ReadyForReview(ctx, resume) else Finished(ctx)
    ensures l == l0.(before := l.before, attempts := l.attempts, diff := l.diff, after := l.after)
    ensures r.Ok? ==>
              && (r.value <==> Builds(c, l)) && (IsBuilt(c) ==> PlanAsked(c, l))
              && Went(old(ctx.View()), ctx.View(), ctx.runId, BuildDeeds(c, l), BuildWords(c, l))
    ensures r.Err? ==> Routable(ctx, r.error) && ctx.deps.Disturbed(old(ctx.View()))
  {
    assert ctx.runId in ctx.View().runs;
    hide Later, Quiet, LoopDeps.Valid, RunStore.Valid, Proven, Went, Finished, Told, Deeds, Words;
    hide TicketRunContext.Active, StageOf, CheckDeeds, BuildWords, Builds, PlanAsked;
    l := l0;
    ghost var w0 := ctx.View();
    if resume.Some? && ctx.ticket.refactor {
      // A resumed refactor ticket has lost its pre-edit baseline.
      r := Refuse(ctx, false);
      NotBuilt(c, l);
      return;
    }
    NothingWent(w0, ctx.runId, ctx.ticket.id);
    if resume.Some? && resume.value.phase == Review {
      NotBuilt(c, l);
      return Ok(true), l;
    }
    var captures := resume.None? && ctx.ticket.refactor && ctx.deps.env.goldenCapture;
    var baseline := Ok("");
    if captures {
      baseline := CaptureGolden(ctx);
    }
    ghost var w1 := ctx.View();
    if baseline.Err? {
      return Err(baseline.error), l;
    }
    ghost var taken := if captures then [Capture(ctx.ticket.id, baseline.value)] else [];
    r, l := BuildAndCheck(ctx, cwd, resume, captures, baseline.value, c, l0.(before := baseline.value));
    LaterTransitive(w0, w1, ctx.View(), ctx.runId, ctx.ticket.id);
    if r.Ok? {
      WentOn(w0, w1, ctx.View(), ctx.runId, ctx.ticket.id, taken, [], CheckDeeds(c, l), BuildWords(c, l));
      assert [] + BuildWords(c, l) == BuildWords(c, l);
    } else {
      DisturbedSince(ctx.deps, w0, w1);
    }
  }

  lemma NotBuilt(c: Setting, l: Life)
    requires !IsBuilt(c)
    ensures BuildDeeds(c, l) == [] && (Builds(c, l) <==> !(c.resumed.Some? && c.ticket.refactor))
    ensures BuildWords(c, l) == if c.resumed.Some? && c.ticket.refactor then [TicketFlagged] else []
  {
  }

  /** The part of the gate between the two golden captures, and the second of them. */
  method BuildAndCheck(ctx: TicketRunContext, cwd: string, resume: Option<Resume>, captures: bool, baseline: string,
      ghost c: Setting, ghost l0: Life)
    returns (r: Outcome<bool>, ghost l: Life)
    requires ctx.Active() && Proven(ctx.View(), ctx.runId, ctx.ticket.id, ctx.since)
    requires ctx.Snapshot().Phase() == PhaseAfterStart(resume)
    requires resume.Some? ==> resume.value.phase == ExecutePlan
    requires var s := ctx.deps.StageFor(ctx.ticket.id);
             && s.work.begin.Some? && s.work.ticketRel == ctx.ticket.relPath && !s.work.trusted
             && s.work.golden == captures
             && (captures ==> s.checked.baseline.Some? && s.checked.baseline.value.hash == baseline)
    requires Of(ctx, c) && c.resumed == ResumedAt(resume) && IsBuilt(c)
    requires captures == Captures(c) && l0.before == baseline
    modifies ctx, ctx.deps, ctx.deps.store
    ensures ctx.Active() && Later(old(ctx.View()), ctx.View(), ctx.runId, ctx.ticket.id)
    ensures r.Ok? ==> if r.value then ReadyForReview(ctx, resume) else Finished(ctx)
    ensures l == l0.(attempts := l.attempts, diff := l.diff, after := l.after)
    ensures r.Ok? ==>
              && (r.value <==> Builds(c, l)) && PlanAsked(c, l)
              && Went(old(ctx.View()), ctx.View(), ctx.runId, CheckDeeds(c, l), BuildWords(c, l))
    ensures r.Err? ==> Routable(ctx, r.error) && ctx.deps.Disturbed(old(ctx.View()))
  {
    assert ctx.runId in ctx.View().runs;
    hide Later, Quiet, LoopDeps.Valid, RunStore.Valid, Proven, Went, Finished, Told, Deeds, Words, Reworked;
    hide TicketRunContext.Active, StageOf, Returns, PlanTrace, SubstantiveChangedFiles;
    hide CheckDeeds, BuildWords, Builds, PlanAsked;
    ghost var w0, s0, id := ctx.View(), ctx.deps.StageFor(ctx.ticket.id), ctx.ticket.id;
    ghost var k := KnobsOf(ctx.deps.config, ctx.deps.env);
    ghost var seen;
    r, seen := BuildVerified(ctx, cwd, resume.None?);
    ghost var w1, s1 := ctx.View(), ctx.deps.StageFor(id);
    l := l0.(attempts := seen);
    if r.Err? || !r.value {
      if r.Ok? {
        NotVerified(c, l, k);
      }
      return;
    }
    ReworkedMeans(s0, s1);
    r, l := CheckBuild(ctx, captures, baseline, l);
    LaterTransitive(w0, w1, ctx.View(), ctx.runId, id);
    if r.Ok? {
      ghost var compared := SubstantiveOf(c, l) != [] && captures;
      Compared(c, l, k, compared);
      WentOn(w0, w1, ctx.View(), ctx.runId, id, PlanTrace(id, seen, k), [VerificationResult(true)],
             ChecksOf(id, l, compared), WordsOf(ctx.ticket, l, compared, r.value));
      CheckedAll(c, l, k, compared, r.value);
    } else {
      DisturbedSince(ctx.deps, w0, w1);
    }
  }

  lemma ReworkedMeans(a: Stage, b: Stage)
    requires Reworked(a, b)
    ensures b.checked == a.checked && b.work.begin == a.work.begin && b.work.ticketRel == a.work.ticketRel
    ensures b.work.trusted == a.work.trusted && b.work.golden == a.work.golden
  {
  }

  /** The effects of checking a verified build, and what they are told as. */
  function ChecksOf(id: TicketId, l: Life, compared: bool): Trace {
    [Summarize(id, l.diff)] + (if compared then [Capture(id, l.after)] else [])
  }

  function WordsOf(ticket: Ticket, l: Life, compared: bool, passed: bool): seq<EventKind> {
    var substantive := SubstantiveChangedFiles(l.diff.changedFiles, ticket.relPath);
    [TicketBuilt(substantive != [], |substantive|)] + (if passed then [] else [TicketFlagged])
  }

  lemma CheckedAll(c: Setting, l: Life, k: Knobs, compared: bool, passed: bool)
    requires IsBuilt(c) && k == KnobsOf(c.config, c.env) && l.attempts != [] && Last(l.attempts).passed
    requires exists outcome :: Returns(l.attempts, outcome, k)
    requires compared <==> SubstantiveOf(c, l) != [] && Captures(c)
    requires passed <==> SubstantiveOf(c, l) != [] && (compared ==> l.after == l.before)
    ensures CheckDeeds(c, l) == PlanTrace(c.ticket.id, l.attempts, k) + ChecksOf(c.ticket.id, l, compared)
    ensures BuildWords(c, l) == [VerificationResult(true)] + WordsOf(c.ticket, l, compared, passed)
    ensures Builds(c, l) <==> passed
  {
    Compared(c, l, k, compared);
    hide PlanTrace, Returns, SubstantiveChangedFiles, CheckDeeds, BuildWords, Builds, Captures;
    var found, n := SubstantiveOf(c, l) != [], |SubstantiveOf(c, l)|;
    var built := TicketBuilt(found, n);
    if compared {
      assert PlanTrace(c.ticket.id, l.attempts, k) + [Summarize(c.ticket.id, l.diff)] + [Capture(c.ticket.id, l.after)]
             == PlanTrace(c.ticket.id, l.attempts, k) + ChecksOf(c.ticket.id, l, compared);
    }
    assert [VerificationResult(true)] + ([built] + []) + [] == [VerificationResult(true), built];
    assert [VerificationResult(true)] + ([built] + []) + [TicketFlagged]
           == [VerificationResult(true), built, TicketFlagged];
    assert [VerificationResult(true)] + ([built] + [TicketFlagged]) + []
           == [VerificationResult(true), built, TicketFlagged];
    assert [VerificationResult(true)] + ([built] + []) == [VerificationResult(true), built];
    assert [VerificationResult(true)] + ([built] + [TicketFlagged]) == [VerificationResult(true), built, TicketFlagged];
  }

  /** A verified build must change something, and a captured baseline must still stand. */
  method CheckBuild(ctx: TicketRunContext, captures: bool, baseline: string, ghost l0: Life)
    returns (r: Outcome<bool>, ghost l: Life)
    requires ctx.Active() && Proven(ctx.View(), ctx.runId, ctx.ticket.id, ctx.since)
    requires ctx.Snapshot().Phase() == ExecutePlan && l0.before == baseline
    requires var s := ctx.deps.StageFor(ctx.ticket.id);
             && s.work.begin.Some? && s.work.ticketRel == ctx.ticket.relPath && !s.work.trusted
             && s.work.golden == captures && s.ship == NO_SHIP && s.work.verified.Some?
             && (captures ==> s.checked.baseline.Some? && s.checked.baseline.value.hash == baseline)
    modifies ctx, ctx.deps, ctx.deps.store
    ensures ctx.Active() && Later(old(ctx.View()), ctx.View(), ctx.runId, ctx.ticket.id)
    ensures r.Ok? ==> if r.value then ReviewableNow(ctx) else Finished(ctx)
    ensures l == l0.(diff := l.diff, after := l.after)
    ensures r.Ok? ==>
              var found := SubstantiveChangedFiles(l.diff.changedFiles, ctx.ticket.relPath) != [];
              && (r.value <==> found && (captures ==> l.after == l.before))
              && Went(old(ctx.View()), ctx.View(), ctx.runId, ChecksOf(ctx.ticket.id, l, found && captures),
                      WordsOf(ctx.ticket, l, found && captures, r.value))
    ensures r.Err? ==> Routable(ctx, r.error) && ctx.deps.Disturbed(old(ctx.View()))
  {
    hide *;
    Known(ctx);
    ghost var w0, id := ctx.View(), ctx.ticket.id;
    BuiltSinceVerified(ctx.deps.trace, ctx.ticket.id, ctx.deps.config);
    SameStage(ctx.deps, id);
    ghost var diff;
    r, diff := RequireSubstance(ctx);
    ghost var w1 := ctx.View();
    l := l0.(diff := diff);
    ghost var found := SubstantiveChangedFiles(diff.changedFiles, ctx.ticket.relPath);
    assert [TicketBuilt(true, |found|)] + [] == [TicketBuilt(true, |found|)];
    if r.Ok? && r.value && captures {
      ghost var after;
      r, after := CompareGolden(ctx, baseline);
      LaterTransitive(w0, w1, ctx.View(), ctx.runId, id);
      l := l.(after := after);
      if r.Ok? {
        WentOn(w0, w1, ctx.View(), ctx.runId, id, [Summarize(id, diff)], [TicketBuilt(true, |found|)],
               [Capture(id, after)], if r.value then [] else [TicketFlagged]);
      } else {
        DisturbedSince(ctx.deps, w0, w1);
      }
    }
    if r.Ok? {
      CheckPieces(ctx.ticket, l, found, captures, r.value);
      if r.value {
        NowReviewable(ctx, captures);
      }
    }
  }

  lemma SameStage(deps: LoopDeps, id: TicketId)
    ensures deps.StageFor(id) == StageOf(deps.trace, id, deps.config)
  {
  }

  lemma CheckPieces(ticket: Ticket, l: Life, found: seq<string>, captures: bool, passed: bool)
    requires found == SubstantiveChangedFiles(l.diff.changedFiles, ticket.relPath)
    ensures ChecksOf(ticket.id, l, found != [] && captures)
            == [Summarize(ticket.id, l.diff)] + (if found != [] && captures then [Capture(ticket.id, l.after)] else [])
    ensures found == [] || !captures ==>
              ChecksOf(ticket.id, l, found != [] && captures) == [Summarize(ticket.id, l.diff)]
    ensures WordsOf(ticket, l, found != [] && captures, passed)
            == [TicketBuilt(found != [], |found|)] + if passed then [] else [TicketFlagged]
  {
    hide SubstantiveChangedFiles;
  }

  lemma NowReviewable(ctx: TicketRunContext, captures: bool)
    requires ctx.Active() && Proven(ctx.View(), ctx.runId, ctx.ticket.id, ctx.since)
    requires ctx.Snapshot().Phase() == ExecutePlan
    requires var s := ctx.deps.StageFor(ctx.ticket.id);
             && s.work.begin.Some? && !s.work.trusted && s.work.golden == captures && s.ship == NO_SHIP
             && s.work.verified.Some? && s.work.built.Some? && s.checked.substantive.Some?
             && s.work.verified.value < s.checked.substantive.value
             && s.work.built.value < s.checked.substantive.value
             && (captures ==> s.checked.goldenKept.Some?)
    ensures ReviewableNow(ctx)
  {
    hide StageOf;
  }

  /** A stage a review may rest on, still building, nothing shipped. */
  ghost predicate ReviewableNow(ctx: TicketRunContext)
    reads ctx, ctx.deps, ctx.deps.store
  {
    var s := ctx.deps.StageFor(ctx.ticket.id);
    && ctx.Active() && Proven(ctx.View(), ctx.runId, ctx.ticket.id, ctx.since)
    && ctx.Snapshot().Phase() == ExecutePlan
    && s.Grounded() && s.ship == NO_SHIP && s.work.begin.Some? && Fresh(s, ctx.deps.config)
  }

  /** The changed files that count. */
  function SubstantiveOf(c: Setting, l: Life): seq<string> {
    SubstantiveChangedFiles(l.diff.changedFiles, c.ticket.relPath)
  }

  lemma NotVerified(c: Setting, l: Life, k: Knobs)
    requires IsBuilt(c) && k == KnobsOf(c.config, c.env) && !(l.attempts != [] && Last(l.attempts).passed)
    requires exists outcome :: Returns(l.attempts, outcome, k)
    ensures !Builds(c, l) && PlanAsked(c, l)
    ensures CheckDeeds(c, l) == PlanTrace(c.ticket.id, l.attempts, k)
    ensures BuildWords(c, l) == [VerificationResult(false), TicketFlagged]
  {
    hide PlanTrace, Returns;
    assert PlanTrace(c.ticket.id, l.attempts, k) + [] + [] == PlanTrace(c.ticket.id, l.attempts, k);
  }

  /** What a verified build comes to, compared with its baseline or not. */
  lemma Compared(c: Setting, l: Life, k: Knobs, compared: bool)
    requires IsBuilt(c) && k == KnobsOf(c.config, c.env) && l.attempts != [] && Last(l.attempts).passed
    requires exists outcome :: Returns(l.attempts, outcome, k)
    requires compared <==> SubstantiveOf(c, l) != [] && Captures(c)
    ensures PlanAsked(c, l)
    ensures var found, n := SubstantiveOf(c, l) != [], |SubstantiveOf(c, l)|;
            && (Builds(c, l) <==> found && (compared ==> l.after == l.before))
            && CheckDeeds(c, l) == PlanTrace(c.ticket.id, l.attempts, k) + [Summarize(c.ticket.id, l.diff)]
                                   + (if compared then [Capture(c.ticket.id, l.after)] else [])
            && BuildWords(c, l) == [VerificationResult(true)]
                                   + ([TicketBuilt(found, n)] + if found then [] else [TicketFlagged])
                                   + (if found && !Builds(c, l) then [TicketFlagged] else [])
  {
    hide PlanTrace, Returns, SubstantiveChangedFiles;
    ChangesIff(c, l);
  }

  lemma ChangesIff(c: Setting, l: Life)
    ensures Changes(c, l) <==> SubstantiveOf(c, l) != []
  {
    var found := SubstantiveOf(c, l);
    forall f
      ensures f in found <==> f in l.diff.changedFiles && Substantive(f, c.ticket.relPath)
    {
      SubstantiveIff(l.diff.changedFiles, c.ticket.relPath, f);
    }
    if found != [] {
      assert found[0] in found;
    }
  }

  lemma BuiltSinceVerified(t: Trace, id: TicketId, config: LoopConfig)
    ensures var w := StageOf(t, id, config).work;
            w.verified.Some? ==> w.built.Some? && w.built.value < w.verified.value < |t|
  {
    StageHolds(t, id, config);
  }

  // ----- closing and shipping -----

  /** The stage of a closed ticket on its way to the gate. */
  predicate Shipping(s: Stage, verdict: Verdict, config: LoopConfig) {
    s.work.begin.Some? && s.ship.closed.Some? && (s.ship.approved.Some? <==> verdict == Approve) && Fresh(s, config)
  }

  /** The stage of a ticket at the gate: pushed, with its pull request open, and nothing observed yet. */
  predicate AtGate(s: Stage, verdict: Verdict, config: LoopConfig) {
    && Shipping(s, verdict, config) && s.ship.pushed.Some? && s.ship.prOpen.Some?
    && s.ship.ciGreen.None? && s.ship.lowRisk.None? && s.ship.autopilot.None?
  }

  lemma ClosedStage(s: Stage, id: TicketId, pos: nat, verdict: Verdict, config: LoopConfig)
    requires s.work.begin.Some? && Fresh(s, config) && (s.ship.approved.Some? <==> verdict == Approve)
    ensures Shipping(NextStage(s, CloseTicket(id), pos, config), verdict, config)
  {
  }

  lemma GateStage(s: Stage, id: TicketId, pos: nat, next: nat, verdict: Verdict, config: LoopConfig)
    requires Shipping(s, verdict, config)
    ensures AtGate(NextStage(NextStage(s, Push(id), pos, config), CreatePr(id), next, config), verdict, config)
  {
  }

  /** After the poll, the diff and the request, the stage may merge exactly if all three and the verdict say so. */
  lemma DecidedStage(s0: Stage, s: Stage, id: TicketId, pos: nat, next: nat, verdict: Verdict, diff: DiffSummary,
      request: Option<string>, config: LoopConfig)
    requires AtGate(s0, verdict, config) && ObservedCi(s0, s)
    ensures var s2 := NextStage(NextStage(s, Summarize(id, diff), pos, config), ReadRequest(id, request), next, config);
            MayMerge(s2, config) <==>
              && s.ship.ciGreen.Some? && verdict == Approve && LowRisk(diff, config)
              && ResolveAutonomy(config.autonomy, request).mode == Autopilot
  {
    hide LowRisk, ResolveAutonomy;
  }

  /** Push the branch, enter the gate, open the pull request. */
  method PushAndOpen(ctx: TicketRunContext, verdict: Verdict) returns (r: Outcome<()>)
    requires ctx.Active() && Proven(ctx.View(), ctx.runId, ctx.ticket.id, ctx.since)
    requires ctx.Snapshot().Phase() == Close && Shipping(ctx.deps.StageFor(ctx.ticket.id), verdict, ctx.deps.config)
    modifies ctx, ctx.deps, ctx.deps.store
    ensures ctx.Active() && Later(old(ctx.View()), ctx.View(), ctx.runId, ctx.ticket.id)
    ensures Proven(ctx.View(), ctx.runId, ctx.ticket.id, ctx.since)
    ensures r.Ok? ==>
              ctx.Snapshot().Phase() == MergeGate && AtGate(ctx.deps.StageFor(ctx.ticket.id), verdict, ctx.deps.config)
    ensures r.Ok? ==>
              Went(old(ctx.View()), ctx.View(), ctx.runId, [Push(ctx.ticket.id), CreatePr(ctx.ticket.id)], [])
    ensures r.Err? ==> !r.error.IsLoopStateError() && ctx.deps.Disturbed(old(ctx.View()))
  {
    hide *;
    Known(ctx);
    Rules();
    ghost var w0, id := ctx.View(), ctx.ticket.id;
    ghost var s0, pos := ctx.deps.StageFor(ctx.ticket.id), |ctx.deps.trace|;
    r := DoQuietly(ctx, Push(ctx.ticket.id));
    if r.Ok? {
      ghost var w1 := ctx.View();
      GateStage(s0, id, pos, |ctx.deps.trace|, verdict, ctx.deps.config);
      r := EnterGate(ctx);
      LaterTransitive(w0, w1, ctx.View(), ctx.runId, id);
      if r.Ok? {
        WentOn(w0, w1, ctx.View(), ctx.runId, id, [Push(id)], [], [CreatePr(id)], []);
        assert [Push(id)] + [CreatePr(id)] == [Push(id), CreatePr(id)];
      } else {
        DisturbedSince(ctx.deps, w0, w1);
      }
    }
  }

  /** Into the gate, and the pull request. */
  method EnterGate(ctx: TicketRunContext) returns (r: Outcome<()>)
    requires ctx.Active() && Proven(ctx.View(), ctx.runId, ctx.ticket.id, ctx.since)
    requires ctx.Snapshot().Phase() == Close
    modifies ctx, ctx.deps, ctx.deps.store
    ensures ctx.Active() && Later(old(ctx.View()), ctx.View(), ctx.runId, ctx.ticket.id)
    ensures Proven(ctx.View(), ctx.runId, ctx.ticket.id, ctx.since)
    ensures r.Ok? ==> ctx.Snapshot().Phase() == MergeGate
    ensures r.Ok? ==> ctx.deps.StageFor(ctx.ticket.id)
                      == NextStage(old(ctx.deps.StageFor(ctx.ticket.id)), CreatePr(ctx.ticket.id),
                                   |old(ctx.deps.trace)|, ctx.deps.config)
    ensures r.Ok? ==> Went(old(ctx.View()), ctx.View(), ctx.runId, [CreatePr(ctx.ticket.id)], [])
    ensures r.Err? ==> !r.error.IsLoopStateError() && ctx.deps.Disturbed(old(ctx.View()))
  {
    hide *;
    Known(ctx);
    Rules();
    ghost var w0, id := ctx.View(), ctx.ticket.id;
    r := Move(ctx, MergeGate, Keep);
    ghost var w1 := ctx.View();
    if r.Err? {
      return;
    }
    r := DoQuietly(ctx, CreatePr(ctx.ticket.id));
    LaterTransitive(w0, w1, ctx.View(), ctx.runId, id);
    if r.Ok? {
      WentOn(w0, w1, ctx.View(), ctx.runId, id, [], [], [CreatePr(id)], []);
    } else {
      DisturbedSince(ctx.deps, w0, w1);
    }
  }

  /** An outside call, with what the log claims still true after it. */
  method DoQuietly(ctx: TicketRunContext, e: Effect) returns (r: Outcome<()>)
    requires ctx.Active() && Proven(ctx.View(), ctx.runId, ctx.ticket.id, ctx.since)
    requires e.id == ctx.ticket.id && !e.MergePr? && !e.MergeReturned?
    modifies ctx.deps, ctx.deps.store`clock
    ensures ctx.Active() && Later(old(ctx.View()), ctx.View(), ctx.runId, ctx.ticket.id)
    ensures Proven(ctx.View(), ctx.runId, ctx.ticket.id, ctx.since) && ctx.Snapshot() == old(ctx.Snapshot())
    ensures |ctx.deps.trace| == |old(ctx.deps.trace)| + 1
    ensures ctx.deps.StageFor(e.id)
            == NextStage(old(ctx.deps.StageFor(e.id)), e, |old(ctx.deps.trace)|, ctx.deps.config)
    ensures r.Ok? ==> Went(old(ctx.View()), ctx.View(), ctx.runId, [e], [])
    ensures r.Err? ==> r.error == Thrown && ctx.deps.Disturbed(old(ctx.View()))
  {
    ghost var w0 := ctx.View();
    r := Do(ctx, e);
    QuietKeepsProven(w0, ctx.View(), ctx.runId, ctx.ticket.id, ctx.since);
  }

  /** Observe CI, classify the risk of the diff, resolve autonomy, decide. */
  method Decide(ctx: TicketRunContext, verdict: Verdict, ghost c: Setting, ghost l0: Life)
    returns (r: Outcome<MergeAction>, ghost l: Life)
    requires ctx.Active() && Proven(ctx.View(), ctx.runId, ctx.ticket.id, ctx.since) && Of(ctx, c)
    requires AtGate(ctx.deps.StageFor(ctx.ticket.id), verdict, ctx.deps.config)
    modifies ctx.deps, ctx.deps.store`clock
    ensures ctx.Active() && Later(old(ctx.View()), ctx.View(), ctx.runId, ctx.ticket.id)
    ensures Proven(ctx.View(), ctx.runId, ctx.ticket.id, ctx.since) && ctx.Snapshot() == old(ctx.Snapshot())
    ensures r.Ok? ==> (r.value == AutoMerge <==> MayMerge(ctx.deps.StageFor(ctx.ticket.id), ctx.deps.config))
    ensures l == l0.(polls := l.polls, shipped := l.shipped, request := l.request)
    ensures r.Ok? ==>
              && (r.value == AutoMerge <==> Merges(c, l, verdict)) && PollsAsked(c, l)
              && Went(old(ctx.View()), ctx.View(), ctx.runId, DecisionDeeds(ctx.ticket.id, l), [])
    ensures r.Err? ==> !r.error.IsLoopStateError() && ctx.deps.Disturbed(old(ctx.View()))
  {
    hide *;
    Known(ctx);
    Rules();
    AtGateMeans(ctx.deps.StageFor(ctx.ticket.id), verdict, ctx.deps.config);
    OfMeans(ctx, c);
    ghost var s0 := ctx.deps.StageFor(ctx.ticket.id);
    ghost var polls, diff, request, s1, pos;
    var seen;
    seen, polls, diff, request, s1, pos := Gather(ctx);
    l := l0.(polls := polls, shipped := diff, request := request);
    if seen.Ok? {
      DecidedStage(s0, s1, ctx.ticket.id, pos, pos + 1, verdict, diff, request, ctx.deps.config);
      DecidedOn(c, l, verdict, seen.value.0);
      r := Ok(ApplyAutonomy(DecideMerge(seen.value.0, verdict, seen.value.1), seen.value.2));
    } else {
      r := Err(seen.error);
    }
  }

  /** What the decision is taken from: the checks, the risk of the diff, the mode asked for. */
  method Gather(ctx: TicketRunContext)
    returns (r: Outcome<(CiState, bool, Autonomy)>, ghost polls: seq<CiPoll>, ghost diff: DiffSummary,
             ghost request: Option<string>, ghost s: Stage, ghost pos: nat)
    requires ctx.Active() && Proven(ctx.View(), ctx.runId, ctx.ticket.id, ctx.since)
    requires var s := ctx.deps.StageFor(ctx.ticket.id);
             s.ship.prOpen.Some? && s.ship.ciGreen.None? && s.ship.lowRisk.None? && s.ship.autopilot.None?
    modifies ctx.deps, ctx.deps.store`clock
    ensures ctx.Active() && Later(old(ctx.View()), ctx.View(), ctx.runId, ctx.ticket.id)
    ensures Proven(ctx.View(), ctx.runId, ctx.ticket.id, ctx.since) && ctx.Snapshot() == old(ctx.Snapshot())
    ensures r.Ok? ==>
              && ObservedCi(old(ctx.deps.StageFor(ctx.ticket.id)), s)
              && (r.value.0 == Green <==> s.ship.ciGreen.Some?)
              && polls != [] && (r.value.0 == Green <==> GreenPoll(Last(polls)))
              && Polled(polls, MaxPolls(ctx.deps.config.ciWaitTimeoutSec, ctx.deps.config.ciPollIntervalSec))
              && r.value.1 == LowRisk(diff, ctx.deps.config)
              && r.value.2 == ResolveAutonomy(ctx.deps.config.autonomy, request).mode
              && ctx.deps.StageFor(ctx.ticket.id)
                 == NextStage(NextStage(s, Summarize(ctx.ticket.id, diff), pos, ctx.deps.config),
                              ReadRequest(ctx.ticket.id, request), pos + 1, ctx.deps.config)
              && Went(old(ctx.View()), ctx.View(), ctx.runId,
                      PollTrace(ctx.ticket.id, polls)
                      + [Summarize(ctx.ticket.id, diff), ReadRequest(ctx.ticket.id, request)], [])
    ensures r.Err? ==> !r.error.IsLoopStateError() && ctx.deps.Disturbed(old(ctx.View()))
  {
    hide *;
    Known(ctx);
    ghost var w0, id := ctx.View(), ctx.ticket.id;
    var ci;
    ci, polls := Observed(ctx);
    ghost var w1 := ctx.View();
    s, pos := ctx.deps.StageFor(id), |ctx.deps.trace|;
    var weighed;
    weighed, diff, request := Weigh(ctx);
    LaterTransitive(w0, w1, ctx.View(), ctx.runId, id);
    if weighed.Ok? {
      WentOn(w0, w1, ctx.View(), ctx.runId, id, PollTrace(id, polls), [],
             [Summarize(id, diff), ReadRequest(id, request)], []);
      r := Ok((ci, weighed.value.0, weighed.value.1));
    } else {
      DisturbedSince(ctx.deps, w0, w1);
      r := Err(weighed.error);
    }
  }

  /** What the decision is based on. */
  function DecisionDeeds(id: TicketId, l: Life): Trace {
    PollTrace(id, l.polls) + [Summarize(id, l.shipped), ReadRequest(id, l.request)]
  }

  lemma AtGateMeans(s: Stage, verdict: Verdict, config: LoopConfig)
    requires AtGate(s, verdict, config)
    ensures s.ship.prOpen.Some? && s.ship.ciGreen.None? && s.ship.lowRisk.None? && s.ship.autopilot.None?
  {
  }

  /** The risk of the diff, and the mode the epic's request resolves to. */
  method Weigh(ctx: TicketRunContext)
    returns (r: Outcome<(bool, Autonomy)>, ghost diff: DiffSummary, ghost request: Option<string>)
    requires ctx.Active() && Proven(ctx.View(), ctx.runId, ctx.ticket.id, ctx.since)
    modifies ctx.deps, ctx.deps.store`clock
    ensures ctx.Active() && Later(old(ctx.View()), ctx.View(), ctx.runId, ctx.ticket.id)
    ensures Proven(ctx.View(), ctx.runId, ctx.ticket.id, ctx.since) && ctx.Snapshot() == old(ctx.Snapshot())
    ensures r.Ok? ==>
              && r.value.0 == LowRisk(diff, ctx.deps.config)
              && r.value.1 == ResolveAutonomy(ctx.deps.config.autonomy, request).mode
              && Went(old(ctx.View()), ctx.View(), ctx.runId,
                      [Summarize(ctx.ticket.id, diff), ReadRequest(ctx.ticket.id, request)], [])
              && var n := |old(ctx.deps.trace)|;
                 ctx.deps.StageFor(ctx.ticket.id)
                 == NextStage(NextStage(old(ctx.deps.StageFor(ctx.ticket.id)), Summarize(ctx.ticket.id, diff), n,
                                        ctx.deps.config),
                              ReadRequest(ctx.ticket.id, request), n + 1, ctx.deps.config)
    ensures r.Err? ==> !r.error.IsLoopStateError() && ctx.deps.Disturbed(old(ctx.View()))
  {
    hide *;
    Known(ctx);
    Rules();
    ghost var w0, id := ctx.View(), ctx.ticket.id;
    var found: DiffSummary := *;
    var asked: Option<string> := *;
    diff, request := found, asked;
    var summarized := DoQuietly(ctx, Summarize(ctx.ticket.id, found));
    ghost var w1 := ctx.View();
    if summarized.Ok? {
      summarized := ctx.Artifact();
      FaultyIsDisturbed(ctx.deps, w0);
    }
    if summarized.Err? {
      return Err(summarized.error), diff, request;
    }
    var lowRisk, reasons := ClassifyRisk(found, ctx.deps.config);
    var read := DoQuietly(ctx, ReadRequest(ctx.ticket.id, asked));
    LaterTransitive(w0, w1, ctx.View(), ctx.runId, id);
    if read.Ok? {
      WentOn(w0, w1, ctx.View(), ctx.runId, id, [Summarize(id, diff)], [], [ReadRequest(id, request)], []);
      assert [Summarize(id, diff)] + [ReadRequest(id, request)] == [Summarize(id, diff), ReadRequest(id, request)];
      r := Ok((lowRisk, ResolveAutonomy(ctx.deps.config.autonomy, asked).mode));
    } else {
      DisturbedSince(ctx.deps, w0, w1);
      r := Err(read.error);
    }
  }

  lemma FaultyIsDisturbed(deps: LoopDeps, since: World)
    ensures deps.store.faults.writesFail ==> deps.Disturbed(since)
  {
  }

  lemma DecidedOn(c: Setting, l: Life, verdict: Verdict, ci: CiState)
    requires Polled(l.polls, MaxPolls(c.config.ciWaitTimeoutSec, c.config.ciPollIntervalSec))
    requires l.polls != [] && (ci == Green <==> GreenPoll(Last(l.polls)))
    ensures PollsAsked(c, l)
    ensures var id := c.ticket.id;
            PollTrace(id, l.polls) + [Summarize(id, l.shipped), ReadRequest(id, l.request)] == DecisionDeeds(id, l)
    ensures var auto := ApplyAutonomy(DecideMerge(ci, verdict, LowRisk(l.shipped, c.config)),
                                      ResolveAutonomy(c.config.autonomy, l.request).mode) == AutoMerge;
            && (auto <==> Merges(c, l, verdict))
            && (auto <==> ci == Green && verdict == Approve && LowRisk(l.shipped, c.config)
                          && ResolveAutonomy(c.config.autonomy, l.request).mode == Autopilot)
  {
    hide Polled, LowRisk, PollTrace;
    MergesIff(c, l, ci, verdict);
  }

  lemma MergesIff(c: Setting, l: Life, ci: CiState, verdict: Verdict)
    requires l.polls != [] && (ci == Green <==> GreenPoll(Last(l.polls)))
    ensures ApplyAutonomy(DecideMerge(ci, verdict, LowRisk(l.shipped, c.config)),
                          ResolveAutonomy(c.config.autonomy, l.request).mode) == AutoMerge
            <==> Merges(c, l, verdict)
  {
    AutoMergeIff(ci, verdict, l.shipped, c.config, l.request);
    hide LowRisk;
  }

  method Observed(ctx: TicketRunContext) returns (ci: CiState, ghost polls: seq<CiPoll>)
    requires ctx.Active() && Proven(ctx.View(), ctx.runId, ctx.ticket.id, ctx.since)
    requires var s := ctx.deps.StageFor(ctx.ticket.id);
             s.ship.prOpen.Some? && s.ship.ciGreen.None? && s.ship.lowRisk.None? && s.ship.autopilot.None?
    modifies ctx.deps, ctx.deps.store`clock
    ensures ctx.Active() && Later(old(ctx.View()), ctx.View(), ctx.runId, ctx.ticket.id)
    ensures Proven(ctx.View(), ctx.runId, ctx.ticket.id, ctx.since) && ctx.Snapshot() == old(ctx.Snapshot())
    ensures ObservedCi(old(ctx.deps.StageFor(ctx.ticket.id)), ctx.deps.StageFor(ctx.ticket.id))
    ensures ci == Green <==> ctx.deps.StageFor(ctx.ticket.id).ship.ciGreen.Some?
    ensures polls != [] && (ci == Green <==> GreenPoll(Last(polls)))
    ensures Polled(polls, MaxPolls(ctx.deps.config.ciWaitTimeoutSec, ctx.deps.config.ciPollIntervalSec))
    ensures Went(old(ctx.View()), ctx.View(), ctx.runId, PollTrace(ctx.ticket.id, polls), [])
  {
    ghost var w0 := ctx.View();
    ci, polls := ObserveCi(ctx);
    hide LoopDeps.Valid, RunStore.Valid, Later, Quiet;
    QuietKeepsProven(w0, ctx.View(), ctx.runId, ctx.ticket.id, ctx.since);
    QuietIsLater(w0, ctx.View(), ctx.runId, ctx.ticket.id);
    QuietWent(w0, ctx.View(), ctx.runId, ctx.ticket.id);
    GreenMeans(polls, MaxPolls(ctx.deps.config.ciWaitTimeoutSec, ctx.deps.config.ciPollIntervalSec));
  }

  lemma DecisionAccount(events: seq<RunEvent>, e: RunEvent, action: MergeAction, id: TicketId, since: nat)
    requires e.kind == MergeDecision(action) && e.ticketId == Some(id) && since <= |events|
    ensures var a := AccountOf((events + [e])[since..], id);
            a.Clean() ==> a.decision == Some(action)
  {
    SliceAppend(events, e, since);
    AccountOfAppend(events[since..], e, id);
    NamelessIsNeverClean(events[since..] + [e], id);
  }

  /** The effects of a decision. */
  function ActionDeeds(id: TicketId, action: MergeAction): Trace {
    (if action == AutoMerge then [MergePr(id), MergeReturned(id)] else [MarkEscalated(id)]) + [CleanupReturned(id)]
  }

  /** merge.decision, then the merge or the escalation, then cleanup. */
  method ActOn(ctx: TicketRunContext, action: MergeAction) returns (r: Outcome<()>)
    requires ctx.Active() && (action == AutoMerge ==> MayMerge(ctx.deps.StageFor(ctx.ticket.id), ctx.deps.config))
    requires Proven(ctx.View(), ctx.runId, ctx.ticket.id, ctx.since)
    modifies ctx.deps, ctx.deps.store
    ensures ctx.Active() && Later(old(ctx.View()), ctx.View(), ctx.runId, ctx.ticket.id)
    ensures ctx.Snapshot() == old(ctx.Snapshot())
    ensures r.Ok? ==> Proven(ctx.View(), ctx.runId, ctx.ticket.id, ctx.since)
    ensures r.Ok? ==> Went(old(ctx.View()), ctx.View(), ctx.runId, ActionDeeds(ctx.ticket.id, action),
                           [MergeDecision(action)])
    ensures r.Err? ==> !r.error.IsLoopStateError() && ctx.deps.Disturbed(old(ctx.View()))
  {
    assert ctx.runId in ctx.View().runs;
    hide Later, Quiet, LoopDeps.Valid, RunStore.Valid, Proven, Went, Finished, Told, Deeds, Words;
    hide TicketRunContext.Active, StageOf, ActionDeeds;
    ghost var w0, id := ctx.View(), ctx.ticket.id;
    ProvenCovers(ctx);
    var logged := LogDecision(ctx, action);
    ghost var w1 := ctx.View();
    if logged.Err? {
      return logged;
    }
    r := CarryOut(ctx, action);
    ghost var w2 := ctx.View();
    QuietIsLater(w1, w2, ctx.runId, id);
    LaterTransitive(w0, w1, w2, ctx.runId, id);
    if r.Ok? {
      WentOn(w0, w1, w2, ctx.runId, id, [], [MergeDecision(action)], ActionDeeds(id, action), []);
      assert [] + ActionDeeds(id, action) == ActionDeeds(id, action);
      ActedOn(w1, w2, ctx.runId, id, ctx.since, action);
    } else {
      DisturbedSince(ctx.deps, w0, w1);
    }
  }

  /** The decision goes to the log before anything is done about it. */
  method LogDecision(ctx: TicketRunContext, action: MergeAction) returns (r: Outcome<()>)
    requires ctx.Active() && ctx.since <= |ctx.Events()|
    modifies ctx.deps.store
    ensures ctx.Active() && Later(old(ctx.View()), ctx.View(), ctx.runId, ctx.ticket.id)
    ensures ctx.deps.trace == old(ctx.deps.trace) && ctx.Snapshot() == old(ctx.Snapshot())
    ensures r.Ok? ==>
              && Went(old(ctx.View()), ctx.View(), ctx.runId, [], [MergeDecision(action)])
              && ctx.since <= |ctx.Events()|
              && var a := Claims(ctx.View(), ctx.runId, ctx.ticket.id, ctx.since);
                 a.Clean() ==> a.decision == Some(action)
    ensures r.Err? ==> r.error == StoreFailure && ctx.deps.Disturbed(old(ctx.View()))
  {
    ghost var w0, before := ctx.View(), ctx.Events();
    r := ctx.Log(MergeDecision(action), None);
    hide LoopDeps.Valid, RunStore.Valid, Told, AccountOf, Went;
    if r.Ok? {
      SaidOnce(w0, ctx.View(), ctx.runId, Last(ctx.Events()));
      DecisionAccount(before, Last(ctx.Events()), action, ctx.ticket.id, ctx.since);
    }
  }

  /** A decision that was carried out is a claim that holds. */
  lemma ActedOn(w0: World, w1: World, runId: RunId, id: TicketId, since: nat, action: MergeAction)
    requires Quiet(w0, w1, runId, id) && since <= |w0.runs[runId].events|
    requires var a := Claims(w0, runId, id, since); a.Clean() ==> a.decision == Some(action)
    requires Deeds(w0, w1) == ActionDeeds(id, action)
    ensures Proven(w1, runId, id, since)
  {
    AnchorlessClaims(w0, w1, runId, id, since);
    assert w1.trace == w0.trace + ActionDeeds(id, action);
    hide AccountOf;
    assert Last(ActionDeeds(id, action)) == CleanupReturned(id);
    assert action == AutoMerge ==> ActionDeeds(id, action)[1] == MergeReturned(id);
  }

  /** The effects of the decision, each leaving its return on the trace. */
  method CarryOut(ctx: TicketRunContext, action: MergeAction) returns (r: Outcome<()>)
    requires ctx.Active() && (action == AutoMerge ==> MayMerge(ctx.deps.StageFor(ctx.ticket.id), ctx.deps.config))
    modifies ctx.deps, ctx.deps.store
    ensures ctx.Active() && Quiet(old(ctx.View()), ctx.View(), ctx.runId, ctx.ticket.id)
    ensures r.Ok? ==> Went(old(ctx.View()), ctx.View(), ctx.runId, ActionDeeds(ctx.ticket.id, action), [])
    ensures r.Err? ==> !r.error.IsLoopStateError() && ctx.deps.Disturbed(old(ctx.View()))
  {
    assert ctx.runId in ctx.View().runs;
    hide Later, Quiet, LoopDeps.Valid, RunStore.Valid, Proven, Went, Finished, Told, Deeds, Words;
    hide TicketRunContext.Active, StageOf, MayMerge;
    ghost var w0, id := ctx.View(), ctx.ticket.id;
    if action == AutoMerge {
      r := Merge(ctx);
    } else {
      r := EscalateToHuman(ctx);
    }
    ghost var w1 := ctx.View();
    if r.Err? {
      return;
    }
    r := Clean(ctx);
    QuietTransitive(w0, w1, ctx.View(), ctx.runId, id);
    if r.Ok? {
      QuietIsLater(w0, w1, ctx.runId, id);
      QuietIsLater(w1, ctx.View(), ctx.runId, id);
      WentOn(w0, w1, ctx.View(), ctx.runId, id,
             if action == AutoMerge then [MergePr(id), MergeReturned(id)] else [MarkEscalated(id)], [],
             [CleanupReturned(id)], []);
    } else {
      DisturbedSince(ctx.deps, w0, w1);
    }
  }

  /** One effect more, and nothing else. */
  lemma EmittedQuietly(w0: World, w1: World, runId: RunId, e: Effect)
    requires runId in w0.runs && w1 == w0.(trace := w0.trace + [e])
    ensures Quiet(w0, w1, runId, e.id) && Went(w0, w1, runId, [e], [])
  {
    assert w0.runs == w0.runs[runId := w0.runs[runId]];
    QuietIsWordless(w0, w1, runId, e.id);
  }

  method Merge(ctx: TicketRunContext) returns (r: Outcome<()>)
    requires ctx.Active() && MayMerge(ctx.deps.StageFor(ctx.ticket.id), ctx.deps.config)
    modifies ctx.deps, ctx.deps.store
    ensures ctx.Active() && Quiet(old(ctx.View()), ctx.View(), ctx.runId, ctx.ticket.id)
    ensures r.Ok? ==>
              Went(old(ctx.View()), ctx.View(), ctx.runId, [MergePr(ctx.ticket.id), MergeReturned(ctx.ticket.id)], [])
    ensures r.Err? ==> r.error == Thrown && ctx.deps.Disturbed(old(ctx.View()))
  {
    ghost var w0, id := ctx.View(), ctx.ticket.id;
    r := Do(ctx, MergePr(ctx.ticket.id));
    hide Quiet, Later, Went, RunStore.Valid, MayMerge;
    if r.Ok? {
      ghost var w1 := ctx.View();
      assert w1.trace == w0.trace + [MergePr(id)];
      ctx.deps.Emit(MergeReturned(ctx.ticket.id));
      ghost var w2 := ctx.View();
      EmittedQuietly(w1, w2, ctx.runId, MergeReturned(id));
      QuietTransitive(w0, w1, w2, ctx.runId, id);
      QuietIsLater(w0, w1, ctx.runId, id);
      QuietIsLater(w1, w2, ctx.runId, id);
      WentOn(w0, w1, w2, ctx.runId, id, [MergePr(id)], [], [MergeReturned(id)], []);
      assert [MergePr(id)] + [MergeReturned(id)] == [MergePr(id), MergeReturned(id)];
    }
  }

  method EscalateToHuman(ctx: TicketRunContext) returns (r: Outcome<()>)
    requires ctx.Active()
    modifies ctx.deps, ctx.deps.store
    ensures ctx.Active() && Quiet(old(ctx.View()), ctx.View(), ctx.runId, ctx.ticket.id)
    ensures r.Ok? ==> Went(old(ctx.View()), ctx.View(), ctx.runId, [MarkEscalated(ctx.ticket.id)], [])
    ensures r.Err? ==> !r.error.IsLoopStateError() && ctx.deps.Disturbed(old(ctx.View()))
  {
    hide LoopDeps.Valid, RunStore.Valid, Quiet, Later, Deeds, Words;
    ghost var w0 := ctx.View();
    r := Do(ctx, MarkEscalated(ctx.ticket.id));
    ghost var w1 := ctx.View();
    if r.Ok? {
      r := LogTriage(ctx);
      QuietTransitive(w0, w1, ctx.View(), ctx.runId, ctx.ticket.id);
      QuietIsWordless(w0, ctx.View(), ctx.runId, ctx.ticket.id);
    }
  }

  /** The item for the human's triage. */
  method LogTriage(ctx: TicketRunContext) returns (r: Outcome<()>)
    requires ctx.Active()
    modifies ctx.deps.store
    ensures ctx.Active() && Quiet(old(ctx.View()), ctx.View(), ctx.runId, ctx.ticket.id)
    ensures Deeds(old(ctx.View()), ctx.View()) == [] && ctx.View().throws == old(ctx.View()).throws
    ensures r.Ok? ==> exists ts ::
              ctx.Events() == old(ctx.Events()) + [RunEvent(ts, Triage, Some(ctx.ticket.id), None)]
    ensures r.Err? ==> r.error == StoreFailure && ctx.deps.Disturbed(old(ctx.View()))
  {
    r := ctx.Log(Triage, None);
  }

  method Clean(ctx: TicketRunContext) returns (r: Outcome<()>)
    requires ctx.Active()
    modifies ctx.deps, ctx.deps.store
    ensures ctx.Active() && Quiet(old(ctx.View()), ctx.View(), ctx.runId, ctx.ticket.id)
    ensures r.Ok? ==> Went(old(ctx.View()), ctx.View(), ctx.runId, [CleanupReturned(ctx.ticket.id)], [])
    ensures r.Err? ==> r.error == Thrown && ctx.deps.Disturbed(old(ctx.View()))
  {
    ghost var w0 := ctx.View();
    ctx.deps.store.Tick();
    r := ctx.deps.MayThrow();
    if r.Ok? {
      ctx.deps.Emit(CleanupReturned(ctx.ticket.id));
      QuietIsWordless(w0, ctx.View(), ctx.runId, ctx.ticket.id);
    }
  }

  /**
   * runMergeGateStep: without a remote it only closes locally; otherwise it pushes, opens the pull
   * request, decides, and does what it decided: the merge, or the escalation to a human.
   */
  method MergeGateStep(ctx: TicketRunContext, verdict: Verdict, ghost c: Setting, ghost l0: Life)
    returns (r: Outcome<()>, ghost l: Life)
    requires ctx.Active() && Proven(ctx.View(), ctx.runId, ctx.ticket.id, ctx.since) && Of(ctx, c)
    requires ctx.Snapshot().Phase() == Close && Shipping(ctx.deps.StageFor(ctx.ticket.id), verdict, ctx.deps.config)
    modifies ctx, ctx.deps, ctx.deps.store
    ensures ctx.Active() && Later(old(ctx.View()), ctx.View(), ctx.runId, ctx.ticket.id)
    ensures r.Ok? ==> Finished(ctx)
    ensures l == l0.(polls := l.polls, shipped := l.shipped, request := l.request)
    ensures r.Ok? ==>
              && (c.env.hasRemote ==> PollsAsked(c, l))
              && Went(old(ctx.View()), ctx.View(), ctx.runId, GateDeeds(c, l, verdict), GateWords(c, l, verdict))
    ensures r.Err? ==> !r.error.IsLoopStateError() && ctx.deps.Disturbed(old(ctx.View()))
  {
    hide *;
    Known(ctx);
    Rules();
    OfMeans(ctx, c);
    ghost var w0, id := ctx.View(), ctx.ticket.id;
    l := l0;
    if !ctx.deps.env.hasRemote {
      r := GoBack(ctx);
      ClosedLocally(c, l, verdict);
      return;
    }
    r := PushAndOpen(ctx, verdict);
    ghost var w1 := ctx.View();
    if r.Err? {
      return;
    }
    var action;
    action, l := Decide(ctx, verdict, c, l0);
    ghost var w2 := ctx.View();
    LaterTransitive(w0, w1, w2, ctx.runId, id);
    if action.Err? {
      DisturbedSince(ctx.deps, w0, w1);
      return Err(action.error), l;
    }
    ghost var decided := [Push(id), CreatePr(id)] + DecisionDeeds(id, l);
    WentOn(w0, w1, w2, ctx.runId, id, [Push(id), CreatePr(id)], [], DecisionDeeds(id, l), []);
    r := ActOn(ctx, action.value);
    ghost var w3 := ctx.View();
    LaterTransitive(w0, w2, w3, ctx.runId, id);
    if r.Err? {
      DisturbedSince(ctx.deps, w0, w2);
      return;
    }
    WentOn(w0, w2, w3, ctx.runId, id, decided, [], ActionDeeds(id, action.value), [MergeDecision(action.value)]);
    r := GoBack(ctx);
    LaterTransitive(w0, w3, ctx.View(), ctx.runId, id);
    if r.Err? {
      DisturbedSince(ctx.deps, w0, w3);
      return;
    }
    WentOn(w0, w3, ctx.View(), ctx.runId, id, decided + ActionDeeds(id, action.value), [MergeDecision(action.value)],
           [], []);
    GateRan(c, l, verdict, action.value);
  }

  lemma ClosedLocally(c: Setting, l: Life, verdict: Verdict)
    requires !c.env.hasRemote
    ensures GateDeeds(c, l, verdict) == [] && GateWords(c, l, verdict) == []
  {
  }

  /** The pieces of the gate make up its account. */
  lemma GateRan(c: Setting, l: Life, verdict: Verdict, action: MergeAction)
    requires c.env.hasRemote && (action == AutoMerge <==> Merges(c, l, verdict))
    ensures var id := c.ticket.id;
            [Push(id), CreatePr(id)] + DecisionDeeds(id, l) + ActionDeeds(id, action) + [] == GateDeeds(c, l, verdict)
    ensures [] + [MergeDecision(action)] + [] == GateWords(c, l, verdict)
  {
    hide Merges, PollTrace;
  }

  /** reviewStep and what is written about it. None: the fix broke the build. */
  method Reviewed(ctx: TicketRunContext, cwd: string) returns (r: Outcome<Option<Verdict>>, ghost seen: seq<Round>)
    requires ctx.Active() && Proven(ctx.View(), ctx.runId, ctx.ticket.id, ctx.since)
    requires ctx.deps.StageFor(ctx.ticket.id).Grounded() && ctx.deps.StageFor(ctx.ticket.id).ship == NO_SHIP
    requires ctx.deps.StageFor(ctx.ticket.id).work.begin.Some?
    requires Fresh(ctx.deps.StageFor(ctx.ticket.id), ctx.deps.config)
    modifies ctx.deps, ctx.deps.store
    ensures ctx.Active() && Later(old(ctx.View()), ctx.View(), ctx.runId, ctx.ticket.id)
    ensures Proven(ctx.View(), ctx.runId, ctx.ticket.id, ctx.since) && ctx.Snapshot() == old(ctx.Snapshot())
    ensures r.Ok? && r.value.Some? ==>
              var s := ctx.deps.StageFor(ctx.ticket.id);
              && r.value.value != RequestChanges && s.work.begin.Some? && Fresh(s, ctx.deps.config)
              && (s.ship.approved.Some? <==> r.value.value == Approve)
    ensures r.Ok? ==>
              && Ended(seen, ctx.deps.config.maxReviewRounds)
              && r.value == Conclusion(seen, ctx.deps.config.maxReviewRounds)
              && Went(old(ctx.View()), ctx.View(), ctx.runId, ReviewTrace(ctx.ticket.id, seen),
                      if r.value.Some? then [ReviewResult(r.value.value)] else [])
    ensures r.Err? ==> !r.error.IsLoopStateError() && ctx.deps.Disturbed(old(ctx.View()))
  {
    assert ctx.runId in ctx.View().runs;
    hide Later, Quiet, LoopDeps.Valid, RunStore.Valid, Proven, Went, Finished, Told, Deeds, Words;
    hide TicketRunContext.Active, StageOf, ReviewTrace, Ended, Conclusion, BuildsAreFixes;
    ghost var w0, id := ctx.View(), ctx.ticket.id;
    r, seen := ReviewSteps.ReviewStep(ctx, cwd);
    ghost var w1 := ctx.View();
    QuietKeepsProven(w0, w1, ctx.runId, id, ctx.since);
    QuietIsLater(w0, w1, ctx.runId, id);
    if r.Ok? {
      QuietWent(w0, w1, ctx.runId, id);
    }
    if r.Ok? && r.value.Some? {
      var written := ctx.Artifact();
      if written.Err? {
        return Err(written.error), seen;
      }
      var logged := LogFact(ctx, ReviewResult(r.value.value), None);
      LaterTransitive(w0, w1, ctx.View(), ctx.runId, id);
      if logged.Err? {
        return Err(logged.error), seen;
      }
      WentOn(w0, w1, ctx.View(), ctx.runId, id, ReviewTrace(id, seen), [], [], [ReviewResult(r.value.value)]);
      assert ReviewTrace(id, seen) + [] == ReviewTrace(id, seen);
    }
  }

  /** Close deterministically, then go to the gate. */
  method CloseAndShip(ctx: TicketRunContext, verdict: Verdict, ghost c: Setting, ghost l0: Life)
    returns (r: Outcome<()>, ghost l: Life)
    requires ctx.Active() && Proven(ctx.View(), ctx.runId, ctx.ticket.id, ctx.since) && Of(ctx, c)
    requires ctx.Snapshot().Phase() == Review && ctx.deps.StageFor(ctx.ticket.id).work.begin.Some?
    requires Fresh(ctx.deps.StageFor(ctx.ticket.id), ctx.deps.config)
    requires ctx.deps.StageFor(ctx.ticket.id).ship.approved.Some? <==> verdict == Approve
    modifies ctx, ctx.deps, ctx.deps.store
    ensures ctx.Active() && Later(old(ctx.View()), ctx.View(), ctx.runId, ctx.ticket.id)
    ensures r.Ok? ==> Finished(ctx)
    ensures l == l0.(polls := l.polls, shipped := l.shipped, request := l.request)
    ensures r.Ok? ==>
              && (c.env.hasRemote ==> PollsAsked(c, l))
              && Went(old(ctx.View()), ctx.View(), ctx.runId, [CloseTicket(ctx.ticket.id)] + GateDeeds(c, l, verdict),
                      [TicketClosed] + GateWords(c, l, verdict))
    ensures r.Err? ==> !r.error.IsLoopStateError() && ctx.deps.Disturbed(old(ctx.View()))
  {
    hide *;
    Known(ctx);
    Rules();
    OfMeans(ctx, c);
    ghost var w0, id := ctx.View(), ctx.ticket.id;
    l := l0;
    r := Move(ctx, Close, Keep);
    ghost var w1 := ctx.View();
    if r.Err? {
      return;
    }
    ClosedStage(ctx.deps.StageFor(id), id, |ctx.deps.trace|, verdict, ctx.deps.config);
    r := DoQuietly(ctx, CloseTicket(ctx.ticket.id));
    ghost var w2 := ctx.View();
    LaterTransitive(w0, w1, w2, ctx.runId, id);
    if r.Err? {
      DisturbedSince(ctx.deps, w0, w1);
      return;
    }
    WentOn(w0, w1, w2, ctx.runId, id, [], [], [CloseTicket(id)], []);
    r := LogFact(ctx, TicketClosed, None);
    ghost var w3 := ctx.View();
    LaterTransitive(w0, w2, w3, ctx.runId, id);
    if r.Err? {
      DisturbedSince(ctx.deps, w0, w2);
      return;
    }
    WentOn(w0, w2, w3, ctx.runId, id, [CloseTicket(id)], [], [], [TicketClosed]);
    r, l := MergeGateStep(ctx, verdict, c, l0);
    LaterTransitive(w0, w3, ctx.View(), ctx.runId, id);
    if r.Ok? {
      WentOn(w0, w3, ctx.View(), ctx.runId, id, [CloseTicket(id)], [TicketClosed], GateDeeds(c, l, verdict),
             GateWords(c, l, verdict));
    } else {
      DisturbedSince(ctx.deps, w0, w3);
    }
  }

  /** runTicketReviewClose: review, close, gate; a broken re-verification is routed back. */
  method ReviewAndClose(ctx: TicketRunContext, cwd: string, resume: Option<Resume>, ghost c: Setting, ghost l0: Life)
    returns (r: Outcome<()>, ghost l: Life)
    requires ReadyForReview(ctx, resume) && Of(ctx, c)
    modifies ctx, ctx.deps, ctx.deps.store
    ensures ctx.Active() && Later(old(ctx.View()), ctx.View(), ctx.runId, ctx.ticket.id)
    ensures r.Ok? ==> Finished(ctx)
    ensures l == l0.(rounds := l.rounds, polls := l.polls, shipped := l.shipped, request := l.request)
    ensures r.Ok? ==>
              && Ended(l.rounds, c.config.maxReviewRounds)
              && (VerdictOf(c, l).Some? && c.env.hasRemote ==> PollsAsked(c, l))
              && Went(old(ctx.View()), ctx.View(), ctx.runId, ReviewDeeds(c, l), ReviewWords(c, l))
    ensures r.Err? ==> Routable(ctx, r.error) && ctx.deps.Disturbed(old(ctx.View()))
  {
    hide *;
    ReadyMeans(ctx, resume);
    OfMeans(ctx, c);
    ghost var w0, id := ctx.View(), ctx.ticket.id;
    var review;
    ghost var rounds;
    review, rounds := EnterReview(ctx, cwd, resume);
    ghost var w1 := ctx.View();
    l := l0.(rounds := rounds);
    if review.Err? {
      return Err(review.error), l;
    }
    ghost var said := if review.value.Some? then [ReviewResult(review.value.value)] else [];
    ghost var deeds, words := [], [TicketFlagged];
    if review.value.None? {
      ProvenCovers(ctx);
      r := GiveUp(ctx);
    } else {
      r, l := CloseAndShip(ctx, review.value.value, c, l);
      Blameless(ctx, r);
      deeds := [CloseTicket(id)] + GateDeeds(c, l, review.value.value);
      words := [TicketClosed] + GateWords(c, l, review.value.value);
    }
    LaterTransitive(w0, w1, ctx.View(), ctx.runId, id);
    if r.Ok? {
      WentOn(w0, w1, ctx.View(), ctx.runId, id, ReviewTrace(id, rounds), said, deeds, words);
      ReviewRan(c, l, review.value);
    } else {
      DisturbedSince(ctx.deps, w0, w1);
    }
  }

  /** What is no loop-state error may be routed. */
  lemma Blameless<T>(ctx: TicketRunContext, r: Outcome<T>)
    requires r.Err? ==> !r.error.IsLoopStateError()
    ensures r.Err? ==> Routable(ctx, r.error)
  {
  }

  /** Into the review, unless the ticket was resumed in it, and the review. */
  method EnterReview(ctx: TicketRunContext, cwd: string, resume: Option<Resume>)
    returns (r: Outcome<Option<Verdict>>, ghost seen: seq<Round>)
    requires ReadyForReview(ctx, resume)
    modifies ctx, ctx.deps, ctx.deps.store
    ensures ctx.Active() && Later(old(ctx.View()), ctx.View(), ctx.runId, ctx.ticket.id)
    ensures Proven(ctx.View(), ctx.runId, ctx.ticket.id, ctx.since)
    ensures r.Ok? && r.value.Some? ==>
              var s := ctx.deps.StageFor(ctx.ticket.id);
              && ctx.Snapshot().Phase() == Review
              && r.value.value != RequestChanges && s.work.begin.Some? && Fresh(s, ctx.deps.config)
              && (s.ship.approved.Some? <==> r.value.value == Approve)
    ensures r.Ok? ==>
              && Ended(seen, ctx.deps.config.maxReviewRounds)
              && r.value == Conclusion(seen, ctx.deps.config.maxReviewRounds)
              && Went(old(ctx.View()), ctx.View(), ctx.runId, ReviewTrace(ctx.ticket.id, seen),
                      if r.value.Some? then [ReviewResult(r.value.value)] else [])
    ensures r.Err? ==> Routable(ctx, r.error) && ctx.deps.Disturbed(old(ctx.View()))
  {
    assert ctx.runId in ctx.View().runs;
    Rules();
    hide Later, Quiet, LoopDeps.Valid, RunStore.Valid, Proven, Went, Finished, Told, Deeds, Words;
    hide TicketRunContext.Active, StageOf, Ended, Conclusion, ReviewTrace, Fresh, Stage.Grounded;
    ghost var w0, id := ctx.View(), ctx.ticket.id;
    seen := [];
    NothingWent(w0, ctx.runId, id);
    if !(resume.Some? && resume.value.phase == Review) {
      var entered := Move(ctx, Review, Keep);
      if entered.Err? {
        return Err(entered.error), seen;
      }
    }
    ghost var w1 := ctx.View();
    r, seen := Reviewed(ctx, cwd);
    LaterTransitive(w0, w1, ctx.View(), ctx.runId, id);
    if r.Err? {
      DisturbedSince(ctx.deps, w0, w1);
    } else {
      WentOn(w0, w1, ctx.View(), ctx.runId, id, [], [], ReviewTrace(id, seen),
             if r.value.Some? then [ReviewResult(r.value.value)] else []);
    }
  }

  /** The pieces of the review and what follows it make up their account. */
  lemma ReviewRan(c: Setting, l: Life, verdict: Option<Verdict>)
    requires verdict == Conclusion(l.rounds, c.config.maxReviewRounds)
    ensures VerdictOf(c, l) == verdict
    ensures var said := if verdict.Some? then [ReviewResult(verdict.value)] else [];
            match verdict
            case None =>
              && ReviewDeeds(c, l) == ReviewTrace(c.ticket.id, l.rounds) + []
              && ReviewWords(c, l) == said + [TicketFlagged]
            case Some(v) =>
              && ReviewDeeds(c, l) == ReviewTrace(c.ticket.id, l.rounds)
                                      + ([CloseTicket(c.ticket.id)] + GateDeeds(c, l, v))
              && ReviewWords(c, l) == said + ([TicketClosed] + GateWords(c, l, v))
  {
    hide Conclusion, GateDeeds, GateWords, ReviewTrace;
  }

  // ----- the whole ticket -----

  /** The lifecycle without its catch. */
  method RunSteps(ctx: TicketRunContext, resume: Option<Resume>, ghost c: Setting, ghost l0: Life)
    returns (r: Outcome<()>, ghost l: Life)
    requires ctx.Active() && Proven(ctx.View(), ctx.runId, ctx.ticket.id, ctx.since)
    requires ctx.Snapshot().Phase() == (if resume.Some? then resume.value.phase else SelectTicket)
    requires resume.Some? ==> resume.value.phase == ExecutePlan || resume.value.phase == Review
    requires JustBegun(ctx.deps.StageFor(ctx.ticket.id), ctx.ticket, ctx.deps.env, resume)
    requires Of(ctx, c) && c.resumed == ResumedAt(resume)
    modifies ctx, ctx.deps, ctx.deps.store
    ensures ctx.Active() && Later(old(ctx.View()), ctx.View(), ctx.runId, ctx.ticket.id)
    ensures r.Ok? ==> Finished(ctx)
    ensures r.Ok? && ctx.FaultFree() ==>
              Lived(c, l) && Went(old(ctx.View()), ctx.View(), ctx.runId, LifeDeeds(c, l), LifeWords(c, l))
    ensures r.Err? ==> Routable(ctx, r.error) && ctx.deps.Disturbed(old(ctx.View()))
  {
    assert ctx.runId in ctx.View().runs;
    hide Later, Quiet, LoopDeps.Valid, RunStore.Valid, Proven, Went, Finished, Told, Deeds, Words;
    hide TicketRunContext.Active, StageOf, JustBegun, PollsAsked, PlanAsked, Ended;
    hide StartDeeds, BuildDeeds, BuildWords, ReviewDeeds, ReviewWords, LifeDeeds, LifeWords, Starts, Builds, VerdictOf;
    hide IsBuilt;
    ghost var w0, id := ctx.View(), ctx.ticket.id;
    var wt;
    wt, l := PrepareTicketWorktree(ctx, resume, c, l0);
    ghost var w1 := ctx.View();
    if wt.Err? {
      return Err(wt.error), l;
    }
    if wt.value.None? {
      if ctx.FaultFree() {
        NeverStarted(c, l);
      }
      return Ok(()), l;
    }
    ghost var l1 := l;
    var shouldReview;
    shouldReview, l := ExecutionGate(ctx, wt.value.value, resume, c, l1);
    ghost var w2 := ctx.View();
    LaterTransitive(w0, w1, w2, ctx.runId, id);
    if shouldReview.Err? {
      DisturbedSince(ctx.deps, w0, w1);
      return Err(shouldReview.error), l;
    }
    SameStart(c, l1, l);
    if ctx.FaultFree() {
      WentOn(w0, w1, w2, ctx.runId, id, StartDeeds(c, l), [], BuildDeeds(c, l), BuildWords(c, l));
    }
    if !shouldReview.value {
      if ctx.FaultFree() {
        NeverReviewed(c, l);
      }
      return Ok(()), l;
    }
    ghost var l2 := l;
    r, l := ReviewAndClose(ctx, wt.value.value, resume, c, l2);
    LaterTransitive(w0, w2, ctx.View(), ctx.runId, id);
    SameStart(c, l2, l);
    SameBuild(c, l2, l);
    if r.Err? {
      DisturbedSince(ctx.deps, w0, w2);
    } else if ctx.FaultFree() {
      WentOn(w0, w2, ctx.View(), ctx.runId, id, StartDeeds(c, l) + BuildDeeds(c, l), [] + BuildWords(c, l),
             ReviewDeeds(c, l), ReviewWords(c, l));
      WholeLife(c, l);
    }
  }

  lemma SameStart(c: Setting, a: Life, b: Life)
    requires a.worktree == b.worktree && a.started == b.started
    ensures (Starts(c, a) <==> Starts(c, b)) && StartDeeds(c, a) == StartDeeds(c, b)
  {
  }

  lemma SameBuild(c: Setting, a: Life, b: Life)
    requires b == a.(rounds := b.rounds, polls := b.polls, shipped := b.shipped, request := b.request)
    ensures (Builds(c, a) <==> Builds(c, b)) && (PlanAsked(c, a) <==> PlanAsked(c, b))
    ensures BuildDeeds(c, a) == BuildDeeds(c, b) && BuildWords(c, a) == BuildWords(c, b)
  {
    hide PlanTrace, Returns, SubstantiveChangedFiles;
    assert Changes(c, a) <==> Changes(c, b);
    if PlanAsked(c, a) {
      var outcome :| Returns(a.attempts, outcome, KnobsOf(c.config, c.env));
      assert Returns(b.attempts, outcome, KnobsOf(c.config, c.env));
    }
    if PlanAsked(c, b) {
      var outcome :| Returns(b.attempts, outcome, KnobsOf(c.config, c.env));
      assert Returns(a.attempts, outcome, KnobsOf(c.config, c.env));
    }
    hide Changes, Captures, Verifies, IsBuilt, PlanAsked;
    assert Verifies(a) <==> Verifies(b) by { VerifiesAlike(a, b); }
  }

  lemma VerifiesAlike(a: Life, b: Life)
    requires a.attempts == b.attempts
    ensures Verifies(a) <==> Verifies(b)
  {
  }

  lemma NeverStarted(c: Setting, l: Life)
    requires !Starts(c, l)
    ensures LifeDeeds(c, l) == StartDeeds(c, l) && LifeWords(c, l) == [TicketFlagged] && Lived(c, l)
  {
    hide StartDeeds, Starts;
    assert StartDeeds(c, l) + [] == StartDeeds(c, l);
  }

  lemma NeverReviewed(c: Setting, l: Life)
    requires Starts(c, l) && !Builds(c, l) && (IsBuilt(c) ==> PlanAsked(c, l))
    ensures LifeDeeds(c, l) == StartDeeds(c, l) + BuildDeeds(c, l) && LifeWords(c, l) == [] + BuildWords(c, l)
    ensures Lived(c, l)
  {
    hide StartDeeds, Starts, Builds, BuildDeeds, BuildWords, IsBuilt, PlanAsked;
    assert BuildDeeds(c, l) + [] == BuildDeeds(c, l) && BuildWords(c, l) + [] == [] + BuildWords(c, l);
  }

  lemma WholeLife(c: Setting, l: Life)
    requires Starts(c, l) && Builds(c, l) && (IsBuilt(c) ==> PlanAsked(c, l))
    requires Ended(l.rounds, c.config.maxReviewRounds)
    requires VerdictOf(c, l).Some? && c.env.hasRemote ==> PollsAsked(c, l)
    ensures LifeDeeds(c, l) == StartDeeds(c, l) + BuildDeeds(c, l) + ReviewDeeds(c, l)
    ensures LifeWords(c, l) == [] + BuildWords(c, l) + ReviewWords(c, l)
    ensures Lived(c, l)
  {
    hide StartDeeds, Starts, Builds, BuildDeeds, BuildWords, IsBuilt, PlanAsked, ReviewDeeds, ReviewWords, Ended,
      VerdictOf, PollsAsked;
    assert StartDeeds(c, l) + (BuildDeeds(c, l) + ReviewDeeds(c, l)) ==
           StartDeeds(c, l) + BuildDeeds(c, l) + ReviewDeeds(c, l);
    assert BuildWords(c, l) + ReviewWords(c, l) == [] + BuildWords(c, l) + ReviewWords(c, l);
  }

  /** Where a ticket's lifecycle may be entered: at selection, or where a crash left it. */
  ghost predicate Enterable(deps: LoopDeps, runId: RunId, ticket: Ticket, resume: Option<Resume>)
    reads deps, deps.store
  {
    && deps.Valid() && runId in deps.store.runs
    && var s := deps.store.runs[runId].state;
    && Untripped(s)
    && match resume
       case None => Settled(s)
       case Some(at) => (at.phase == ExecutePlan || at.phase == Review) && s.Phase() == at.phase
                        && s.currentTicketId == Some(ticket.id)
  }

  /**
   * runTicket, under every pattern of failed writes and appends. When state can be read it
   * never proposes an illegal or denied move, and returning normally it has settled; what
   * the log then claims about shipping really happened, and every merge was justified. When no
   * state is lost and nothing throws, what it did and said is the whole account of the ticket.
   */
  method RunTicket(deps: LoopDeps, runId: RunId, ticket: Ticket, resume: Option<Resume>, ghost since: nat)
    returns (r: Outcome<()>, ghost l: Life)
    requires Enterable(deps, runId, ticket, resume)
    requires Proven(deps.View(), runId, ticket.id, since)
    modifies deps, deps.store
    ensures deps.Valid() && Later(old(deps.View()), deps.View(), runId, ticket.id)
    ensures var s := deps.store.runs[runId].state;
            s.Phase() == SelectTicket || InTicket(s.Phase())
    ensures Untripped(deps.store.runs[runId].state)
    ensures r.Ok? ==> Proven(deps.View(), runId, ticket.id, since)
    ensures r.Ok? && !deps.store.faults.readsFail ==> Settled(deps.store.runs[runId].state)
    ensures r.Err? && !deps.store.faults.readsFail ==> !r.error.IsLoopStateError()
    ensures !deps.store.faults.readsFail && !deps.store.faults.writesFail ==> r.Ok?
    ensures !deps.Disturbed(old(deps.View())) ==>
              var c := Setting(ticket, ResumedAt(resume), deps.env, deps.config);
              && Lived(c, l)
              && Went(old(deps.View()), deps.View(), runId,
                      [Begin(ticket.id, ticket.relPath, Captures(c), ResumedAt(resume))] + LifeDeeds(c, l),
                      LifeWords(c, l))
    ensures !deps.store.faults.readsFail && !deps.store.faults.writesFail && deps.Disturbed(old(deps.View())) ==>
              var words := Words(old(deps.View()), deps.View(), runId); words != [] && Last(words) == TicketFlagged
  {
    hide LoopDeps.Valid, RunStore.Valid, Proven, Lived, LifeDeeds, LifeWords, Deeds, Words;
    ghost var w0, id := deps.View(), ticket.id;
    var golden := ticket.refactor && deps.env.goldenCapture && resume.None?;
    BeginTicket(deps, runId, ticket, golden, since, if resume.Some? then Some(resume.value.phase) else None);
    ghost var w1 := deps.View();
    var phase := if resume.Some? then resume.value.phase else SelectTicket;
    var ctx := new TicketRunContext(deps, runId, ticket, phase, since);
    ghost var c := Setting(ticket, ResumedAt(resume), deps.env, deps.config);
    ghost var l0: Life := *;
    r, l := RunCaught(ctx, resume, c, l0);
    LaterTransitive(w0, w1, deps.View(), runId, id);
    if !deps.Disturbed(w1) {
      WentOn(w0, w1, deps.View(), runId, id, [Begin(id, ticket.relPath, golden, ResumedAt(resume))], [],
             LifeDeeds(c, l), LifeWords(c, l));
      assert [] + LifeWords(c, l) == LifeWords(c, l);
    }
  }

  /** The lifecycle with its catch: what broke flags the ticket, unless a move was illegal or denied. */
  method RunCaught(ctx: TicketRunContext, resume: Option<Resume>, ghost c: Setting, ghost l0: Life)
    returns (r: Outcome<()>, ghost l: Life)
    requires ctx.Active() && Proven(ctx.View(), ctx.runId, ctx.ticket.id, ctx.since)
    requires ctx.Snapshot().Phase() == (if resume.Some? then resume.value.phase else SelectTicket)
    requires resume.Some? ==> resume.value.phase == ExecutePlan || resume.value.phase == Review
    requires JustBegun(ctx.deps.StageFor(ctx.ticket.id), ctx.ticket, ctx.deps.env, resume)
    requires Of(ctx, c) && c.resumed == ResumedAt(resume)
    modifies ctx, ctx.deps, ctx.deps.store
    ensures ctx.Active() && Later(old(ctx.View()), ctx.View(), ctx.runId, ctx.ticket.id)
    ensures r.Ok? ==> Finished(ctx)
    ensures r.Err? ==> Routable(ctx, r.error)
    ensures ctx.FaultFree() ==> r.Ok?
    ensures !ctx.deps.Disturbed(old(ctx.View())) ==>
              Lived(c, l) && Went(old(ctx.View()), ctx.View(), ctx.runId, LifeDeeds(c, l), LifeWords(c, l))
    ensures ctx.FaultFree() && ctx.deps.Disturbed(old(ctx.View())) ==>
              var words := Words(old(ctx.View()), ctx.View(), ctx.runId); words != [] && Last(words) == TicketFlagged
  {
    hide *;
    Known(ctx);
    ghost var w0 := ctx.View();
    r, l := RunSteps(ctx, resume, c, l0);
    ghost var w1 := ctx.View();
    Known(ctx);
    Faultless(ctx, r);
    if r.Ok? {
      UndisturbedIf(ctx, w0, LifeDeeds(c, l), LifeWords(c, l));
    }
    if r.Err? && !r.error.IsLoopStateError() {
      Broken(ctx, w0);
      r := GiveUp(ctx);
      Known(ctx);
      LaterTransitive(w0, w1, ctx.View(), ctx.runId, ctx.ticket.id);
      GaveUp(ctx, w0, w1, r);
    }
  }

  /** With state that can be read and written, what may be routed is no loop-state error. */
  lemma Faultless<T>(ctx: TicketRunContext, r: Outcome<T>)
    ensures ctx.FaultFree() && r.Err? && Routable(ctx, r.error) ==> !r.error.IsLoopStateError()
    ensures !ctx.FaultFree() ==> forall w: World :: ctx.deps.Disturbed(w)
  {
  }

  /** A stretch with an account is undisturbed when no state is lost. */
  lemma UndisturbedIf(ctx: TicketRunContext, w: World, deeds: Trace, words: seq<EventKind>)
    requires ctx.FaultFree() ==> Went(w, ctx.View(), ctx.runId, deeds, words)
    ensures ctx.FaultFree() ==> !ctx.deps.Disturbed(w)
  {
    hide Deeds, Words;
  }

  lemma Broken(ctx: TicketRunContext, since: World)
    requires ctx.Active() && Later(since, ctx.View(), ctx.runId, ctx.ticket.id) && ctx.deps.Disturbed(since)
    requires Proven(since, ctx.runId, ctx.ticket.id, ctx.since)
    ensures ctx.View().throws > since.throws || !ctx.FaultFree()
    ensures ctx.since <= |ctx.Events()|
  {
  }

  /** Giving up after something went wrong: flagged last, unless state is lost. */
  lemma GaveUp(ctx: TicketRunContext, w0: World, w1: World, r: Outcome<()>)
    requires ctx.Active() && Later(w0, w1, ctx.runId, ctx.ticket.id)
    requires Later(w1, ctx.View(), ctx.runId, ctx.ticket.id)
    requires r.Ok? ==> Went(w1, ctx.View(), ctx.runId, [], [TicketFlagged])
    requires r.Err? ==> ctx.deps.Disturbed(w1) && ctx.View().throws == w1.throws
    requires w1.throws > w0.throws || !ctx.FaultFree()
    ensures ctx.deps.Disturbed(w0) && (ctx.FaultFree() ==> r.Ok?)
    ensures r.Ok? ==> var words := Words(w0, ctx.View(), ctx.runId); words != [] && Last(words) == TicketFlagged
  {
    hide LoopDeps.Valid, RunStore.Valid, Deeds, Words;
    LaterTransitive(w0, w1, ctx.View(), ctx.runId, ctx.ticket.id);
    LastWord(Words(w0, w1, ctx.runId), TicketFlagged);
  }

  lemma LastWord(words: seq<EventKind>, word: EventKind)
    ensures words + [word] != [] && Last(words + [word]) == word
  {
  }

  /** Marks on the trace that the ticket is taken up. */
  ghost method BeginTicket(deps: LoopDeps, runId: RunId, ticket: Ticket, golden: bool, since: nat,
      resumed: Option<LoopState>)
    requires deps.Valid() && runId in deps.store.runs && Proven(deps.View(), runId, ticket.id, since)
    modifies deps`trace
    ensures deps.Valid() && Later(old(deps.View()), deps.View(), runId, ticket.id)
    ensures Proven(deps.View(), runId, ticket.id, since)
    ensures Went(old(deps.View()), deps.View(), runId, [Begin(ticket.id, ticket.relPath, golden, resumed)], [])
    ensures deps.StageFor(ticket.id)
            == Stage(Work(Some(|old(deps.trace)|), ticket.relPath, golden, resumed == Some(Review), None, None),
              NO_CHECKED, NO_SHIP)
  {
    deps.Emit(Begin(ticket.id, ticket.relPath, golden, resumed));
    LaterReflexive(old(deps.View()), runId, ticket.id);
    QuietIsWordless(old(deps.View()), deps.View(), runId, ticket.id);
  }
}
