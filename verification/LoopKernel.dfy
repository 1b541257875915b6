/** The persisting state-machine driver (src/loopKernel.ts), with the budget guard wired in. */
module LoopKernels {
  import opened Prelude
  import opened LoopStates
  import opened RunStates
  import opened Budgets
  import opened Failures
  import opened RunStores
  import opened LoopDependencies

  /** AdvanceOptions.statePatch: absent, or the active ticket to write with the phase. */
  datatype TicketPatch = Keep | SetTicket(ticketId: Option<TicketId>)

  /** The snapshot a move writes. */
  function Moved(s: RunState, to: LoopState, patch: TicketPatch): RunState {
    var t := s.(currentPhase := Some(to),
                currentTicketId := if patch.SetTicket? then patch.ticketId else s.currentTicketId);
    if Terminal(to) then t.(status := if to == Done then Completed else Stopped, currentTicketId := None) else t
  }

  /**
   * A move writes its phase and the ticket it is given; at the end of a run it also closes the run,
   * with no ticket in hand. Nothing else changes.
   */
  lemma MovedMeans(s: RunState, to: LoopState, patch: TicketPatch)
    ensures var m := Moved(s, to, patch);
            && m == s.(currentPhase := Some(to), currentTicketId := m.currentTicketId, status := m.status)
            && (if to in {Done, BudgetExceeded, NoProgress, NeedsHuman}
                then m.currentTicketId.None? && m.status == (if to == Done then Completed else Stopped)
                else && m.status == s.status
                     && m.currentTicketId == (if patch.SetTicket? then patch.ticketId else s.currentTicketId))
  {
  }

  /** The caller's duty: a legal move leaves a ticket recorded exactly when it leads into one. */
  predicate PatchFits(s: RunState, to: LoopState, patch: TicketPatch) {
    CanTransition(s.Phase(), to) ==> (Moved(s, to, patch).currentTicketId.Some? <==> InTicket(to))
  }

  /** A legal, allowed move keeps the run coherent and is a legal write. */
  lemma MovedIsOk(run: Run, to: LoopState, patch: TicketPatch)
    requires RunOk(run) && CanTransition(run.state.Phase(), to) && GuardDenial(run.state, to).None?
    requires PatchFits(run.state, to, patch)
    ensures RunOk(Run(Moved(run.state, to, patch), run.events))
    ensures LegalWrite(run, Run(Moved(run.state, to, patch), run.events))
  {
    UntrippedMeansNoDenial(run.state, to);
    var moved := Moved(run.state, to, patch);
    assert moved.Phase() == to;
    if InTicket(to) {
      assert !GuardExempt(to);
      assert forall arm :: ViewTripped(moved.budget, moved.noProgress, arm)
                           == ViewTripped(run.state.budget, run.state.noProgress, arm);
    }
  }

  /** kernel.current: the persisted phase. */
  method Current(deps: LoopDeps, runId: RunId) returns (r: Outcome<LoopState>)
    requires runId in deps.store.runs
    ensures r.Ok? ==> r.value == deps.store.runs[runId].state.Phase()
    ensures r.Err? ==> deps.store.faults.readsFail && r.error == StoreFailure
  {
    var state :- deps.store.ReadState(runId);
    r := Ok(state.Phase());
  }

  /** assertTransition and the guard: nothing is written here. */
  method Check(deps: LoopDeps, runId: RunId, to: LoopState) returns (r: Outcome<RunState>)
    requires runId in deps.store.runs
    ensures var s := deps.store.runs[runId].state;
            && (r.Ok? ==> r.value == s && CanTransition(s.Phase(), to) && GuardDenial(s, to).None?)
            && (r.Err? && r.error.IsLoopStateError() ==> CanTransition(s.Phase(), to) ==> GuardDenial(s, to).Some?)
            && (r.Err? && !r.error.IsLoopStateError() ==> r.error == StoreFailure && deps.store.faults.readsFail)
  {
    var state :- deps.store.ReadState(runId);
    if !CanTransition(state.Phase(), to) {
      return Err(IllegalMove(state.Phase(), to));
    }
    var denial := GuardDenial(state, to);
    if denial.Some? {
      return Err(Denied(state.Phase(), to, denial.value));
    }
    r := Ok(state);
  }

  /** Snapshot first, event second: a fault in between leaves the move made and unlogged. */
  method Persist(deps: LoopDeps, runId: RunId, moved: RunState, event: EventKind, ticketId: Option<TicketId>,
      to: LoopState)
    returns (r: Outcome<()>)
    requires deps.Valid() && runId in deps.store.runs
    requires RunOk(Run(moved, deps.store.runs[runId].events))
    requires LegalWrite(deps.store.runs[runId], Run(moved, deps.store.runs[runId].events))
    requires event.LoopTransition?
    modifies deps.store
    ensures deps.Valid() && deps.store.clock >= old(deps.store.clock) && old(deps.store.disks) <= deps.store.disks
    ensures deps.store.nextId == old(deps.store.nextId)
    ensures r.Ok? ==>
              deps.store.runs == old(deps.store.runs)[runId := Run(moved, old(deps.store.runs[runId].events)
                + [RunEvent(deps.store.clock, event, ticketId, Some(to))])]
    ensures r.Err? ==>
              && r.error == StoreFailure && deps.store.faults.writesFail
              && (deps.store.runs == old(deps.store.runs)
                  || deps.store.runs == old(deps.store.runs)[runId := Run(moved, old(deps.store.runs[runId].events))])
  {
    var _ :- deps.store.WriteState(runId, moved);
    var _ :- deps.store.AppendEvent(runId, event, ticketId, Some(to));
    r := Ok(());
  }

  /**
   * kernel.advance: check the table, ask the guard, write the snapshot, append the event.
   * A store failure can leave the snapshot moved and the event missing, nothing else.
   */
  method Advance(deps: LoopDeps, runId: RunId, to: LoopState, ticketId: Option<TicketId>, patch: TicketPatch)
    returns (r: Outcome<()>)
    requires deps.Valid() && runId in deps.store.runs
    requires PatchFits(deps.store.runs[runId].state, to, patch)
    modifies deps.store
    ensures deps.Valid() && deps.store.clock >= old(deps.store.clock) && old(deps.store.disks) <= deps.store.disks
    ensures deps.store.nextId == old(deps.store.nextId)
    ensures Advanced(old(deps.store.runs), deps.store.runs, runId, to, ticketId, patch, r, deps.store.clock)
    ensures r.Err? && r.error == StoreFailure ==> deps.store.faults.readsFail || deps.store.faults.writesFail
  {
    assert RunOk(deps.store.runs[runId]) by {
      assert Last(deps.store.disks) in deps.store.disks;
    }
    var state :- Check(deps, runId, to);
    MovedIsOk(deps.store.runs[runId], to, patch);
    r := Persist(deps, runId, Moved(state, to, patch), LoopTransition(state.Phase()), ticketId, to);
  }

  /** How a call of `Advance` may have changed the disk, case by case of its result. */
  predicate Advanced(before: Disk, after: Disk, runId: RunId, to: LoopState, ticketId: Option<TicketId>,
                     patch: TicketPatch, r: Outcome<()>, clock: int)
    requires runId in before
  {
    var s, events := before[runId].state, before[runId].events;
    var allowed := CanTransition(s.Phase(), to) && GuardDenial(s, to).None?;
    var moved := Moved(s, to, patch);
    match r
    case Ok(_) =>
      allowed
      && after == before[runId := Run(moved, events + [RunEvent(clock, LoopTransition(s.Phase()), ticketId, Some(to))])]
    case Err(StoreFailure) =>
      after == before || (allowed && after == before[runId := Run(moved, events)])
    case Err(error) =>
      error.IsLoopStateError() && !allowed && after == before
  }
}
