/** Where a crashed run is re-entered (src/resume.ts, latestResumableRun in src/runStore.ts). */
module Resumes {
  import opened Prelude
  import opened LoopStates
  import opened RunStates
  import opened Budgets
  import opened Failures
  import opened RunStores
  import opened LoopDependencies
  import opened TicketContexts
  import opened MergeGates
  import opened TicketLifecycles

  datatype ResumePoint = ResumePoint(runId: RunId, ticketId: TicketId, phase: LoopState, site: Site, callIndex: nat,
    cwd: string)

  predicate BuilderPhase(p: Option<LoopState>) {
    p == Some(ExecutePlan) || p == Some(Review)
  }

  predicate TerminalRunEvent(e: RunEvent) {
    e.kind.RunCompleted? || e.kind.RunStopped? || e.kind.RunFailed?
  }

  predicate HasTerminalEvent(events: seq<RunEvent>) {
    exists k :: 0 <= k < |events| && TerminalRunEvent(events[k])
  }

  /** runner.started for this phase and ticket. */
  predicate StartedFor(e: RunEvent, phase: Option<LoopState>, ticketId: Option<TicketId>) {
    e.kind.RunnerStarted? && e.phase == phase && e.ticketId == ticketId
  }

  /** The last matching event: [...events].reverse().find(...). */
  function LastStarted(events: seq<RunEvent>, phase: Option<LoopState>,
      ticketId: Option<TicketId>): (r: Option<RunEvent>)
    ensures r.Some? ==> StartedFor(r.value, phase, ticketId)
  {
    if events == [] then None
    else if StartedFor(Last(events), phase, ticketId) then Some(Last(events))
    else LastStarted(Init(events), phase, ticketId)
  }

  lemma {:induction false} LastStartedIsLast(events: seq<RunEvent>, phase: Option<LoopState>,
      ticketId: Option<TicketId>)
    ensures var r := LastStarted(events, phase, ticketId);
            && (r.None? ==> forall k :: 0 <= k < |events| ==> !StartedFor(events[k], phase, ticketId))
            && (r.Some? ==>
                  exists k ::
                    && 0 <= k < |events| && events[k] == r.value && StartedFor(r.value, phase, ticketId)
                    && forall j :: k < j < |events| ==> !StartedFor(events[j], phase, ticketId))
  {
    if events != [] {
      if StartedFor(Last(events), phase, ticketId) {
        assert events[|events| - 1] == Last(events);
      } else {
        LastStartedIsLast(Init(events), phase, ticketId);
        var r := LastStarted(Init(events), phase, ticketId);
        if r.Some? {
          var k :| 0 <= k < |Init(events)| && Init(events)[k] == r.value
                   && forall j :: k < j < |Init(events)| ==> !StartedFor(Init(events)[j], phase, ticketId);
          assert events[k] == r.value;
          assert forall j :: k < j < |Init(events)| ==> events[j] == Init(events)[j];
        }
      }
    }
  }

  /** The point one run can be resumed at, if any. */
  function PointOf(id: RunId, run: Run): Option<ResumePoint> {
    var s := run.state;
    if !BuilderPhase(s.currentPhase) || s.currentTicketId.None? || HasTerminalEvent(run.events) then None
    else match LastStarted(run.events, s.currentPhase, s.currentTicketId)
         case None => None
         case Some(e) =>
           if e.kind.cwd == "" then None
           else Some(ResumePoint(id, s.currentTicketId.value, s.currentPhase.value, e.kind.site, e.kind.callIndex,
             e.kind.cwd))
  }

  /** A running run that no other running run started after. */
  predicate LatestRunning(d: Disk, id: RunId) {
    && id in d && d[id].state.status == Running
    && forall k :: k in d && d[k].state.status == Running ==> d[k].state.startedAt <= d[id].state.startedAt
  }

  method LatestResumableRun(d: Disk) returns (r: Option<RunId>)
    ensures r.Some? ==> LatestRunning(d, r.value)
    ensures r.None? ==> forall k :: k in d ==> d[k].state.status != Running
  {
    var todo := d.Keys;
    r := None;
    while todo != {}
      invariant todo <= d.Keys
      invariant r.Some? ==> r.value in d && d[r.value].state.status == Running
      invariant forall k :: k in d && k !in todo && d[k].state.status == Running ==>
                  r.Some? && d[k].state.startedAt <= d[r.value].state.startedAt
      decreases todo
    {
      var k :| k in todo;
      todo := todo - {k};
      if d[k].state.status == Running && (r.None? || d[r.value].state.startedAt <= d[k].state.startedAt) {
        r := Some(k);
      }
    }
  }

  /** resolveResumePoint over what is on disk. */
  method ResolveResumePoint(store: RunStore) returns (r: Outcome<Option<ResumePoint>>)
    requires store.Valid()
    ensures r.Ok? && r.value.Some? ==>
              && LatestRunning(store.runs, r.value.value.runId)
              && PointOf(r.value.value.runId, store.runs[r.value.value.runId]) == r.value
    ensures r.Ok? && r.value.None? ==>
              || (forall k :: k in store.runs ==> store.runs[k].state.status != Running)
              || (exists id :: LatestRunning(store.runs, id) && PointOf(id, store.runs[id]).None?)
    ensures r.Err? ==> store.faults.readsFail && r.error == StoreFailure
  {
    var latest := LatestResumableRun(store.runs);
    if latest.None? {
      return Ok(None);
    }
    var state :- store.ReadState(latest.value);
    var events :- store.ReadEvents(latest.value);
    r := Ok(PointOf(latest.value, Run(state, events)));
  }

  /** What a resume point says is what the snapshot and the log say. */
  ghost predicate Faithful(d: Disk, p: ResumePoint) {
    && p.runId in d
    && var run := d[p.runId];
    && run.state.status == Running
    && (p.phase == ExecutePlan || p.phase == Review) && run.state.Phase() == p.phase
    && run.state.currentTicketId == Some(p.ticketId)
    && Untripped(run.state)
    && (forall k :: 0 <= k < |run.events| ==>
          !run.events[k].kind.RunCompleted? && !run.events[k].kind.RunStopped? && !run.events[k].kind.RunFailed?)
    && exists k :: 0 <= k < |run.events|
                   && StartedFor(run.events[k], Some(p.phase), Some(p.ticketId))
                   && run.events[k].kind == RunnerStarted(p.site, p.callIndex, p.cwd)
                   && forall j :: k < j < |run.events| ==> !StartedFor(run.events[j], Some(p.phase), Some(p.ticketId))
  }

  /** A point comes only from a faithful reading, and a running run has none exactly for one of these reasons. */
  lemma PointIsFaithful(d: Disk, id: RunId)
    requires DiskOk(d) && LatestRunning(d, id)
    ensures PointOf(id, d[id]).Some? ==> Faithful(d, PointOf(id, d[id]).value)
    ensures PointOf(id, d[id]).None? <==> Unresumable(d[id])
  {
    var run := d[id];
    assert RunOk(run);
    LastStartedIsLast(run.events, run.state.currentPhase, run.state.currentTicketId);
    var r := LastStarted(run.events, run.state.currentPhase, run.state.currentTicketId);
    assert forall k: nat :: CalledFor(run, k) <==>
      k < |run.events| && StartedFor(run.events[k], run.state.currentPhase, run.state.currentTicketId);
    if r.Some? {
      var last: nat :| last < |run.events| && run.events[last] == r.value
                       && forall j :: last < j < |run.events| ==>
                            !StartedFor(run.events[j], run.state.currentPhase, run.state.currentTicketId);
      assert CalledFor(run, last) && forall j: nat :: last < j ==> !CalledFor(run, j);
    }
    hide LastStarted;
  }

  /** A runner call that was started for the ticket in hand, in the phase it is in. */
  predicate CalledFor(run: Run, k: nat) {
    && k < |run.events| && run.events[k].kind.RunnerStarted?
    && run.events[k].phase == run.state.currentPhase && run.events[k].ticketId == run.state.currentTicketId
  }

  /**
   * Why a running run has no point: it was not building or reviewing, had no ticket in hand, has ended,
   * never called a runner for that ticket in that phase, or the last such call names no directory.
   */
  ghost predicate Unresumable(run: Run) {
    || (run.state.currentPhase != Some(ExecutePlan) && run.state.currentPhase != Some(Review))
    || run.state.currentTicketId.None?
    || (exists k :: 0 <= k < |run.events|
          && (run.events[k].kind.RunCompleted? || run.events[k].kind.RunStopped? || run.events[k].kind.RunFailed?))
    || (forall k: nat :: !CalledFor(run, k))
    || (exists k: nat :: CalledFor(run, k) && run.events[k].kind.cwd == ""
          && forall j: nat :: k < j ==> !CalledFor(run, j))
  }

  /** What follows neither ends the run nor starts another call of this kind. */
  predicate NoOtherCall(run: Run, more: seq<RunEvent>) {
    forall k :: 0 <= k < |more| ==>
      && !TerminalRunEvent(more[k]) && !StartedFor(more[k], run.state.currentPhase, run.state.currentTicketId)
  }

  /**
   * A crash after a recorded runner call resumes at that call: once it is on the log, with a directory,
   * it is the point of the run until it ends, moves on, or calls again.
   */
  lemma {:induction false} CallIsResumedFrom(id: RunId, run: Run, events: seq<RunEvent>, more: seq<RunEvent>,
      site: Site, cwd: string)
    requires StartRecorded(run, events, site, cwd) && cwd != "" && NoOtherCall(run, more)
    requires run.state.currentPhase == Some(ExecutePlan) || run.state.currentPhase == Some(Review)
    requires run.state.currentTicketId.Some? && !HasTerminalEvent(run.events)
    ensures PointOf(id, run.(events := events + more)) ==
            Some(ResumePoint(id, run.state.currentTicketId.value, run.state.currentPhase.value, site,
                             CountRunnerStarts(run.events) + 1, cwd))
    decreases |more|
  {
    var s := run.state;
    if more == [] {
      assert events + more == events;
      assert !HasTerminalEvent(events) by {
        assert forall k :: 0 <= k < |run.events| ==> events[k] == run.events[k];
      }
    } else {
      var before := events + Init(more);
      CallIsResumedFrom(id, run, events, Init(more), site, cwd);
      assert Init(events + more) == before && Last(events + more) == Last(more);
      assert !HasTerminalEvent(events + more) by {
        assert !HasTerminalEvent(before);
        assert forall k :: 0 <= k < |before| ==> (events + more)[k] == before[k];
      }
      assert LastStarted(events + more, s.currentPhase, s.currentTicketId)
             == LastStarted(before, s.currentPhase, s.currentTicketId);
    }
  }

  /**
   * Crash a run between any two durable writes: whatever point is then resolved can be
   * re-entered, in a process that opens the store on that disk.
   */
  lemma EveryCrashIsResumable(store: RunStore, crash: nat, p: ResumePoint, deps: LoopDeps, ticket: Ticket)
    requires store.Valid() && crash < |store.disks|
    requires LatestRunning(store.disks[crash], p.runId)
    requires PointOf(p.runId, store.disks[crash][p.runId]) == Some(p)
    requires deps.Valid() && deps.store.runs == store.disks[crash] && ticket.id == p.ticketId
    ensures Faithful(store.disks[crash], p)
    ensures Enterable(deps, p.runId, ticket, Some(Resume(p.phase, p.cwd)))
  {
    PointIsFaithful(store.disks[crash], p.runId);
  }
}
