/**
 * The run store (src/runStore.ts): one snapshot and one event log per run. Reads and
 * writes fail as the fault model allows; every successful write is one crash point.
 */
module RunStores {
  import opened Prelude
  import opened LoopStates
  import opened RunStates
  import opened Budgets
  import opened Failures

  /** filesFail: the repository behind the store (scans, backlog edits) may fail too. */
  datatype FaultModel = FaultModel(readsFail: bool, writesFail: bool, filesFail: bool)

  /** What is on disk: every run's snapshot and log. */
  type Disk = map<RunId, Run>

  /** run.completed, and run.stopped as the run loop itself logs it. */
  predicate EndEvent(e: RunEvent) {
    e.kind.RunCompleted? || (e.kind.RunStopped? && e.kind.reason != RollbackFailed)
  }

  /** The snapshot is coherent and agrees with its log. */
  ghost predicate RunOk(run: Run) {
    var s := run.state;
    && (s.currentTicketId.Some? <==> InTicket(s.Phase()))
    && (Terminal(s.Phase()) ==> s.status != Running)
    && (InTicket(s.Phase()) ==> Untripped(s))
    && (s.status == Running ==> forall e :: e in run.events ==> !EndEvent(e))
  }

  ghost predicate DiskOk(d: Disk) {
    forall id :: id in d ==> RunOk(d[id])
  }

  /** One durable write as one run sees it: a legal move, a kill-switch reset or no move. */
  predicate LegalWrite(a: Run, b: Run) {
    var from, to := a.state.Phase(), b.state.Phase();
    && (from == to || CanTransition(from, to) || (!Terminal(from) && to == Idle && b.state.status == Stopped))
    && (a.state.status != Running ==> b.state.status != Running)
    && a.events <= b.events
  }

  ghost predicate LegalStep(a: Disk, b: Disk) {
    forall id :: id in a ==> id in b && LegalWrite(a[id], b[id])
  }

  ghost predicate LegalHistory(h: seq<Disk>) {
    forall i, j :: 0 <= i && j == i + 1 && j < |h| ==> LegalStep(h[i], h[j])
  }

  /** A terminal phase is never left, whatever is written afterwards. */
  lemma {:induction false} TerminalNeverLeft(h: seq<Disk>, i: nat, j: nat, id: RunId)
    requires LegalHistory(h) && i <= j < |h|
    requires id in h[i] && Terminal(h[i][id].state.Phase())
    ensures id in h[j] && h[j][id].state.Phase() == h[i][id].state.Phase()
    decreases j - i
  {
    if i < j {
      assert LegalStep(h[i], h[i + 1]);
      assert LegalWrite(h[i][id], h[i + 1][id]);
      TerminalIffNoSuccessors(h[i][id].state.Phase());
      TerminalNeverLeft(h, i + 1, j, id);
    }
  }

  /** A run that stopped running stays so, and a log only grows. */
  lemma {:induction false} HistoryIsMonotone(h: seq<Disk>, i: nat, j: nat, id: RunId)
    requires LegalHistory(h) && i <= j < |h| && id in h[i]
    ensures id in h[j] && h[i][id].events <= h[j][id].events
    ensures h[i][id].state.status != Running ==> h[j][id].state.status != Running
    decreases j - i
  {
    if i < j {
      assert LegalStep(h[i], h[i + 1]);
      assert LegalWrite(h[i][id], h[i + 1][id]);
      HistoryIsMonotone(h, i + 1, j, id);
    }
  }

  class RunStore {
    const faults: FaultModel
    var runs: Disk
    var clock: int
    var nextId: nat
    ghost var disks: seq<Disk>

    /** Every disk ever written is coherent, each write was legal, the last one is current. */
    ghost predicate Valid()
      reads this
    {
      && (forall id :: id in runs ==> id < nextId)
      && |disks| > 0 && Last(disks) == runs
      && LegalHistory(disks)
      && forall d :: d in disks ==> DiskOk(d)
    }

    /** Opens the store on whatever a previous process left on disk. */
    constructor (faults: FaultModel, disk: Disk, nextId: nat, clock: int)
      requires DiskOk(disk)
      requires forall id :: id in disk ==> id < nextId
      ensures Valid()
      ensures this.faults == faults && runs == disk && disks == [disk] && this.clock == clock
    {
      this.faults := faults;
      this.runs := disk;
      this.nextId := nextId;
      this.clock := clock;
      this.disks := [disk];
    }

    /** Time passes between any two operations. */
    method Tick()
      modifies this`clock
      ensures clock >= old(clock)
    {
      var elapsed: int :| elapsed >= 0;
      clock := clock + elapsed;
    }

    method Now() returns (now: int)
      modifies this`clock
      ensures now == clock >= old(clock)
    {
      Tick();
      now := clock;
    }

    method Sleep(ms: int)
      modifies this`clock
      ensures clock >= old(clock) + ms && clock >= old(clock)
    {
      if ms > 0 {
        clock := clock + ms;
      }
      Tick();
    }

    method CreateRun() returns (r: Outcome<RunId>)
      requires Valid()
      modifies this
      ensures Valid() && clock >= old(clock) && old(disks) <= disks
      ensures r.Ok? ==>
                && r.value !in old(runs)
                && runs == old(runs)[r.value := Run(RunState(None, Running, clock, None, None, [], [], None, None), [])]
      ensures r.Err? ==> runs == old(runs) && r.error == StoreFailure && faults.writesFail
    {
      Tick();
      if faults.writesFail {
        var fails: bool := *;
        if fails {
          return Err(StoreFailure);
        }
      }
      var run := Run(RunState(None, Running, clock, None, None, [], [], None, None), []);
      r := Ok(nextId);
      Commit(nextId, run);
      nextId := nextId + 1;
    }

    method ReadState(id: RunId) returns (r: Outcome<RunState>)
      requires id in runs
      ensures r.Ok? ==> r.value == runs[id].state
      ensures r.Err? ==> faults.readsFail && r.error == StoreFailure
    {
      if faults.readsFail {
        var fails: bool := *;
        if fails {
          return Err(StoreFailure);
        }
      }
      r := Ok(runs[id].state);
    }

    method ReadEvents(id: RunId) returns (r: Outcome<seq<RunEvent>>)
      requires id in runs
      ensures r.Ok? ==> r.value == runs[id].events
      ensures r.Err? ==> faults.readsFail && r.error == StoreFailure
    {
      if faults.readsFail {
        var fails: bool := *;
        if fails {
          return Err(StoreFailure);
        }
      }
      r := Ok(runs[id].events);
    }

    /** The one place where the disk changes. */
    method Commit(id: RunId, run: Run)
      requires (forall k :: k in runs ==> k < nextId) && id <= nextId
      requires |disks| > 0 && Last(disks) == runs && LegalHistory(disks)
      requires forall d :: d in disks ==> DiskOk(d)
      requires RunOk(run)
      requires id in runs ==> LegalWrite(runs[id], run)
      modifies this`runs, this`disks
      ensures runs == old(runs)[id := run]
      ensures disks == old(disks) + [runs]
      ensures LegalHistory(disks) && forall d :: d in disks ==> DiskOk(d)
    {
      var before := runs;
      runs := runs[id := run];
      assert DiskOk(before) by {
        assert Last(disks) in disks;
      }
      disks := disks + [runs];
      forall d | d in disks
        ensures DiskOk(d)
      {
        assert d in old(disks) || d == runs;
      }
    }

    /** Replaces the snapshot atomically, or fails and leaves it as it was. */
    method WriteState(id: RunId, state: RunState) returns (r: Outcome<RunState>)
      requires Valid() && id in runs
      requires RunOk(Run(state, runs[id].events))
      requires LegalWrite(runs[id], Run(state, runs[id].events))
      modifies this
      ensures Valid() && clock >= old(clock) && nextId == old(nextId)
      ensures r.Ok? ==> r.value == state && runs == old(runs)[id := Run(state, old(runs)[id].events)]
                        && disks == old(disks) + [runs]
      ensures r.Err? ==> runs == old(runs) && disks == old(disks) && r.error == StoreFailure && faults.writesFail
    {
      Tick();
      if faults.writesFail {
        var fails: bool := *;
        if fails {
          return Err(StoreFailure);
        }
      }
      Commit(id, Run(state, runs[id].events));
      r := Ok(state);
    }

    /** Appends one event stamped with the store's clock, or fails and leaves the log as it was. */
    method AppendEvent(id: RunId, kind: EventKind, ticketId: Option<TicketId>, phase: Option<LoopState>)
      returns (r: Outcome<()>)
      requires Valid() && id in runs
      requires runs[id].state.status == Running ==> !EndEvent(RunEvent(0, kind, ticketId, phase))
      modifies this
      ensures Valid() && clock >= old(clock) && nextId == old(nextId)
      ensures r.Ok? ==>
                && runs == old(runs)[id := Run(old(runs)[id].state,
                                               old(runs)[id].events + [RunEvent(clock, kind, ticketId, phase)])]
                && disks == old(disks) + [runs]
      ensures r.Err? ==> runs == old(runs) && disks == old(disks) && r.error == StoreFailure && faults.writesFail
    {
      Tick();
      if faults.writesFail {
        var fails: bool := *;
        if fails {
          return Err(StoreFailure);
        }
      }
      assert RunOk(runs[id]) by {
        assert Last(disks) in disks;
      }
      Commit(id, Run(runs[id].state, runs[id].events + [RunEvent(clock, kind, ticketId, phase)]));
      r := Ok(());
    }
  }
}
