/**
 * The injected outside world (src/deps.ts): runners and git as oracles that may answer
 * anything or throw, each leaving its mark on the trace; runner calls are bracketed by
 * durable events as src/controlledRunners.ts does.
 */
module LoopDependencies {
  import opened Prelude
  import opened LoopStates
  import opened RunStates
  import opened Budgets
  import opened Failures
  import opened MergeGates
  import opened Evidence
  import opened TicketOutcomes
  import opened RunStores

  datatype Environment = Environment(hasRemote: bool, hasTicketingCommands: bool, hasCodex: bool, goldenCapture: bool)

  datatype VerifyOutput = VerifyOutput(passed: bool, output: string, signature: string)

  datatype PlanWorkable = Yes | Uncertain | NoWay

  datatype Diagnosis = Diagnosis(planWorkable: PlanWorkable, hypothesis: string)

  datatype ReviewOutput = ReviewOutput(verdict: Verdict, findings: string, signature: string)

  datatype StartOutput = StartOk | StartRefused | StartFailed

  /** Everything a step can change, as one value; `throws` counts the outside calls that threw. */
  datatype World = World(runs: Disk, disks: seq<Disk>, clock: int, trace: Trace, throws: nat)

  /** An event a ticket's own lifecycle may log. */
  predicate OwnEvent(e: RunEvent, id: TicketId) {
    (Anchor(e.kind) ==> e.ticketId == Some(id)) && !e.kind.TicketStarted? && !e.kind.RunCompleted?
      && !e.kind.RunStopped?
  }

  predicate OwnLog(a: seq<RunEvent>, b: seq<RunEvent>, id: TicketId) {
    a <= b && forall k :: |a| <= k < |b| ==> OwnEvent(b[k], id)
  }

  /** Nothing deriveTicketOutcomes reads was added. */
  predicate Anchorless(a: seq<RunEvent>, b: seq<RunEvent>) {
    a <= b && forall k :: |a| <= k < |b| ==> !Anchor(b[k].kind)
  }

  predicate QuietLog(a: seq<RunEvent>, b: seq<RunEvent>) {
    && Anchorless(a, b)
    && forall k :: |a| <= k < |b| ==>
         !b[k].kind.RunCompleted? && !b[k].kind.RunStopped? && !b[k].kind.ReviewResult?
  }

  predicate OwnTrace(a: Trace, b: Trace, id: TicketId) {
    a <= b && forall k :: |a| <= k < |b| ==> b[k].id == id
  }

  /** Only the phase and the current ticket may differ. */
  predicate SameSession(a: RunState, b: RunState) {
    b == a.(currentTicketId := b.currentTicketId, currentPhase := b.currentPhase)
  }

  /** What every step of a ticket leaves as it was. */
  ghost predicate Later(w0: World, w1: World, runId: RunId, id: TicketId) {
    && runId in w0.runs && runId in w1.runs
    && w1.runs == w0.runs[runId := w1.runs[runId]]
    && SameSession(w0.runs[runId].state, w1.runs[runId].state)
    && OwnLog(w0.runs[runId].events, w1.runs[runId].events, id)
    && OwnTrace(w0.trace, w1.trace, id)
    && w0.disks <= w1.disks && w0.clock <= w1.clock && w0.throws <= w1.throws
  }

  // ----- what a stretch of a ticket did and said -----

  /** The effects of a stretch. */
  function Deeds(w0: World, w1: World): Trace {
    if |w0.trace| <= |w1.trace| then w1.trace[|w0.trace|..] else []
  }

  /** The events by which a ticket's progress is told. */
  predicate Telling(k: EventKind) {
    Anchor(k) || k.ReviewResult?
  }

  function Told(events: seq<RunEvent>): seq<EventKind> {
    if events == [] then []
    else Told(Init(events)) + (if Telling(Last(events).kind) then [Last(events).kind] else [])
  }

  /** What the log of a run was told in a stretch. */
  function Words(w0: World, w1: World, runId: RunId): seq<EventKind> {
    if runId in w0.runs && runId in w1.runs && |w0.runs[runId].events| <= |w1.runs[runId].events|
    then Told(w1.runs[runId].events[|w0.runs[runId].events|..])
    else []
  }

  lemma {:induction false} ToldOfAppend(a: seq<RunEvent>, b: seq<RunEvent>)
    ensures Told(a + b) == Told(a) + Told(b)
    decreases |b|
  {
    if b == [] {
      assert a + b == a;
    } else {
      assert Init(a + b) == a + Init(b) && Last(a + b) == Last(b);
      ToldOfAppend(a, Init(b));
    }
  }

  lemma {:induction false} NothingToldIn(events: seq<RunEvent>)
    requires forall k :: 0 <= k < |events| ==> !Telling(events[k].kind)
    ensures Told(events) == []
  {
    if events != [] {
      NothingToldIn(Init(events));
    }
  }

  lemma QuietTellsNothing(a: seq<RunEvent>, b: seq<RunEvent>)
    requires QuietLog(a, b)
    ensures Told(b[|a|..]) == []
  {
    NothingToldIn(b[|a|..]);
  }

  lemma OneWord(a: seq<RunEvent>, e: RunEvent)
    ensures Told((a + [e])[|a|..]) == if Telling(e.kind) then [e.kind] else []
  {
    assert (a + [e])[|a|..] == [e];
    assert Init([e]) == [];
  }

  lemma SliceOfSlice<T>(a: seq<T>, b: seq<T>, c: seq<T>)
    requires a <= b && b <= c
    ensures c[|a|..] == b[|a|..] + c[|b|..]
  {
  }

  lemma LaterTransitive(w0: World, w1: World, w2: World, runId: RunId, id: TicketId)
    requires Later(w0, w1, runId, id) && Later(w1, w2, runId, id)
    ensures Later(w0, w2, runId, id) && w0.throws <= w1.throws <= w2.throws
    ensures Deeds(w0, w2) == Deeds(w0, w1) + Deeds(w1, w2)
    ensures Words(w0, w2, runId) == Words(w0, w1, runId) + Words(w1, w2, runId)
  {
    assert w2.runs == w0.runs[runId := w2.runs[runId]];
    SliceOfSlice(w0.trace, w1.trace, w2.trace);
    var a, b, c := w0.runs[runId].events, w1.runs[runId].events, w2.runs[runId].events;
    SliceOfSlice(a, b, c);
    hide Told;
    ToldOfAppend(b[|a|..], c[|b|..]);
  }

  /** A step that logs nothing deriveTicketOutcomes would read and moves nothing. */
  ghost predicate Quiet(w0: World, w1: World, runId: RunId, id: TicketId) {
    && Later(w0, w1, runId, id)
    && w1.runs[runId].state == w0.runs[runId].state
    && QuietLog(w0.runs[runId].events, w1.runs[runId].events)
  }

  lemma QuietTransitive(w0: World, w1: World, w2: World, runId: RunId, id: TicketId)
    requires Quiet(w0, w1, runId, id) && Quiet(w1, w2, runId, id)
    ensures Quiet(w0, w2, runId, id) && w0.throws <= w1.throws <= w2.throws
    ensures Deeds(w0, w2) == Deeds(w0, w1) + Deeds(w1, w2)
  {
    LaterTransitive(w0, w1, w2, runId, id);
  }

  lemma QuietReflexive(w: World, runId: RunId, id: TicketId)
    requires runId in w.runs
    ensures Quiet(w, w, runId, id) && Deeds(w, w) == []
  {
    assert w.runs == w.runs[runId := w.runs[runId]];
  }

  /** A quiet stretch tells nothing. */
  lemma QuietIsWordless(w0: World, w1: World, runId: RunId, id: TicketId)
    requires Quiet(w0, w1, runId, id)
    ensures Words(w0, w1, runId) == []
  {
    QuietTellsNothing(w0.runs[runId].events, w1.runs[runId].events);
    hide Told;
  }

  lemma {:induction false} QuietAccount(a: seq<RunEvent>, b: seq<RunEvent>, id: TicketId)
    requires Anchorless(a, b)
    ensures AccountOf(b, id) == AccountOf(a, id)
    decreases |b|
  {
    if |a| < |b| {
      QuietAccount(a, Init(b), id);
    } else {
      assert a == b;
    }
  }

  /** Another ticket's lifecycle leaves this ticket's account alone. */
  lemma {:induction false} OtherAccount(a: seq<RunEvent>, b: seq<RunEvent>, id: TicketId, other: TicketId)
    requires OwnLog(a, b, id) && other != id
    ensures AccountOf(b, other) == AccountOf(a, other)
    decreases |b|
  {
    if |a| < |b| {
      OtherAccount(a, Init(b), id, other);
    } else {
      assert a == b;
    }
  }

  function CountRunnerStarts(events: seq<RunEvent>): nat {
    if events == [] then 0
    else CountRunnerStarts(Init(events)) + (if Last(events).kind.RunnerStarted? then 1 else 0)
  }

  /** One runner.started more: its place in the run, its directory, and the ticket and phase in hand. */
  predicate StartRecorded(run: Run, events: seq<RunEvent>, site: Site, cwd: string) {
    && events != [] && Init(events) == run.events
    && Last(events).kind == RunnerStarted(site, CountRunnerStarts(run.events) + 1, cwd)
    && Last(events).ticketId == run.state.currentTicketId && Last(events).phase == run.state.currentPhase
  }

  lemma ItIsRecorded(run: Run, e: RunEvent, site: Site, cwd: string)
    requires e.kind == RunnerStarted(site, CountRunnerStarts(run.events) + 1, cwd)
    ensures e.ticketId == run.state.currentTicketId && e.phase == run.state.currentPhase ==>
              StartRecorded(run, run.events + [e], site, cwd)
  {
    InitOfAppend(run.events, e);
    hide CountRunnerStarts;
  }

  lemma EmitIsQuiet(w0: World, w1: World, w2: World, runId: RunId, e: Effect)
    requires Quiet(w0, w1, runId, e.id) && w2 == w1.(trace := w1.trace + [e])
    ensures Quiet(w0, w2, runId, e.id) && runId in w2.runs
  {
    QuietReflexive(w1, runId, e.id);
    assert Quiet(w1, w2, runId, e.id);
    QuietTransitive(w0, w1, w2, runId, e.id);
  }

  lemma ThrowIsQuiet(w0: World, w1: World, w2: World, runId: RunId, id: TicketId)
    requires Quiet(w0, w1, runId, id) && w2 == w1.(throws := w2.throws) && w1.throws <= w2.throws
    ensures Quiet(w0, w2, runId, id)
  {
  }

  class LoopDeps {
    const store: RunStore
    const env: Environment
    const config: LoopConfig
    ghost var trace: Trace
    ghost var throws: nat

    constructor (store: RunStore, env: Environment, config: LoopConfig)
      requires store.Valid()
      ensures this.store == store && this.env == env && this.config == config
      ensures trace == [] && Valid()
    {
      this.store := store;
      this.env := env;
      this.config := config;
      this.trace := [];
      this.throws := 0;
    }

    ghost predicate Valid()
      reads this, store
    {
      store.Valid() && MergesAreReady(trace, config)
    }

    ghost function View(): World
      reads this, store
    {
      World(store.runs, store.disks, store.clock, trace, throws)
    }

    /** Something went wrong: state that cannot be read or written, or a call that threw since then. */
    ghost predicate Disturbed(since: World)
      reads this, store
    {
      store.faults.readsFail || store.faults.writesFail || throws > since.throws
    }

    ghost function StageFor(id: TicketId): Stage
      reads this
    {
      StageOf(trace, id, config)
    }

    /** Leaves one mark on the trace. */
    ghost method Emit(e: Effect)
      requires MergesAreReady(trace, config)
      requires e.MergePr? ==> MayMerge(StageFor(e.id), config)
      requires e.MergeReturned? ==> trace != [] && Last(trace) == MergePr(e.id)
      modifies this`trace
      ensures trace == old(trace) + [e] && MergesAreReady(trace, config)
      ensures StageFor(e.id) == NextStage(old(StageFor(e.id)), e, |old(trace)|, config)
    {
      MergesAppend(trace, e, config);
      trace := trace + [e];
      StageOfAppend(old(trace), e, config);
    }

    /** runner.started: the call's index, directory, ticket and phase go to the log first. */
    method RecordStart(runId: RunId, id: TicketId, site: Site, cwd: string) returns (r: Outcome<()>)
      requires Valid() && runId in store.runs
      modifies store
      ensures Valid() && Quiet(old(View()), View(), runId, id)
      ensures r.Ok? && !store.faults.readsFail ==>
                StartRecorded(old(store.runs[runId]), store.runs[runId].events, site, cwd)
      ensures r.Err? ==> r.error == StoreFailure && Disturbed(old(View()))
    {
      hide RunStore.Valid, MergesAreReady, Quiet, StartRecorded, CountRunnerStarts;
      ghost var run := store.runs[runId];
      var events := store.ReadEvents(runId);
      if events.Err? {
        QuietReflexive(View(), runId, id);
        return Err(events.error);
      }
      var state := store.ReadState(runId);
      var ticketId := if state.Ok? then state.value.currentTicketId else None;
      var phase := if state.Ok? then state.value.currentPhase else None;
      var kind := RunnerStarted(site, CountRunnerStarts(events.value) + 1, cwd);
      r := LogQuietly(runId, id, kind, ticketId, phase);
      if r.Ok? {
        ItIsRecorded(run, Last(store.runs[runId].events), site, cwd);
      }
    }

    /** An event that says nothing of how the ticket fares. */
    method LogQuietly(runId: RunId, id: TicketId, kind: EventKind, ticketId: Option<TicketId>, phase: Option<LoopState>)
        returns (r: Outcome<()>)
      requires Valid() && runId in store.runs && (kind.RunnerStarted? || kind.RunnerSettle?)
      modifies store
      ensures Valid() && Quiet(old(View()), View(), runId, id) && runId in store.runs
      ensures r.Ok? ==> exists ts ::
                store.runs[runId].events == old(store.runs[runId].events) + [RunEvent(ts, kind, ticketId, phase)]
      ensures r.Err? ==> r.error == StoreFailure && Disturbed(old(View()))
    {
      hide RunStore.Valid, MergesAreReady;
      r := store.AppendEvent(runId, kind, ticketId, phase);
    }

    /** runner.settle, when the process reported a settle reason at all. */
    method RecordSettle(runId: RunId, id: TicketId, site: Site) returns (r: Outcome<()>)
      requires Valid() && runId in store.runs
      modifies store
      ensures Valid() && Quiet(old(View()), View(), runId, id)
      ensures r.Err? ==> r.error == StoreFailure && Disturbed(old(View()))
    {
      hide RunStore.Valid, MergesAreReady;
      QuietReflexive(View(), runId, id);
      r := Ok(());
      var settled: bool := *;
      if settled {
        r := LogQuietly(runId, id, RunnerSettle(site), Some(id), None);
      }
    }

    /** A runner call: start record, the call itself, settle record; any of them may fail. */
    method CallRunner(runId: RunId, site: Site, cwd: string, e: Effect) returns (r: Outcome<()>)
      requires Valid() && runId in store.runs && !e.MergePr? && !e.MergeReturned?
      modifies this, store
      ensures Valid() && Quiet(old(View()), View(), runId, e.id)
      ensures r.Ok? ==> throws == old(throws)
      ensures r.Ok? ==> trace == old(trace) + [e]
                        && StageFor(e.id) == NextStage(old(StageFor(e.id)), e, |old(trace)|, config)
      ensures r.Err? ==> (r.error == StoreFailure || r.error == Thrown) && Disturbed(old(View()))
    {
      hide RunStore.Valid, MergesAreReady, Quiet, NextStage, StartRecorded, StageOf;
      ghost var w0 := View();
      QuietReflexive(w0, runId, e.id);
      // A provider other than the injected one is called without the durable bracket.
      var controlled: bool := *;
      if controlled {
        var _ :- RecordStart(runId, e.id, site, cwd);
      }
      ghost var w1 := View();
      Emit(e);
      ghost var w2 := View();
      EmitIsQuiet(w0, w1, w2, runId, e);
      if controlled {
        var settle := RecordSettle(runId, e.id, site);
        QuietTransitive(w0, w2, View(), runId, e.id);
        if settle.Err? {
          return settle;
        }
      }
      ghost var w3 := View();
      r := MayThrow();
      ThrowIsQuiet(w0, w3, View(), runId, e.id);
    }

    /** An outside call returns or throws. */
    method MayThrow() returns (r: Outcome<()>)
      modifies this`throws
      ensures if r.Ok? then throws == old(throws) else throws == old(throws) + 1 && r.error == Thrown
    {
      var threw: bool := *;
      if threw {
        throws := throws + 1;
      }
      r := if threw then Err(Thrown) else Ok(());
    }

    /** A git or capture call: it takes effect and returns, or it throws. */
    method Act(runId: RunId, e: Effect) returns (r: Outcome<()>)
      requires Valid() && runId in store.runs
      requires !e.MergeReturned? && (e.MergePr? ==> MayMerge(StageFor(e.id), config))
      modifies this, store`clock
      ensures Valid() && Quiet(old(View()), View(), runId, e.id)
      ensures store.runs == old(store.runs)
      ensures trace == old(trace) + [e] && (r.Ok? ==> throws == old(throws))
      ensures StageFor(e.id) == NextStage(old(StageFor(e.id)), e, |old(trace)|, config)
      ensures r.Err? ==> r.error == Thrown && Disturbed(old(View()))
    {
      store.Tick();
      Emit(e);
      r := MayThrow();
    }

    method RunBuilder(runId: RunId, id: TicketId, cwd: string) returns (r: Outcome<()>)
      requires Valid() && runId in store.runs
      modifies this, store
      ensures Valid() && Quiet(old(View()), View(), runId, id)
      ensures r.Ok? ==> trace == old(trace) + [Build(id)]
                        && StageFor(id) == NextStage(old(StageFor(id)), Build(id), |old(trace)|, config)
      ensures r.Ok? ==> throws == old(throws)
      ensures r.Err? ==> !r.error.IsLoopStateError() && !r.error.FlagRecord? && Disturbed(old(View()))
    {
      // Reading the saved build/review split may throw before anything runs.
      var _ :- MayThrow();
      r := CallRunner(runId, Builder, cwd, Build(id));
    }

    method RunVerification(runId: RunId, id: TicketId, cwd: string) returns (r: Outcome<VerifyOutput>)
      requires Valid() && runId in store.runs
      modifies this, store
      ensures Valid() && Quiet(old(View()), View(), runId, id)
      ensures r.Ok? ==> trace == old(trace) + [Verify(id, r.value.passed)]
                        && StageFor(id) == NextStage(old(StageFor(id)), Verify(id, r.value.passed), |old(trace)|,
                             config)
      ensures r.Ok? ==> throws == old(throws)
      ensures r.Err? ==> !r.error.IsLoopStateError() && !r.error.FlagRecord? && Disturbed(old(View()))
    {
      var result: VerifyOutput := *;
      var _ :- CallRunner(runId, Verification, cwd, Verify(id, result.passed));
      r := Ok(result);
    }

    method RunReview(runId: RunId, id: TicketId, cwd: string) returns (r: Outcome<ReviewOutput>)
      requires Valid() && runId in store.runs
      modifies this, store
      ensures Valid() && Quiet(old(View()), View(), runId, id)
      ensures r.Ok? ==> trace == old(trace) + [ReviewCall(id, r.value.verdict)]
                        && StageFor(id) == NextStage(old(StageFor(id)), ReviewCall(id, r.value.verdict), |old(trace)|,
                             config)
      ensures r.Ok? ==> throws == old(throws)
      ensures r.Err? ==> !r.error.IsLoopStateError() && !r.error.FlagRecord? && Disturbed(old(View()))
    {
      var result: ReviewOutput := *;
      var _ :- CallRunner(runId, CodexReview, cwd, ReviewCall(id, result.verdict));
      r := Ok(result);
    }

    /** A second opinion on a failure; null when the consulted model gave none. */
    method RunDiagnosisConsult(runId: RunId, id: TicketId, cwd: string) returns (r: Outcome<Option<Diagnosis>>)
      requires Valid() && runId in store.runs
      modifies this, store
      ensures Valid() && Quiet(old(View()), View(), runId, id)
      ensures r.Ok? ==> trace == old(trace) + [AskConsult(id)] && StageFor(id) == old(StageFor(id))
      ensures r.Ok? ==> throws == old(throws)
      ensures r.Err? ==> !r.error.IsLoopStateError() && !r.error.FlagRecord? && Disturbed(old(View()))
    {
      var result: Option<Diagnosis> := *;
      var _ :- CallRunner(runId, Consult, cwd, AskConsult(id));
      r := Ok(result);
    }

    method RunSlashCommand(runId: RunId, id: TicketId, cwd: string) returns (r: Outcome<StartOutput>)
      requires Valid() && runId in store.runs
      modifies this, store
      ensures Valid() && Quiet(old(View()), View(), runId, id)
      ensures r.Ok? ==> trace == old(trace) + [StartCommand(id, r.value == StartOk)]
                        && StageFor(id) == old(StageFor(id))
      ensures r.Ok? ==> throws == old(throws)
      ensures r.Err? ==> !r.error.IsLoopStateError() && !r.error.FlagRecord? && Disturbed(old(View()))
    {
      var result: StartOutput := *;
      var _ :- CallRunner(runId, SlashCommand, cwd, StartCommand(id, result == StartOk));
      r := Ok(result);
    }
  }

  /** What went wrong since a later moment went wrong since an earlier one. */
  lemma DisturbedSince(deps: LoopDeps, w0: World, w1: World)
    requires deps.Disturbed(w1) && w0.throws <= w1.throws
    ensures deps.Disturbed(w0)
  {
  }
}
