/** The build/verify loop with diagnosis, stall detection and capped consults (src/executePlan.ts). */
module ExecutePlans {
  import opened Prelude
  import opened LoopStates
  import opened RunStates
  import opened Failures
  import opened MergeGates
  import opened Evidence
  import opened LoopDependencies
  import opened TicketContexts

  datatype EscalationReason = PlanUnworkable | Stalled

  datatype ExecuteOutcome =
    | Verified
    | Exhausted(attempts: int, lastDiagnosis: Option<Diagnosis>)
    | Escalated(reason: EscalationReason, attempts: int, diagnosis: Diagnosis)

  /** What one attempt was answered; the consult is only meaningful where one was asked. */
  datatype Attempt = Attempt(passed: bool, signature: string, local: Option<Diagnosis>, consult: Option<Diagnosis>)

  /** The knobs the loop reads. */
  datatype Knobs = Knobs(max: int, diagnosticRetry: bool, maxConsults: int, hasCodex: bool)

  /** The loop's running variables. */
  datatype Memory = Memory(
    prevSignature: Option<string>,
    stalledSignature: Option<string>,
    consultsUsed: nat,
    lastDiagnosis: Option<Diagnosis>)

  const FRESH: Memory := Memory(None, None, 0, None)

  predicate Repeated(m: Memory, a: Attempt) {
    m.prevSignature == Some(a.signature)
  }

  predicate WantsConsult(m: Memory, a: Attempt, attempt: int, k: Knobs) {
    && a.local.Some?
    && (Repeated(m, a) || a.local.value.planWorkable != Yes)
    && m.consultsUsed < k.maxConsults && k.hasCodex && attempt != k.max
  }

  /** isPlanUnworkable: a local "no" that no consult overturned. */
  predicate Unworkable(local: Diagnosis, consult: Option<Diagnosis>) {
    local.planWorkable == NoWay && (consult.Some? ==> consult.value.planWorkable == NoWay)
  }

  datatype Step = Stop(outcome: ExecuteOutcome) | Go(memory: Memory)

  /** One attempt: what the loop concludes, or what it remembers. */
  function Judge(m: Memory, a: Attempt, attempt: int, k: Knobs): Step {
    if a.passed then Stop(Verified)
    else if !k.diagnosticRetry then Go(m)
    else if a.local.None? then Go(m.(prevSignature := Some(a.signature)))
    else
      var local := a.local.value;
      if Repeated(m, a) && m.stalledSignature == Some(a.signature) then Stop(Escalated(Stalled, attempt, local))
      else
        var asked := WantsConsult(m, a, attempt, k);
        var consult := if asked then a.consult else None;
        if attempt != k.max && Unworkable(local, consult) then Stop(Escalated(PlanUnworkable, attempt, local))
        else Go(Memory(Some(a.signature),
                       if Repeated(m, a) then Some(a.signature) else m.stalledSignature,
                       m.consultsUsed + (if asked then 1 else 0),
                       Some(local)))
  }

  /** The memory after these attempts, if none of them stopped the loop. */
  function After(seen: seq<Attempt>, k: Knobs): Option<Memory> {
    if seen == [] then Some(FRESH)
    else
      match After(Init(seen), k)
      case None => None
      case Some(m) =>
        match Judge(m, Last(seen), |seen|, k)
        case Stop(_) => None
        case Go(m') => Some(m')
  }

  /** `outcome` is what the loop returns after exactly these attempts. */
  predicate Returns(seen: seq<Attempt>, outcome: ExecuteOutcome, k: Knobs) {
    if seen != [] && After(Init(seen), k).Some?
       && Judge(After(Init(seen), k).value, Last(seen), |seen|, k).Stop?
    then |seen| <= k.max && outcome == Judge(After(Init(seen), k).value, Last(seen), |seen|, k).outcome
    else |seen| >= k.max && (seen == [] || |seen| == k.max)
         && After(seen, k).Some? && outcome == Exhausted(k.max, After(seen, k).value.lastDiagnosis)
  }

  function Count(t: Trace, id: TicketId, kind: Kind): nat {
    if t == [] then 0
    else Count(Init(t), id, kind) + (if Last(t).id == id && KindOf(Last(t)) == kind then 1 else 0)
  }

  lemma CountAppend(t: Trace, e: Effect, kind: Kind)
    ensures Count(t + [e], e.id, kind) == Count(t, e.id, kind) + (if KindOf(e) == kind then 1 else 0)
  {
    InitOfAppend(t, e);
  }

  function KnobsOf(config: LoopConfig, env: Environment): Knobs {
    Knobs(config.maxIterationsPerTicket, config.diagnosticRetryEnabled, config.maxConsultsPerTicket, env.hasCodex)
  }

  /** Only the build evidence moved. */
  predicate Reworked(a: Stage, b: Stage) {
    b.checked == a.checked && b.work == a.work.(built := b.work.built, verified := b.work.verified)
  }

  /** One builder turn and the verification of what it built. */
  method BuildAndVerify(ctx: TicketRunContext, cwd: string) returns (r: Outcome<VerifyOutput>)
    requires ctx.Active()
    modifies ctx.deps, ctx.deps.store
    ensures ctx.Active() && Quiet(old(ctx.View()), ctx.View(), ctx.runId, ctx.ticket.id)
    ensures r.Ok? ==>
              && ctx.deps.trace == old(ctx.deps.trace) + [Build(ctx.ticket.id), Verify(ctx.ticket.id, r.value.passed)]
              && Reworked(old(ctx.deps.StageFor(ctx.ticket.id)), ctx.deps.StageFor(ctx.ticket.id))
              && ctx.deps.StageFor(ctx.ticket.id).ship == NO_SHIP
              && (ctx.deps.StageFor(ctx.ticket.id).work.verified.Some? <==> r.value.passed)
              && ctx.deps.StageFor(ctx.ticket.id).work.built.Some?
    ensures r.Ok? ==> ctx.View().throws == old(ctx.View()).throws
    ensures r.Err? ==> !r.error.IsLoopStateError() && !r.error.FlagRecord? && ctx.deps.Disturbed(old(ctx.View()))
  {
    hide LoopDeps.Valid, MergesAreReady;
    ghost var w0 := ctx.View();
    var _ :- ctx.deps.RunBuilder(ctx.runId, ctx.ticket.id, cwd);
    ghost var w1 := ctx.View();
    r := ctx.deps.RunVerification(ctx.runId, ctx.ticket.id, cwd);
    QuietTransitive(w0, w1, ctx.View(), ctx.runId, ctx.ticket.id);
  }

  /** The consult gate: at most one call, and only when it is wanted, left and not final. */
  method AskForConsult(ctx: TicketRunContext, cwd: string, asked: bool, attempt: int)
      returns (r: Outcome<Option<Diagnosis>>)
    requires ctx.Active()
    modifies ctx.deps, ctx.deps.store
    ensures ctx.Active() && Quiet(old(ctx.View()), ctx.View(), ctx.runId, ctx.ticket.id)
    ensures r.Ok? ==>
              && ctx.deps.trace == old(ctx.deps.trace) + (if asked then [AskConsult(ctx.ticket.id)] else [])
              && ctx.deps.StageFor(ctx.ticket.id) == old(ctx.deps.StageFor(ctx.ticket.id))
              && (!asked ==> r.value.None?)
    ensures r.Ok? ==> ctx.View().throws == old(ctx.View()).throws
    ensures r.Err? ==> !r.error.IsLoopStateError() && !r.error.FlagRecord? && ctx.deps.Disturbed(old(ctx.View()))
  {
    if !asked {
      return Ok(None);
    }
    hide LoopDeps.Valid, MergesAreReady;
    ghost var w0 := ctx.View();
    var consult :- ctx.deps.RunDiagnosisConsult(ctx.runId, ctx.ticket.id, cwd);
    ghost var w1 := ctx.View();
    var _ :- LogQuiet(ctx, VerificationConsult(attempt));
    QuietTransitive(w0, w1, ctx.View(), ctx.runId, ctx.ticket.id);
    r := Ok(consult);
  }

  /** An event no outcome is read from. */
  method LogQuiet(ctx: TicketRunContext, kind: EventKind) returns (r: Outcome<()>)
    requires ctx.Active() && !Telling(kind) && !kind.RunCompleted? && !kind.RunStopped?
    modifies ctx.deps.store
    ensures ctx.Active() && Quiet(old(ctx.View()), ctx.View(), ctx.runId, ctx.ticket.id)
    ensures ctx.deps.trace == old(ctx.deps.trace)
    ensures r.Err? ==> r.error == StoreFailure && ctx.deps.store.faults.writesFail
  {
    r := ctx.Log(kind, None);
  }

  /** The bookkeeping of one judged failure: the diagnosis event, then its artifact. */
  method RecordDiagnosis(ctx: TicketRunContext, attempt: int, withArtifact: bool) returns (r: Outcome<()>)
    requires ctx.Active()
    modifies ctx.deps.store
    ensures ctx.Active() && Quiet(old(ctx.View()), ctx.View(), ctx.runId, ctx.ticket.id)
    ensures ctx.deps.trace == old(ctx.deps.trace)
    ensures r.Err? ==> r.error == StoreFailure && ctx.deps.store.faults.writesFail
  {
    var _ :- LogQuiet(ctx, VerificationDiagnosis(attempt));
    if withArtifact {
      r := ctx.Artifact();
    } else {
      r := Ok(());
    }
  }

  /** Consults this attempt was granted. */
  function Granted(m: Memory, a: Attempt, attempt: int, k: Knobs): nat {
    if !a.passed && k.diagnosticRetry && !(Repeated(m, a) && m.stalledSignature == Some(a.signature))
       && WantsConsult(m, a, attempt, k) then 1 else 0
  }

  /** The effects of one attempt, in order. */
  function AttemptTrace(id: TicketId, m: Memory, a: Attempt, attempt: int, k: Knobs): Trace {
    [Build(id), Verify(id, a.passed)] + (if Granted(m, a, attempt, k) == 1 then [AskConsult(id)] else [])
  }

  /** The effects of all these attempts, in order. */
  function PlanTrace(id: TicketId, seen: seq<Attempt>, k: Knobs): Trace {
    if seen == [] then []
    else
      var m := match After(Init(seen), k) case Some(m) => m case None => FRESH;
      PlanTrace(id, Init(seen), k) + AttemptTrace(id, m, Last(seen), |seen|, k)
  }

  lemma PlanTraceAppend(id: TicketId, seen: seq<Attempt>, m: Memory, a: Attempt, k: Knobs)
    requires After(seen, k) == Some(m)
    ensures PlanTrace(id, seen + [a], k) == PlanTrace(id, seen, k) + AttemptTrace(id, m, a, |seen| + 1, k)
  {
    InitOfAppend(seen, a);
    hide After, AttemptTrace;
  }

  /** After a failed verification: diagnose, maybe consult, record, and judge. */
  method Diagnose(ctx: TicketRunContext, cwd: string, m: Memory, attempt: int, signature: string)
    returns (r: Outcome<(Attempt, Step)>)
    requires ctx.Active() && KnobsOf(ctx.deps.config, ctx.deps.env).diagnosticRetry
    modifies ctx.deps, ctx.deps.store
    ensures ctx.Active() && Quiet(old(ctx.View()), ctx.View(), ctx.runId, ctx.ticket.id)
    ensures var k := KnobsOf(ctx.deps.config, ctx.deps.env);
            r.Ok? ==>
              && !r.value.0.passed && r.value.0.signature == signature
              && r.value.1 == Judge(m, r.value.0, attempt, k)
              && ctx.deps.StageFor(ctx.ticket.id) == old(ctx.deps.StageFor(ctx.ticket.id))
              && ctx.deps.trace == old(ctx.deps.trace)
                 + (if Granted(m, r.value.0, attempt, k) == 1 then [AskConsult(ctx.ticket.id)] else [])
    ensures r.Ok? ==> ctx.View().throws == old(ctx.View()).throws
    ensures r.Err? ==> !r.error.IsLoopStateError() && !r.error.FlagRecord? && ctx.deps.Disturbed(old(ctx.View()))
  {
    hide LoopDeps.Valid, Judge;
    ghost var w0 := ctx.View();
    var k := KnobsOf(ctx.deps.config, ctx.deps.env);
    // The diagnosis skill never throws: whatever goes wrong in it reads as unavailable.
    var local: Option<Diagnosis> := *;
    var a := Attempt(false, signature, local, None);
    // An unavailable diagnosis and a stall are concluded without asking anyone.
    var consult :- AskForConsult(ctx, cwd, Granted(m, a, attempt, k) == 1, attempt);
    ghost var w1 := ctx.View();
    var _ :- RecordDiagnosis(ctx, attempt, local.Some?);
    QuietTransitive(w0, w1, ctx.View(), ctx.runId, ctx.ticket.id);
    a := a.(consult := consult);
    r := Ok((a, Judge(m, a, attempt, k)));
  }

  /** One pass of the loop. */
  method TryOnce(ctx: TicketRunContext, cwd: string, m: Memory, attempt: int) returns (r: Outcome<(Attempt, Step)>)
    requires ctx.Active()
    modifies ctx.deps, ctx.deps.store
    ensures ctx.Active() && Quiet(old(ctx.View()), ctx.View(), ctx.runId, ctx.ticket.id)
    ensures var k, id := KnobsOf(ctx.deps.config, ctx.deps.env), ctx.ticket.id;
            r.Ok? ==>
              && r.value.1 == Judge(m, r.value.0, attempt, k)
              && ctx.deps.trace == old(ctx.deps.trace) + AttemptTrace(id, m, r.value.0, attempt, k)
              && Reworked(old(ctx.deps.StageFor(id)), ctx.deps.StageFor(id))
              && ctx.deps.StageFor(id).ship == NO_SHIP
              && (ctx.deps.StageFor(id).work.verified.Some? <==> r.value.0.passed)
    ensures r.Ok? ==> ctx.View().throws == old(ctx.View()).throws
    ensures r.Err? ==> !r.error.IsLoopStateError() && !r.error.FlagRecord? && ctx.deps.Disturbed(old(ctx.View()))
  {
    hide LoopDeps.Valid, Quiet, Judge, WantsConsult;
    ghost var w0 := ctx.View();
    var k := KnobsOf(ctx.deps.config, ctx.deps.env);
    var result :- BuildAndVerify(ctx, cwd);
    if result.passed || !k.diagnosticRetry {
      var a := Attempt(result.passed, result.signature, None, None);
      return Ok((a, Judge(m, a, attempt, k)));
    }
    ghost var w1 := ctx.View();
    r := Diagnose(ctx, cwd, m, attempt, result.signature);
    QuietTransitive(w0, w1, ctx.View(), ctx.runId, ctx.ticket.id);
  }

  lemma CountsOfAttempt(t: Trace, id: TicketId, m: Memory, a: Attempt, attempt: int, k: Knobs)
    ensures var t' := t + AttemptTrace(id, m, a, attempt, k);
            && Count(t', id, KBuild) == Count(t, id, KBuild) + 1
            && Count(t', id, KVerify) == Count(t, id, KVerify) + 1
            && Count(t', id, KConsult) == Count(t, id, KConsult) + Granted(m, a, attempt, k)
  {
    var t1 := t + [Build(id)];
    var t2 := t1 + [Verify(id, a.passed)];
    assert t + [Build(id), Verify(id, a.passed)] == t2;
    forall kind
      ensures Count(t2, id, kind) == Count(t, id, kind) + (if kind == KBuild || kind == KVerify then 1 else 0)
    {
      CountAppend(t, Build(id), kind);
      CountAppend(t1, Verify(id, a.passed), kind);
    }
    forall kind
      ensures Count(t2 + [AskConsult(id)], id, kind) == Count(t2, id, kind) + (if kind == KConsult then 1 else 0)
    {
      CountAppend(t2, AskConsult(id), kind);
    }
    if Granted(m, a, attempt, k) == 1 {
      assert t + AttemptTrace(id, m, a, attempt, k) == t2 + [AskConsult(id)];
    } else {
      assert t + AttemptTrace(id, m, a, attempt, k) == t2;
    }
  }

  /** One builder call and one verification per attempt, one consult per grant. */
  predicate Tallies(t0: Trace, t: Trace, id: TicketId, seen: seq<Attempt>, k: Knobs) {
    && Count(t, id, KBuild) == Count(t0, id, KBuild) + |seen|
    && Count(t, id, KVerify) == Count(t0, id, KVerify) + |seen|
    && Count(t, id, KConsult) == Count(t0, id, KConsult) + Consults(seen, k)
  }

  lemma TallyAttempt(t0: Trace, t: Trace, id: TicketId, seen: seq<Attempt>, m: Memory, a: Attempt, k: Knobs)
    requires Tallies(t0, t, id, seen, k) && After(seen, k) == Some(m) && |seen| < k.max
    ensures Tallies(t0, t + AttemptTrace(id, m, a, |seen| + 1, k), id, seen + [a], k)
    ensures var step := Judge(m, a, |seen| + 1, k);
            if step.Stop? then Returns(seen + [a], step.outcome, k) && (step.outcome.Verified? ==> a.passed)
            else After(seen + [a], k) == Some(step.memory)
  {
    CountsOfAttempt(t, id, m, a, |seen| + 1, k);
    InitOfAppend(seen, a);
  }

  lemma NothingTried(t: Trace, id: TicketId, k: Knobs)
    ensures After([], k) == Some(FRESH) && Tallies(t, t, id, [], k)
  {
  }

  lemma RanOut(seen: seq<Attempt>, m: Memory, k: Knobs)
    requires After(seen, k) == Some(m) && |seen| >= k.max && (seen == [] || |seen| == k.max)
    ensures Returns(seen, Exhausted(k.max, m.lastDiagnosis), k)
  {
  }

  /**
   * executePlan: returns what `Judge` concludes from the attempts it made, with one builder
   * call and one verification per attempt and one consult per grant.
   */
  method ExecutePlan(ctx: TicketRunContext, cwd: string) returns (r: Outcome<ExecuteOutcome>, ghost seen: seq<Attempt>)
    requires ctx.Active()
    modifies ctx.deps, ctx.deps.store
    ensures ctx.Active() && Quiet(old(ctx.View()), ctx.View(), ctx.runId, ctx.ticket.id)
    ensures var k, id := KnobsOf(ctx.deps.config, ctx.deps.env), ctx.ticket.id;
            r.Ok? ==>
              && Returns(seen, r.value, k)
              && Tallies(old(ctx.deps.trace), ctx.deps.trace, id, seen, k)
              && Deeds(old(ctx.View()), ctx.View()) == PlanTrace(id, seen, k)
              && Reworked(old(ctx.deps.StageFor(id)), ctx.deps.StageFor(id))
              && (r.value.Verified? ==>
                    ctx.deps.StageFor(id).ship == NO_SHIP && ctx.deps.StageFor(id).work.verified.Some?)
    ensures r.Ok? ==> ctx.View().throws == old(ctx.View()).throws
    ensures r.Err? ==> !r.error.IsLoopStateError() && !r.error.FlagRecord? && ctx.deps.Disturbed(old(ctx.View()))
  {
    hide Quiet, Tallies, After, Returns, Judge, LoopDeps.Valid;
    ghost var w0 := ctx.View();
    var k := KnobsOf(ctx.deps.config, ctx.deps.env);
    var id := ctx.ticket.id;
    var memory := FRESH;
    var attempt := 1;
    seen := [];
    QuietReflexive(w0, ctx.runId, id);
    NothingTried(w0.trace, id, k);
    while attempt <= k.max
      invariant ctx.Active() && Quiet(w0, ctx.View(), ctx.runId, id)
      invariant |seen| == attempt - 1 && (attempt == 1 || attempt <= k.max + 1)
      invariant After(seen, k) == Some(memory)
      invariant Tallies(w0.trace, ctx.deps.trace, id, seen, k)
      invariant ctx.View().throws == old(ctx.View()).throws
      invariant Deeds(w0, ctx.View()) == PlanTrace(id, seen, k)
      invariant Reworked(old(ctx.deps.StageFor(id)), ctx.deps.StageFor(id))
    {
      ghost var w1 := ctx.View();
      var tried := TryOnce(ctx, cwd, memory, attempt);
      QuietTransitive(w0, w1, ctx.View(), ctx.runId, id);
      if tried.Err? {
        return Err(tried.error), seen;
      }
      TallyAttempt(w0.trace, w1.trace, id, seen, memory, tried.value.0, k);
      PlanTraceAppend(id, seen, memory, tried.value.0, k);
      seen := seen + [tried.value.0];
      match tried.value.1 {
        case Stop(outcome) =>
          return Ok(outcome), seen;
        case Go(next) =>
          memory := next;
      }
      attempt := attempt + 1;
    }
    RanOut(seen, memory, k);
    r := Ok(Exhausted(k.max, memory.lastDiagnosis));
  }

  /** Consults granted over all attempts. */
  function Consults(seen: seq<Attempt>, k: Knobs): nat {
    if seen == [] then 0
    else Consults(Init(seen), k)
         + (match After(Init(seen), k) case None => 0 case Some(m) => Granted(m, Last(seen), |seen|, k))
  }

  // ----- what the loop promises -----

  /** What holds of the memory: consults are counted and capped, signatures were really seen. */
  lemma {:induction false} MemoryMeans(seen: seq<Attempt>, k: Knobs)
    requires After(seen, k).Some?
    ensures var m := After(seen, k).value;
            && m.consultsUsed == Consults(seen, k)
            && m.consultsUsed <= Max(0, k.maxConsults)
            && (|seen| <= k.max ==> m.consultsUsed <= Min(|seen|, Max(0, k.max - 1)))
            && (!k.diagnosticRetry ==> m == FRESH)
            && (forall j :: 0 <= j < |seen| ==> !seen[j].passed)
            && (m.prevSignature.Some? ==> seen != [] && Last(seen).signature == m.prevSignature.value)
            && (m.stalledSignature.Some? ==>
                  exists j :: 0 < j < |seen| && seen[j].signature == m.stalledSignature.value
                              && seen[j - 1].signature == m.stalledSignature.value)
  {
    if seen != [] {
      MemoryMeans(Init(seen), k);
      var m0, a := After(Init(seen), k).value, Last(seen);
      var m := After(seen, k).value;
      if k.diagnosticRetry && a.local.Some? && Repeated(m0, a) {
        assert seen[|seen| - 1].signature == m.stalledSignature.value == seen[|seen| - 2].signature;
      } else if m0.stalledSignature.Some? {
        var j :| 0 < j < |Init(seen)| && Init(seen)[j].signature == m0.stalledSignature.value
                 && Init(seen)[j - 1].signature == m0.stalledSignature.value;
        assert seen[j].signature == Init(seen)[j].signature && seen[j - 1].signature == Init(seen)[j - 1].signature;
      }
    }
  }

  /** Three attempts failed with this signature, the last of them the final one. */
  predicate ThriceFailed(seen: seq<Attempt>, signature: string) {
    && seen != [] && Last(seen).signature == signature
    && exists j :: 0 < j < |seen| - 1 && seen[j].signature == signature && seen[j - 1].signature == signature
  }

  /** What each outcome tells, for a positive number of allowed attempts. */
  lemma ExecuteOutcomeMeans(seen: seq<Attempt>, outcome: ExecuteOutcome, k: Knobs)
    requires k.max >= 1 && Returns(seen, outcome, k)
    ensures 1 <= |seen| <= k.max
    ensures outcome.Verified? <==> Last(seen).passed
    ensures forall j :: 0 <= j < |seen| - 1 ==> !seen[j].passed
    ensures Consults(seen, k) <= Max(0, Min(k.maxConsults, k.max - 1))
    ensures outcome.Exhausted? ==> |seen| == k.max
    ensures outcome.Escalated? ==> outcome.attempts == |seen| && Last(seen).local == Some(outcome.diagnosis)
    ensures outcome.Escalated? && outcome.reason == PlanUnworkable ==>
              |seen| < k.max && outcome.diagnosis.planWorkable == NoWay
    ensures outcome.Escalated? && outcome.reason == Stalled ==> ThriceFailed(seen, Last(seen).signature)
  {
    if After(seen, k).Some? {
      MemoryMeans(seen, k);
      AfterIsBounded(seen, outcome, k);
    } else {
      AfterIsBounded(seen, outcome, k);
      var before, a := Init(seen), Last(seen);
      MemoryMeans(before, k);
      var m := After(before, k).value;
      if Judge(m, a, |seen|, k).outcome.Escalated? && Judge(m, a, |seen|, k).outcome.reason == Stalled {
        var j :| 0 < j < |before| && before[j].signature == a.signature && before[j - 1].signature == a.signature;
        assert seen[j] == before[j] && seen[j - 1] == before[j - 1];
      }
    }
  }

  lemma AfterIsBounded(seen: seq<Attempt>, outcome: ExecuteOutcome, k: Knobs)
    requires k.max >= 1 && Returns(seen, outcome, k)
    ensures 1 <= |seen| <= k.max
    ensures After(seen, k).None? ==>
              After(Init(seen), k).Some? && Judge(After(Init(seen), k).value, Last(seen), |seen|, k) == Stop(outcome)
    ensures After(seen, k).Some? ==> |seen| == k.max && outcome.Exhausted?
  {
  }

  /** The same failure over and over, always diagnosed as workable. */
  predicate ConstantFailure(seen: seq<Attempt>, signature: string) {
    forall j :: 0 <= j < |seen| ==>
      && !seen[j].passed && seen[j].signature == signature
      && seen[j].local.Some? && seen[j].local.value.planWorkable == Yes
  }

  /** One constant failure is given exactly one informed retry: the loop stops at attempt 3. */
  lemma ConstantFailureStopsAtThree(seen: seq<Attempt>, signature: string, outcome: ExecuteOutcome, k: Knobs)
    requires k.diagnosticRetry && k.max >= 1
    requires Returns(seen, outcome, k) && ConstantFailure(seen, signature)
    ensures |seen| == Min(3, k.max)
    ensures if k.max >= 3 then outcome == Escalated(Stalled, 3, seen[2].local.value) else outcome.Exhausted?
  {
    ConstantMemory(seen, signature, k);
    AfterIsBounded(seen, outcome, k);
    ConstantMemory(Init(seen), signature, k);
  }

  lemma {:induction false} ConstantMemory(seen: seq<Attempt>, signature: string, k: Knobs)
    requires k.diagnosticRetry && ConstantFailure(seen, signature)
    ensures After(seen, k).Some? <==> |seen| <= 2
    ensures After(seen, k).Some? ==>
              && After(seen, k).value.prevSignature == (if seen == [] then None else Some(signature))
              && After(seen, k).value.stalledSignature == (if |seen| == 2 then Some(signature) else None)
    ensures |seen| == 3 ==>
              && After(Init(seen), k).Some?
              && Judge(After(Init(seen), k).value, Last(seen), 3, k)
                   == Stop(Escalated(Stalled, 3, Last(seen).local.value))
  {
    if seen != [] {
      ConstantMemory(Init(seen), signature, k);
    }
  }
}
