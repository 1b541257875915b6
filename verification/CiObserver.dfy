/** Poll-count-bounded CI observation (src/ci.ts). */
module CiObservers {
  import opened Prelude
  import opened LoopStates
  import opened RunStates
  import opened MergeGates
  import opened Evidence
  import opened RunStores
  import opened LoopDependencies
  import opened TicketContexts

  const NO_CHECKS_GRACE_POLLS := 2

  /** Math.max(1, Math.ceil(timeoutSec / pollIntervalSec)); the interval is a constant, 30 as shipped, and not 0. */
  function MaxPolls(timeoutSec: int, pollIntervalSec: int): int {
    if pollIntervalSec <= 0 then 1 else Max(1, (timeoutSec + pollIntervalSec - 1) / pollIntervalSec)
  }

  predicate SomeFailed(p: CiPoll) {
    p.Checks? && exists c :: c in p.checks && (c.bucket == Fail || c.bucket == Cancel)
  }

  predicate SomePending(p: CiPoll) {
    p.Checks? && exists c :: c in p.checks && c.bucket == Pending
  }

  /** What the k-th poll (from 0) settles on its own, if anything. */
  function Settles(p: CiPoll, k: int): Option<CiState> {
    if p.Unusable? then if p.noChecksReported && k >= NO_CHECKS_GRACE_POLLS then Some(NoSignal) else None
    else if p.checks == [] then if k >= NO_CHECKS_GRACE_POLLS then Some(NoSignal) else None
    else if SomeFailed(p) then Some(Red)
    else if SomePending(p) then None
    else Some(Green)
  }

  /** Polling goes on exactly while nothing is settled and polls are left. */
  predicate Polled(polls: seq<CiPoll>, maxPolls: int) {
    && 1 <= |polls| <= maxPolls
    && (forall k :: 0 <= k < |polls| - 1 ==> Settles(polls[k], k).None?)
    && (Settles(Last(polls), |polls| - 1).None? ==> |polls| == maxPolls)
  }

  /** The observation the polls amount to. */
  function Observation(polls: seq<CiPoll>): CiState
    requires polls != []
  {
    match Settles(Last(polls), |polls| - 1)
    case Some(state) => state
    case None => if EverPending(polls) then PendingTimeout else NoSignal
  }

  predicate EverPending(polls: seq<CiPoll>) {
    exists k :: 0 <= k < |polls| && SomePending(polls[k])
  }

  lemma EverPendingAppend(polls: seq<CiPoll>, p: CiPoll)
    ensures EverPending(polls + [p]) <==> EverPending(polls) || SomePending(p)
  {
    hide SomePending;
    assert (polls + [p])[|polls|] == p;
    assert forall k :: 0 <= k < |polls| ==> (polls + [p])[k] == polls[k];
  }

  /** Green means one thing: the last poll listed checks and none was failed, cancelled or pending. */
  lemma GreenMeans(polls: seq<CiPoll>, maxPolls: int)
    requires Polled(polls, maxPolls)
    ensures Observation(polls) == Green <==> GreenPoll(Last(polls))
    ensures Observation(polls) == Red <==> SomeFailed(Last(polls))
    ensures Observation(polls) == PendingTimeout ==> |polls| == maxPolls && !SomeFailed(Last(polls))
  {
    var p := Last(polls);
    if p.Checks? && p.checks != [] {
      assert GreenPoll(p) <==> !SomeFailed(p) && !SomePending(p);
    }
  }

  /** One `gh pr checks` poll: any answer, never an exception. */
  method Poll(ctx: TicketRunContext, sleepFirst: bool) returns (p: CiPoll)
    requires ctx.Active()
    modifies ctx.deps, ctx.deps.store`clock
    ensures ctx.Active() && Quiet(old(ctx.View()), ctx.View(), ctx.runId, ctx.ticket.id)
    ensures ctx.deps.trace == old(ctx.deps.trace) + [PollCi(ctx.ticket.id, p)]
    ensures ctx.View().throws == old(ctx.View()).throws
    ensures ctx.deps.StageFor(ctx.ticket.id)
            == NextStage(old(ctx.deps.StageFor(ctx.ticket.id)), PollCi(ctx.ticket.id, p), |old(ctx.deps.trace)|,
              ctx.deps.config)
  {
    hide LegalHistory, DiskOk, MergesAreReady, NextStage, InTicket, LoopDeps.StageFor;
    if sleepFirst {
      ctx.deps.store.Sleep(ctx.deps.config.ciPollIntervalSec * 1000);
    } else {
      ctx.deps.store.Tick();
    }
    p := *;
    ctx.deps.Emit(PollCi(ctx.ticket.id, p));
  }

  /** The effects of these polls. */
  function PollTrace(id: TicketId, polls: seq<CiPoll>): Trace {
    seq(|polls|, k requires 0 <= k < |polls| => PollCi(id, polls[k]))
  }

  lemma PollTraceAppend(id: TicketId, polls: seq<CiPoll>, p: CiPoll)
    ensures PollTrace(id, polls + [p]) == PollTrace(id, polls) + [PollCi(id, p)]
  {
  }

  /** Only the CI evidence may have moved. */
  predicate ObservedCi(a: Stage, b: Stage) {
    b.work == a.work && b.checked == a.checked && b.ship == a.ship.(ciGreen := b.ship.ciGreen)
  }

  /** observeCi: the observation its polls amount to; green leaves the evidence for it. */
  method ObserveCi(ctx: TicketRunContext) returns (state: CiState, ghost polls: seq<CiPoll>)
    requires ctx.Active() && ctx.deps.StageFor(ctx.ticket.id).ship.prOpen.Some?
    requires ctx.deps.StageFor(ctx.ticket.id).ship.ciGreen.None? && ctx.deps.StageFor(ctx.ticket.id).ship.lowRisk.None?
             && ctx.deps.StageFor(ctx.ticket.id).ship.autopilot.None?
    modifies ctx.deps, ctx.deps.store`clock
    ensures ctx.Active() && Quiet(old(ctx.View()), ctx.View(), ctx.runId, ctx.ticket.id)
    ensures Polled(polls, MaxPolls(ctx.deps.config.ciWaitTimeoutSec, ctx.deps.config.ciPollIntervalSec))
    ensures state == Observation(polls)
    ensures Deeds(old(ctx.View()), ctx.View()) == PollTrace(ctx.ticket.id, polls)
    ensures ctx.View().throws == old(ctx.View()).throws
    ensures ObservedCi(old(ctx.deps.StageFor(ctx.ticket.id)), ctx.deps.StageFor(ctx.ticket.id))
    ensures state == Green <==> ctx.deps.StageFor(ctx.ticket.id).ship.ciGreen.Some?
  {
    ghost var w0 := ctx.View();
    ghost var s0 := ctx.deps.StageFor(ctx.ticket.id);
    assert ctx.runId in w0.runs && !EverPending([]);
    assert PollTrace(ctx.ticket.id, []) == [];
    hide *;
    QuietReflexive(w0, ctx.runId, ctx.ticket.id);
    NothingPolled();
    var maxPolls := MaxPolls(ctx.deps.config.ciWaitTimeoutSec, ctx.deps.config.ciPollIntervalSec);
    AtLeastOnePoll(ctx.deps.config.ciWaitTimeoutSec, ctx.deps.config.ciPollIntervalSec);
    var everPending := false;
    polls := [];
    var poll := 0;
    while poll < maxPolls
      invariant 0 <= poll <= maxPolls && |polls| == poll
      invariant ctx.Active() && Quiet(w0, ctx.View(), ctx.runId, ctx.ticket.id)
      invariant Unsettled(polls) && ctx.View().throws == old(ctx.View()).throws
      invariant Deeds(w0, ctx.View()) == PollTrace(ctx.ticket.id, polls)
      invariant everPending <==> EverPending(polls)
      invariant ctx.deps.StageFor(ctx.ticket.id) == s0
    {
      ghost var w1 := ctx.View();
      var p := Poll(ctx, poll > 0);
      QuietTransitive(w0, w1, ctx.View(), ctx.runId, ctx.ticket.id);
      PolledStage(s0, ctx.ticket.id, p, poll, |w1.trace|, ctx.deps.config);
      EverPendingAppend(polls, p);
      PollTraceAppend(ctx.ticket.id, polls, p);
      OneMorePoll(polls, p, maxPolls);
      polls := polls + [p];
      if Settles(p, poll).Some? {
        return Settles(p, poll).value, polls;
      }
      everPending := everPending || SomePending(p);
      poll := poll + 1;
    }
    OutOfPolls(polls, maxPolls);
    ReworkedNothing(s0);
    state := if everPending then PendingTimeout else NoSignal;
  }

  predicate Unsettled(polls: seq<CiPoll>) {
    forall k :: 0 <= k < |polls| ==> Settles(polls[k], k).None?
  }

  lemma NothingPolled()
    ensures Unsettled([])
  {
  }

  lemma OneMorePoll(polls: seq<CiPoll>, p: CiPoll, maxPolls: int)
    requires Unsettled(polls) && |polls| < maxPolls
    ensures Settles(p, |polls|).None? ==> Unsettled(polls + [p])
    ensures Settles(p, |polls|).Some? ==>
              Polled(polls + [p], maxPolls) && Observation(polls + [p]) == Settles(p, |polls|).value
  {
    hide Settles;
    assert forall k :: 0 <= k < |polls| ==> (polls + [p])[k] == polls[k];
  }

  lemma OutOfPolls(polls: seq<CiPoll>, maxPolls: int)
    requires Unsettled(polls) && |polls| == maxPolls >= 1
    ensures Polled(polls, maxPolls) && Observation(polls) == if EverPending(polls) then PendingTimeout else NoSignal
  {
    hide Settles, EverPending;
  }

  lemma ReworkedNothing(s: Stage)
    ensures ObservedCi(s, s)
  {
  }

  lemma AtLeastOnePoll(timeoutSec: int, pollIntervalSec: int)
    ensures MaxPolls(timeoutSec, pollIntervalSec) >= 1
  {
  }

  /** The number of polls is the least, but at least one, whose intervals cover the timeout. */
  lemma MaxPollsMeans(timeoutSec: int, pollIntervalSec: int)
    requires pollIntervalSec > 0
    ensures var m := MaxPolls(timeoutSec, pollIntervalSec);
            m >= 1 && m * pollIntervalSec >= timeoutSec && (m > 1 ==> (m - 1) * pollIntervalSec < timeoutSec)
  {
    var q := (timeoutSec + pollIntervalSec - 1) / pollIntervalSec;
    var rest := (timeoutSec + pollIntervalSec - 1) % pollIntervalSec;
    assert timeoutSec + pollIntervalSec - 1 == q * pollIntervalSec + rest;
    assert (q - 1) * pollIntervalSec == q * pollIntervalSec - pollIntervalSec;
    if q < 1 {
      assert q * pollIntervalSec <= 0;
    }
  }

  /** Nothing to go by: an unusable answer that says so, or an empty list. */
  predicate Checkless(p: CiPoll) {
    if p.Unusable? then p.noChecksReported else p.checks == []
  }

  /**
   * No signal: at the third poll or later one reported no checks at all, and no earlier such poll did;
   * or the polls ran out with nothing failed, green or ever pending.
   */
  lemma NoSignalMeans(polls: seq<CiPoll>, maxPolls: int)
    requires Polled(polls, maxPolls)
    ensures Observation(polls) == NoSignal <==>
              if |polls| >= 3 && Checkless(Last(polls)) then true
              else !GreenPoll(Last(polls)) && !SomeFailed(Last(polls)) && !EverPending(polls)
    ensures Observation(polls) == NoSignal ==> |polls| >= 3 || |polls| == maxPolls
    ensures forall k :: 2 <= k < |polls| - 1 ==> !Checkless(polls[k])
  {
    var p := Last(polls);
    if p.Checks? && p.checks != [] {
      assert GreenPoll(p) <==> !SomeFailed(p) && !SomePending(p);
    }
    assert polls[|polls| - 1] == p;
    assert SomePending(p) ==> EverPending(polls);
    hide EverPending;
  }

  /** A poll that does not settle on green leaves the stage as it was. */
  lemma PolledStage(s: Stage, id: TicketId, p: CiPoll, k: int, pos: nat, config: LoopConfig)
    requires s.ship.prOpen.Some? && s.ship.ciGreen.None? && s.ship.lowRisk.None? && s.ship.autopilot.None?
    ensures var s' := NextStage(s, PollCi(id, p), pos, config);
            && ObservedCi(s, s')
            && (s'.ship.ciGreen.Some? <==> Settles(p, k) == Some(Green))
            && (Settles(p, k) != Some(Green) ==> s' == s)
  {
    if p.Checks? && p.checks != [] {
      assert GreenPoll(p) <==> !SomeFailed(p) && !SomePending(p);
    }
  }
}
