/** The bounded review/fix/re-verify loop (src/reviewStep.ts). */
module ReviewSteps {
  import opened Prelude
  import opened LoopStates
  import opened RunStates
  import opened Failures
  import opened MergeGates
  import opened Evidence
  import opened RunStores
  import opened LoopDependencies
  import opened TicketContexts
  import opened ExecutePlans

  /** One round: the review, and whether the fix it led to (if any) still verified. */
  datatype Round = Round(review: ReviewOutput, refixed: bool, reverified: bool)

  /** Every round but the last asked for changes, was fixed, re-verified, and was news. */
  predicate Continued(seen: seq<Round>) {
    forall j :: 0 <= j < |seen| - 1 ==>
      && seen[j].review.verdict == RequestChanges && seen[j].refixed && seen[j].reverified
      && (j > 0 ==> seen[j].review.signature != seen[j - 1].review.signature)
  }

  predicate RepeatsLast(seen: seq<Round>) {
    |seen| >= 2 && seen[|seen| - 1].review.signature == seen[|seen| - 2].review.signature
  }

  /** What the step returns after these rounds; None means the re-verification broke. */
  function Conclusion(seen: seq<Round>, maxRounds: int): Option<Verdict> {
    if seen == [] then Some(Escalate)
    else match Last(seen).review.verdict
         case Approve => Some(Approve)
         case Escalate => Some(Escalate)
         case RequestChanges => if RepeatsLast(seen) || |seen| == maxRounds then Some(Escalate) else None
  }

  /** How the rounds can have ended: bounded, and only by a verdict, a stall, the cap or a broken fix. */
  predicate Ended(seen: seq<Round>, maxRounds: int) {
    && Continued(seen) && |seen| <= Max(0, maxRounds)
    && (seen == [] ==> maxRounds <= 0)
    && (seen != [] ==>
          if Conclusion(seen, maxRounds).None? then Last(seen).refixed && !Last(seen).reverified
          else !Last(seen).refixed)
  }

  /** No round spent a fix. */
  predicate Unfixed(seen: seq<Round>) {
    forall j :: 0 <= j < |seen| ==> !seen[j].refixed
  }

  /** The ticket's builder was called in the trace from position `from` on exactly when a round spent a fix. */
  predicate BuildsAreFixes(t: Trace, from: nat, id: TicketId, seen: seq<Round>) {
    from <= |t| && (Absent(t, from, |t|, id, KBuild) <==> Unfixed(seen))
  }

  /** The effects of a round: the review, and the fix with its verification. */
  function RoundTrace(id: TicketId, round: Round): Trace {
    [ReviewCall(id, round.review.verdict)] + (if round.refixed then [Build(id), Verify(id, round.reverified)] else [])
  }

  function ReviewTrace(id: TicketId, seen: seq<Round>): Trace {
    if seen == [] then [] else ReviewTrace(id, Init(seen)) + RoundTrace(id, Last(seen))
  }

  lemma ReviewTraceAppend(id: TicketId, seen: seq<Round>, round: Round)
    ensures ReviewTrace(id, seen + [round]) == ReviewTrace(id, seen) + RoundTrace(id, round)
    ensures !round.refixed ==> RoundTrace(id, round) == [ReviewCall(id, round.review.verdict)]
    ensures round.refixed ==>
              RoundTrace(id, round)
              == [ReviewCall(id, round.review.verdict)] + [Build(id), Verify(id, round.reverified)]
  {
    InitOfAppend(seen, round);
  }

  /** The fix for requested changes: build once, verify once. */
  method Refix(ctx: TicketRunContext, cwd: string) returns (r: Outcome<bool>)
    requires ctx.Active()
    modifies ctx.deps, ctx.deps.store
    ensures ctx.Active() && Quiet(old(ctx.View()), ctx.View(), ctx.runId, ctx.ticket.id)
    ensures r.Ok? ==>
              && ctx.deps.trace == old(ctx.deps.trace) + [Build(ctx.ticket.id), Verify(ctx.ticket.id, r.value)]
              && Reworked(old(ctx.deps.StageFor(ctx.ticket.id)), ctx.deps.StageFor(ctx.ticket.id))
              && ctx.deps.StageFor(ctx.ticket.id).ship == NO_SHIP
              && (ctx.deps.StageFor(ctx.ticket.id).work.verified.Some? <==> r.value)
              && ctx.deps.StageFor(ctx.ticket.id).work.built.Some?
    ensures r.Ok? ==> ctx.View().throws == old(ctx.View()).throws
    ensures r.Err? ==> !r.error.IsLoopStateError() && !r.error.FlagRecord? && ctx.deps.Disturbed(old(ctx.View()))
  {
    var result :- BuildAndVerify(ctx, cwd);
    r := Ok(result.passed);
  }

  /** One review; it may only touch the approval. */
  method AskReview(ctx: TicketRunContext, cwd: string) returns (r: Outcome<ReviewOutput>)
    requires ctx.Active() && ctx.deps.StageFor(ctx.ticket.id).Grounded()
    modifies ctx.deps, ctx.deps.store
    ensures ctx.Active() && Quiet(old(ctx.View()), ctx.View(), ctx.runId, ctx.ticket.id)
    ensures var s := ctx.deps.StageFor(ctx.ticket.id);
            r.Ok? ==>
              && ctx.deps.trace == old(ctx.deps.trace) + [ReviewCall(ctx.ticket.id, r.value.verdict)]
              && Reworked(old(ctx.deps.StageFor(ctx.ticket.id)), s) && s.Grounded()
              && s.work == old(ctx.deps.StageFor(ctx.ticket.id)).work
              && s.ship == NO_SHIP.(approved := s.ship.approved)
              && (s.ship.approved.Some? <==> r.value.verdict == Approve)
    ensures r.Ok? ==> ctx.View().throws == old(ctx.View()).throws
    ensures r.Err? ==> !r.error.IsLoopStateError() && !r.error.FlagRecord? && ctx.deps.Disturbed(old(ctx.View()))
  {
    ghost var s0, pos := ctx.deps.StageFor(ctx.ticket.id), |ctx.deps.trace|;
    r := ctx.deps.RunReview(ctx.runId, ctx.ticket.id, cwd);
    if r.Ok? {
      ReviewedStage(s0, r.value.verdict, ctx.ticket.id, pos, ctx.deps.config);
    }
  }

  lemma ReworkedTransitive(a: Stage, b: Stage, c: Stage)
    requires Reworked(a, b) && Reworked(b, c)
    ensures Reworked(a, c)
  {
  }

  /** One round: the review and, if it asks for news in a round that is not the last, the fix. */
  method OneRound(ctx: TicketRunContext, cwd: string, prevSignature: Option<string>, last: bool)
    returns (r: Outcome<Round>)
    requires ctx.Active()
    requires ctx.deps.StageFor(ctx.ticket.id).Grounded() && ctx.deps.StageFor(ctx.ticket.id).ship == NO_SHIP
    modifies ctx.deps, ctx.deps.store
    ensures ctx.Active() && Quiet(old(ctx.View()), ctx.View(), ctx.runId, ctx.ticket.id)
    ensures r.Ok? ==>
              && RoundRan(old(ctx.View()), ctx.View(), old(ctx.deps.StageFor(ctx.ticket.id)),
                          ctx.deps.StageFor(ctx.ticket.id), ctx.ticket.id, r.value)
              && (r.value.refixed <==> r.value.review.verdict == RequestChanges && !last
                                       && prevSignature != Some(r.value.review.signature))
    ensures r.Err? ==> !r.error.IsLoopStateError() && !r.error.FlagRecord? && ctx.deps.Disturbed(old(ctx.View()))
  {
    hide LoopDeps.Valid, RunStore.Valid, Reworked, Quiet, Stage.Grounded;
    ghost var w0, s0 := ctx.View(), ctx.deps.StageFor(ctx.ticket.id);
    var reviewed := AskReview(ctx, cwd);
    if reviewed.Err? {
      return Err(reviewed.error);
    }
    var review := reviewed.value;
    if review.verdict != RequestChanges || prevSignature == Some(review.signature) || last {
      return Ok(Round(review, false, false));
    }
    ghost var w1, s1 := ctx.View(), ctx.deps.StageFor(ctx.ticket.id);
    var fixed := Refix(ctx, cwd);
    QuietTransitive(w0, w1, ctx.View(), ctx.runId, ctx.ticket.id);
    if fixed.Err? {
      return Err(fixed.error);
    }
    ReworkedTransitive(s0, s1, ctx.deps.StageFor(ctx.ticket.id));
    if fixed.value {
      StillGrounded(s1, ctx.deps.StageFor(ctx.ticket.id));
    }
    r := Ok(Round(review, true, fixed.value));
  }

  /**
   * reviewStep: the verdict (never REQUEST_CHANGES), or None when a fix broke the build.
   * An approval is the last review and rests on a verified build, which is still the one the
   * step was entered with exactly when no round spent a fix.
   */
  method ReviewStep(ctx: TicketRunContext, cwd: string) returns (r: Outcome<Option<Verdict>>, ghost seen: seq<Round>)
    requires ctx.Active()
    requires ctx.deps.StageFor(ctx.ticket.id).Grounded() && ctx.deps.StageFor(ctx.ticket.id).ship == NO_SHIP
    modifies ctx.deps, ctx.deps.store
    ensures ctx.Active() && Quiet(old(ctx.View()), ctx.View(), ctx.runId, ctx.ticket.id)
    ensures var maxRounds, stage := ctx.deps.config.maxReviewRounds, ctx.deps.StageFor(ctx.ticket.id);
            r.Ok? ==>
              && Ended(seen, maxRounds) && r.value == Conclusion(seen, maxRounds)
              && BuildsAreFixes(ctx.deps.trace, |old(ctx.deps.trace)|, ctx.ticket.id, seen)
              && Deeds(old(ctx.View()), ctx.View()) == ReviewTrace(ctx.ticket.id, seen)
              && Reworked(old(ctx.deps.StageFor(ctx.ticket.id)), stage)
              && (r.value.Some? && maxRounds <= 1 ==> stage.work == old(ctx.deps.StageFor(ctx.ticket.id)).work)
              && (r.value.Some? ==>
                    && r.value.value != RequestChanges
                    && stage.ship == NO_SHIP.(approved := stage.ship.approved)
                    && (stage.ship.approved.Some? <==> r.value.value == Approve))
    ensures r.Ok? ==> ctx.View().throws == old(ctx.View()).throws
    ensures r.Err? ==> !r.error.IsLoopStateError() && !r.error.FlagRecord? && ctx.deps.Disturbed(old(ctx.View()))
  {
    ghost var w0, s0 := ctx.View(), ctx.deps.StageFor(ctx.ticket.id);
    var id := ctx.ticket.id;
    assert ctx.runId in w0.runs;
    hide *;
    var maxRounds := ctx.deps.config.maxReviewRounds;
    var prevSignature: Option<string> := None;
    seen := [];
    NothingReviewed(w0, s0, ctx.runId, id, maxRounds);
    var round := 1;
    while round <= maxRounds
      invariant ctx.Active() && |seen| == round - 1 && (round == 1 || round <= maxRounds)
      invariant Midway(w0, ctx.View(), s0, ctx.deps.StageFor(id), ctx.runId, id, seen)
      invariant prevSignature == (if seen == [] then None else Some(Last(seen).review.signature))
      invariant ctx.deps.StageFor(id).Grounded() && ctx.deps.StageFor(id).ship == NO_SHIP
    {
      ghost var w1, s1 := ctx.View(), ctx.deps.StageFor(id);
      var reviewed := OneRound(ctx, cwd, prevSignature, round == maxRounds);
      MidwayIsQuiet(w0, w1, s0, s1, ctx.runId, id, seen);
      QuietTransitive(w0, w1, ctx.View(), ctx.runId, id);
      if reviewed.Err? {
        DisturbedSince(ctx.deps, w0, w1);
        return Err(reviewed.error), seen;
      }
      var done := reviewed.value;
      RoundDone(w0, w1, ctx.View(), s0, s1, ctx.deps.StageFor(id), ctx.runId, id, seen, done, maxRounds);
      LastOfAppend(seen, done);
      seen := seen + [done];
      if !done.refixed {
        r := Ok(Some(if done.review.verdict == Approve then Approve else Escalate));
        ConcludedMeans(w0, ctx.View(), s0, ctx.deps.StageFor(id), ctx.runId, id, seen, maxRounds);
        return;
      }
      if !done.reverified {
        r := Ok(None);
        ConcludedMeans(w0, ctx.View(), s0, ctx.deps.StageFor(id), ctx.runId, id, seen, maxRounds);
        return;
      }
      prevSignature := Some(done.review.signature);
      round := round + 1;
    }
    NeverReviewed(w0, ctx.View(), s0, ctx.deps.StageFor(id), ctx.runId, id, seen, maxRounds);
    ConcludedMeans(w0, ctx.View(), s0, ctx.deps.StageFor(id), ctx.runId, id, seen, maxRounds);
    r := Ok(Some(Escalate));
  }

  /** What a round does, given what it was answered. */
  predicate RoundRan(w0: World, w1: World, s0: Stage, s: Stage, id: TicketId, round: Round) {
    && (!round.refixed ==> !round.reverified)
    && w1.throws == w0.throws && Deeds(w0, w1) == RoundTrace(id, round)
    && Reworked(s0, s) && s.ship == NO_SHIP.(approved := s.ship.approved)
    && (s.ship.approved.Some? <==> round.review.verdict == Approve)
    && (!round.refixed ==> s.work == s0.work)
    && (!round.refixed || round.reverified ==> s.Grounded())
  }

  /** What these rounds did together. */
  ghost predicate RoundsRan(w0: World, w: World, s0: Stage, s: Stage, runId: RunId, id: TicketId, seen: seq<Round>) {
    && Quiet(w0, w, runId, id) && w.throws == w0.throws
    && BuildsAreFixes(w.trace, |w0.trace|, id, seen) && Deeds(w0, w) == ReviewTrace(id, seen)
    && Reworked(s0, s) && Continued(seen)
  }

  /** Between rounds: each so far asked for changes and got them. */
  ghost predicate Midway(w0: World, w: World, s0: Stage, s: Stage, runId: RunId, id: TicketId, seen: seq<Round>) {
    && RoundsRan(w0, w, s0, s, runId, id, seen)
    && (seen != [] ==> KeptGoing(seen)) && (seen == [] ==> s.work == s0.work)
  }

  /** After the last round, and what it amounts to. */
  ghost predicate Concluded(w0: World, w: World, s0: Stage, s: Stage, runId: RunId, id: TicketId, seen: seq<Round>,
      maxRounds: int)
  {
    var value := Conclusion(seen, maxRounds);
    && RoundsRan(w0, w, s0, s, runId, id, seen) && Ended(seen, maxRounds)
    && (value.Some? && maxRounds <= 1 ==> s.work == s0.work)
    && (value.Some? ==> value.value != RequestChanges && s.ship == NO_SHIP.(approved := s.ship.approved)
                        && (s.ship.approved.Some? <==> value.value == Approve))
  }

  lemma ConcludedMeans(w0: World, w: World, s0: Stage, s: Stage, runId: RunId, id: TicketId, seen: seq<Round>,
      maxRounds: int)
    requires Concluded(w0, w, s0, s, runId, id, seen, maxRounds)
    ensures Ended(seen, maxRounds) && BuildsAreFixes(w.trace, |w0.trace|, id, seen)
    ensures Deeds(w0, w) == ReviewTrace(id, seen) && Reworked(s0, s) && w.throws == w0.throws
    ensures Quiet(w0, w, runId, id)
    ensures var value := Conclusion(seen, maxRounds);
            && (value.Some? && maxRounds <= 1 ==> s.work == s0.work)
            && (value.Some? ==> value.value != RequestChanges && s.ship == NO_SHIP.(approved := s.ship.approved)
                                && (s.ship.approved.Some? <==> value.value == Approve))
  {
  }

  lemma MidwayIsQuiet(w0: World, w: World, s0: Stage, s: Stage, runId: RunId, id: TicketId, seen: seq<Round>)
    requires Midway(w0, w, s0, s, runId, id, seen)
    ensures Quiet(w0, w, runId, id)
  {
  }

  lemma NothingReviewed(w: World, s: Stage, runId: RunId, id: TicketId, maxRounds: int)
    requires runId in w.runs
    ensures Midway(w, w, s, s, runId, id, [])
  {
    QuietReflexive(w, runId, id);
  }

  lemma NeverReviewed(w0: World, w: World, s0: Stage, s: Stage, runId: RunId, id: TicketId, seen: seq<Round>,
      maxRounds: int)
    requires Midway(w0, w, s0, s, runId, id, seen) && s.ship == NO_SHIP
    requires |seen| == 0 && maxRounds <= 0
    ensures Concluded(w0, w, s0, s, runId, id, seen, maxRounds) && Conclusion(seen, maxRounds) == Some(Escalate)
  {
  }

  /** One more round. */
  lemma RoundDone(w0: World, w1: World, w2: World, s0: Stage, s1: Stage, s2: Stage, runId: RunId, id: TicketId,
      seen: seq<Round>, done: Round, maxRounds: int)
    requires Midway(w0, w1, s0, s1, runId, id, seen) && |seen| < maxRounds
    requires Quiet(w1, w2, runId, id) && RoundRan(w1, w2, s1, s2, id, done)
    requires done.refixed <==> done.review.verdict == RequestChanges && |seen| + 1 != maxRounds
                               && (seen != [] ==> Last(seen).review.signature != done.review.signature)
    ensures var all := seen + [done];
            && (done.reverified ==> Midway(w0, w2, s0, s2, runId, id, all) && s2.Grounded() && s2.ship == NO_SHIP)
            && (!done.reverified ==> Concluded(w0, w2, s0, s2, runId, id, all, maxRounds))
            && (!done.refixed ==>
                  Conclusion(all, maxRounds) == Some(if done.review.verdict == Approve then Approve else Escalate))
            && (done.refixed && !done.reverified ==> Conclusion(all, maxRounds).None?)
  {
    hide Quiet, BuildsAreFixes, Continued, Ended, KeptGoing, Conclusion, Reworked, ReviewTrace, RoundTrace, Deeds;
    QuietTransitive(w0, w1, w2, runId, id);
    ReworkedTransitive(s0, s1, s2);
    RoundCounts(w1, w2, runId, |w0.trace|, id, seen, done);
    ReviewTraceAppend(id, seen, done);
    RoundEnds(seen, done, maxRounds);
    FirstOnly(seen, done, maxRounds);
  }

  lemma FirstOnly(seen: seq<Round>, done: Round, maxRounds: int)
    requires |seen| < maxRounds
    ensures maxRounds <= 1 ==> seen == []
  {
  }

  lemma LastOfAppend(seen: seq<Round>, round: Round)
    ensures Last(seen + [round]) == round && Init(seen + [round]) == seen
  {
    InitOfAppend(seen, round);
  }

  /** What a round was answered decides whether the loop goes on, and if not what it returns. */
  lemma RoundEnds(seen: seq<Round>, done: Round, maxRounds: int)
    requires Continued(seen) && |seen| < maxRounds && (seen != [] ==> KeptGoing(seen))
    requires done.refixed <==> done.review.verdict == RequestChanges && |seen| + 1 != maxRounds
                               && (seen != [] ==> Last(seen).review.signature != done.review.signature)
    requires !done.refixed ==> !done.reverified
    ensures var all := seen + [done];
            && Continued(all) && (done.reverified ==> KeptGoing(all))
            && (!done.refixed ==>
                  && Ended(all, maxRounds)
                  && Conclusion(all, maxRounds) == Some(if done.review.verdict == Approve then Approve else Escalate))
            && (done.refixed && !done.reverified ==> Ended(all, maxRounds) && Conclusion(all, maxRounds).None?)
  {
    if done.refixed {
      FixedHere(seen, done.review, done.reverified, maxRounds);
    } else {
      StopsHere(seen, done.review, maxRounds);
    }
  }

  lemma RoundCounts(w0: World, w1: World, runId: RunId, from: nat, id: TicketId, seen: seq<Round>, done: Round)
    requires BuildsAreFixes(w0.trace, from, id, seen) && Quiet(w0, w1, runId, id)
    requires Deeds(w0, w1) == RoundTrace(id, done) && (!done.refixed ==> !done.reverified)
    ensures BuildsAreFixes(w1.trace, from, id, seen + [done])
  {
    assert w1.trace == w0.trace + Deeds(w0, w1);
    hide BuildsAreFixes;
    if done.refixed {
      ReviewedAndFixed(w0.trace, from, id, seen, done.review, done.reverified);
      assert w0.trace + RoundTrace(id, done) ==
             w0.trace + [ReviewCall(id, done.review.verdict)] + [Build(id), Verify(id, done.reverified)];
    } else {
      assert RoundTrace(id, done) == [ReviewCall(id, done.review.verdict)];
      ReviewedOnly(w0.trace, from, id, seen, done.review);
    }
  }

  /** Rounds that end in an approval. */
  predicate Approves(seen: seq<Round>, maxRounds: int) {
    Ended(seen, maxRounds) && Conclusion(seen, maxRounds) == Some(Approve)
  }

  /** An approval can follow a fix exactly when the configuration allows a second round. */
  lemma FixNeedsSecondRound(maxRounds: int)
    ensures (forall seen :: Approves(seen, maxRounds) ==> Unfixed(seen)) <==> maxRounds <= 1
  {
    if maxRounds > 1 {
      var asked, agreed := ReviewOutput(RequestChanges, "", ""), ReviewOutput(Approve, "", "");
      var seen := [Round(asked, true, true), Round(agreed, false, false)];
      assert Approves(seen, maxRounds);
      assert seen[0].refixed;
    }
  }

  /** The last round, too, asked for changes and was fixed. */
  predicate KeptGoing(seen: seq<Round>)
    requires seen != []
  {
    Last(seen).review.verdict == RequestChanges && Last(seen).refixed && Last(seen).reverified && !RepeatsLast(seen)
  }

  lemma ReviewedOnly(t: Trace, from: nat, id: TicketId, seen: seq<Round>, review: ReviewOutput)
    requires BuildsAreFixes(t, from, id, seen)
    ensures BuildsAreFixes(t + [ReviewCall(id, review.verdict)], from, id, seen + [Round(review, false, false)])
  {
    var t', seen' := t + [ReviewCall(id, review.verdict)], seen + [Round(review, false, false)];
    AbsentStep(t, Last(t'), from, id, KBuild);
    assert Absent(t', from, |t'|, id, KBuild) ==> Absent(t, from, |t|, id, KBuild) by {
      assert forall k :: 0 <= k < |t| ==> t'[k] == t[k];
    }
    assert Unfixed(seen') ==> Unfixed(seen) by {
      assert forall j :: 0 <= j < |seen| ==> seen'[j] == seen[j];
    }
  }

  lemma ReviewedAndFixed(t: Trace, from: nat, id: TicketId, seen: seq<Round>, review: ReviewOutput, passed: bool)
    requires BuildsAreFixes(t, from, id, seen)
    ensures BuildsAreFixes(t + [ReviewCall(id, review.verdict)] + [Build(id), Verify(id, passed)], from, id,
                           seen + [Round(review, true, passed)])
  {
    var t' := t + [ReviewCall(id, review.verdict)] + [Build(id), Verify(id, passed)];
    assert t'[|t| + 1] == Build(id) && KindOf(t'[|t| + 1]) == KBuild;
    assert (seen + [Round(review, true, passed)])[|seen|].refixed;
  }

  lemma ReworkedReflexive(s: Stage)
    ensures Reworked(s, s)
  {
  }

  /** A grounded stage after a review: approved exactly by an approval. */
  lemma ReviewedStage(s: Stage, verdict: Verdict, id: TicketId, pos: nat, config: LoopConfig)
    requires s.Grounded()
    ensures var s' := NextStage(s, ReviewCall(id, verdict), pos, config);
            && Reworked(s, s') && s'.Grounded() && s'.work == s.work
            && s'.ship == NO_SHIP.(approved := s'.ship.approved)
            && (s'.ship.approved.Some? <==> verdict == Approve)
  {
  }

  lemma StillGrounded(a: Stage, b: Stage)
    requires a.Grounded() && Reworked(a, b) && b.work.verified.Some?
    ensures b.Grounded()
  {
  }

  lemma StopsHere(seen: seq<Round>, review: ReviewOutput, maxRounds: int)
    requires Continued(seen) && |seen| < maxRounds && (seen != [] ==> KeptGoing(seen))
    requires review.verdict != RequestChanges
             || (seen != [] && Last(seen).review.signature == review.signature) || |seen| + 1 == maxRounds
    ensures var all := seen + [Round(review, false, false)];
            && Ended(all, maxRounds)
            && Conclusion(all, maxRounds) == Some(if review.verdict == Approve then Approve else Escalate)
  {
  }

  lemma FixedHere(seen: seq<Round>, review: ReviewOutput, reverified: bool, maxRounds: int)
    requires Continued(seen) && |seen| + 1 < maxRounds && (seen != [] ==> KeptGoing(seen))
    requires review.verdict == RequestChanges
    requires seen != [] ==> Last(seen).review.signature != review.signature
    ensures var all := seen + [Round(review, true, reverified)];
            && Continued(all) && Last(all).review == review
            && (reverified ==> KeptGoing(all))
            && (!reverified ==> Ended(all, maxRounds) && Conclusion(all, maxRounds).None?)
  {
  }
}
