/**
 * The rules of the build loop (src/executePlan.ts, src/diagnosis.ts), read off the attempts alone:
 * when a failure has stalled, when a consult is asked, when the plan is given up, and what is returned.
 */
module PlanRules {
  import opened Prelude
  import opened LoopStates
  import opened RunStates
  import opened Evidence
  import opened LoopDependencies
  import opened ExecutePlans

  /** The last two attempts failed alike. */
  predicate Repeats(seen: seq<Attempt>) {
    |seen| >= 2 && seen[|seen| - 1].signature == seen[|seen| - 2].signature
  }

  /** The failure of the last diagnosed repeat. */
  function Marked(seen: seq<Attempt>): Option<string> {
    if seen == [] then None
    else if Last(seen).local.Some? && Repeats(seen) then Some(Last(seen).signature)
    else Marked(Init(seen))
  }

  /** The last attempt repeats a failure that had already repeated. */
  predicate Stalls(seen: seq<Attempt>)
    requires seen != []
  {
    Last(seen).local.Some? && Repeats(seen) && Marked(Init(seen)) == Some(Last(seen).signature)
  }

  /** A repeat, or a diagnosis that doubts the plan, asks for a consult while any are left. */
  predicate Asks(seen: seq<Attempt>, k: Knobs)
    requires seen != []
    decreases seen, 0
  {
    && Last(seen).local.Some? && !Stalls(seen)
    && (Repeats(seen) || Last(seen).local.value.planWorkable == Uncertain
        || Last(seen).local.value.planWorkable == NoWay)
    && AskedIn(Init(seen), k) < k.maxConsults && k.hasCodex && |seen| != k.max
  }

  function AskedIn(seen: seq<Attempt>, k: Knobs): nat
    decreases seen, 1
  {
    if seen == [] then 0 else AskedIn(Init(seen), k) + (if Asks(seen, k) then 1 else 0)
  }

  /** The diagnosis says no, it is not the last attempt, and no consult said otherwise. */
  predicate GivesUp(seen: seq<Attempt>, k: Knobs)
    requires seen != []
  {
    && Last(seen).local.Some? && Last(seen).local.value.planWorkable == NoWay && |seen| != k.max
    && (Asks(seen, k) && Last(seen).consult.Some? ==> Last(seen).consult.value.planWorkable == NoWay)
  }

  /** The last attempt ended the loop. */
  predicate Ends(seen: seq<Attempt>, k: Knobs)
    requires seen != []
  {
    Last(seen).passed || Stalls(seen) || GivesUp(seen, k)
  }

  function LastDiagnosed(seen: seq<Attempt>): Option<Diagnosis> {
    if seen == [] then None else if Last(seen).local.Some? then Last(seen).local else LastDiagnosed(Init(seen))
  }

  /** What the loop remembers is what the attempts say. */
  lemma {:induction false} MemoryIs(seen: seq<Attempt>, k: Knobs)
    requires k.diagnosticRetry && After(seen, k).Some?
    ensures var m := After(seen, k).value;
            && m.prevSignature == (if seen == [] then None else Some(Last(seen).signature))
            && m.stalledSignature == Marked(seen)
            && m.consultsUsed == AskedIn(seen, k)
            && m.lastDiagnosis == LastDiagnosed(seen)
  {
    if seen != [] {
      MemoryIs(Init(seen), k);
    }
  }

  /** A consult is granted exactly when the rules ask for one. */
  lemma GrantedIff(seen: seq<Attempt>, k: Knobs)
    requires seen != [] && k.diagnosticRetry && After(Init(seen), k).Some?
    ensures Granted(After(Init(seen), k).value, Last(seen), |seen|, k)
            == (if !Last(seen).passed && Asks(seen, k) then 1 else 0)
  {
    MemoryIs(Init(seen), k);
    hide After, Marked, AskedIn;
  }

  /** The loop goes on after these attempts exactly if the last one neither passed, stalled nor gave up. */
  lemma GoesOnIff(seen: seq<Attempt>, k: Knobs)
    requires seen != [] && k.diagnosticRetry && After(Init(seen), k).Some?
    ensures After(seen, k).Some? <==> !Ends(seen, k)
    ensures After(seen, k).None? ==>
              Judge(After(Init(seen), k).value, Last(seen), |seen|, k)
              == Stop(if Last(seen).passed then Verified
                      else Escalated(if Stalls(seen) then Stalled else PlanUnworkable, |seen|, Last(seen).local.value))
  {
    MemoryIs(Init(seen), k);
    hide Marked, AskedIn;
  }

  /** No attempt before the last ended the loop. */
  lemma {:induction false} WentOn(seen: seq<Attempt>, n: nat, k: Knobs)
    requires k.diagnosticRetry && After(seen, k).Some? && 0 < n <= |seen|
    ensures !Ends(seen[..n], k)
  {
    if n == |seen| {
      assert seen[..n] == seen;
      GoesOnIff(seen, k);
    } else {
      assert Init(seen)[..n] == seen[..n];
      WentOn(Init(seen), n, k);
    }
  }

  lemma NoneBefore(seen: seq<Attempt>, k: Knobs)
    requires seen != [] && k.diagnosticRetry && After(Init(seen), k).Some?
    ensures forall n: nat :: 0 < n < |seen| ==> !Ends(seen[..n], k)
  {
    forall n: nat | 0 < n < |seen|
      ensures !Ends(seen[..n], k)
    {
      assert Init(seen)[..n] == seen[..n];
      WentOn(Init(seen), n, k);
    }
  }

  /**
   * What executePlan returns, by its attempts: verified if the last one passed, stalled if it stalled,
   * plan-unworkable if it gave the plan up, else exhausted; and none before it did any of these.
   */
  lemma OutcomeIs(seen: seq<Attempt>, outcome: ExecuteOutcome, k: Knobs)
    requires k.max >= 1 && k.diagnosticRetry && Returns(seen, outcome, k)
    ensures 1 <= |seen| <= k.max
    ensures outcome ==
            if Last(seen).passed then Verified
            else if Stalls(seen) then Escalated(Stalled, |seen|, Last(seen).local.value)
            else if GivesUp(seen, k) then Escalated(PlanUnworkable, |seen|, Last(seen).local.value)
            else Exhausted(k.max, LastDiagnosed(seen))
    ensures outcome.Exhausted? ==> |seen| == k.max
    ensures forall n: nat :: 0 < n < |seen| ==> !Ends(seen[..n], k)
  {
    ReturnedAfter(seen, outcome, k);
    GoesOnIff(seen, k);
    NoneBefore(seen, k);
    hide After, Judge, Marked, AskedIn, Stalls, GivesUp, Returns;
  }

  lemma ReturnedAfter(seen: seq<Attempt>, outcome: ExecuteOutcome, k: Knobs)
    requires k.max >= 1 && k.diagnosticRetry && Returns(seen, outcome, k)
    ensures 1 <= |seen| <= k.max && After(Init(seen), k).Some?
    ensures After(seen, k).None? ==> Judge(After(Init(seen), k).value, Last(seen), |seen|, k) == Stop(outcome)
    ensures After(seen, k).Some? ==> |seen| == k.max && outcome == Exhausted(k.max, LastDiagnosed(seen))
  {
    AfterIsBounded(seen, outcome, k);
    if After(seen, k).Some? {
      MemoryIs(seen, k);
    }
  }

  /** Without diagnosis the loop only tries again. */
  lemma BlindOutcomeIs(seen: seq<Attempt>, outcome: ExecuteOutcome, k: Knobs)
    requires k.max >= 1 && !k.diagnosticRetry && Returns(seen, outcome, k)
    ensures 1 <= |seen| <= k.max && outcome == (if Last(seen).passed then Verified else Exhausted(k.max, None))
    ensures outcome.Exhausted? ==> |seen| == k.max
  {
    AfterIsBounded(seen, outcome, k);
    MemoryMeans(Init(seen), k);
    if After(seen, k).Some? {
      MemoryMeans(seen, k);
    }
  }

  /** What the rules do: build and verify each time, and a consult wherever one is asked for. */
  function RuleTrace(id: TicketId, seen: seq<Attempt>, k: Knobs): Trace {
    if seen == [] then []
    else RuleTrace(id, Init(seen), k) + [Build(id), Verify(id, Last(seen).passed)]
         + (if !Last(seen).passed && Asks(seen, k) then [AskConsult(id)] else [])
  }

  /** The effects of the build loop are those of its rules. */
  lemma {:induction false} TraceIs(id: TicketId, seen: seq<Attempt>, k: Knobs)
    requires k.diagnosticRetry && (seen != [] ==> After(Init(seen), k).Some?)
    ensures PlanTrace(id, seen, k) == RuleTrace(id, seen, k)
  {
    if seen != [] {
      TraceIs(id, Init(seen), k);
      GrantedIff(seen, k);
      hide After, Granted, Asks;
    }
  }
}
