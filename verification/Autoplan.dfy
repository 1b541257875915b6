/**
 * Planning a batch (autoplanEpic, runWithCap, firstUnresolvedDep in src/planning.ts): dependency
 * waves, each drained by concurrent workers over a shared queue and shared results, under any
 * interleaving. Planning is a function of the ticket and of what its own dependencies in the batch
 * came to, as a draft may read what they left on disk; persisting and the external check are
 * functions of their inputs.
 */
module Autoplans {
  import opened Prelude
  import opened Ids
  import opened TopoOrders
  import opened PlanningLoops

  /** What planning one ticket gave: its outcome, or what it threw. */
  datatype Planned = Returned(outcome: PlanningOutcome) | Threw(message: string)

  /** The batch's collaborators; a failed persist answers with its error message. */
  datatype BatchDeps = BatchDeps(
    external: Id -> bool,
    plan: (Sketch, map<Id, PlanningOutcome>) -> Planned,
    persist: (Id, PlanningOutcome) -> Option<string>)

  datatype Event =
    | DraftStarted(id: Id)
    | Terminal(id: Id, approved: bool)
    | Persisted(id: Id, approved: bool)
    | PersistFailed(id: Id, detail: string)

  // ----- one ticket, alone -----

  predicate Resolved(deps: BatchDeps, approved: set<Id>, d: Id) {
    d in approved || deps.external(d)
  }

  /** firstUnresolvedDep, from the k-th dependency on. */
  function FirstUnresolved(deps: BatchDeps, approved: set<Id>, t: Sketch, k: nat): Option<Id>
    requires k <= |t.dependsOn|
    decreases |t.dependsOn| - k
  {
    if k == |t.dependsOn| then None
    else if Resolved(deps, approved, t.dependsOn[k]) then FirstUnresolved(deps, approved, t, k + 1)
    else Some(t.dependsOn[k])
  }

  /** `if (unresolved)`: the empty name is no name. */
  predicate Blocks(unresolved: Option<Id>) {
    unresolved.Some? && unresolved.value != ""
  }

  function DependencyEscalation(detail: string): (o: PlanningOutcome)
    ensures o.Escalated?
  {
    Escalated(DependencyUnresolved, "waits for " + detail, None, [])
  }

  function ApprovedIn(outcomes: map<Id, PlanningOutcome>): set<Id> {
    set id | id in outcomes && outcomes[id].Approved?
  }

  lemma ApprovedInMeans(outcomes: map<Id, PlanningOutcome>)
    ensures forall id :: id in ApprovedIn(outcomes) <==> id in outcomes && outcomes[id].Approved?
  {
  }

  /** What a ticket's own dependencies came to, as far as they are settled. */
  function Own(t: Sketch, seen: map<Id, PlanningOutcome>): map<Id, PlanningOutcome> {
    map d | d in t.dependsOn && d in seen :: seen[d]
  }

  /** The outcome of planning proper; a throw escalates just this ticket. */
  function PlanResult(deps: BatchDeps, seen: map<Id, PlanningOutcome>, t: Sketch): PlanningOutcome {
    match deps.plan(t, Own(t, seen))
    case Returned(outcome) => outcome
    case Threw(message) => Escalated(PlanningError, message, None, [])
  }

  function Verdict(deps: BatchDeps, seen: map<Id, PlanningOutcome>, t: Sketch): PlanningOutcome {
    var unresolved := FirstUnresolved(deps, ApprovedIn(seen), t, 0);
    if Blocks(unresolved) then DependencyEscalation(unresolved.value) else PlanResult(deps, seen, t)
  }

  function ReasonName(r: Reason): string {
    match r
    case CodexEscalate => "codex-escalate"
    case RoundsExhausted => "rounds-exhausted"
    case DependencyUnresolved => "dependency-unresolved"
    case PlanningError => "planning-error"
  }

  /** Persist or downgrade: what is not on disk does not count as approved. */
  function Final(deps: BatchDeps, id: Id, outcome: PlanningOutcome): PlanningOutcome {
    match deps.persist(id, outcome)
    case None => outcome
    case Some(detail) =>
      var original :=
        if outcome.Escalated?
        then "; before, " + ReasonName(outcome.reason) + ": " + outcome.findings
        else "";
      Escalated(PlanningError, "not on disk: " + detail + original, None, outcome.decisions)
  }

  function Settled(deps: BatchDeps, seen: map<Id, PlanningOutcome>, t: Sketch): PlanningOutcome {
    Final(deps, t.id, Verdict(deps, seen, t))
  }

  function PersistEvent(deps: BatchDeps, id: Id, outcome: PlanningOutcome): (e: Event)
    ensures e.id == id && (e.Persisted? || e.PersistFailed?)
  {
    match deps.persist(id, outcome)
    case None => Persisted(id, outcome.Approved?)
    case Some(detail) => PersistFailed(id, detail)
  }

  /** Everything one ticket logs up to its terminal event. */
  function TrailToTerminal(deps: BatchDeps, seen: map<Id, PlanningOutcome>, t: Sketch): seq<Event> {
    (if Blocks(FirstUnresolved(deps, ApprovedIn(seen), t, 0)) then [] else [DraftStarted(t.id)])
    + [Terminal(t.id, Verdict(deps, seen, t).Approved?)]
  }

  function Trail(deps: BatchDeps, seen: map<Id, PlanningOutcome>, t: Sketch): seq<Event> {
    TrailToTerminal(deps, seen, t) + [PersistEvent(deps, t.id, Verdict(deps, seen, t))]
  }

  predicate ResolvedUpTo(deps: BatchDeps, approved: set<Id>, t: Sketch, k: nat, e: nat)
    requires e <= |t.dependsOn|
  {
    forall j :: k <= j < e ==> t.dependsOn[j] in approved || deps.external(t.dependsOn[j])
  }

  /** The check stops at an unresolved empty name, which then blocks nothing. */
  predicate StopsAtEmpty(deps: BatchDeps, approved: set<Id>, t: Sketch, k: nat, e: nat) {
    k <= e < |t.dependsOn| && t.dependsOn[e] == "" && "" !in approved && !deps.external("")
      && ResolvedUpTo(deps, approved, t, k, e)
  }

  /** When the gate lets a ticket be drafted: every dependency is resolved, or the check stopped at an empty name. */
  lemma {:induction false} GateMeans(deps: BatchDeps, approved: set<Id>, t: Sketch, k: nat)
    requires k <= |t.dependsOn|
    ensures !Blocks(FirstUnresolved(deps, approved, t, k)) <==>
            ResolvedUpTo(deps, approved, t, k, |t.dependsOn|) || exists e :: StopsAtEmpty(deps, approved, t, k, e)
    decreases |t.dependsOn| - k
  {
    if k < |t.dependsOn| {
      var next: nat := k + 1;
      GateMeans(deps, approved, t, next);
      if Resolved(deps, approved, t.dependsOn[k]) {
        forall e: nat
          ensures StopsAtEmpty(deps, approved, t, next, e) <==> StopsAtEmpty(deps, approved, t, k, e)
        {
          if StopsAtEmpty(deps, approved, t, k, e) {
            assert e != k;
          }
        }
      } else if t.dependsOn[k] == "" {
        assert StopsAtEmpty(deps, approved, t, k, k);
      }
    }
  }

  /** Only the ticket's own dependencies matter to the gate. */
  lemma {:induction false} GateIsLocal(deps: BatchDeps, a: set<Id>, b: set<Id>, t: Sketch, k: nat)
    requires k <= |t.dependsOn|
    requires forall d :: d in t.dependsOn ==> (d in a <==> d in b)
    ensures FirstUnresolved(deps, a, t, k) == FirstUnresolved(deps, b, t, k)
    decreases |t.dependsOn| - k
  {
    if k < |t.dependsOn| {
      GateIsLocal(deps, a, b, t, k + 1);
    }
  }

  // ----- the batch, one ticket after another in dependency order -----

  function Reference(deps: BatchDeps, order: seq<Sketch>): (outcomes: map<Id, PlanningOutcome>)
    ensures outcomes.Keys == Batch(order)
  {
    if order == [] then map[]
    else
      assert order == Init(order) + [Last(order)];
      var before := Reference(deps, Init(order));
      before[Last(order).id := Settled(deps, before, Last(order))]
  }

  /** Each ticket's dependencies inside the batch stand before it. */
  predicate Sequenced(order: seq<Sketch>, batch: set<Id>) {
    forall i, d :: 0 <= i < |order| && d in order[i].dependsOn && d in batch ==> d in Batch(order[..i])
  }

  /** Equal own dependencies are approved alike. */
  lemma OwnApprovals(a: map<Id, PlanningOutcome>, b: map<Id, PlanningOutcome>, t: Sketch, d: Id)
    requires Own(t, a) == Own(t, b) && d in t.dependsOn
    ensures d in ApprovedIn(a) <==> d in ApprovedIn(b)
  {
    assert d in a <==> d in Own(t, a);
    assert d in b <==> d in Own(t, b);
    if d in a {
      assert a[d] == Own(t, a)[d] == Own(t, b)[d] == b[d];
    }
  }

  /** Only a ticket's own dependencies matter to what becomes of it. */
  lemma SettledIsLocal(deps: BatchDeps, a: map<Id, PlanningOutcome>, b: map<Id, PlanningOutcome>, t: Sketch)
    requires Own(t, a) == Own(t, b)
    ensures Settled(deps, a, t) == Settled(deps, b, t) && Trail(deps, a, t) == Trail(deps, b, t)
  {
    forall d | d in t.dependsOn
      ensures d in ApprovedIn(a) <==> d in ApprovedIn(b)
    {
      OwnApprovals(a, b, t, d);
    }
    GateIsLocal(deps, ApprovedIn(a), ApprovedIn(b), t, 0);
    hide FirstUnresolved, Own, ApprovedIn;
  }

  lemma SequencedInit(order: seq<Sketch>, batch: set<Id>)
    requires order != [] && DistinctIds(order) && Sequenced(order, batch)
    ensures DistinctIds(Init(order)) && Sequenced(Init(order), batch)
    ensures Last(order).id !in Batch(Init(order)) && Batch(order) == Batch(Init(order)) + {Last(order).id}
  {
    assert forall i :: 0 <= i < |order| - 1 ==> Init(order)[..i] == order[..i];
    BatchGrows(order, |order| - 1);
    assert order[..|order|] == order;
  }

  lemma DependenciesAreEarlier(order: seq<Sketch>, batch: set<Id>, t: Sketch, d: Id)
    requires order != [] && Sequenced(order, batch) && t in order && d in t.dependsOn && d in batch
    ensures d in Batch(Init(order))
  {
    var i :| 0 <= i < |order| && order[i] == t;
    var u :| u in order[..i] && u.id == d;
    assert u in Init(order);
  }

  /** The sequential outcomes settle every ticket against themselves. */
  lemma {:induction false} ReferenceIsConsistent(deps: BatchDeps, order: seq<Sketch>, batch: set<Id>, t: Sketch)
    requires DistinctIds(order) && Sequenced(order, batch) && Batch(order) <= batch && t in order
    ensures t.id in Reference(deps, order)
    ensures Reference(deps, order)[t.id] == Settled(deps, Reference(deps, order), t)
  {
    hide Reference, Settled, Own, Batch, DistinctIds, Sequenced, ApprovedIn;
    var before, after := Reference(deps, Init(order)), Reference(deps, order);
    var last := Last(order);
    SequencedInit(order, batch);
    ReferenceStep(deps, order);
    forall d | d in t.dependsOn
      ensures (d in before <==> d in after) && (d in before ==> before[d] == after[d])
    {
      EarlierStands(order, batch, t, d);
    }
    SameOwnOutcomes(t, before, after);
    SettledIsLocal(deps, before, after, t);
    assert order == Init(order) + [last];
    if t != last {
      SmallerBatch(order, batch);
      ReferenceIsConsistent(deps, Init(order), batch, t);
      EarlierStaysItself(order, t);
    }
  }

  lemma ReferenceStep(deps: BatchDeps, order: seq<Sketch>)
    requires order != []
    ensures var before := Reference(deps, Init(order));
            && before.Keys == Batch(Init(order))
            && Reference(deps, order) == before[Last(order).id := Settled(deps, before, Last(order))]
  {
    hide Settled, Batch;
  }

  /** A dependency that is in the batch has its outcome before the last ticket of the order, which it is not. */
  lemma EarlierStands(order: seq<Sketch>, batch: set<Id>, t: Sketch, d: Id)
    requires order != [] && DistinctIds(order) && Sequenced(order, batch) && Batch(order) <= batch
    requires t in order && d in t.dependsOn
    ensures d == Last(order).id ==> d in Batch(Init(order))
    ensures Last(order).id !in Batch(Init(order))
  {
    SequencedInit(order, batch);
    if d in batch {
      DependenciesAreEarlier(order, batch, t, d);
    }
    hide Sequenced, DistinctIds;
    assert Last(order) in order;
  }

  lemma SameOwnOutcomes(t: Sketch, a: map<Id, PlanningOutcome>, b: map<Id, PlanningOutcome>)
    requires forall d :: d in t.dependsOn ==> (d in a <==> d in b) && (d in a ==> a[d] == b[d])
    ensures Own(t, a) == Own(t, b)
  {
  }

  lemma SmallerBatch(order: seq<Sketch>, batch: set<Id>)
    requires order != [] && Batch(order) <= batch
    ensures Batch(Init(order)) <= batch
  {
    assert forall t :: t in Init(order) ==> t in order;
  }

  lemma EarlierStaysItself(order: seq<Sketch>, t: Sketch)
    requires order != [] && DistinctIds(order) && t in Init(order)
    ensures t.id != Last(order).id
  {
    var i :| 0 <= i < |order| - 1 && order[i] == t;
  }

  // ----- the workers of one wave -----

  /** Where a worker stands with its ticket; each step ends at an await. */
  datatype Activity =
    | Checking(t: Sketch, k: nat)
    | Planning(t: Sketch)
    | Persisting(t: Sketch, outcome: PlanningOutcome)

  /** The shared queue, the workers' tickets, and the shared results. */
  datatype Crew = Crew(
    queue: seq<Sketch>,
    active: map<Id, Activity>,
    approved: set<Id>,
    outcomes: map<Id, PlanningOutcome>,
    log: seq<Event>)

  /** An idle worker shifts the next ticket off the queue. */
  function Take(c: Crew): Crew
    requires c.queue != []
  {
    c.(queue := c.queue[1..], active := c.active[c.queue[0].id := Checking(c.queue[0], 0)])
  }

  /** One step of the worker that holds ticket `id`. */
  function Advance(deps: BatchDeps, c: Crew, id: Id): Crew
    requires id in c.active
  {
    match c.active[id]
    case Checking(t, k) =>
      if k < |t.dependsOn| && Resolved(deps, c.approved, t.dependsOn[k]) then
        c.(active := c.active[id := Checking(t, k + 1)])
      else if k < |t.dependsOn| && t.dependsOn[k] != "" then
        c.(active := c.active[id := Persisting(t, DependencyEscalation(t.dependsOn[k]))],
           log := c.log + [Terminal(id, false)])
      else
        c.(active := c.active[id := Planning(t)], log := c.log + [DraftStarted(id)])
    case Planning(t) =>
      c.(active := c.active[id := Persisting(t, PlanResult(deps, c.outcomes, t))],
         log := c.log + [Terminal(id, PlanResult(deps, c.outcomes, t).Approved?)])
    case Persisting(t, outcome) =>
      var final := Final(deps, id, outcome);
      Crew(c.queue, c.active - {id},
           if final.Approved? then c.approved + {id} else c.approved,
           c.outcomes[id := final],
           c.log + [PersistEvent(deps, id, outcome)])
  }

  /** One ticket's part of the log. */
  function Project(log: seq<Event>, id: Id): seq<Event> {
    if log == [] then [] else Project(Init(log), id) + (if Last(log).id == id then [Last(log)] else [])
  }

  lemma ProjectAppend(log: seq<Event>, e: Event, id: Id)
    ensures Project(log + [e], id) == Project(log, id) + (if e.id == id then [e] else [])
  {
    InitOfAppend(log, e);
  }

  /** What a wave starts from: nobody in it is settled, and it depends on no member of itself. */
  predicate Launchable(wave: seq<Sketch>, start: Crew) {
    && start.queue == wave && start.active == map[] && DistinctIds(wave)
    && start.approved == ApprovedIn(start.outcomes)
    && (forall t :: t in wave ==> t.id !in start.outcomes)
    && (forall t, d :: t in wave && d in t.dependsOn ==> d !in Batch(wave))
  }

  predicate ActivityOk(deps: BatchDeps, seen: map<Id, PlanningOutcome>, a: Activity) {
    var approved := ApprovedIn(seen);
    match a
    case Checking(t, k) => k <= |t.dependsOn|
      && FirstUnresolved(deps, approved, t, k) == FirstUnresolved(deps, approved, t, 0)
    case Planning(t) => !Blocks(FirstUnresolved(deps, approved, t, 0))
    case Persisting(t, outcome) => outcome == Verdict(deps, seen, t)
  }

  function Logged(deps: BatchDeps, seen: map<Id, PlanningOutcome>, a: Activity): seq<Event> {
    match a
    case Checking(_, _) => []
    case Planning(t) => [DraftStarted(t.id)]
    case Persisting(t, _) => TrailToTerminal(deps, seen, t)
  }

  /** One ticket of the wave, wherever the workers have brought it. */
  predicate TicketOk(deps: BatchDeps, start: Crew, c: Crew, t: Sketch) {
    var before := Project(start.log, t.id);
    var now := Project(c.log, t.id);
    if t.id in c.outcomes then
      && t !in c.queue && t.id !in c.active
      && c.outcomes[t.id] == Settled(deps, start.outcomes, t)
      && now == before + Trail(deps, start.outcomes, t)
    else if t.id in c.active then
      && t !in c.queue
      && c.active[t.id].t == t && ActivityOk(deps, start.outcomes, c.active[t.id])
      && now == before + Logged(deps, start.outcomes, c.active[t.id])
    else
      t in c.queue && now == before
  }

  ghost predicate OthersKept(wave: seq<Sketch>, start: Crew, c: Crew) {
    && start.outcomes.Keys <= c.outcomes.Keys <= start.outcomes.Keys + Batch(wave)
    && (forall id :: id in start.outcomes ==> c.outcomes[id] == start.outcomes[id])
    && (forall id :: id !in Batch(wave) ==> Project(c.log, id) == Project(start.log, id))
  }

  ghost predicate WaveOk(deps: BatchDeps, wave: seq<Sketch>, start: Crew, c: Crew) {
    && |c.queue| <= |wave| && c.queue == wave[|wave| - |c.queue|..]
    && c.active.Keys <= Batch(wave)
    && c.approved == ApprovedIn(c.outcomes)
    && OthersKept(wave, start, c)
    && forall t :: t in wave ==> TicketOk(deps, start, c, t)
  }

  /** What a step changes, as far as tickets other than `id` can tell. */
  ghost predicate Touches(c: Crew, next: Crew, id: Id) {
    && next.active - {id} == c.active - {id}
    && next.outcomes - {id} == c.outcomes - {id}
    && (next.log == c.log || (next.log != [] && Init(next.log) == c.log && Last(next.log).id == id))
    && (forall t: Sketch :: t.id != id ==> (t in next.queue <==> t in c.queue))
  }

  lemma OthersUntouched(deps: BatchDeps, start: Crew, c: Crew, next: Crew, id: Id, t: Sketch)
    requires Touches(c, next, id) && t.id != id && TicketOk(deps, start, c, t)
    ensures TicketOk(deps, start, next, t)
  {
    assert t.id in next.outcomes <==> t.id in next.outcomes - {id};
    assert t.id in c.outcomes <==> t.id in c.outcomes - {id};
    assert t.id in next.active <==> t.id in next.active - {id};
    assert t.id in c.active <==> t.id in c.active - {id};
    if t.id in c.outcomes {
      assert (next.outcomes - {id})[t.id] == (c.outcomes - {id})[t.id];
    }
    if t.id in c.active {
      assert (next.active - {id})[t.id] == (c.active - {id})[t.id];
    }
    assert Project(next.log, t.id) == Project(c.log, t.id);
  }

  lemma TakeTouches(c: Crew)
    requires c.queue != []
    ensures Touches(c, Take(c), c.queue[0].id)
  {
    assert c.queue == [c.queue[0]] + c.queue[1..];
  }

  lemma UpdateTouchesOne<T>(m: map<Id, T>, id: Id, v: T)
    ensures m[id := v] - {id} == m - {id} && (m - {id}) - {id} == m - {id}
  {
  }

  lemma AdvanceTouches(deps: BatchDeps, c: Crew, id: Id)
    requires id in c.active
    ensures Touches(c, Advance(deps, c, id), id)
  {
    hide Final, PersistEvent, DependencyEscalation, PlanResult, Resolved;
    var next := Advance(deps, c, id);
    assert next.active - {id} == c.active - {id} by {
      if id in next.active {
        UpdateTouchesOne(c.active, id, next.active[id]);
      } else {
        UpdateTouchesOne(c.active, id, c.active[id]);
      }
    }
    assert next.outcomes - {id} == c.outcomes - {id} by {
      if c.active[id].Persisting? {
        UpdateTouchesOne(c.outcomes, id, next.outcomes[id]);
      }
    }
    if next.log != c.log {
      InitOfAppend(c.log, Last(next.log));
    }
  }

  lemma TakeTicketOk(deps: BatchDeps, wave: seq<Sketch>, start: Crew, c: Crew)
    requires Launchable(wave, start) && WaveOk(deps, wave, start, c) && c.queue != []
    ensures c.queue[0] in wave && TicketOk(deps, start, Take(c), c.queue[0])
  {
    var t := c.queue[0];
    assert t == wave[|wave| - |c.queue|];
    assert TicketOk(deps, start, c, t);
    assert t !in c.queue[1..];
  }

  /** Approvals inside the wave are nobody's business in it. */
  lemma ApprovedAgree(deps: BatchDeps, wave: seq<Sketch>, start: Crew, c: Crew, t: Sketch, d: Id)
    requires Launchable(wave, start) && WaveOk(deps, wave, start, c) && t in wave && d in t.dependsOn
    ensures d in c.approved <==> d in start.approved
  {
    assert d !in Batch(wave);
  }

  /** Outcomes settled inside the wave are nobody's business in it. */
  lemma OwnAgree(deps: BatchDeps, wave: seq<Sketch>, start: Crew, c: Crew, t: Sketch)
    requires Launchable(wave, start) && WaveOk(deps, wave, start, c) && t in wave
    ensures Own(t, c.outcomes) == Own(t, start.outcomes)
  {
    hide TicketOk;
    forall d | d in t.dependsOn
      ensures d in c.outcomes <==> d in start.outcomes
    {
      assert d !in Batch(wave);
    }
  }

  lemma ResolvedAgrees(deps: BatchDeps, a: set<Id>, b: set<Id>, t: Sketch, k: nat)
    requires k < |t.dependsOn| && forall d :: d in t.dependsOn ==> (d in a <==> d in b)
    ensures Resolved(deps, a, t.dependsOn[k]) == Resolved(deps, b, t.dependsOn[k])
  {
    assert t.dependsOn[k] in t.dependsOn;
  }

  lemma CheckOk(deps: BatchDeps, start: Crew, c: Crew, t: Sketch)
    requires t.id in c.active && c.active[t.id].Checking? && t.id !in c.outcomes && TicketOk(deps, start, c, t)
    requires start.approved == ApprovedIn(start.outcomes)
    requires forall d :: d in t.dependsOn ==> (d in c.approved <==> d in start.approved)
    ensures TicketOk(deps, start, Advance(deps, c, t.id), t)
  {
    hide Project, PlanResult, DependencyEscalation, Final, PersistEvent, Settled, Trail, Resolved, ApprovedIn;
    var k := c.active[t.id].k;
    var next := Advance(deps, c, t.id);
    if next.log != c.log {
      ProjectAppend(c.log, Last(next.log), t.id);
    }
    if k < |t.dependsOn| {
      ResolvedAgrees(deps, c.approved, start.approved, t, k);
    }
  }

  lemma PlanOk(deps: BatchDeps, start: Crew, c: Crew, t: Sketch)
    requires t.id in c.active && c.active[t.id].Planning? && t.id !in c.outcomes && TicketOk(deps, start, c, t)
    requires Own(t, c.outcomes) == Own(t, start.outcomes)
    ensures TicketOk(deps, start, Advance(deps, c, t.id), t)
  {
    hide Project, PlanResult, FirstUnresolved, ApprovedIn, Own, Final, PersistEvent, Resolved, DependencyEscalation;
    SamePlan(deps, c.outcomes, start.outcomes, t);
    ProjectAppend(c.log, Terminal(t.id, PlanResult(deps, c.outcomes, t).Approved?), t.id);
  }

  lemma SamePlan(deps: BatchDeps, a: map<Id, PlanningOutcome>, b: map<Id, PlanningOutcome>, t: Sketch)
    requires Own(t, a) == Own(t, b)
    ensures PlanResult(deps, a, t) == PlanResult(deps, b, t)
  {
    hide Own;
  }

  lemma PersistOk(deps: BatchDeps, start: Crew, c: Crew, t: Sketch)
    requires t.id in c.active && c.active[t.id].Persisting? && t.id !in c.outcomes && TicketOk(deps, start, c, t)
    ensures TicketOk(deps, start, Advance(deps, c, t.id), t)
  {
    ProjectAppend(c.log, PersistEvent(deps, t.id, c.active[t.id].outcome), t.id);
    hide Project, Final, Verdict, PersistEvent, TrailToTerminal;
  }

  lemma AdvanceTicketOk(deps: BatchDeps, wave: seq<Sketch>, start: Crew, c: Crew, t: Sketch)
    requires Launchable(wave, start) && WaveOk(deps, wave, start, c) && t in wave && t.id in c.active
    ensures t.id !in c.outcomes && TicketOk(deps, start, Advance(deps, c, t.id), t)
  {
    assert TicketOk(deps, start, c, t);
    forall d | d in t.dependsOn
      ensures d in c.approved <==> d in start.approved
    {
      ApprovedAgree(deps, wave, start, c, t, d);
    }
    OwnAgree(deps, wave, start, c, t);
    match c.active[t.id]
    case Checking(_, _) => CheckOk(deps, start, c, t);
    case Planning(_) => PlanOk(deps, start, c, t);
    case Persisting(_, _) => PersistOk(deps, start, c, t);
  }

  lemma TakeKeepsWave(deps: BatchDeps, wave: seq<Sketch>, start: Crew, c: Crew)
    requires Launchable(wave, start) && WaveOk(deps, wave, start, c) && c.queue != []
    ensures WaveOk(deps, wave, start, Take(c)) && c.queue[0].id !in c.active
  {
    var t := c.queue[0];
    TakeTouches(c);
    TakeTicketOk(deps, wave, start, c);
    assert TicketOk(deps, start, c, t);
    assert t.id in Batch(wave);
    hide TicketOk;
    forall u | u in wave
      ensures TicketOk(deps, start, Take(c), u)
    {
      if u.id == t.id {
        SameTicket(wave, t, u);
      } else {
        OthersUntouched(deps, start, c, Take(c), t.id, u);
      }
    }
  }

  lemma SameTicket(tickets: seq<Sketch>, t: Sketch, u: Sketch)
    requires DistinctIds(tickets) && t in tickets && u in tickets && t.id == u.id
    ensures t == u
  {
  }

  lemma AdvanceKeepsOthers(deps: BatchDeps, wave: seq<Sketch>, start: Crew, c: Crew, id: Id)
    requires OthersKept(wave, start, c) && id in c.active && id in Batch(wave) && id !in start.outcomes
    ensures OthersKept(wave, start, Advance(deps, c, id))
  {
    hide Final, PersistEvent, DependencyEscalation, PlanResult, Resolved, Project, Batch;
    var next := Advance(deps, c, id);
    if next.log != c.log {
      forall x | x != id
        ensures Project(next.log, x) == Project(c.log, x)
      {
        ProjectAppend(c.log, Last(next.log), x);
      }
    }
  }

  lemma AdvanceKeepsApproved(deps: BatchDeps, c: Crew, id: Id)
    requires id in c.active && c.approved == ApprovedIn(c.outcomes) && id !in c.outcomes
    ensures Advance(deps, c, id).approved == ApprovedIn(Advance(deps, c, id).outcomes)
  {
    hide Final, PersistEvent, DependencyEscalation, PlanResult, Resolved;
  }

  lemma AllTicketsOk(deps: BatchDeps, wave: seq<Sketch>, start: Crew, c: Crew, next: Crew, t: Sketch)
    requires DistinctIds(wave) && t in wave && Touches(c, next, t.id) && TicketOk(deps, start, next, t)
    requires forall u :: u in wave ==> TicketOk(deps, start, c, u)
    ensures forall u :: u in wave ==> TicketOk(deps, start, next, u)
  {
    hide TicketOk, Touches, DistinctIds;
    forall u | u in wave
      ensures TicketOk(deps, start, next, u)
    {
      if u.id == t.id {
        SameTicket(wave, t, u);
      } else {
        OthersUntouched(deps, start, c, next, t.id, u);
      }
    }
  }

  lemma WaveOkFrom(deps: BatchDeps, wave: seq<Sketch>, start: Crew, c: Crew, next: Crew)
    requires WaveOk(deps, wave, start, c)
    requires next.queue == c.queue && next.active.Keys <= c.active.Keys
    requires next.approved == ApprovedIn(next.outcomes) && OthersKept(wave, start, next)
    requires forall u :: u in wave ==> TicketOk(deps, start, next, u)
    ensures WaveOk(deps, wave, start, next)
  {
    hide TicketOk, OthersKept, Batch, ApprovedIn;
  }

  lemma AdvanceKeepsWave(deps: BatchDeps, wave: seq<Sketch>, start: Crew, c: Crew, t: Sketch)
    requires Launchable(wave, start) && WaveOk(deps, wave, start, c) && t in wave && t.id in c.active
    ensures WaveOk(deps, wave, start, Advance(deps, c, t.id))
  {
    hide TicketOk, Advance, OthersKept, Touches, ApprovedIn, DistinctIds;
    AdvanceTouches(deps, c, t.id);
    AdvanceTicketOk(deps, wave, start, c, t);
    AdvanceKeepsOthers(deps, wave, start, c, t.id);
    AdvanceKeepsApproved(deps, c, t.id);
    QueueAndCrewShrink(deps, c, t.id);
    AllTicketsOk(deps, wave, start, c, Advance(deps, c, t.id), t);
    hide *;
    WaveOkFrom(deps, wave, start, c, Advance(deps, c, t.id));
  }

  lemma QueueAndCrewShrink(deps: BatchDeps, c: Crew, id: Id)
    requires id in c.active
    ensures Advance(deps, c, id).queue == c.queue && Advance(deps, c, id).active.Keys <= c.active.Keys
  {
    hide Final, PersistEvent, DependencyEscalation, PlanResult, Resolved;
  }

  // ----- drafting is safe -----

  /** The tickets whose approval has been persisted. */
  function PersistedIn(log: seq<Event>): set<Id> {
    if log == [] then {}
    else PersistedIn(Init(log)) + (if Last(log).Persisted? && Last(log).approved then {Last(log).id} else {})
  }

  /** At every draft, what was approved and on disk by then opened the gate. */
  predicate DraftSafe(deps: BatchDeps, tickets: seq<Sketch>, log: seq<Event>) {
    forall i, t :: 0 <= i < |log| && t in tickets && log[i] == DraftStarted(t.id) ==>
                     !Blocks(FirstUnresolved(deps, PersistedIn(log[..i]), t, 0))
  }

  predicate Lawful(deps: BatchDeps, tickets: seq<Sketch>, c: Crew) {
    c.approved == PersistedIn(c.log) && DraftSafe(deps, tickets, c.log)
  }

  lemma DraftSafeAppend(deps: BatchDeps, tickets: seq<Sketch>, log: seq<Event>, e: Event)
    requires DraftSafe(deps, tickets, log)
    requires forall t :: t in tickets && e == DraftStarted(t.id) ==>
             !Blocks(FirstUnresolved(deps, PersistedIn(log), t, 0))
    ensures DraftSafe(deps, tickets, log + [e])
  {
    forall i, t | 0 <= i < |log + [e]| && t in tickets && (log + [e])[i] == DraftStarted(t.id)
      ensures !Blocks(FirstUnresolved(deps, PersistedIn((log + [e])[..i]), t, 0))
    {
      assert (log + [e])[..i] == log[..i];
      assert log[..|log|] == log;
    }
  }

  /** A worker that starts drafting was let through by what is approved now. */
  lemma DraftingIsCleared(deps: BatchDeps, wave: seq<Sketch>, start: Crew, c: Crew, t: Sketch)
    requires Launchable(wave, start) && WaveOk(deps, wave, start, c) && t in wave && t.id in c.active
    requires c.active[t.id].Checking?
    requires var next := Advance(deps, c, t.id); next.active[t.id].Planning?
    ensures !Blocks(FirstUnresolved(deps, c.approved, t, 0))
  {
    AdvanceTicketOk(deps, wave, start, c, t);
    forall d | d in t.dependsOn
      ensures d in c.approved <==> d in start.approved
    {
      ApprovedAgree(deps, wave, start, c, t, d);
    }
    hide WaveOk, Launchable, FirstUnresolved, Project, Resolved;
    GateIsLocal(deps, c.approved, start.approved, t, 0);
  }

  /** The one event a step appends, if any. */
  lemma AdvanceLogs(deps: BatchDeps, c: Crew, id: Id)
    requires id in c.active
    ensures var next := Advance(deps, c, id);
            || (next.log == c.log && next.approved == c.approved)
            || (next.log != [] && next.log == c.log + [Last(next.log)]
                && (Last(next.log).DraftStarted? ==>
                     c.active[id].Checking? && next.active[id].Planning? && Last(next.log).id == id)
                && next.approved == c.approved + (if Last(next.log) == Persisted(id, true) then {id} else {})
                && (Last(next.log).Persisted? ==> Last(next.log).id == id))
  {
    hide Resolved, DependencyEscalation, PlanResult;
  }

  lemma AdvanceLawful(deps: BatchDeps, tickets: seq<Sketch>, wave: seq<Sketch>, start: Crew, c: Crew, t: Sketch)
    requires DistinctIds(tickets) && t in tickets
    requires Launchable(wave, start) && WaveOk(deps, wave, start, c) && t in wave && t.id in c.active
    requires Lawful(deps, tickets, c)
    ensures Lawful(deps, tickets, Advance(deps, c, t.id))
  {
    hide WaveOk, Launchable, DraftSafe, FirstUnresolved, Advance, DistinctIds;
    var next := Advance(deps, c, t.id);
    AdvanceLogs(deps, c, t.id);
    if next.log != c.log {
      var e := Last(next.log);
      InitOfAppend(c.log, e);
      if e.DraftStarted? {
        DraftingIsCleared(deps, wave, start, c, t);
        forall u | u in tickets && u.id == t.id
          ensures u == t
        {
          SameTicket(tickets, t, u);
        }
      }
      DraftSafeAppend(deps, tickets, c.log, e);
    }
  }

  // ----- draining one wave -----

  /** Steps a ticket still needs. */
  function StepsLeft(c: Crew, t: Sketch): nat {
    if t.id in c.outcomes then 0
    else if t.id !in c.active then |t.dependsOn| + 4
    else
      match c.active[t.id]
      case Checking(_, k) => 3 + Max(0, |t.dependsOn| - k)
      case Planning(_) => 2
      case Persisting(_, _) => 1
  }

  function WorkLeft(c: Crew, wave: seq<Sketch>): nat {
    if wave == [] then 0 else WorkLeft(c, Init(wave)) + StepsLeft(c, Last(wave))
  }

  lemma {:induction false} WorkShrinks(c: Crew, next: Crew, wave: seq<Sketch>, t: Sketch)
    requires t in wave && StepsLeft(next, t) < StepsLeft(c, t)
    requires forall u :: u in wave ==> StepsLeft(next, u) <= StepsLeft(c, u)
    ensures WorkLeft(next, wave) < WorkLeft(c, wave)
  {
    if t in Init(wave) {
      WorkShrinks(c, next, Init(wave), t);
    } else {
      WorkNeverGrows(c, next, Init(wave));
      assert wave == Init(wave) + [Last(wave)];
    }
  }

  lemma {:induction false} WorkNeverGrows(c: Crew, next: Crew, wave: seq<Sketch>)
    requires forall u :: u in wave ==> StepsLeft(next, u) <= StepsLeft(c, u)
    ensures WorkLeft(next, wave) <= WorkLeft(c, wave)
  {
    if wave != [] {
      WorkNeverGrows(c, next, Init(wave));
    }
  }

  lemma TouchesKeepsSteps(c: Crew, next: Crew, id: Id, t: Sketch)
    requires Touches(c, next, id) && t.id != id
    ensures StepsLeft(next, t) == StepsLeft(c, t)
  {
    assert t.id in next.outcomes <==> t.id in next.outcomes - {id};
    assert t.id in c.outcomes <==> t.id in c.outcomes - {id};
    assert t.id in next.active <==> t.id in next.active - {id};
    assert t.id in c.active <==> t.id in c.active - {id};
    if t.id in c.active {
      assert (next.active - {id})[t.id] == (c.active - {id})[t.id];
    }
  }

  lemma StepShrinksWork(wave: seq<Sketch>, c: Crew, next: Crew, t: Sketch)
    requires DistinctIds(wave) && t in wave && Touches(c, next, t.id) && StepsLeft(next, t) < StepsLeft(c, t)
    ensures WorkLeft(next, wave) < WorkLeft(c, wave)
  {
    hide Touches, StepsLeft, DistinctIds;
    forall u | u in wave
      ensures StepsLeft(next, u) <= StepsLeft(c, u)
    {
      if u.id == t.id {
        SameTicket(wave, t, u);
      } else {
        TouchesKeepsSteps(c, next, t.id, u);
      }
    }
    WorkShrinks(c, next, wave, t);
  }

  lemma AdvanceShrinksSteps(deps: BatchDeps, start: Crew, c: Crew, t: Sketch)
    requires t.id in c.active && t.id !in c.outcomes && TicketOk(deps, start, c, t)
    ensures StepsLeft(Advance(deps, c, t.id), t) < StepsLeft(c, t)
  {
    hide Final, PersistEvent, DependencyEscalation, PlanResult, Resolved, FirstUnresolved, Project;
  }

  /**
   * runWithCap over one wave: at most `cap` tickets in flight, workers stepping in any order.
   * Whatever the order, every ticket ends settled as it would alone.
   */
  method RunWithCap(deps: BatchDeps, ghost tickets: seq<Sketch>, wave: seq<Sketch>, cap: int, start: Crew)
      returns (c: Crew, ghost most: nat)
    requires DistinctIds(tickets) && Lawful(deps, tickets, start) && Launchable(wave, start)
    requires forall t :: t in wave ==> t in tickets
    ensures WaveOk(deps, wave, start, c) && Lawful(deps, tickets, c)
    ensures c.queue == [] && c.active == map[]
    ensures most <= if cap >= 1 then cap else 1
  {
    hide *;
    WaveStarts(deps, wave, start);
    var width := Max(1, Min(cap, |wave|));
    AtLeastOne(cap, |wave|);
    c, most := start, |start.active.Keys|;
    while c.queue != [] || c.active != map[]
      invariant WaveOk(deps, wave, start, c) && Lawful(deps, tickets, c)
      invariant |c.active.Keys| <= most <= width
      decreases WorkLeft(c, wave)
    {
      var another: bool := *;
      if c.queue != [] && |c.active.Keys| < width && (another || c.active == map[]) {
        TakeStep(deps, tickets, wave, start, c);
        c := Take(c);
        most := if |c.active.Keys| > most then |c.active.Keys| else most;
      } else {
        assert c.active != map[];
        var id :| id in c.active.Keys;
        AdvanceStep(deps, tickets, wave, start, c, id);
        c := Advance(deps, c, id);
      }
    }
  }

  lemma AtLeastOne(cap: int, n: nat)
    ensures 1 <= Max(1, Min(cap, n)) <= if cap >= 1 then cap else 1
  {
  }

  lemma WaveStarts(deps: BatchDeps, wave: seq<Sketch>, start: Crew)
    requires Launchable(wave, start)
    ensures WaveOk(deps, wave, start, start) && start.active == map[]
  {
  }

  lemma TakeStep(deps: BatchDeps, tickets: seq<Sketch>, wave: seq<Sketch>, start: Crew, c: Crew)
    requires Launchable(wave, start) && WaveOk(deps, wave, start, c) && Lawful(deps, tickets, c) && c.queue != []
    ensures WaveOk(deps, wave, start, Take(c)) && Lawful(deps, tickets, Take(c))
    ensures |Take(c).active.Keys| == |c.active.Keys| + 1
    ensures WorkLeft(Take(c), wave) < WorkLeft(c, wave)
  {
    QueueHead(deps, wave, start, c);
    hide *;
    TakeTicketOk(deps, wave, start, c);
    TakeKeepsWave(deps, wave, start, c);
    TakeTouches(c);
    TakeFacts(deps, tickets, start, c);
    StepShrinksWork(wave, c, Take(c), c.queue[0]);
  }

  lemma QueueHead(deps: BatchDeps, wave: seq<Sketch>, start: Crew, c: Crew)
    requires Launchable(wave, start) && WaveOk(deps, wave, start, c) && c.queue != []
    ensures DistinctIds(wave) && c.queue[0] in wave && TicketOk(deps, start, c, c.queue[0])
  {
    assert c.queue[0] == wave[|wave| - |c.queue|];
  }

  lemma TakeFacts(deps: BatchDeps, tickets: seq<Sketch>, start: Crew, c: Crew)
    requires Lawful(deps, tickets, c) && c.queue != [] && TicketOk(deps, start, c, c.queue[0])
    ensures Lawful(deps, tickets, Take(c))
    ensures |Take(c).active.Keys| == |c.active.Keys| + 1
    ensures StepsLeft(Take(c), c.queue[0]) < StepsLeft(c, c.queue[0])
  {
    hide Project, DraftSafe, Settled, Trail;
    assert c.queue[0] in c.queue;
    assert Take(c).active.Keys == c.active.Keys + {c.queue[0].id};
  }

  lemma AdvanceStep(deps: BatchDeps, tickets: seq<Sketch>, wave: seq<Sketch>, start: Crew, c: Crew, id: Id)
    requires DistinctIds(tickets) && forall t :: t in wave ==> t in tickets
    requires Launchable(wave, start) && WaveOk(deps, wave, start, c) && Lawful(deps, tickets, c) && id in c.active
    ensures WaveOk(deps, wave, start, Advance(deps, c, id)) && Lawful(deps, tickets, Advance(deps, c, id))
    ensures |Advance(deps, c, id).active.Keys| <= |c.active.Keys|
    ensures WorkLeft(Advance(deps, c, id), wave) < WorkLeft(c, wave)
  {
    var t := HolderOf(deps, wave, start, c, id);
    hide *;
    var next := Advance(deps, c, id);
    AdvanceTicketOk(deps, wave, start, c, t);
    AdvanceKeepsWave(deps, wave, start, c, t);
    AdvanceLawful(deps, tickets, wave, start, c, t);
    AdvanceTouches(deps, c, id);
    AdvanceShrinksSteps(deps, start, c, t);
    StepShrinksWork(wave, c, next, t);
    QueueAndCrewShrink(deps, c, id);
    FewerKeys(next.active.Keys, c.active.Keys);
  }

  lemma FewerKeys(a: set<Id>, b: set<Id>)
    requires a <= b
    ensures |a| <= |b|
  {
    assert b == a + (b - a);
  }

  lemma HolderOf(deps: BatchDeps, wave: seq<Sketch>, start: Crew, c: Crew, id: Id) returns (t: Sketch)
    requires Launchable(wave, start) && WaveOk(deps, wave, start, c) && id in c.active
    ensures t in wave && t.id == id && DistinctIds(wave) && TicketOk(deps, start, c, t)
  {
    assert id in Batch(wave);
    t :| t in wave && t.id == id;
  }

  // ----- the whole batch -----

  /** The orderable tickets, in order. */
  ghost function Ordered(tickets: seq<Sketch>): (order: seq<Sketch>)
    requires DistinctIds(tickets)
    ensures IdsOf(order) == OrderOf(GraphOf(tickets))
    ensures forall t :: t in order ==> t in tickets
  {
    OrderRespectsDependencies(GraphOf(tickets));
    Pick(tickets, OrderOf(GraphOf(tickets)))
  }

  /** The tickets with these ids, in the order of the ids. */
  ghost function Pick(tickets: seq<Sketch>, ids: seq<Id>): (picked: seq<Sketch>)
    requires DistinctIds(tickets) && Elements(ids) <= Batch(tickets)
    ensures IdsOf(picked) == ids
    ensures forall t :: t in picked ==> t in tickets
  {
    if ids == [] then []
    else
      assert Last(ids) in Elements(ids) && ids == Init(ids) + [Last(ids)];
      assert Elements(Init(ids)) <= Elements(ids);
      IdsOfAppend(Pick(tickets, Init(ids)), ById(tickets)[Last(ids)]);
      Pick(tickets, Init(ids)) + [ById(tickets)[Last(ids)]]
  }

  lemma OrderedIsSequenced(tickets: seq<Sketch>)
    requires DistinctIds(tickets)
    ensures var order := Ordered(tickets);
            DistinctIds(order) && Sequenced(order, Batch(tickets)) && Batch(order) <= Batch(tickets)
  {
    var order, g := Ordered(tickets), GraphOf(tickets);
    OrderRespectsDependencies(g);
    hide Ordered, OrderOf, GraphOf;
    forall i, j | 0 <= i < j < |order|
      ensures order[i].id != order[j].id
    {
      assert IdsOf(order)[i] != IdsOf(order)[j];
    }
    forall i | 0 <= i < |order|
      ensures InBatch(order[i], Batch(tickets)) <= Batch(order[..i])
    {
      GraphAt(tickets, order[i]);
      StandsBefore(order, i, InBatch(order[i], Batch(tickets)));
    }
    SequencedFrom(order, Batch(tickets));
  }

  lemma StandsBefore(order: seq<Sketch>, i: nat, ids: set<Id>)
    requires i < |order|
    requires forall d :: d in ids ==> exists j :: 0 <= j < i && IdsOf(order)[j] == d
    ensures ids <= Batch(order[..i])
  {
    forall d | d in ids
      ensures d in Batch(order[..i])
    {
      var j :| 0 <= j < i && IdsOf(order)[j] == d;
      assert order[j] in order[..i];
    }
  }

  lemma SequencedFrom(order: seq<Sketch>, batch: set<Id>)
    requires forall i :: 0 <= i < |order| ==> InBatch(order[i], batch) <= Batch(order[..i])
    ensures Sequenced(order, batch)
  {
    hide Batch;
    forall i, d | 0 <= i < |order| && d in order[i].dependsOn && d in batch
      ensures d in Batch(order[..i])
    {
      assert d in InBatch(order[i], batch);
    }
  }

  /** TopoOrder's order is that one. */
  lemma OrderIsOrdered(tickets: seq<Sketch>, order: seq<Sketch>)
    requires DistinctIds(tickets) && IdsOf(order) == OrderOf(GraphOf(tickets))
    requires forall t :: t in order ==> t in tickets
    ensures order == Ordered(tickets)
  {
    var expected := Ordered(tickets);
    hide Ordered, OrderOf, GraphOf;
    assert |order| == |IdsOf(order)| == |expected|;
    forall i | 0 <= i < |order|
      ensures order[i] == expected[i]
    {
      assert order[i].id == IdsOf(order)[i] == IdsOf(expected)[i];
      SameTicket(tickets, order[i], expected[i]);
    }
  }

  function StuckDetail(t: Sketch): string {
    if t.id in t.dependsOn then "itself"
    else "a cycle"
  }

  function StuckOutcome(deps: BatchDeps, t: Sketch): PlanningOutcome {
    Final(deps, t.id, DependencyEscalation(StuckDetail(t)))
  }

  function StuckTrail(deps: BatchDeps, t: Sketch): seq<Event> {
    [Terminal(t.id, false), PersistEvent(deps, t.id, DependencyEscalation(StuckDetail(t)))]
  }

  /** What planning the batch one ticket at a time gives: the order, then what is stuck. */
  ghost function Sequentially(deps: BatchDeps, tickets: seq<Sketch>): (results: seq<PlanningOutcome>)
    requires DistinctIds(tickets)
  {
    var order := Ordered(tickets);
    var left := Without(tickets, Batch(order));
    OrderedResults(deps, order) + StuckResults(deps, left)
  }

  ghost function OrderedResults(deps: BatchDeps, order: seq<Sketch>): (results: seq<PlanningOutcome>) {
    seq(|order|, i requires 0 <= i < |order| => assert order[i] in order; Reference(deps, order)[order[i].id])
  }

  function StuckResults(deps: BatchDeps, left: seq<Sketch>): (results: seq<PlanningOutcome>) {
    seq(|left|, i requires 0 <= i < |left| => StuckOutcome(deps, left[i]))
  }

  /** The pending tickets whose in-batch dependencies are all settled. */
  function Ready(pending: seq<Sketch>, batch: set<Id>, outcomes: map<Id, PlanningOutcome>): seq<Sketch> {
    if pending == [] then []
    else
      Ready(Init(pending), batch, outcomes)
      + if Unhindered(Last(pending), batch, outcomes) then [Last(pending)] else []
  }

  /** No in-batch dependency is outstanding. */
  predicate Unhindered(t: Sketch, batch: set<Id>, outcomes: map<Id, PlanningOutcome>) {
    forall d :: d in t.dependsOn ==> d !in batch || d in outcomes
  }

  lemma {:induction false} ReadyIsUnhindered(pending: seq<Sketch>, batch: set<Id>, outcomes: map<Id, PlanningOutcome>,
      t: Sketch)
    ensures t in Ready(pending, batch, outcomes) <==> t in pending && Unhindered(t, batch, outcomes)
  {
    hide Unhindered;
    if pending != [] {
      ReadyIsUnhindered(Init(pending), batch, outcomes, t);
      assert pending == Init(pending) + [Last(pending)];
    }
  }

  lemma {:induction false} ReadyIsDistinct(pending: seq<Sketch>, batch: set<Id>, outcomes: map<Id, PlanningOutcome>)
    requires DistinctIds(pending)
    ensures DistinctIds(Ready(pending, batch, outcomes))
  {
    hide Unhindered;
    if pending != [] {
      ReadyIsDistinct(Init(pending), batch, outcomes);
      forall t | t in Ready(Init(pending), batch, outcomes)
        ensures t.id != Last(pending).id
      {
        ReadyIsUnhindered(Init(pending), batch, outcomes, t);
      }
    }
  }

  lemma ReadyIsFilter(pending: seq<Sketch>, batch: set<Id>, outcomes: map<Id, PlanningOutcome>)
    ensures forall t :: t in Ready(pending, batch, outcomes) <==>
                          t in pending && forall d :: d in t.dependsOn ==> d !in batch || d in outcomes
    ensures DistinctIds(pending) ==> DistinctIds(Ready(pending, batch, outcomes))
  {
    forall t { ReadyIsUnhindered(pending, batch, outcomes, t); }
    if DistinctIds(pending) {
      ReadyIsDistinct(pending, batch, outcomes);
    }
    hide Ready, DistinctIds;
  }

  /** topoOrder leaves no wave empty: the defensive break is never taken. */
  lemma SomeoneIsReady(order: seq<Sketch>, batch: set<Id>, outcomes: map<Id, PlanningOutcome>)
    requires Sequenced(order, batch)
    requires Without(order, outcomes.Keys) != []
    ensures Ready(Without(order, outcomes.Keys), batch, outcomes) != []
  {
    var pending := Without(order, outcomes.Keys);
    WithoutIsFilter(order, outcomes.Keys, pending[0]);
    assert pending[0] in pending;
    var k :| 0 <= k < |order| && order[k] == pending[0];
    var i := FirstUnsettled(order, outcomes.Keys, k);
    WithoutIsFilter(order, outcomes.Keys, order[i]);
    forall d | d in order[i].dependsOn
      ensures d !in batch || d in outcomes
    {
      if d in batch {
        var u :| u in order[..i] && u.id == d;
        var j :| 0 <= j < i && order[j] == u;
      }
    }
    ReadyIsFilter(pending, batch, outcomes);
    assert order[i] in Ready(pending, batch, outcomes);
  }

  lemma FirstUnsettled(order: seq<Sketch>, settled: set<Id>, k: nat) returns (i: nat)
    requires k < |order| && order[k].id !in settled
    ensures i <= k && order[i].id !in settled && forall j :: 0 <= j < i ==> order[j].id in settled
  {
    i := 0;
    while order[i].id in settled
      invariant i <= k && forall j :: 0 <= j < i ==> order[j].id in settled
      decreases k - i
    {
      i := i + 1;
    }
  }

  lemma {:induction false} WithoutTwice(tickets: seq<Sketch>, a: set<Id>, b: set<Id>)
    ensures Without(Without(tickets, a), b) == Without(tickets, a + b)
  {
    if tickets != [] {
      WithoutTwice(Init(tickets), a, b);
      if Last(tickets).id !in a {
        assert Init(Without(tickets, a)) == Without(Init(tickets), a);
      } else {
        assert Without(tickets, a) == Without(Init(tickets), a);
      }
    }
  }

  /** Between waves: what is settled is settled as planning one at a time settles it. */
  ghost predicate Halfway(deps: BatchDeps, tickets: seq<Sketch>, order: seq<Sketch>, c: Crew) {
    var sequential := Reference(deps, order);
    && c.active == map[] && Lawful(deps, tickets, c) && c.approved == ApprovedIn(c.outcomes)
    && c.outcomes.Keys <= Batch(order)
    && (forall id :: id in c.outcomes ==> c.outcomes[id] == sequential[id])
    && (forall t :: t in order ==>
          Project(c.log, t.id) == if t.id in c.outcomes then Trail(deps, sequential, t) else [])
    && (forall id :: id !in Batch(order) ==> Project(c.log, id) == [])
  }

  lemma NothingYet(deps: BatchDeps, tickets: seq<Sketch>, order: seq<Sketch>)
    ensures Halfway(deps, tickets, order, Crew([], map[], {}, map[], []))
  {
  }

  lemma WaveIsLaunchable(deps: BatchDeps, tickets: seq<Sketch>, order: seq<Sketch>, c: Crew, wave: seq<Sketch>)
    requires DistinctIds(order) && Batch(order) <= Batch(tickets) && Halfway(deps, tickets, order, c)
    requires wave == Ready(Without(order, c.outcomes.Keys), Batch(tickets), c.outcomes)
    ensures Launchable(wave, c.(queue := wave)) && forall t :: t in wave ==> t in order && t.id !in c.outcomes
  {
    var pending := Without(order, c.outcomes.Keys);
    WithoutKeepsDistinct(order, c.outcomes.Keys);
    ReadyIsFilter(pending, Batch(tickets), c.outcomes);
    forall t | t in wave
      ensures t in order && t.id !in c.outcomes
    {
      WithoutIsFilter(order, c.outcomes.Keys, t);
    }
    assert Batch(wave) !! c.outcomes.Keys;
    assert Batch(wave) <= Batch(order);
  }

  /** A wave settles its tickets as the sequential run does: their dependencies were settled before it. */
  lemma WaveAgrees(deps: BatchDeps, tickets: seq<Sketch>, order: seq<Sketch>, c: Crew, wave: seq<Sketch>, t: Sketch)
    requires DistinctIds(order) && Sequenced(order, Batch(tickets)) && Batch(order) <= Batch(tickets)
    requires Halfway(deps, tickets, order, c) && t in order
    requires forall d :: d in t.dependsOn ==> d !in Batch(tickets) || d in c.outcomes
    ensures t.id in Reference(deps, order)
    ensures Settled(deps, c.outcomes, t) == Reference(deps, order)[t.id]
    ensures Trail(deps, c.outcomes, t) == Trail(deps, Reference(deps, order), t)
  {
    ReferenceIsConsistent(deps, order, Batch(tickets), t);
    var sequential := Reference(deps, order);
    hide Batch, DistinctIds, Sequenced, Reference, Own, Lawful, Project, Trail, Settled, ApprovedIn;
    SameOwn(t, Batch(tickets), c.outcomes, sequential);
    SettledIsLocal(deps, c.outcomes, sequential, t);
  }

  /** Part of the outcomes agree with all of them on a ticket whose in-batch dependencies are in that part. */
  lemma SameOwn(t: Sketch, batch: set<Id>, part: map<Id, PlanningOutcome>, whole: map<Id, PlanningOutcome>)
    requires part.Keys <= whole.Keys <= batch && forall id :: id in part ==> part[id] == whole[id]
    requires forall d :: d in t.dependsOn ==> d !in batch || d in part
    ensures Own(t, part) == Own(t, whole)
  {
  }

  lemma WaveSettles(deps: BatchDeps, wave: seq<Sketch>, start: Crew, c: Crew)
    requires WaveOk(deps, wave, start, c) && c.queue == [] && c.active == map[]
    ensures forall t :: t in wave ==>
              && t.id in c.outcomes && c.outcomes[t.id] == Settled(deps, start.outcomes, t)
              && Project(c.log, t.id) == Project(start.log, t.id) + Trail(deps, start.outcomes, t)
    ensures OthersKept(wave, start, c) && c.approved == ApprovedIn(c.outcomes)
  {
    hide Settled, Trail, Project, OthersKept, ApprovedIn;
    forall t | t in wave
      ensures t.id in c.outcomes && c.outcomes[t.id] == Settled(deps, start.outcomes, t)
      ensures Project(c.log, t.id) == Project(start.log, t.id) + Trail(deps, start.outcomes, t)
    {
      assert TicketOk(deps, start, c, t);
    }
  }

  /** What a settled wave leaves: its own tickets as the sequential run has them, everyone else as before. */
  ghost predicate WaveDone(deps: BatchDeps, order: seq<Sketch>, c: Crew, wave: seq<Sketch>, next: Crew) {
    var sequential := Reference(deps, order);
    && (forall t :: t in wave ==>
          && t in order && t.id in next.outcomes && next.outcomes[t.id] == sequential[t.id]
          && Project(next.log, t.id) == Trail(deps, sequential, t))
    && OthersKept(wave, c, next)
  }

  lemma WaveIsDone(deps: BatchDeps, tickets: seq<Sketch>, order: seq<Sketch>, c: Crew, wave: seq<Sketch>, next: Crew)
    requires DistinctIds(order) && Sequenced(order, Batch(tickets)) && Batch(order) <= Batch(tickets)
    requires Halfway(deps, tickets, order, c)
    requires wave == Ready(Without(order, c.outcomes.Keys), Batch(tickets), c.outcomes)
    requires WaveOk(deps, wave, c.(queue := wave), next) && next.queue == [] && next.active == map[]
    ensures WaveDone(deps, order, c, wave, next) && next.approved == ApprovedIn(next.outcomes)
  {
    hide *;
    WaveSettles(deps, wave, c.(queue := wave), next);
    forall t | t in wave
      ensures && t in order && t.id in Reference(deps, order)
              && Settled(deps, c.outcomes, t) == Reference(deps, order)[t.id]
              && Trail(deps, c.outcomes, t) == Trail(deps, Reference(deps, order), t)
              && Project(c.log, t.id) == []
    {
      ReadyTicketAgrees(deps, tickets, order, c, wave, t);
    }
    WaveDoneFrom(deps, order, c, wave, next);
  }

  lemma ReadyTicketAgrees(deps: BatchDeps, tickets: seq<Sketch>, order: seq<Sketch>, c: Crew, wave: seq<Sketch>,
      t: Sketch)
    requires DistinctIds(order) && Sequenced(order, Batch(tickets)) && Batch(order) <= Batch(tickets)
    requires Halfway(deps, tickets, order, c)
    requires wave == Ready(Without(order, c.outcomes.Keys), Batch(tickets), c.outcomes) && t in wave
    ensures t in order && t.id in Reference(deps, order)
    ensures Settled(deps, c.outcomes, t) == Reference(deps, order)[t.id]
    ensures Trail(deps, c.outcomes, t) == Trail(deps, Reference(deps, order), t)
    ensures Project(c.log, t.id) == []
  {
    ReadyIsFilter(Without(order, c.outcomes.Keys), Batch(tickets), c.outcomes);
    WithoutIsFilter(order, c.outcomes.Keys, t);
    hide Ready, Without, Sequenced, DistinctIds, Lawful, Batch;
    WaveAgrees(deps, tickets, order, c, wave, t);
  }

  lemma WaveDoneFrom(deps: BatchDeps, order: seq<Sketch>, c: Crew, wave: seq<Sketch>, next: Crew)
    requires OthersKept(wave, c.(queue := wave), next)
    requires forall t :: t in wave ==>
               && t in order && t.id in Reference(deps, order)
               && Settled(deps, c.outcomes, t) == Reference(deps, order)[t.id]
               && Trail(deps, c.outcomes, t) == Trail(deps, Reference(deps, order), t)
               && Project(c.log, t.id) == []
    requires forall t :: t in wave ==>
               && t.id in next.outcomes && next.outcomes[t.id] == Settled(deps, c.outcomes, t)
               && Project(next.log, t.id) == Project(c.log, t.id) + Trail(deps, c.outcomes, t)
    ensures WaveDone(deps, order, c, wave, next)
  {
    hide Settled, Trail, Reference, Project, ApprovedIn, Batch;
    forall t | t in wave
      ensures Project(next.log, t.id) == Trail(deps, Reference(deps, order), t)
    {
      assert [] + Trail(deps, c.outcomes, t) == Trail(deps, c.outcomes, t);
    }
  }

  lemma WaveKeepsHalfway(deps: BatchDeps, tickets: seq<Sketch>, order: seq<Sketch>, c: Crew, wave: seq<Sketch>,
      next: Crew)
    requires DistinctIds(order) && Halfway(deps, tickets, order, c)
    requires WaveDone(deps, order, c, wave, next) && next.approved == ApprovedIn(next.outcomes)
    requires Lawful(deps, tickets, next) && next.active == map[]
    ensures Halfway(deps, tickets, order, next)
    ensures next.outcomes.Keys == c.outcomes.Keys + Batch(wave)
  {
    hide Trail, Project, Reference, Lawful, ApprovedIn;
    forall id | id in Batch(wave)
      ensures id in Batch(order) && id in next.outcomes && next.outcomes[id] == Reference(deps, order)[id]
    {
      var t :| t in wave && t.id == id;
      assert t in order;
    }
    forall t | t in order
      ensures Project(next.log, t.id) ==
              if t.id in next.outcomes then Trail(deps, Reference(deps, order), t) else []
    {
      if t.id in Batch(wave) {
        var u :| u in wave && u.id == t.id;
        SameTicket(order, t, u);
      }
    }
  }

  /** The waves: every orderable ticket is settled as the sequential run settles it. */
  method PlanWaves(deps: BatchDeps, tickets: seq<Sketch>, order: seq<Sketch>, maxConcurrent: int)
      returns (c: Crew, ghost most: nat)
    requires DistinctIds(tickets) && order == Ordered(tickets)
    ensures Halfway(deps, tickets, order, c) && c.outcomes.Keys == Batch(order) && c.queue == []
    ensures most <= if maxConcurrent >= 1 then maxConcurrent else 1
  {
    OrderedIsSequenced(tickets);
    assert forall t :: t in order ==> t in tickets;
    c := Crew([], map[], {}, map[], []);
    NothingYet(deps, tickets, order);
    var pending := order;
    NothingRemoved(order, c.outcomes);
    var cap := Max(1, maxConcurrent);
    assert cap == if maxConcurrent >= 1 then maxConcurrent else 1;
    hide *;
    most := 0;
    while pending != []
      invariant Halfway(deps, tickets, order, c) && c.queue == []
      invariant pending == Without(order, c.outcomes.Keys)
      invariant most <= cap
      decreases |pending|
    {
      var wave := Ready(pending, Batch(tickets), c.outcomes);
      SomeoneIsReady(order, Batch(tickets), c.outcomes);
      WaveIsLaunchable(deps, tickets, order, c, wave);
      ReadyShrinks(pending, Batch(tickets), c.outcomes);
      ghost var before := c;
      WithoutTwice(order, c.outcomes.Keys, Batch(wave));
      pending := Without(pending, Batch(wave));
      LaunchIsLawful(deps, tickets, order, c, wave);
      ghost var inFlight;
      c, inFlight := RunWithCap(deps, tickets, wave, cap, c.(queue := wave));
      most := if inFlight > most then inFlight else most;
      WaveIsDone(deps, tickets, order, before, wave, c);
      WaveKeepsHalfway(deps, tickets, order, before, wave, c);
    }
    AllSettled(deps, tickets, order, c);
  }

  lemma NothingRemoved(order: seq<Sketch>, outcomes: map<Id, PlanningOutcome>)
    requires outcomes == map[]
    ensures Without(order, outcomes.Keys) == order
  {
    if order != [] {
      NothingRemoved(Init(order), outcomes);
      assert order == Init(order) + [Last(order)];
    }
  }

  lemma ReadyShrinks(pending: seq<Sketch>, batch: set<Id>, outcomes: map<Id, PlanningOutcome>)
    requires Ready(pending, batch, outcomes) != []
    ensures |Without(pending, Batch(Ready(pending, batch, outcomes)))| < |pending|
  {
    var wave := Ready(pending, batch, outcomes);
    ReadyIsFilter(pending, batch, outcomes);
    assert wave[0] in wave;
    WithoutDrops(pending, Batch(wave), wave[0]);
  }

  lemma {:induction false} WithoutDrops(tickets: seq<Sketch>, ids: set<Id>, t: Sketch)
    ensures |Without(tickets, ids)| <= |tickets|
    ensures t in tickets && t.id in ids ==> |Without(tickets, ids)| < |tickets|
  {
    if tickets != [] {
      WithoutDrops(Init(tickets), ids, t);
      assert tickets == Init(tickets) + [Last(tickets)];
    }
  }

  lemma LaunchIsLawful(deps: BatchDeps, tickets: seq<Sketch>, order: seq<Sketch>, c: Crew, wave: seq<Sketch>)
    requires Halfway(deps, tickets, order, c)
    ensures Lawful(deps, tickets, c.(queue := wave))
  {
  }

  lemma AllSettled(deps: BatchDeps, tickets: seq<Sketch>, order: seq<Sketch>, c: Crew)
    requires Halfway(deps, tickets, order, c) && Without(order, c.outcomes.Keys) == []
    ensures c.outcomes.Keys == Batch(order)
  {
    forall id | id in Batch(order)
      ensures id in c.outcomes
    {
      var t :| t in order && t.id == id;
      WithoutIsFilter(order, c.outcomes.Keys, t);
    }
  }

  // ----- the batch as a whole -----

  /** What each ticket of the batch logged. */
  ghost predicate Logs(deps: BatchDeps, tickets: seq<Sketch>, log: seq<Event>)
    requires DistinctIds(tickets)
  {
    var order := Ordered(tickets);
    forall t :: t in tickets ==>
      Project(log, t.id) ==
      if t in order then Trail(deps, Reference(deps, order), t) else StuckTrail(deps, t)
  }

  /** record() for a ticket no wave can reach: never approved, downgraded if it cannot be written. */
  function RecordStuck(deps: BatchDeps, c: Crew, t: Sketch): Crew {
    c.(outcomes := c.outcomes[t.id := StuckOutcome(deps, t)], log := c.log + StuckTrail(deps, t))
  }

  ghost predicate StuckOutcomesRecorded(deps: BatchDeps, left: seq<Sketch>, k: nat, done: Crew, c: Crew)
    requires k <= |left|
  {
    && (forall id :: id in done.outcomes ==> id in c.outcomes && c.outcomes[id] == done.outcomes[id])
    && (forall i :: 0 <= i < k ==> left[i].id in c.outcomes && c.outcomes[left[i].id] == StuckOutcome(deps, left[i]))
  }

  predicate NotAmong(left: seq<Sketch>, k: nat, id: Id)
    requires k <= |left|
  {
    forall i :: 0 <= i < k ==> left[i].id != id
  }

  ghost predicate StuckLogged(deps: BatchDeps, left: seq<Sketch>, k: nat, done: Crew, log: seq<Event>)
    requires k <= |left|
  {
    && (forall id :: NotAmong(left, k, id) ==> Project(log, id) == Project(done.log, id))
    && (forall i :: 0 <= i < k ==>
          Project(log, left[i].id) == Project(done.log, left[i].id) + StuckTrail(deps, left[i]))
  }

  /** The stuck tickets up to `k` are recorded; everything the waves settled is as it was. */
  ghost predicate StuckRecorded(deps: BatchDeps, tickets: seq<Sketch>, left: seq<Sketch>, k: nat, done: Crew, c: Crew)
    requires k <= |left|
  {
    Lawful(deps, tickets, c) && StuckOutcomesRecorded(deps, left, k, done, c) && StuckLogged(deps, left, k, done, c.log)
  }

  lemma StuckTrailLogs(deps: BatchDeps, tickets: seq<Sketch>, c: Crew, t: Sketch)
    requires Lawful(deps, tickets, c)
    ensures Lawful(deps, tickets, RecordStuck(deps, c, t))
    ensures forall id :: Project(c.log + StuckTrail(deps, t), id)
                         == Project(c.log, id) + if id == t.id then StuckTrail(deps, t) else []
  {
    var trail := StuckTrail(deps, t);
    var once := c.log + [trail[0]];
    hide DraftSafe, Project;
    assert c.log + trail == once + [trail[1]];
    InitOfAppend(c.log, trail[0]);
    InitOfAppend(once, trail[1]);
    DraftSafeAppend(deps, tickets, c.log, trail[0]);
    DraftSafeAppend(deps, tickets, once, trail[1]);
    assert PersistedIn(once) == c.approved;
    assert PersistedIn(once + [trail[1]]) == c.approved;
    forall id
      ensures Project(c.log + trail, id) == Project(c.log, id) + if id == t.id then trail else []
    {
      ProjectAppend(c.log, trail[0], id);
      ProjectAppend(once, trail[1], id);
    }
  }

  lemma NextStuckOutcome(deps: BatchDeps, left: seq<Sketch>, k: nat, done: Crew, c: Crew)
    requires k < |left| && DistinctIds(left) && left[k].id !in done.outcomes
    requires StuckOutcomesRecorded(deps, left, k, done, c)
    ensures StuckOutcomesRecorded(deps, left, k + 1, done, RecordStuck(deps, c, left[k]))
  {
    OthersDiffer(left, k);
    hide StuckTrail, StuckOutcome, DistinctIds;
  }

  lemma NextStuckLog(deps: BatchDeps, left: seq<Sketch>, k: nat, done: Crew, c: Crew, log: seq<Event>)
    requires k < |left| && DistinctIds(left) && StuckLogged(deps, left, k, done, c.log)
    requires forall id :: Project(log, id)
                          == Project(c.log, id) + if id == left[k].id then StuckTrail(deps, left[k]) else []
    ensures StuckLogged(deps, left, k + 1, done, log)
  {
    OthersDiffer(left, k);
    hide StuckTrail, DistinctIds, Project;
    var next: nat := k + 1;
    forall id
      ensures NotAmong(left, next, id) ==> NotAmong(left, k, id) && id != left[k].id
    {
    }
    assert NotAmong(left, k, left[k].id);
    hide NotAmong;
    forall id | id != left[k].id
      ensures Project(log, id) == Project(c.log, id)
    {
      assert Project(c.log, id) + [] == Project(c.log, id);
    }
  }

  lemma RecordNextStuck(deps: BatchDeps, tickets: seq<Sketch>, left: seq<Sketch>, k: nat, done: Crew, c: Crew)
    requires k < |left| && DistinctIds(left) && (forall t :: t in left ==> t.id !in done.outcomes)
    requires StuckRecorded(deps, tickets, left, k, done, c)
    ensures StuckRecorded(deps, tickets, left, k + 1, done, RecordStuck(deps, c, left[k]))
  {
    hide Lawful, Project, StuckTrail, StuckOutcome, DistinctIds, StuckLogged, StuckOutcomesRecorded;
    var t := left[k];
    assert t in left;
    StuckTrailLogs(deps, tickets, c, t);
    NextStuckOutcome(deps, left, k, done, c);
    NextStuckLog(deps, left, k, done, c, RecordStuck(deps, c, t).log);
  }

  /** The outcome array, looked up in order and then in what is stuck. */
  method Gather(outcomes: map<Id, PlanningOutcome>, order: seq<Sketch>) returns (results: seq<PlanningOutcome>)
    requires forall t :: t in order ==> t.id in outcomes
    ensures |results| == |order|
    ensures forall i :: 0 <= i < |order| ==> results[i] == outcomes[order[i].id]
  {
    results := [];
    for i := 0 to |order|
      invariant |results| == i && forall j :: 0 <= j < i ==> results[j] == outcomes[order[j].id]
    {
      results := results + [outcomes[order[i].id]];
    }
  }

  // ----- what the results say of each ticket -----

  /** Approved among the results, or satisfied outside the batch. */
  predicate Met(deps: BatchDeps, outcomes: map<Id, PlanningOutcome>, d: Id) {
    (d in outcomes && outcomes[d].Approved?) || deps.external(d)
  }

  /** The k-th dependency is the first that is not met. */
  predicate FirstUnmet(deps: BatchDeps, outcomes: map<Id, PlanningOutcome>, t: Sketch, k: nat) {
    && k < |t.dependsOn| && !Met(deps, outcomes, t.dependsOn[k])
    && forall m :: 0 <= m < k ==> Met(deps, outcomes, t.dependsOn[m])
  }

  /** The outcome is what planning came to, if it could be persisted, and that is what was logged. */
  ghost predicate Recorded(deps: BatchDeps, id: Id, planned: PlanningOutcome, outcome: PlanningOutcome,
      trail: seq<Event>)
  {
    match deps.persist(id, planned)
    case None =>
      outcome == planned && trail == [Terminal(id, planned.Approved?), Persisted(id, planned.Approved?)]
    case Some(detail) =>
      && outcome.Escalated? && outcome.reason == PlanningError && outcome.decisions == planned.decisions
      && (exists k :: 0 <= k <= |outcome.findings| && detail <= outcome.findings[k..])
      && (planned.Escalated? ==> exists k :: 0 <= k <= |outcome.findings| && outcome.findings[k..] == planned.findings)
      && trail == [Terminal(id, planned.Approved?), PersistFailed(id, detail)]
  }

  /** A ticket in the order: drafted exactly when no dependency but an empty name is the first unmet one. */
  ghost predicate AccountedFor(deps: BatchDeps, outcomes: map<Id, PlanningOutcome>, t: Sketch, log: seq<Event>) {
    && t.id in outcomes
    && (forall k: nat :: FirstUnmet(deps, outcomes, t, k) && t.dependsOn[k] != "" ==>
          && DraftStarted(t.id) !in log
          && Recorded(deps, t.id, Escalated(DependencyUnresolved, "waits for " + t.dependsOn[k], None, []),
                      outcomes[t.id], Project(log, t.id)))
    && ((forall k: nat :: FirstUnmet(deps, outcomes, t, k) ==> t.dependsOn[k] == "") ==>
          && DraftStarted(t.id) in log
          && Project(log, t.id) != [] && Project(log, t.id)[0] == DraftStarted(t.id)
          && Recorded(deps, t.id,
                      match deps.plan(t, map d | d in t.dependsOn && d in outcomes :: outcomes[d])
                      case Returned(outcome) => outcome
                      case Threw(message) => Escalated(PlanningError, message, None, []),
                      outcomes[t.id], Project(log, t.id)[1..]))
  }

  /** A ticket on a cycle, or behind one: never drafted, never approved. */
  ghost predicate LeftOut(deps: BatchDeps, outcome: PlanningOutcome, t: Sketch, log: seq<Event>) {
    && !outcome.Approved? && DraftStarted(t.id) !in log
    && exists why :: Recorded(deps, t.id, Escalated(DependencyUnresolved, "waits for " + why, None, []), outcome,
                              Project(log, t.id))
  }

  /** The results stand in the order's places and then in those of what is left, and account for every ticket. */
  ghost predicate Accounted(deps: BatchDeps, order: seq<Sketch>, left: seq<Sketch>, results: seq<PlanningOutcome>,
      log: seq<Event>)
  {
    && |results| == |order| + |left|
    && (exists outcomes: map<Id, PlanningOutcome> ::
          && outcomes.Keys == Batch(order)
          && (forall i :: 0 <= i < |order| ==> order[i].id in outcomes && results[i] == outcomes[order[i].id])
          && (forall t :: t in order ==> AccountedFor(deps, outcomes, t, log)))
    && (forall i :: 0 <= i < |left| ==> LeftOut(deps, results[|order|..][i], left[i], log))
  }

  /** Every dependency before the first empty name that is not met is persisted as approved, or satisfied outside. */
  ghost predicate Cleared(deps: BatchDeps, approved: set<Id>, t: Sketch) {
    || ResolvedUpTo(deps, approved, t, 0, |t.dependsOn|)
    || exists e :: StopsAtEmpty(deps, approved, t, 0, e)
  }

  lemma SafeIsCleared(deps: BatchDeps, tickets: seq<Sketch>, log: seq<Event>, i: nat, t: Sketch)
    requires DraftSafe(deps, tickets, log) && i < |log| && t in tickets && log[i] == DraftStarted(t.id)
    ensures Cleared(deps, PersistedIn(log[..i]), t)
  {
    GateMeans(deps, PersistedIn(log[..i]), t, 0);
    hide FirstUnresolved, PersistedIn, ResolvedUpTo, StopsAtEmpty;
  }

  lemma {:induction false} ProjectKeeps(log: seq<Event>, id: Id)
    ensures forall e :: e in Project(log, id) <==> e in log && e.id == id
  {
    if log != [] {
      ProjectKeeps(Init(log), id);
      assert log == Init(log) + [Last(log)];
    }
  }

  /** The gate in terms of the outcomes. */
  lemma {:induction false} GateIsFirstUnmet(deps: BatchDeps, outcomes: map<Id, PlanningOutcome>, t: Sketch, k: nat)
    requires k <= |t.dependsOn| && forall m :: 0 <= m < k ==> Met(deps, outcomes, t.dependsOn[m])
    ensures var unresolved := FirstUnresolved(deps, ApprovedIn(outcomes), t, k);
            if unresolved.None? then forall m: nat :: !FirstUnmet(deps, outcomes, t, m)
            else exists m: nat ::
                   m < |t.dependsOn| && FirstUnmet(deps, outcomes, t, m) && t.dependsOn[m] == unresolved.value
    decreases |t.dependsOn| - k
  {
    if k < |t.dependsOn| {
      if Met(deps, outcomes, t.dependsOn[k]) {
        GateIsFirstUnmet(deps, outcomes, t, k + 1);
      } else {
        assert FirstUnmet(deps, outcomes, t, k);
      }
    }
  }

  lemma FirstUnmetIsOne(deps: BatchDeps, outcomes: map<Id, PlanningOutcome>, t: Sketch, a: nat, b: nat)
    requires FirstUnmet(deps, outcomes, t, a) && FirstUnmet(deps, outcomes, t, b)
    ensures a == b
  {
    hide Met;
  }

  lemma FinalIsRecorded(deps: BatchDeps, id: Id, planned: PlanningOutcome)
    ensures Recorded(deps, id, planned, Final(deps, id, planned),
                     [Terminal(id, planned.Approved?), PersistEvent(deps, id, planned)])
  {
    if deps.persist(id, planned).Some? {
      var detail, findings := deps.persist(id, planned).value, Final(deps, id, planned).findings;
      var why := if planned.Escalated? then "; before, " + ReasonName(planned.reason) + ": " else "";
      var more := if planned.Escalated? then planned.findings else "";
      assert findings == "not on disk: " + (detail + (why + more));
      assert detail <= findings[|"not on disk: "|..];
      assert findings[|"not on disk: " + detail + why|..] == more;
    }
  }

  /** What the sequential reference says of a ticket, in the results' own terms. */
  lemma SettledIsAccountedFor(deps: BatchDeps, outcomes: map<Id, PlanningOutcome>, t: Sketch, log: seq<Event>)
    requires t.id in outcomes && outcomes[t.id] == Settled(deps, outcomes, t)
    requires Project(log, t.id) == Trail(deps, outcomes, t)
    ensures AccountedFor(deps, outcomes, t, log)
  {
    hide *;
    GateIsFirstUnmet(deps, outcomes, t, 0);
    ProjectKeeps(log, t.id);
    VerdictIs(deps, outcomes, t);
    var unresolved := FirstUnresolved(deps, ApprovedIn(outcomes), t, 0);
    FinalIsRecorded(deps, t.id, Verdict(deps, outcomes, t));
    if unresolved.Some? {
      var m: nat :| m < |t.dependsOn| && FirstUnmet(deps, outcomes, t, m) && t.dependsOn[m] == unresolved.value;
      forall k: nat | FirstUnmet(deps, outcomes, t, k)
        ensures k == m
      {
        FirstUnmetIsOne(deps, outcomes, t, k, m);
      }
      AccountedFrom(deps, outcomes, t, log, Some(m));
    } else {
      AccountedFrom(deps, outcomes, t, log, None);
    }
  }

  lemma VerdictIs(deps: BatchDeps, outcomes: map<Id, PlanningOutcome>, t: Sketch)
    ensures var unresolved := FirstUnresolved(deps, ApprovedIn(outcomes), t, 0);
            var planned := Verdict(deps, outcomes, t);
            var blocked := unresolved.Some? && unresolved.value != "";
            && planned == (if blocked
                then Escalated(DependencyUnresolved, "waits for " + unresolved.value, None, [])
                else match deps.plan(t, map d | d in t.dependsOn && d in outcomes :: outcomes[d])
                  case Returned(outcome) => outcome
                  case Threw(message) => Escalated(PlanningError, message, None, []))
            && Settled(deps, outcomes, t) == Final(deps, t.id, planned)
            && Trail(deps, outcomes, t) == (if blocked then [] else [DraftStarted(t.id)])
               + [Terminal(t.id, planned.Approved?), PersistEvent(deps, t.id, planned)]
  {
    hide FirstUnresolved, ApprovedIn, Final, PersistEvent;
  }

  lemma AccountedFrom(deps: BatchDeps, outcomes: map<Id, PlanningOutcome>, t: Sketch, log: seq<Event>, m: Option<nat>)
    requires t.id in outcomes
    requires forall k: nat :: FirstUnmet(deps, outcomes, t, k) <==> m == Some(k)
    requires m.Some? ==> m.value < |t.dependsOn|
    requires var blocked := m.Some? && t.dependsOn[m.value] != "";
             var planned := if blocked
               then Escalated(DependencyUnresolved, "waits for " + t.dependsOn[m.value], None, [])
               else match deps.plan(t, map d | d in t.dependsOn && d in outcomes :: outcomes[d])
                 case Returned(outcome) => outcome
                 case Threw(message) => Escalated(PlanningError, message, None, []);
             var end := [Terminal(t.id, planned.Approved?), PersistEvent(deps, t.id, planned)];
             && Recorded(deps, t.id, planned, outcomes[t.id], end)
             && Project(log, t.id) == (if blocked then [] else [DraftStarted(t.id)]) + end
    requires forall e :: e in Project(log, t.id) <==> e in log && e.id == t.id
    ensures AccountedFor(deps, outcomes, t, log)
  {
    hide Recorded, FirstUnmet, Project, PersistEvent;
    var trail := Project(log, t.id);
    if m.Some? && t.dependsOn[m.value] != "" {
      assert trail == [trail[0], trail[1]];
      assert DraftStarted(t.id) !in trail;
    } else {
      assert trail[0] == DraftStarted(t.id) && trail[1..] == [trail[1], trail[2]];
      assert forall k: nat :: FirstUnmet(deps, outcomes, t, k) ==> m == Some(k);
    }
  }

  lemma ResultsAreAccounted(deps: BatchDeps, tickets: seq<Sketch>, results: seq<PlanningOutcome>, log: seq<Event>)
    requires DistinctIds(tickets) && results == Sequentially(deps, tickets) && Logs(deps, tickets, log)
    ensures Accounted(deps, Ordered(tickets), Without(tickets, Batch(Ordered(tickets))), results, log)
  {
    hide *;
    var order, left := Ordered(tickets), Without(tickets, Batch(Ordered(tickets)));
    var outcomes := Reference(deps, order);
    OrderedIsSequenced(tickets);
    SequentiallyIs(deps, tickets);
    forall t | t in order
      ensures AccountedFor(deps, outcomes, t, log)
    {
      ReferenceIsConsistent(deps, order, Batch(tickets), t);
      LogOfOrdered(deps, tickets, log, t);
      SettledIsAccountedFor(deps, outcomes, t, log);
    }
    forall i | 0 <= i < |left|
      ensures LeftOut(deps, results[|order|..][i], left[i], log)
    {
      LogOfLeft(deps, tickets, log, left[i]);
      ProjectKeeps(log, left[i].id);
      StuckIsRecorded(deps, left[i], log);
    }
    AccountedIs(deps, order, left, results, log, outcomes);
  }

  lemma AccountedIs(deps: BatchDeps, order: seq<Sketch>, left: seq<Sketch>, results: seq<PlanningOutcome>,
      log: seq<Event>, outcomes: map<Id, PlanningOutcome>)
    requires |results| == |order| + |left| && outcomes.Keys == Batch(order)
    requires forall i :: 0 <= i < |order| ==> order[i].id in outcomes && results[i] == outcomes[order[i].id]
    requires forall t :: t in order ==> AccountedFor(deps, outcomes, t, log)
    requires forall i :: 0 <= i < |left| ==> LeftOut(deps, results[|order|..][i], left[i], log)
    ensures Accounted(deps, order, left, results, log)
  {
    hide AccountedFor, LeftOut;
  }

  lemma SequentiallyIs(deps: BatchDeps, tickets: seq<Sketch>)
    requires DistinctIds(tickets)
    ensures var order, left := Ordered(tickets), Without(tickets, Batch(Ordered(tickets)));
            var results, outcomes := Sequentially(deps, tickets), Reference(deps, order);
            && |results| == |order| + |left| && outcomes.Keys == Batch(order)
            && (forall i :: 0 <= i < |order| ==> order[i].id in outcomes && results[i] == outcomes[order[i].id])
            && forall i :: 0 <= i < |left| ==> results[|order|..][i] == StuckOutcome(deps, left[i])
  {
    hide Ordered, Without, Reference, StuckOutcome;
    forall i | 0 <= i < |Ordered(tickets)|
      ensures Ordered(tickets)[i].id in Reference(deps, Ordered(tickets))
    {
      assert Ordered(tickets)[i] in Ordered(tickets);
    }
  }

  lemma LogOfOrdered(deps: BatchDeps, tickets: seq<Sketch>, log: seq<Event>, t: Sketch)
    requires DistinctIds(tickets) && Logs(deps, tickets, log) && t in Ordered(tickets)
    ensures Project(log, t.id) == Trail(deps, Reference(deps, Ordered(tickets)), t)
  {
    hide Project, Trail, StuckTrail, ApprovedIn, Reference;
  }

  lemma LogOfLeft(deps: BatchDeps, tickets: seq<Sketch>, log: seq<Event>, t: Sketch)
    requires DistinctIds(tickets) && Logs(deps, tickets, log) && t in Without(tickets, Batch(Ordered(tickets)))
    ensures Project(log, t.id) == StuckTrail(deps, t)
  {
    WithoutIsFilter(tickets, Batch(Ordered(tickets)), t);
    hide Project, Trail, StuckTrail, ApprovedIn, Reference, Ordered, Without;
  }

  lemma StuckIsRecorded(deps: BatchDeps, t: Sketch, log: seq<Event>)
    requires Project(log, t.id) == StuckTrail(deps, t)
    requires forall e :: e in Project(log, t.id) <==> e in log && e.id == t.id
    ensures LeftOut(deps, StuckOutcome(deps, t), t, log)
  {
    var planned := Escalated(DependencyUnresolved, "waits for " + StuckDetail(t), None, []);
    FinalIsRecorded(deps, t.id, planned);
    hide Recorded, Project, PersistEvent;
  }

  /**
   * autoplanEpic: for every cap and every interleaving of the workers, the same outcomes and,
   * ticket by ticket, the same log as planning the batch one ticket at a time.
   */
  method AutoplanEpic(deps: BatchDeps, tickets: seq<Sketch>, maxConcurrent: int)
    returns (results: seq<PlanningOutcome>, log: seq<Event>, ghost most: nat)
    requires DistinctIds(tickets)
    ensures most <= if maxConcurrent >= 1 then maxConcurrent else 1
    ensures results == Sequentially(deps, tickets)
    ensures |results| == |tickets|
    ensures Logs(deps, tickets, log)
    ensures Accounted(deps, Ordered(tickets), Without(tickets, Batch(Ordered(tickets))), results, log)
    ensures forall i, t :: 0 <= i < |log| && t in tickets && log[i] == DraftStarted(t.id) ==>
                             Cleared(deps, PersistedIn(log[..i]), t)
  {
    hide *;
    var order, left := TopoOrder(tickets);
    OrderIsOrdered(tickets, order);
    var c;
    c, most := PlanWaves(deps, tickets, order, maxConcurrent);
    ghost var done := c;
    LeftIsApart(tickets, order, left);
    NothingStuckYet(deps, tickets, order, left, done);
    for k := 0 to |left|
      invariant StuckRecorded(deps, tickets, left, k, done, c)
    {
      RecordNextStuck(deps, tickets, left, k, done, c);
      c := RecordStuck(deps, c, left[k]);
    }
    EveryoneHasAnOutcome(deps, tickets, order, left, done, c);
    var ordered := Gather(c.outcomes, order);
    var stuck := Gather(c.outcomes, left);
    results, log := ordered + stuck, c.log;
    ResultsAreSequential(deps, tickets, order, left, done, c, ordered, stuck);
    LogsAreComplete(deps, tickets, order, left, done, c);
    OrderAndLeftoverPartition(tickets, order);
    assert |multiset(order + left)| == |order + left| && |multiset(tickets)| == |tickets|;
    ResultsAreAccounted(deps, tickets, results, log);
    forall i, t | 0 <= i < |log| && t in tickets && log[i] == DraftStarted(t.id)
      ensures Cleared(deps, PersistedIn(log[..i]), t)
    {
      SafeIsCleared(deps, tickets, log, i, t);
    }
  }

  lemma LeftIsApart(tickets: seq<Sketch>, order: seq<Sketch>, left: seq<Sketch>)
    requires DistinctIds(tickets) && left == Without(tickets, Elements(IdsOf(order)))
    ensures DistinctIds(left) && Batch(left) !! Batch(order) && Elements(IdsOf(order)) == Batch(order)
    ensures forall t :: t in left <==> t in tickets && t.id !in Batch(order)
  {
    forall x
      ensures x in Elements(IdsOf(order)) <==> x in Batch(order)
    {
      if x in Elements(IdsOf(order)) {
        var i :| 0 <= i < |order| && IdsOf(order)[i] == x;
        assert order[i] in order;
      }
      if x in Batch(order) {
        var t :| t in order && t.id == x;
        var i :| 0 <= i < |order| && order[i] == t;
        assert IdsOf(order)[i] == x;
      }
    }
    WithoutKeepsDistinct(tickets, Elements(IdsOf(order)));
    forall t { WithoutIsFilter(tickets, Elements(IdsOf(order)), t); }
  }

  lemma NothingStuckYet(deps: BatchDeps, tickets: seq<Sketch>, order: seq<Sketch>, left: seq<Sketch>, done: Crew)
    requires Halfway(deps, tickets, order, done)
    ensures StuckRecorded(deps, tickets, left, 0, done, done)
  {
    assert left[..0] == [];
  }

  lemma EveryoneHasAnOutcome(deps: BatchDeps, tickets: seq<Sketch>, order: seq<Sketch>, left: seq<Sketch>, done: Crew,
      c: Crew)
    requires done.outcomes.Keys == Batch(order) && StuckRecorded(deps, tickets, left, |left|, done, c)
    ensures forall t :: t in order ==> t.id in c.outcomes && c.outcomes[t.id] == done.outcomes[t.id]
    ensures forall t :: t in left ==> t.id in c.outcomes && c.outcomes[t.id] == StuckOutcome(deps, t)
  {
    hide Lawful, Project, StuckTrail, StuckOutcome;
  }

  lemma ResultsAreSequential(deps: BatchDeps, tickets: seq<Sketch>, order: seq<Sketch>, left: seq<Sketch>, done: Crew,
      c: Crew, ordered: seq<PlanningOutcome>, stuck: seq<PlanningOutcome>)
    requires DistinctIds(tickets) && order == Ordered(tickets) && left == Without(tickets, Batch(order))
    requires Halfway(deps, tickets, order, done) && done.outcomes.Keys == Batch(order)
    requires forall t :: t in order ==> t.id in c.outcomes && c.outcomes[t.id] == done.outcomes[t.id]
    requires forall t :: t in left ==> t.id in c.outcomes && c.outcomes[t.id] == StuckOutcome(deps, t)
    requires |ordered| == |order| && forall i :: 0 <= i < |order| ==> ordered[i] == c.outcomes[order[i].id]
    requires |stuck| == |left| && forall i :: 0 <= i < |left| ==> stuck[i] == c.outcomes[left[i].id]
    ensures ordered + stuck == Sequentially(deps, tickets)
    ensures |ordered + stuck| == |order| + |left|
  {
    hide *;
    SequentiallyIs(deps, tickets);
    HalfwayAgrees(deps, tickets, order, done);
    var results := Sequentially(deps, tickets);
    forall i | 0 <= i < |order|
      ensures ordered[i] == results[i]
    {
      assert order[i] in order;
    }
    forall i | 0 <= i < |left|
      ensures stuck[i] == results[|order|..][i]
    {
      assert left[i] in left;
    }
    assert results == results[..|order|] + results[|order|..];
  }

  lemma HalfwayAgrees(deps: BatchDeps, tickets: seq<Sketch>, order: seq<Sketch>, done: Crew)
    requires Halfway(deps, tickets, order, done)
    ensures done.outcomes.Keys <= Reference(deps, order).Keys
    ensures forall id :: id in done.outcomes ==> done.outcomes[id] == Reference(deps, order)[id]
  {
    hide Reference, Trail, Project, Lawful, ApprovedIn;
  }

  lemma LogsAreComplete(deps: BatchDeps, tickets: seq<Sketch>, order: seq<Sketch>, left: seq<Sketch>, done: Crew,
      c: Crew)
    requires DistinctIds(tickets) && order == Ordered(tickets)
    requires Batch(left) !! Batch(order) && forall t :: t in left <==> t in tickets && t.id !in Batch(order)
    requires Halfway(deps, tickets, order, done) && done.outcomes.Keys == Batch(order)
    requires StuckRecorded(deps, tickets, left, |left|, done, c)
    ensures Logs(deps, tickets, c.log) && DraftSafe(deps, tickets, c.log)
  {
    hide Ordered, DraftSafe, Project, StuckOutcome, StuckTrail, Trail, Reference, ApprovedIn;
    assert left[..|left|] == left;
    forall t | t in tickets
      ensures Project(c.log, t.id) ==
              if t in order then Trail(deps, Reference(deps, order), t) else StuckTrail(deps, t)
    {
      if t in left {
        var i :| 0 <= i < |left| && left[i] == t;
        assert t.id !in Batch(order);
        assert Project(done.log, t.id) == [];
        assert [] + StuckTrail(deps, t) == StuckTrail(deps, t);
      } else {
        var u :| u in order && u.id == t.id;
        SameTicket(tickets, t, u);
        assert t.id !in Batch(left);
      }
    }
  }

  // ----- what the sequential outcomes promise -----

  lemma OpenGateResolves(deps: BatchDeps, approved: set<Id>, t: Sketch)
    requires "" !in t.dependsOn && !Blocks(FirstUnresolved(deps, approved, t, 0))
    ensures forall d :: d in t.dependsOn ==> d in approved || deps.external(d)
  {
    GateMeans(deps, approved, t, 0);
    hide FirstUnresolved;
    assert ResolvedUpTo(deps, approved, t, 0, |t.dependsOn|);
  }

  lemma ApprovedWasLetThrough(deps: BatchDeps, seen: map<Id, PlanningOutcome>, t: Sketch)
    ensures Settled(deps, seen, t).Approved? ==> !Blocks(FirstUnresolved(deps, ApprovedIn(seen), t, 0))
  {
    hide FirstUnresolved;
  }

  /** A ticket is approved only if each dependency is approved in this batch, or satisfied outside it. */
  lemma ApprovalRestsOnDependencies(deps: BatchDeps, tickets: seq<Sketch>, t: Sketch)
    requires DistinctIds(tickets) && t in Ordered(tickets) && "" !in t.dependsOn
    ensures var sequential := Reference(deps, Ordered(tickets));
            && t.id in sequential
            && (sequential[t.id].Approved? ==> forall d :: d in t.dependsOn ==>
                 (d in sequential && sequential[d].Approved?) || deps.external(d))
  {
    hide *;
    var order := Ordered(tickets);
    var sequential := Reference(deps, order);
    OrderedIsSequenced(tickets);
    ReferenceIsConsistent(deps, order, Batch(tickets), t);
    ApprovedWasLetThrough(deps, sequential, t);
    if sequential[t.id].Approved? {
      OpenGateResolves(deps, ApprovedIn(sequential), t);
      ApprovedInMeans(sequential);
    }
  }

  /** An empty dependency name hides every dependency after it: no identifier, so no scan produces one. */
  lemma EmptyNameHidesDependencies(deps: BatchDeps, approved: set<Id>)
    requires "" !in approved && !deps.external("") && "TICKET-001" !in approved && !deps.external("TICKET-001")
    ensures !Blocks(FirstUnresolved(deps, approved, Sketch("TICKET-002", ["", "TICKET-001"]), 0))
    ensures Blocks(FirstUnresolved(deps, approved, Sketch("TICKET-002", ["TICKET-001", ""]), 0))
  {
    var t := Sketch("TICKET-002", ["", "TICKET-001"]);
    assert t.dependsOn[0] == "";
    var u := Sketch("TICKET-002", ["TICKET-001", ""]);
    assert u.dependsOn[0] == "TICKET-001";
  }

  function Terminals(log: seq<Event>): nat {
    if log == [] then 0 else Terminals(Init(log)) + (if Last(log).Terminal? then 1 else 0)
  }

  /** One ticket, one terminal event, drafted or not, persisted or not, thrown or not. */
  lemma OneTerminalEach(deps: BatchDeps, tickets: seq<Sketch>, log: seq<Event>, t: Sketch)
    requires DistinctIds(tickets) && Logs(deps, tickets, log) && t in tickets
    ensures Terminals(Project(log, t.id)) == 1
  {
    hide *;
    LogOf(deps, tickets, log, t);
    TrailShapes(deps, Reference(deps, Ordered(tickets)), t);
    TerminalsOf(Project(log, t.id));
  }

  lemma LogOf(deps: BatchDeps, tickets: seq<Sketch>, log: seq<Event>, t: Sketch)
    requires DistinctIds(tickets) && Logs(deps, tickets, log) && t in tickets
    ensures || Project(log, t.id) == Trail(deps, Reference(deps, Ordered(tickets)), t)
            || Project(log, t.id) == StuckTrail(deps, t)
  {
    hide Project, Trail, StuckTrail, ApprovedIn, Ordered, Reference;
  }

  /** Drafting if any, the terminal event, then how persisting went. */
  predicate EndsInTerminal(trail: seq<Event>) {
    && (|trail| == 2 || (|trail| == 3 && trail[0].DraftStarted?))
    && trail[|trail| - 2].Terminal? && !Last(trail).Terminal?
  }

  lemma TrailShapes(deps: BatchDeps, seen: map<Id, PlanningOutcome>, t: Sketch)
    ensures EndsInTerminal(Trail(deps, seen, t)) && EndsInTerminal(StuckTrail(deps, t))
  {
    hide FirstUnresolved, Verdict;
  }

  lemma TerminalsOf(trail: seq<Event>)
    requires EndsInTerminal(trail)
    ensures Terminals(trail) == 1
  {
    var first := Init(Init(trail));
    if |trail| == 2 {
      assert first == [];
    } else {
      assert Last(first) == trail[0] && Init(first) == [];
    }
    assert Terminals(first) == 0;
    assert Last(Init(trail)) == trail[|trail| - 2];
    assert Terminals(Init(trail)) == 1;
  }
}
