/**
 * Dependency order of a sketched batch (topoOrder in src/planning.ts): Kahn's algorithm with
 * in-degree counters over a ready queue, against a definition on the dependency graph alone.
 */
module TopoOrders {
  import opened Prelude
  import opened Ids

  /** What ordering reads of a ticket. */
  datatype Sketch = Sketch(id: Id, dependsOn: seq<Id>)

  predicate DistinctIds(tickets: seq<Sketch>) {
    forall i, j :: 0 <= i < j < |tickets| ==> tickets[i].id != tickets[j].id
  }

  function Batch(tickets: seq<Sketch>): set<Id> {
    set t | t in tickets :: t.id
  }

  /** A ticket's dependencies inside the batch, each counted once. */
  function InBatch(t: Sketch, batch: set<Id>): set<Id> {
    set d | d in t.dependsOn && d in batch
  }

  /** Who depends on whom. */
  type Graph = map<Id, set<Id>>

  function GraphOf(tickets: seq<Sketch>): (g: Graph)
    ensures g.Keys == Batch(tickets) && Closed(g)
  {
    map id | id in Batch(tickets) :: set t, d | t in tickets && t.id == id && d in InBatch(t, Batch(tickets)) :: d
  }

  lemma GraphAt(tickets: seq<Sketch>, t: Sketch)
    requires DistinctIds(tickets) && t in tickets
    ensures t.id in GraphOf(tickets) && GraphOf(tickets)[t.id] == InBatch(t, Batch(tickets))
  {
    assert t.id in Batch(tickets);
    forall u | u in tickets && u.id == t.id
      ensures u == t
    {
    }
  }

  predicate Closed(g: Graph) {
    forall id :: id in g ==> g[id] <= g.Keys
  }

  // ----- the order, on the graph -----

  /** The ids waiting for `id` alone, once everything in `seen` (with `id`) is placed. */
  function Freed(g: Graph, id: Id, seen: set<Id>): set<Id> {
    set x | x in g && x !in seen && id in g[x] && g[x] <= seen
  }

  /** Every id comes after all of its dependencies. */
  predicate DependenciesFirst(g: Graph, order: seq<Id>) {
    forall i :: 0 <= i < |order| ==> order[i] in g && g[order[i]] <= Elements(order[..i])
  }

  /** `done` is placed; `ready` queues exactly the ids that wait for nothing else. */
  predicate Queued(g: Graph, done: seq<Id>, ready: seq<Id>) {
    && Distinct(done + ready)
    && Elements(done + ready) <= g.Keys
    && DependenciesFirst(g, done)
    && forall x :: x in g ==> (x in done || x in ready <==> g[x] <= Elements(done))
  }

  /** The queue after the head of `ready` is placed. */
  ghost function Requeue(g: Graph, done: seq<Id>, ready: seq<Id>): seq<Id>
    requires ready != []
  {
    ready[1..] + Listing(Freed(g, ready[0], Elements(done + [ready[0]])))
  }

  lemma FreedIsNew(g: Graph, done: seq<Id>, ready: seq<Id>)
    requires Queued(g, done, ready) && ready != []
    ensures ready[0] !in done && Freed(g, ready[0], Elements(done + [ready[0]])) !! Elements(done + ready)
  {
    var all := done + ready;
    assert all[|done|] == ready[0];
    assert forall j :: 0 <= j < |done| ==> done[j] == all[j];
    assert ready[0] !in Elements(done);
  }

  lemma AppendDistinct(a: seq<Id>, b: seq<Id>)
    requires Distinct(a) && Distinct(b) && Elements(a) !! Elements(b)
    ensures Distinct(a + b) && Elements(a + b) == Elements(a) + Elements(b)
  {
    var s := a + b;
    forall i, j | 0 <= i < j < |s|
      ensures s[i] != s[j]
    {
      if i < |a| <= j {
        assert s[i] == a[i] && s[j] == b[j - |a|];
        assert a[i] in Elements(a) && b[j - |a|] in Elements(b);
      } else if |a| <= i {
        assert s[i] == b[i - |a|] && s[j] == b[j - |a|];
      }
    }
  }

  lemma RequeueKeepsDistinct(g: Graph, done: seq<Id>, ready: seq<Id>)
    requires Queued(g, done, ready) && ready != []
    ensures Distinct(done + [ready[0]] + Requeue(g, done, ready))
    ensures Elements(done + [ready[0]] + Requeue(g, done, ready)) ==
            Elements(done + ready) + Freed(g, ready[0], Elements(done + [ready[0]]))
  {
    var freed := Freed(g, ready[0], Elements(done + [ready[0]]));
    FreedIsNew(g, done, ready);
    SortedIsDistinct(Listing(freed));
    assert Distinct(done + ready);
    hide *;
    ListingLists(freed);
    AppendDistinct(done + ready, Listing(freed));
    RequeueSplits(g, done, ready);
  }

  lemma ListingLists(ids: set<Id>)
    ensures Elements(Listing(ids)) == ids
  {
  }

  lemma RequeueSplits(g: Graph, done: seq<Id>, ready: seq<Id>)
    requires ready != []
    ensures done + [ready[0]] + Requeue(g, done, ready) ==
            done + ready + Listing(Freed(g, ready[0], Elements(done + [ready[0]])))
  {
    hide Freed, Listing;
  }

  lemma PlaceKeepsOrder(g: Graph, done: seq<Id>, ready: seq<Id>)
    requires Queued(g, done, ready) && ready != []
    ensures DependenciesFirst(g, done + [ready[0]])
  {
    var now := done + [ready[0]];
    assert (done + ready)[|done|] == ready[0];
    assert ready[0] in Elements(done + ready);
    forall i | 0 <= i < |now|
      ensures now[i] in g && g[now[i]] <= Elements(now[..i])
    {
      assert now[..i] == done[..i];
      assert done[..|done|] == done;
    }
  }

  lemma RequeueIsExact(g: Graph, done: seq<Id>, ready: seq<Id>, x: Id)
    requires Queued(g, done, ready) && ready != [] && x in g
    ensures x in done + [ready[0]] || x in Requeue(g, done, ready) <==> g[x] <= Elements(done + [ready[0]])
  {
    var now := done + [ready[0]];
    assert Elements(now) == Elements(done) + {ready[0]};
    assert x in Listing(Freed(g, ready[0], Elements(now))) <==> x in Freed(g, ready[0], Elements(now));
    assert x in now || x in ready[1..] <==> x in done || x in ready;
  }

  lemma Place(g: Graph, done: seq<Id>, ready: seq<Id>)
    requires Queued(g, done, ready) && ready != []
    ensures Queued(g, done + [ready[0]], Requeue(g, done, ready))
  {
    RequeueKeepsDistinct(g, done, ready);
    PlaceKeepsOrder(g, done, ready);
    forall x | x in g { RequeueIsExact(g, done, ready, x); }
    hide Requeue, Distinct, DependenciesFirst;
    assert Freed(g, ready[0], Elements(done + [ready[0]])) <= g.Keys;
  }

  lemma DistinctFits(s: seq<Id>, ids: set<Id>)
    requires Distinct(s) && Elements(s) <= ids
    ensures |s| <= |ids|
    decreases |s|
  {
    if s != [] {
      assert Last(s) in Elements(s);
      DistinctFits(Init(s), ids - {Last(s)});
    }
  }

  ghost function Kahn(g: Graph, done: seq<Id>, ready: seq<Id>): (order: seq<Id>)
    requires Queued(g, done, ready)
    ensures Queued(g, order, [])
    decreases |g.Keys| - |done|
  {
    if ready == [] then done
    else
      Place(g, done, ready);
      DistinctFits(done + ready, g.Keys);
      Kahn(g, done + [ready[0]], Requeue(g, done, ready))
  }

  function Sources(g: Graph): set<Id> {
    set x | x in g && g[x] == {}
  }

  lemma StartIsQueued(g: Graph)
    ensures Queued(g, [], Listing(Sources(g)))
  {
    var ready := Listing(Sources(g));
    SortedIsDistinct(ready);
    assert [] + ready == ready;
    assert forall x :: x in ready <==> x in Elements(ready);
  }

  /** The order of a graph: it mentions neither the input's order nor repeated edges. */
  ghost function OrderOf(g: Graph): (order: seq<Id>)
    ensures Queued(g, order, [])
  {
    StartIsQueued(g);
    Kahn(g, [], Listing(Sources(g)))
  }

  // ----- what the order means -----

  /** Each member depends on a member: nothing in the set can ever be planned first. */
  predicate Stuck(g: Graph, ids: set<Id>) {
    ids <= g.Keys && forall x :: x in ids ==> g[x] * ids != {}
  }

  /** Every dependency inside the batch stands before its dependent, and no id stands twice. */
  lemma OrderRespectsDependencies(g: Graph)
    ensures Distinct(OrderOf(g)) && Elements(OrderOf(g)) <= g.Keys
    ensures forall i, d :: 0 <= i < |OrderOf(g)| && d in g[OrderOf(g)[i]] ==>
            exists j :: 0 <= j < i && OrderOf(g)[j] == d
  {
    var order := OrderOf(g);
    assert order + [] == order;
    forall i, d | 0 <= i < |order| && d in g[order[i]]
      ensures exists j :: 0 <= j < i && order[j] == d
    {
      assert d in Elements(order[..i]);
    }
  }

  /** What is left over is stuck, and every stuck set is part of it. */
  lemma LeftoverIsGreatestStuckSet(g: Graph, ids: set<Id>)
    requires Closed(g)
    ensures Stuck(g, g.Keys - Elements(OrderOf(g)))
    ensures Stuck(g, ids) ==> ids <= g.Keys - Elements(OrderOf(g))
  {
    var order := OrderOf(g);
    var left := g.Keys - Elements(order);
    forall x | x in left
      ensures g[x] * left != {}
    {
      assert !(g[x] <= Elements(order));
      var d :| d in g[x] && d !in Elements(order);
      assert d in g[x] * left;
    }
    if Stuck(g, ids) {
      StuckIsNeverPlaced(g, order, ids);
    }
  }

  lemma {:induction false} StuckIsNeverPlaced(g: Graph, order: seq<Id>, ids: set<Id>)
    requires DependenciesFirst(g, order) && Stuck(g, ids)
    ensures ids !! Elements(order)
    decreases |order|
  {
    if order != [] {
      assert forall i :: 0 <= i < |order| - 1 ==> Init(order)[..i] == order[..i];
      StuckIsNeverPlaced(g, Init(order), ids);
      assert g[Last(order)] <= Elements(Init(order));
      assert Elements(order) == Elements(Init(order)) + {Last(order)};
    }
  }

  /** A ticket of that id with the same dependencies, however listed. */
  predicate Presents(tickets: seq<Sketch>, t: Sketch) {
    exists u :: u in tickets && u.id == t.id && Elements(u.dependsOn) == Elements(t.dependsOn)
  }

  predicate PresentsAll(a: seq<Sketch>, b: seq<Sketch>) {
    forall t :: t in b ==> Presents(a, t)
  }

  /** Reordering the input, or repeating an edge, changes nothing. */
  lemma OrderIgnoresPresentation(a: seq<Sketch>, b: seq<Sketch>)
    requires PresentsAll(a, b) && PresentsAll(b, a)
    ensures OrderOf(GraphOf(a)) == OrderOf(GraphOf(b))
  {
    hide OrderOf, PresentsAll, GraphOf;
    BatchIncluded(a, b);
    BatchIncluded(b, a);
    forall id | id in Batch(a)
      ensures GraphOf(a)[id] == GraphOf(b)[id]
    {
      EdgesIncluded(a, b, id);
      EdgesIncluded(b, a, id);
    }
    assert GraphOf(a) == GraphOf(b);
  }

  lemma BatchIncluded(a: seq<Sketch>, b: seq<Sketch>)
    requires PresentsAll(b, a)
    ensures Batch(a) <= Batch(b)
  {
    forall t | t in a
      ensures t.id in Batch(b)
    {
      assert Presents(b, t);
    }
  }

  lemma EdgesIncluded(a: seq<Sketch>, b: seq<Sketch>, id: Id)
    requires PresentsAll(b, a) && Batch(a) == Batch(b) && id in Batch(a)
    ensures GraphOf(a)[id] <= GraphOf(b)[id]
  {
    forall d | d in GraphOf(a)[id]
      ensures d in GraphOf(b)[id]
    {
      var t :| t in a && t.id == id && d in InBatch(t, Batch(a));
      assert Presents(b, t);
      var u :| u in b && u.id == t.id && Elements(u.dependsOn) == Elements(t.dependsOn);
      assert d in Elements(t.dependsOn);
      assert d in Elements(u.dependsOn);
      assert d in InBatch(u, Batch(b));
    }
  }

  // ----- the algorithm -----

  function IdsOf(tickets: seq<Sketch>): (ids: seq<Id>)
    ensures |ids| == |tickets|
    ensures forall i :: 0 <= i < |tickets| ==> ids[i] == tickets[i].id
  {
    seq(|tickets|, i requires 0 <= i < |tickets| => tickets[i].id)
  }

  /** How many dependencies of `x` are not in `seen`. */
  function Waiting(g: Graph, x: Id, seen: set<Id>): nat
    requires x in g
  {
    |g[x] - seen|
  }

  /** The tickets still waiting for something, as the counters see them. */
  predicate Counted(g: Graph, indegree: map<Id, int>, seen: set<Id>) {
    indegree.Keys == g.Keys && forall x :: x in g && x !in seen ==> indegree[x] == Waiting(g, x, seen)
  }

  /** The counters while one placement is being charged to its dependents, up to ticket `k`. */
  predicate Charging(g: Graph, tickets: seq<Sketch>, k: int, indegree: map<Id, int>, seen: set<Id>, id: Id)
    requires g.Keys == Batch(tickets) && 0 <= k <= |tickets|
  {
    && indegree.Keys == g.Keys
    && (forall i :: 0 <= i < k && tickets[i].id !in seen ==> indegree[tickets[i].id] == Waiting(g, tickets[i].id, seen))
    && (forall i :: k <= i < |tickets| && tickets[i].id !in seen ==>
         indegree[tickets[i].id] == Waiting(g, tickets[i].id, seen - {id}))
  }

  lemma Charge(g: Graph, x: Id, seen: set<Id>, id: Id)
    requires x in g && id in seen
    ensures Waiting(g, x, seen) == Waiting(g, x, seen - {id}) - (if id in g[x] then 1 else 0)
    ensures Waiting(g, x, seen) == 0 <==> g[x] <= seen
  {
    var deps := g[x];
    if id in deps {
      assert deps - (seen - {id}) == (deps - seen) + {id};
    } else {
      assert deps - (seen - {id}) == deps - seen;
    }
    assert |deps - seen| == 0 <==> deps - seen == {};
    assert deps <= seen <==> forall d :: d in deps ==> d !in deps - seen;
  }

  /** One ticket's turn in the decrement pass. */
  lemma ChargeOne(g: Graph, tickets: seq<Sketch>, k: int, indegree: map<Id, int>, after: map<Id, int>, seen: set<Id>,
      id: Id)
    requires DistinctIds(tickets) && g.Keys == Batch(tickets) && 0 <= k < |tickets| && id in seen
    requires Charging(g, tickets, k, indegree, seen, id)
    requires var x := tickets[k].id;
             after == if x !in seen && id in g[x] then indegree[x := indegree[x] - 1] else indegree
    ensures Charging(g, tickets, k + 1, after, seen, id)
    ensures tickets[k].id !in seen ==> after[tickets[k].id] == Waiting(g, tickets[k].id, seen)
  {
    hide Waiting, Batch, DistinctIds;
    var x := tickets[k].id;
    Listed(tickets);
    Charge(g, x, seen, id);
    OthersDiffer(tickets, k);
  }

  lemma Listed(tickets: seq<Sketch>)
    ensures forall i :: 0 <= i < |tickets| ==> tickets[i].id in Batch(tickets)
  {
  }

  lemma FreedIffZero(g: Graph, x: Id, seen: set<Id>, id: Id)
    requires x in g && id in seen
    ensures x in Freed(g, id, seen) <==> x !in seen && id in g[x] && Waiting(g, x, seen) == 0
  {
    Charge(g, x, seen, id);
  }

  lemma OthersDiffer(tickets: seq<Sketch>, k: int)
    requires DistinctIds(tickets) && 0 <= k < |tickets|
    ensures forall i :: 0 <= i < |tickets| && i != k ==> tickets[i].id != tickets[k].id
  {
  }

  /** The decrement pass after placing `id`: which tickets it frees, sorted. */
  method ChargeDependents(tickets: seq<Sketch>, indegree0: map<Id, int>, seen: set<Id>, id: Id)
    returns (indegree: map<Id, int>, freed: seq<Id>)
    requires DistinctIds(tickets) && id in seen
    requires Charging(GraphOf(tickets), tickets, 0, indegree0, seen, id)
    ensures Charging(GraphOf(tickets), tickets, |tickets|, indegree, seen, id)
    ensures Distinct(freed) && Elements(freed) == Freed(GraphOf(tickets), id, seen)
  {
    ghost var g := GraphOf(tickets);
    hide GraphOf, DistinctIds, Charging, Freed, Batch;
    indegree, freed := indegree0, [];
    EmptyBatch(tickets);
    for k := 0 to |tickets|
      invariant Charging(g, tickets, k, indegree, seen, id)
      invariant Distinct(freed)
      invariant forall x :: x in freed <==> x in Freed(g, id, seen) && x in Batch(tickets[..k])
    {
      var t := tickets[k];
      GraphAt(tickets, t);
      ghost var before := indegree;
      KeysOf(g, tickets, k, indegree, seen, id);
      if t.id !in seen && id in t.dependsOn && id in Batch(tickets) {
        var d := indegree[t.id] - 1;
        indegree := indegree[t.id := d];
        if d == 0 {
          freed := freed + [t.id];
        }
      }
      ChargeOne(g, tickets, k, before, indegree, seen, id);
      FreedIffZero(g, t.id, seen, id);
      BatchGrows(tickets, k);
    }
    assert tickets[..|tickets|] == tickets;
    assert Freed(g, id, seen) <= g.Keys by { FreedIsInside(g, id, seen); }
  }

  lemma FreedIsInside(g: Graph, id: Id, seen: set<Id>)
    ensures Freed(g, id, seen) <= g.Keys
  {
  }

  lemma KeysOf(g: Graph, tickets: seq<Sketch>, k: int, indegree: map<Id, int>, seen: set<Id>, id: Id)
    requires g.Keys == Batch(tickets) && 0 <= k <= |tickets| && Charging(g, tickets, k, indegree, seen, id)
    ensures indegree.Keys == g.Keys
  {
  }

  lemma EmptyBatch(tickets: seq<Sketch>)
    ensures tickets[..0] == [] && Batch(tickets[..0]) == {}
  {
  }

  lemma BatchGrows(tickets: seq<Sketch>, k: int)
    requires DistinctIds(tickets) && 0 <= k < |tickets|
    ensures Batch(tickets[..k + 1]) == Batch(tickets[..k]) + {tickets[k].id}
    ensures tickets[k].id in Batch(tickets) && tickets[k].id !in Batch(tickets[..k])
  {
    assert tickets[..k + 1] == tickets[..k] + [tickets[k]];
  }

  lemma WaitingAtFirst(g: Graph, x: Id)
    requires x in g
    ensures Waiting(g, x, {}) == |g[x]|
    ensures x in Sources(g) <==> |g[x]| == 0
  {
    assert g[x] - {} == g[x];
  }

  /** The in-degree of every ticket, and the ids that wait for nothing. */
  method InitialCounts(tickets: seq<Sketch>) returns (indegree: map<Id, int>, sources: seq<Id>)
    requires DistinctIds(tickets)
    ensures Counted(GraphOf(tickets), indegree, {})
    ensures Distinct(sources) && Elements(sources) == Sources(GraphOf(tickets))
  {
    ghost var g := GraphOf(tickets);
    hide GraphOf, DistinctIds, Batch, InBatch, Sources, Waiting;
    indegree, sources := map[], [];
    EmptyBatch(tickets);
    for k := 0 to |tickets|
      invariant indegree.Keys == Batch(tickets[..k]) <= g.Keys
      invariant forall x :: x in indegree ==> indegree[x] == Waiting(g, x, {})
      invariant Distinct(sources)
      invariant forall x :: x in sources <==> x in Sources(g) && x in Batch(tickets[..k])
    {
      var t := tickets[k];
      GraphAt(tickets, t);
      BatchGrows(tickets, k);
      WaitingAtFirst(g, t.id);
      indegree := indegree[t.id := |InBatch(t, Batch(tickets))|];
      if indegree[t.id] == 0 {
        sources := sources + [t.id];
      }
    }
    assert tickets[..|tickets|] == tickets;
    assert Sources(g) <= g.Keys by { SourcesInside(g); }
  }

  lemma SourcesInside(g: Graph)
    ensures Sources(g) <= g.Keys
  {
  }

  /** The tickets whose ids are not in `ids`, in input order. */
  function Without(tickets: seq<Sketch>, ids: set<Id>): seq<Sketch> {
    if tickets == [] then []
    else Without(Init(tickets), ids) + (if Last(tickets).id !in ids then [Last(tickets)] else [])
  }

  lemma KahnStart(g: Graph)
    ensures IdsOf([]) == [] && Elements(IdsOf([])) == {}
    ensures Queued(g, [], Listing(Sources(g))) && Kahn(g, [], Listing(Sources(g))) == OrderOf(g)
  {
    StartIsQueued(g);
  }

  lemma KahnStep(g: Graph, done: seq<Id>, ready: seq<Id>)
    requires Queued(g, done, ready)
    ensures ready == [] ==> Kahn(g, done, ready) == done
    ensures ready != [] ==>
              Queued(g, done + [ready[0]], Requeue(g, done, ready)) &&
              Kahn(g, done, ready) == Kahn(g, done + [ready[0]], Requeue(g, done, ready))
  {
    if ready != [] {
      Place(g, done, ready);
    }
  }

  lemma RequeueBySorting(g: Graph, done: seq<Id>, ready: seq<Id>, freed: seq<Id>)
    requires ready != [] && Distinct(freed) && Elements(freed) == Freed(g, ready[0], Elements(done + [ready[0]]))
    ensures ready[1..] + Sort(freed) == Requeue(g, done, ready)
  {
    SortIsListing(freed, Elements(freed));
  }

  function ById(tickets: seq<Sketch>): (byId: map<Id, Sketch>)
    requires DistinctIds(tickets)
    ensures byId.Keys == Batch(tickets)
    ensures forall id :: id in byId ==> byId[id] in tickets && byId[id].id == id
  {
    map t | t in tickets :: t.id := t
  }

  method Leftover(tickets: seq<Sketch>, seen: set<Id>) returns (unorderable: seq<Sketch>)
    ensures unorderable == Without(tickets, seen)
  {
    unorderable := [];
    for k := 0 to |tickets|
      invariant unorderable == Without(tickets[..k], seen)
    {
      assert Init(tickets[..k + 1]) == tickets[..k] && Last(tickets[..k + 1]) == tickets[k];
      if tickets[k].id !in seen {
        unorderable := unorderable + [tickets[k]];
      }
    }
    assert tickets[..|tickets|] == tickets;
  }

  lemma IdsOfAppend(tickets: seq<Sketch>, t: Sketch)
    ensures IdsOf(tickets + [t]) == IdsOf(tickets) + [t.id]
    ensures Elements(IdsOf(tickets + [t])) == Elements(IdsOf(tickets)) + {t.id}
  {
  }

  /** topoOrder: the order of the graph, then what is left, in input order. */
  method TopoOrder(tickets: seq<Sketch>) returns (order: seq<Sketch>, unorderable: seq<Sketch>)
    requires DistinctIds(tickets)
    ensures IdsOf(order) == OrderOf(GraphOf(tickets))
    ensures forall t :: t in order ==> t in tickets
    ensures unorderable == Without(tickets, Elements(IdsOf(order)))
  {
    hide *;
    ghost var g := GraphOf(tickets);
    var byId := ById(tickets);
    var indegree, sources := InitialCounts(tickets);
    var ready := Sort(sources);
    SortIsListing(sources, Sources(g));
    KahnStart(g);
    order := [];
    var seen: set<Id> := {};
    while ready != []
      invariant seen == Elements(IdsOf(order))
      invariant Queued(g, IdsOf(order), ready) && Kahn(g, IdsOf(order), ready) == OrderOf(g)
      invariant Counted(g, indegree, seen)
      invariant forall t :: t in order ==> t in tickets
      decreases |g.Keys| - |order|
    {
      var id := ready[0];
      ghost var done := IdsOf(order);
      KahnStep(g, done, ready);
      HeadIsNew(g, done, ready);
      ghost var before := seen;
      seen := seen + {id};
      IdsOfAppend(order, byId[id]);
      order := order + [byId[id]];
      var freed;
      assert seen - {id} == before;
      StartCharging(g, tickets, indegree, before, id);
      indegree, freed := ChargeDependents(tickets, indegree, seen, id);
      EndCharging(g, tickets, indegree, seen, id);
      RequeueBySorting(g, done, ready, freed);
      ready := ready[1..] + Sort(freed);
    }
    KahnStep(g, IdsOf(order), ready);
    unorderable := Leftover(tickets, seen);
  }

  /** The head of the queue was never placed before, and placing it makes progress. */
  lemma HeadIsNew(g: Graph, done: seq<Id>, ready: seq<Id>)
    requires Queued(g, done, ready) && ready != []
    ensures ready[0] in g && ready[0] !in Elements(done) && |done| < |g.Keys|
  {
    FreedIsNew(g, done, ready);
    DistinctFits(done + ready, g.Keys);
    assert ready[0] in Elements(done + ready);
  }

  lemma StartCharging(g: Graph, tickets: seq<Sketch>, indegree: map<Id, int>, seen: set<Id>, id: Id)
    requires g.Keys == Batch(tickets) && Counted(g, indegree, seen) && id !in seen
    ensures Charging(g, tickets, 0, indegree, seen + {id}, id)
  {
    Listed(tickets);
    assert seen + {id} - {id} == seen;
  }

  lemma EndCharging(g: Graph, tickets: seq<Sketch>, indegree: map<Id, int>, seen: set<Id>, id: Id)
    requires g.Keys == Batch(tickets) && Charging(g, tickets, |tickets|, indegree, seen, id)
    ensures Counted(g, indegree, seen)
  {
    hide Waiting;
    forall x | x in g && x !in seen
      ensures indegree[x] == Waiting(g, x, seen)
    {
      var t :| t in tickets && t.id == x;
      var i :| 0 <= i < |tickets| && tickets[i] == t;
    }
  }

  // ----- nothing lost, nothing twice -----

  lemma {:induction false} WithoutIsFilter(tickets: seq<Sketch>, ids: set<Id>, t: Sketch)
    ensures t in Without(tickets, ids) <==> t in tickets && t.id !in ids
  {
    if tickets != [] {
      WithoutIsFilter(Init(tickets), ids, t);
      assert tickets == Init(tickets) + [Last(tickets)];
    }
  }

  lemma {:induction false} WithoutKeepsDistinct(tickets: seq<Sketch>, ids: set<Id>)
    requires DistinctIds(tickets)
    ensures DistinctIds(Without(tickets, ids))
  {
    if tickets != [] {
      WithoutKeepsDistinct(Init(tickets), ids);
      forall t | t in Without(Init(tickets), ids)
        ensures t.id != Last(tickets).id
      {
        WithoutIsFilter(Init(tickets), ids, t);
      }
    }
  }

  lemma {:induction false} CountOfDistinct(s: seq<Sketch>, t: Sketch)
    requires Distinct(s)
    ensures multiset(s)[t] == if t in s then 1 else 0
  {
    if s != [] {
      CountOfDistinct(Init(s), t);
      assert s == Init(s) + [Last(s)];
    }
  }

  lemma PlacedOrLeft(tickets: seq<Sketch>, order: seq<Sketch>, t: Sketch)
    requires DistinctIds(tickets)
    requires forall u :: u in order ==> u in tickets
    ensures t in order <==> t in tickets && t.id in Elements(IdsOf(order))
  {
    var ids := IdsOf(order);
    if t in order {
      var i :| 0 <= i < |order| && order[i] == t;
      assert ids[i] == t.id;
    }
    if t in tickets && t.id in Elements(ids) {
      var i :| 0 <= i < |ids| && ids[i] == t.id;
      assert order[i] in tickets;
    }
  }

  /** Order and leftover together are the batch: nothing lost, nothing twice. */
  lemma OrderAndLeftoverPartition(tickets: seq<Sketch>, order: seq<Sketch>)
    requires DistinctIds(tickets)
    requires IdsOf(order) == OrderOf(GraphOf(tickets))
    requires forall t :: t in order ==> t in tickets
    ensures multiset(order + Without(tickets, Elements(IdsOf(order)))) == multiset(tickets)
  {
    OrderRespectsDependencies(GraphOf(tickets));
    var ids := IdsOf(order);
    assert Distinct(order) by {
      assert forall i, j :: 0 <= i < j < |order| ==> ids[i] != ids[j];
    }
    var left := Without(tickets, Elements(ids));
    hide OrderOf, GraphOf, Without, Elements, IdsOf;
    WithoutKeepsDistinct(tickets, Elements(ids));
    forall t
      ensures multiset(order + left)[t] == multiset(tickets)[t]
    {
      WithoutIsFilter(tickets, Elements(ids), t);
      PlacedOrLeft(tickets, order, t);
      CountOfDistinct(tickets, t);
      CountOfDistinct(left, t);
      CountOfDistinct(order, t);
    }
  }
}
