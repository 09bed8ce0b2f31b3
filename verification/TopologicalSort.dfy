/** Kahn's algorithm with definition-order priority, in the form the program runs it
    (topological_steps and validate_mission_graph in solana_agent/missions/graph.py). */
module TopologicalSort {
  import opened Prelude
  import opened MissionGraph

  // ---------- multiplicities ----------

  function Count(s: seq<string>, x: string): nat {
    if s == [] then 0 else (if s[0] == x then 1 else 0) + Count(s[1..], x)
  }

  lemma {:induction false} CountAppend(s: seq<string>, t: seq<string>, x: string)
    ensures Count(s + t, x) == Count(s, x) + Count(t, x)
  {
    if s == [] {
      assert s + t == t;
    } else {
      CountAppend(s[1..], t, x);
      assert (s + t)[1..] == s[1..] + t;
    }
  }

  lemma {:induction false} CountMember(s: seq<string>, x: string)
    ensures x in s <==> Count(s, x) > 0
  {
    if s != [] {
      CountMember(s[1..], x);
      assert s == [s[0]] + s[1..];
    }
  }

  /** How many dependency entries, repetitions included, are not emitted yet. */
  function Missing(deps: seq<string>, emitted: set<string>): nat {
    if deps == [] then 0 else (if deps[0] in emitted then 0 else 1) + Missing(deps[1..], emitted)
  }

  lemma {:induction false} NothingMissing(deps: seq<string>, emitted: set<string>)
    ensures Missing(deps, emitted) == 0 <==> forall d <- deps :: d in emitted
  {
    if deps != [] {
      NothingMissing(deps[1..], emitted);
      assert deps == [deps[0]] + deps[1..];
    }
  }

  lemma {:induction false} MissingAfterEmit(deps: seq<string>, emitted: set<string>, id: string)
    requires id !in emitted
    ensures Missing(deps, emitted + {id}) == Missing(deps, emitted) - Count(deps, id)
  {
    if deps != [] {
      MissingAfterEmit(deps[1..], emitted, id);
    }
  }

  lemma {:induction false} NothingEmitted(deps: seq<string>)
    ensures Missing(deps, {}) == |deps|
  {
    if deps != [] {
      NothingEmitted(deps[1..]);
    }
  }

  // ---------- sorting by definition index ----------

  predicate Sorted(key: map<string, nat>, s: seq<string>) {
    (forall x <- s :: x in key) && forall i, j :: 0 <= i < j < |s| ==> key[s[i]] <= key[s[j]]
  }

  function Insert(key: map<string, nat>, x: string, s: seq<string>): (r: seq<string>)
    requires x in key && Sorted(key, s)
    ensures Sorted(key, r)
    ensures |r| == |s| + 1
    ensures forall y :: Count(r, y) == Count(s, y) + (if x == y then 1 else 0)
    ensures s != [] ==> r[0] == x || r[0] == s[0]
  {
    if s == [] || key[x] <= key[s[0]] then [x] + s
    else
      var t := Insert(key, x, s[1..]);
      assert forall y <- t :: y == x || y in s by {
        forall y | y in t ensures y == x || y in s {
          CountMember(t, y);
          CountMember(s[1..], y);
        }
      }
      [s[0]] + t
  }

  /** Python's stable sort by a key. */
  function SortBy(key: map<string, nat>, s: seq<string>): (r: seq<string>)
    requires forall x <- s :: x in key
    ensures Sorted(key, r)
    ensures forall y :: Count(r, y) == Count(s, y)
  {
    if s == [] then [] else Insert(key, s[0], SortBy(key, s[1..]))
  }

  // ---------- the tables built before the loop ----------

  predicate IsIndexMap(steps: Steps, key: map<string, nat>) {
    key.Keys == IdSet(steps) && forall id <- key :: key[id] == IndexOf(steps, id)
  }

  ghost predicate IsDependentsMap(steps: Steps, dependents: map<string, seq<string>>) {
    && dependents.Keys == IdSet(steps)
    && (forall d <- dependents :: forall x <- dependents[d] :: x in IdSet(steps))
    && forall d, x :: d in dependents && x in IdSet(steps) ==>
         Count(dependents[d], x) == Count(Dependencies(steps, x), d)
  }

  lemma IdSetPrefix(steps: Steps, n: nat)
    requires n < |steps|
    ensures IdSet(steps[..n + 1]) == IdSet(steps[..n]) + {steps[n].id}
  {
    forall x | x in IdSet(steps[..n + 1]) ensures x in IdSet(steps[..n]) + {steps[n].id} {
      var i :| 0 <= i < n + 1 && steps[..n + 1][i].id == x;
      assert i < n ==> steps[..n][i].id == x;
    }
    forall x | x in IdSet(steps[..n]) ensures x in IdSet(steps[..n + 1]) {
      var i :| 0 <= i < n && steps[..n][i].id == x;
      assert steps[..n + 1][i].id == x;
    }
    assert steps[..n + 1][n].id == steps[n].id;
  }

  method BuildIndexes(steps: Steps)
    returns (byId: map<string, StepDef>, indegree: map<string, int>, orderIndex: map<string, nat>)
    requires UniqueIds(steps)
    ensures IsIndexMap(steps, orderIndex)
    ensures byId.Keys == IdSet(steps) && forall id <- byId :: byId[id] == steps[IndexOf(steps, id)]
    ensures indegree.Keys == IdSet(steps) && forall id <- indegree :: indegree[id] == |Dependencies(steps, id)|
  {
    byId, indegree, orderIndex := map[], map[], map[];
    assert IdSet(steps[..0]) == {};
    for n := 0 to |steps|
      invariant byId.Keys == indegree.Keys == orderIndex.Keys == IdSet(steps[..n])
      invariant IdSet(steps[..n]) <= IdSet(steps)
      invariant forall id <- orderIndex :: orderIndex[id] == IndexOf(steps, id)
      invariant forall id <- byId :: byId[id] == steps[IndexOf(steps, id)]
      invariant forall id <- indegree :: indegree[id] == |Dependencies(steps, id)|
    {
      IdSetPrefix(steps, n);
      IndexIsInverse(steps, n);
      byId := byId[steps[n].id := steps[n]];
      indegree := indegree[steps[n].id := |steps[n].dependsOn|];
      orderIndex := orderIndex[steps[n].id := n];
    }
    assert steps[..|steps|] == steps;
  }

  /** The dependents of the first n steps are entered. */
  ghost predicate EnteredFirst(steps: Steps, n: nat, dependents: map<string, seq<string>>) {
    && dependents.Keys == IdSet(steps)
    && (forall d <- dependents :: forall x <- dependents[d] :: x in IdSet(steps))
    && forall d, i :: d in dependents && 0 <= i < |steps| ==>
         Count(dependents[d], steps[i].id) == if i < n then Count(steps[i].dependsOn, d) else 0
  }

  method BuildDependents(steps: Steps) returns (dependents: map<string, seq<string>>)
    requires UniqueIds(steps)
    ensures IsDependentsMap(steps, dependents)
  {
    dependents := map id | id in IdSet(steps) :: [];
    for n := 0 to |steps|
      invariant EnteredFirst(steps, n, dependents)
    {
      ghost var before := dependents;
      dependents := AddDependents(steps, dependents, n);
      EnterOneMore(steps, n, before, dependents);
    }
    AllEntered(steps, dependents);
  }

  lemma EnterOneMore(steps: Steps, n: nat, before: map<string, seq<string>>, after: map<string, seq<string>>)
    requires UniqueIds(steps) && n < |steps| && EnteredFirst(steps, n, before)
    requires after.Keys == IdSet(steps) && forall d <- after :: forall x <- after[d] :: x in IdSet(steps)
    requires forall d, x :: d in after ==>
               Count(after[d], x) == Count(before[d], x) + Edges(steps[n], steps[n].dependsOn, d, x)
    ensures EnteredFirst(steps, n + 1, after)
  {
    forall d, i | d in after && 0 <= i < |steps|
      ensures Count(after[d], steps[i].id) == if i < n + 1 then Count(steps[i].dependsOn, d) else 0
    {
      assert steps[i].id == steps[n].id <==> i == n;
    }
  }

  lemma AllEntered(steps: Steps, dependents: map<string, seq<string>>)
    requires EnteredFirst(steps, |steps|, dependents)
    ensures IsDependentsMap(steps, dependents)
  {
    forall d, x | d in dependents && x in IdSet(steps)
      ensures Count(dependents[d], x) == Count(Dependencies(steps, x), d)
    {
      assert steps[IndexOf(steps, x)].id == x;
    }
  }

  /** How often step x is a dependent of d on account of the entries deps of one step. */
  function Edges(step: StepDef, deps: seq<string>, d: string, x: string): nat {
    if x == step.id then Count(deps, d) else 0
  }

  /** The inner loop of the construction: one step's dependency entries. */
  method AddDependents(steps: Steps, before: map<string, seq<string>>, n: nat)
    returns (dependents: map<string, seq<string>>)
    requires UniqueIds(steps) && n < |steps| && before.Keys == IdSet(steps)
    requires forall d <- before :: forall x <- before[d] :: x in IdSet(steps)
    ensures dependents.Keys == IdSet(steps)
    ensures forall d <- dependents :: forall x <- dependents[d] :: x in IdSet(steps)
    ensures forall d, x :: d in dependents ==>
              Count(dependents[d], x) == Count(before[d], x) + Edges(steps[n], steps[n].dependsOn, d, x)
  {
    dependents := before;
    var id, deps := steps[n].id, steps[n].dependsOn;
    for k := 0 to |deps|
      invariant dependents.Keys == IdSet(steps)
      invariant forall d <- dependents :: forall x <- dependents[d] :: x in IdSet(steps)
      invariant forall d, x :: d in dependents ==>
                  Count(dependents[d], x) == Count(before[d], x) + Edges(steps[n], deps[..k], d, x)
    {
      assert deps[..k + 1] == deps[..k] + [deps[k]];
      forall d
        ensures Count(deps[..k + 1], d) == Count(deps[..k], d) + if d == deps[k] then 1 else 0
      {
        CountAppend(deps[..k], [deps[k]], d);
      }
      if deps[k] in dependents {
        var extended := dependents[deps[k]] + [id];
        forall x
          ensures Count(extended, x) == Count(dependents[deps[k]], x) + if x == id then 1 else 0
        {
          CountAppend(dependents[deps[k]], [id], x);
        }
        dependents := dependents[deps[k] := extended];
      }
    }
    assert deps[..|deps|] == deps;
  }

  // ---------- the main loop ----------

  /** The indegree table counts the dependency entries that are not emitted. */
  ghost predicate CountsMissing(steps: Steps, emitted: set<string>, indegree: map<string, int>) {
    indegree.Keys == IdSet(steps) &&
    forall id :: id in indegree ==> indegree[id] == Missing(Dependencies(steps, id), emitted)
  }

  /** The ready queue holds each available step once, earliest-defined first. */
  ghost predicate IsReadyQueue(steps: Steps, key: map<string, nat>, emitted: set<string>, ready: seq<string>) {
    && Sorted(key, ready)
    && forall x :: Count(ready, x) == if Available(steps, emitted, x) then 1 else 0
  }

  /** Emitted steps have all their dependencies emitted. */
  ghost predicate Closed(steps: Steps, emitted: set<string>) {
    emitted <= IdSet(steps) && forall x <- emitted :: forall d <- Dependencies(steps, x) :: d in emitted
  }

  /** The head of the ready queue is the earliest-defined available step. */
  lemma HeadIsFirst(steps: Steps, key: map<string, nat>, emitted: set<string>, ready: seq<string>)
    requires UniqueIds(steps) && IsIndexMap(steps, key) && IsReadyQueue(steps, key, emitted, ready)
    ensures var i := FirstAvailable(steps, emitted, 0);
            if ready == [] then i == |steps| else i < |steps| && ready[0] == steps[i].id
  {
    var i := FirstAvailable(steps, emitted, 0);
    if i < |steps| {
      CountMember(ready, steps[i].id);
      assert ready != [];
    }
    if ready != [] {
      CountMember(ready, ready[0]);
      var j := IndexOf(steps, ready[0]);
      assert steps[j].id == ready[0] && i <= j;
      IndexIsInverse(steps, i);
      CountMember(ready, steps[i].id);
      var k :| 0 <= k < |ready| && ready[k] == steps[i].id;
      assert key[ready[0]] <= key[ready[k]];
    }
  }

  /** Once the dependents of an emitted step are processed, both tables fit the larger emitted set. */
  lemma EmitKeepsTables(steps: Steps, key: map<string, nat>, emitted: set<string>, id: string, x: string,
                        degree: int, occurrences: nat, before: nat, after: nat)
    requires id in IdSet(steps) && x in IdSet(steps) && Closed(steps, emitted)
    requires Available(steps, emitted, id)
    requires occurrences == Count(Dependencies(steps, x), id)
    requires degree == Missing(Dependencies(steps, x), emitted) - occurrences
    requires before == (if Available(steps, emitted, x) then 1 else 0) - (if x == id then 1 else 0)
    requires after == before + if occurrences > 0 && degree == 0 then 1 else 0
    ensures degree == Missing(Dependencies(steps, x), emitted + {id})
    ensures after == if Available(steps, emitted + {id}, x) then 1 else 0
  {
    var deps := Dependencies(steps, x);
    MissingAfterEmit(deps, emitted, id);
    NothingMissing(deps, emitted);
    NothingMissing(deps, emitted + {id});
    CountMember(deps, id);
  }

  /** The inner loop: decrements each dependent and queues those that reach zero. */
  method ReleaseDependents(key: map<string, nat>, ds: seq<string>, indegree0: map<string, int>, ready0: seq<string>)
    returns (indegree: map<string, int>, ready: seq<string>)
    requires Sorted(key, ready0) && key.Keys == indegree0.Keys
    requires forall x <- ds :: x in indegree0
    requires forall x <- indegree0 :: indegree0[x] >= Count(ds, x)
    ensures indegree.Keys == indegree0.Keys && Sorted(key, ready)
    ensures forall x <- indegree :: indegree[x] == indegree0[x] - Count(ds, x)
    ensures forall x :: Count(ready, x) == Count(ready0, x) + Released(indegree, ds, x)
  {
    indegree, ready := indegree0, ready0;
    for k := 0 to |ds|
      invariant indegree.Keys == indegree0.Keys && Sorted(key, ready)
      invariant forall x <- indegree :: indegree[x] == indegree0[x] - Count(ds[..k], x)
      invariant forall x :: Count(ready, x) == Count(ready0, x) + Released(indegree, ds[..k], x)
    {
      var y := ds[k];
      CountPrefixes(ds, k);
      indegree := indegree[y := indegree[y] - 1];
      if indegree[y] == 0 {
        ready := Enqueue(key, ready, y);
      }
    }
    assert ds[..|ds|] == ds;
  }

  /** One if step x was decremented to zero by the entries ds. */
  function Released(indegree: map<string, int>, ds: seq<string>, x: string): nat {
    if Count(ds, x) > 0 && x in indegree && indegree[x] == 0 then 1 else 0
  }

  lemma CountPrefixes(ds: seq<string>, k: nat)
    requires k < |ds|
    ensures forall x :: Count(ds[..k + 1], x) == Count(ds[..k], x) + if x == ds[k] then 1 else 0
    ensures forall x :: Count(ds[..k + 1], x) <= Count(ds, x)
  {
    forall x
      ensures Count(ds[..k + 1], x) == Count(ds[..k], x) + if x == ds[k] then 1 else 0
      ensures Count(ds[..k + 1], x) <= Count(ds, x)
    {
      assert ds[..k + 1] == ds[..k] + [ds[k]] && ds == ds[..k + 1] + ds[k + 1..];
      CountAppend(ds[..k], [ds[k]], x);
      CountAppend(ds[..k + 1], ds[k + 1..], x);
    }
  }

  /** Append, then sort. */
  function Enqueue(key: map<string, nat>, ready: seq<string>, y: string): (r: seq<string>)
    requires Sorted(key, ready) && y in key
    ensures Sorted(key, r)
    ensures forall x :: Count(r, x) == Count(ready, x) + if x == y then 1 else 0
  {
    assert forall x :: Count(ready + [y], x) == Count(ready, x) + if x == y then 1 else 0 by {
      forall x ensures Count(ready + [y], x) == Count(ready, x) + if x == y then 1 else 0 {
        CountAppend(ready, [y], x);
      }
    }
    SortBy(key, ready + [y])
  }

  /** The initial queue: the steps without dependency entries, in definition order. */
  method InitialReady(ids: seq<string>, key: map<string, nat>, indegree: map<string, int>) returns (ready: seq<string>)
    requires forall n :: 0 <= n < |ids| ==> ids[n] in key && key[ids[n]] == n
    requires forall x <- key :: key[x] < |ids| && ids[key[x]] == x
    requires key.Keys == indegree.Keys
    ensures Sorted(key, ready)
    ensures forall x :: Count(ready, x) == if x in indegree && indegree[x] == 0 then 1 else 0
  {
    var free: seq<string> := [];
    for n := 0 to |ids|
      invariant forall x <- free :: x in key
      invariant forall x :: Count(free, x) == if x in key && key[x] < n && indegree[x] == 0 then 1 else 0
    {
      if indegree[ids[n]] == 0 {
        forall x ensures Count(free + [ids[n]], x) == Count(free, x) + if x == ids[n] then 1 else 0 {
          CountAppend(free, [ids[n]], x);
        }
        free := free + [ids[n]];
      }
    }
    ready := SortBy(key, free);
  }

  lemma InitialQueue(steps: Steps, key: map<string, nat>, indegree: map<string, int>, ready: seq<string>)
    requires CountsMissing(steps, {}, indegree) && Sorted(key, ready)
    requires forall x :: Count(ready, x) == if x in indegree && indegree[x] == 0 then 1 else 0
    ensures IsReadyQueue(steps, key, {}, ready)
  {
    forall x | x in IdSet(steps) ensures indegree[x] == 0 <==> Available(steps, {}, x) {
      NothingMissing(Dependencies(steps, x), {});
    }
  }

  /** One iteration of the outer loop keeps the tables, now for the larger emitted set. */
  lemma IterationKeepsTables(steps: Steps, key: map<string, nat>, emitted: set<string>, ds: seq<string>,
                             indegree0: map<string, int>, ready0: seq<string>,
                             indegree: map<string, int>, ready: seq<string>)
    requires IsIndexMap(steps, key) && Closed(steps, emitted)
    requires CountsMissing(steps, emitted, indegree0) && IsReadyQueue(steps, key, emitted, ready0)
    requires ready0 != [] && Available(steps, emitted, ready0[0])
    requires forall x <- IdSet(steps) :: Count(ds, x) == Count(Dependencies(steps, x), ready0[0])
    requires indegree.Keys == indegree0.Keys && Sorted(key, ready)
    requires forall x <- indegree :: indegree[x] == indegree0[x] - Count(ds, x)
    requires forall x :: Count(ready, x) == Count(ready0[1..], x) + Released(indegree, ds, x)
    ensures CountsMissing(steps, emitted + {ready0[0]}, indegree)
    ensures IsReadyQueue(steps, key, emitted + {ready0[0]}, ready)
  {
    var id := ready0[0];
    forall x | x in IdSet(steps)
      ensures indegree[x] == Missing(Dependencies(steps, x), emitted + {id})
      ensures Count(ready, x) == if Available(steps, emitted + {id}, x) then 1 else 0
    {
      EmitKeepsTables(steps, key, emitted, id, x, indegree[x], Count(ds, x), Count(ready0[1..], x), Count(ready, x));
    }
    forall x | x !in IdSet(steps) ensures Count(ready, x) == 0 {
      assert Count(ready0, x) == 0;
    }
  }

  /** No step has more entries for a fresh dependency than it has entries missing. */
  lemma EnoughMissing(steps: Steps, emitted: set<string>, id: string, indegree: map<string, int>)
    requires CountsMissing(steps, emitted, indegree) && id !in emitted
    ensures forall x <- indegree :: indegree[x] >= Count(Dependencies(steps, x), id)
  {
    forall x | x in indegree { MissingAfterEmit(Dependencies(steps, x), emitted, id); }
  }

  /** The state of the outer loop: what is emitted extends to the greedy order, and both
      tables fit it. */
  ghost predicate Draining(steps: Steps, key: map<string, nat>, order: seq<string>,
                           indegree: map<string, int>, ready: seq<string>)
  {
    && order + GreedyOrder(steps, Elements(order)) == GreedyOrder(steps, {})
    && Closed(steps, Elements(order))
    && CountsMissing(steps, Elements(order), indegree)
    && IsReadyQueue(steps, key, Elements(order), ready)
  }

  lemma PopHead(steps: Steps, key: map<string, nat>, order: seq<string>, indegree: map<string, int>, ready: seq<string>)
    requires UniqueIds(steps) && IsIndexMap(steps, key) && ready != []
    requires Draining(steps, key, order, indegree, ready)
    ensures Available(steps, Elements(order), ready[0]) && Sorted(key, ready[1..])
    ensures forall x <- indegree :: indegree[x] >= Count(Dependencies(steps, x), ready[0])
  {
    HeadIsFirst(steps, key, Elements(order), ready);
    EnoughMissing(steps, Elements(order), ready[0], indegree);
  }

  lemma GreedyTakesHead(steps: Steps, key: map<string, nat>, order: seq<string>, ready: seq<string>)
    requires UniqueIds(steps) && IsIndexMap(steps, key) && ready != []
    requires IsReadyQueue(steps, key, Elements(order), ready)
    requires order + GreedyOrder(steps, Elements(order)) == GreedyOrder(steps, {})
    ensures var next := order + [ready[0]];
            next + GreedyOrder(steps, Elements(next)) == GreedyOrder(steps, {})
  {
    HeadIsFirst(steps, key, Elements(order), ready);
    var i := GreedyUnfolds(steps, Elements(order));
    ElementsSnoc(order, ready[0]);
    AppendAssociates(order, ready[0], GreedyOrder(steps, Elements(order) + {ready[0]}));
  }

  lemma ElementsSnoc(order: seq<string>, x: string)
    ensures Elements(order + [x]) == Elements(order) + {x}
  {
  }

  lemma AppendAssociates(order: seq<string>, x: string, t: seq<string>)
    ensures order + ([x] + t) == order + [x] + t
  {
  }

  lemma EmitKeepsClosed(steps: Steps, order: seq<string>, id: string)
    requires Closed(steps, Elements(order)) && Available(steps, Elements(order), id)
    ensures Elements(order + [id]) == Elements(order) + {id}
    ensures Closed(steps, Elements(order + [id]))
  {
    ElementsSnoc(order, id);
  }

  lemma IdsAppend(result: seq<StepDef>, step: StepDef)
    ensures Ids(result + [step]) == Ids(result) + [step.id]
  {
  }

  lemma EmptyQueueEnds(steps: Steps, key: map<string, nat>, order: seq<string>, indegree: map<string, int>)
    requires UniqueIds(steps) && IsIndexMap(steps, key)
    requires Draining(steps, key, order, indegree, [])
    ensures order == GreedyOrder(steps, {})
  {
    HeadIsFirst(steps, key, Elements(order), []);
  }

  /** Drains the ready queue; on return the emitted steps are the greedy order. */
  method Drain(steps: Steps, byId: map<string, StepDef>, key: map<string, nat>,
               dependents: map<string, seq<string>>, indegree0: map<string, int>, ready0: seq<string>)
    returns (result: seq<StepDef>, indegree: map<string, int>)
    requires UniqueIds(steps) && IsIndexMap(steps, key) && IsDependentsMap(steps, dependents)
    requires byId.Keys == IdSet(steps) && forall id <- byId :: byId[id] == steps[IndexOf(steps, id)]
    requires Draining(steps, key, [], indegree0, ready0)
    ensures Ids(result) == GreedyOrder(steps, {})
    ensures forall s <- result :: s in steps
    ensures CountsMissing(steps, Elements(GreedyOrder(steps, {})), indegree)
  {
    indegree := indegree0;
    var ready := ready0;
    result := [];
    ghost var order: seq<string> := [];
    while ready != []
      invariant Ids(result) == order && forall s <- result :: s in steps
      invariant Draining(steps, key, order, indegree, ready)
      decreases IdSet(steps) - Elements(order)
    {
      var id := ready[0];
      PopHead(steps, key, order, indegree, ready);
      GreedyTakesHead(steps, key, order, ready);
      EmitKeepsClosed(steps, order, id);
      IdsAppend(result, byId[id]);
      result := result + [byId[id]];
      var ds := SortDependents(key, dependents[id]);
      ghost var indegreeBefore, readyBefore := indegree, ready;
      indegree, ready := ReleaseDependents(key, ds, indegree, ready[1..]);
      IterationKeepsTables(steps, key, Elements(order), ds, indegreeBefore, readyBefore, indegree, ready);
      order := order + [id];
    }
    EmptyQueueEnds(steps, key, order, indegree);
  }

  function SortDependents(key: map<string, nat>, ds: seq<string>): (r: seq<string>)
    requires forall x <- ds :: x in key
    ensures forall x <- r :: x in key
    ensures forall x :: Count(r, x) == Count(ds, x)
  {
    SortBy(key, ds)
  }

  /** Kahn's algorithm. With unique ids it returns the greedy order when that covers every
      step, and otherwise reports the steps that still miss a dependency. */
  method TopologicalSteps(steps: Steps) returns (r: Result<seq<StepDef>, set<string>>)
    requires UniqueIds(steps)
    ensures r.Ok? ==> Ids(r.value) == GreedyOrder(steps, {}) && IsTopologicalOrder(steps, Ids(r.value))
    ensures r.Ok? ==> forall s <- r.value :: s in steps
    ensures r.Ok? ==> forall q :: IsTopologicalOrder(steps, q) ==> LexicographicallyAtMost(steps, Ids(r.value), q)
    ensures KnownDependencies(steps) ==> (r.Ok? <==> Acyclic(steps))
    ensures KnownDependencies(steps) && r.Err? ==>
              forall id :: id in r.error <==> id in IdSet(steps) && Stuck(steps, id)
  {
    var byId, indegree, key := BuildIndexes(steps);
    var dependents := BuildDependents(steps);
    IdsAreIndexed(steps, key);
    var ready := InitialReady(Ids(steps), key, indegree);
    StartDraining(steps, key, indegree, ready);
    var result;
    result, indegree := Drain(steps, byId, key, dependents, indegree, ready);
    AllEmittedIffAsLong(steps, result);
    if |result| != |steps| {
      var cyclic := set id | id in indegree && indegree[id] > 0;
      UnemittedIds(steps, indegree, cyclic);
      r := Err(cyclic);
    } else {
      LeastOfAll(steps);
      r := Ok(result);
    }
  }

  lemma IdsAreIndexed(steps: Steps, key: map<string, nat>)
    requires UniqueIds(steps) && IsIndexMap(steps, key)
    ensures forall n :: 0 <= n < |steps| ==> Ids(steps)[n] in key && key[Ids(steps)[n]] == n
    ensures forall x <- key :: key[x] < |steps| && Ids(steps)[key[x]] == x
  {
    forall n | 0 <= n < |steps| { IndexIsInverse(steps, n); }
  }

  lemma StartDraining(steps: Steps, key: map<string, nat>, indegree: map<string, int>, ready: seq<string>)
    requires UniqueIds(steps) && Sorted(key, ready) && indegree.Keys == IdSet(steps)
    requires forall id <- indegree :: indegree[id] == |Dependencies(steps, id)|
    requires forall x :: Count(ready, x) == if x in indegree && indegree[x] == 0 then 1 else 0
    ensures Draining(steps, key, [], indegree, ready)
  {
    forall id | id in indegree ensures indegree[id] == Missing(Dependencies(steps, id), {}) {
      NothingEmitted(Dependencies(steps, id));
    }
    InitialQueue(steps, key, indegree, ready);
    assert Elements([]) == {} && [] + GreedyOrder(steps, {}) == GreedyOrder(steps, {});
  }

  lemma LeastOfAll(steps: Steps)
    requires UniqueIds(steps)
    ensures forall q :: IsTopologicalOrder(steps, q) ==> LexicographicallyAtMost(steps, GreedyOrder(steps, {}), q)
  {
    forall q | IsTopologicalOrder(steps, q) { GreedyIsLeast(steps, q); }
  }

  lemma {:induction false} IdCount(steps: Steps)
    requires UniqueIds(steps)
    ensures |IdSet(steps)| == |steps|
  {
    if steps == [] {
      assert IdSet(steps) == {};
    } else {
      var n := |steps| - 1;
      IdSetPrefix(steps, n);
      assert steps[..n + 1] == steps;
      IdCount(steps[..n]);
    }
  }

  /** The result covers every step, and is a topological order, exactly when it is as long as
      the list of steps; with known dependencies this is when there is no cycle. */
  lemma AllEmittedIffAsLong(steps: Steps, result: seq<StepDef>)
    requires UniqueIds(steps) && Ids(result) == GreedyOrder(steps, {})
    ensures |result| == |steps| <==> IsTopologicalOrder(steps, Ids(result))
    ensures KnownDependencies(steps) ==> (|result| == |steps| <==> Acyclic(steps))
  {
    var order := Ids(result);
    GreedyIsDependenciesFirst(steps);
    IdCount(steps);
    DistinctCount(order);
    if Elements(order) != IdSet(steps) {
      SmallerSet(Elements(order), IdSet(steps));
    }
    if KnownDependencies(steps) {
      GreedyCompleteIffAcyclic(steps);
    }
  }

  /** At the end, a step has a positive count exactly when it was not emitted. */
  lemma UnemittedIds(steps: Steps, indegree: map<string, int>, cyclic: set<string>)
    requires CountsMissing(steps, Elements(GreedyOrder(steps, {})), indegree)
    requires cyclic == set id | id in indegree && indegree[id] > 0
    ensures forall id :: id in cyclic <==> id in IdSet(steps) && id !in GreedyOrder(steps, {})
    ensures KnownDependencies(steps) ==> forall id :: id in cyclic <==> id in IdSet(steps) && Stuck(steps, id)
  {
    var r := GreedyOrder(steps, {});
    forall id | id in IdSet(steps) ensures id in cyclic <==> id !in r {
      NothingMissing(Dependencies(steps, id), Elements(r));
      GreedyExhausts(steps, {}, id);
      assert {} + Elements(r) == Elements(r);
      GreedyIsDependenciesFirst(steps);
    }
    if KnownDependencies(steps) {
      forall id | id in IdSet(steps) { GreedyLeavesStuck(steps, id); }
      forall id | Stuck(steps, id) ensures id in IdSet(steps) { StuckIsStep(steps, id); }
    }
  }

  lemma StuckIsStep(steps: Steps, id: string)
    requires Stuck(steps, id)
    ensures id in IdSet(steps)
  {
    if OnCycle(steps, id) {
      SourceIsStep(steps, id, id);
    } else {
      var c :| OnCycle(steps, c) && DependsTransitively(steps, id, c);
      SourceIsStep(steps, id, c);
    }
  }

  lemma SourceIsStep(steps: Steps, id: string, c: string)
    requires DependsTransitively(steps, id, c)
    ensures id in IdSet(steps)
  {
    var p :| IsChain(steps, p) && p[0] == id && p[|p| - 1] == c;
    assert DependsOn(steps, p[0], p[1]);
  }

  // ---------- validation ----------

  datatype GraphError =
    | NoSteps
    | DuplicateIds
    | UnknownDependencies(step: string, missing: set<string>)
    | SelfDependency(step: string)
    | DependencyCycle(steps: set<string>)

  lemma OnlyLastRepeats(steps: Steps, i: nat, j: nat)
    requires i < j < |steps| && steps[i].id == steps[j].id && UniqueIds(steps[..|steps| - 1])
    ensures j == |steps| - 1 && steps[j].id in IdSet(steps[..|steps| - 1])
  {
    var prefix := steps[..|steps| - 1];
    assert prefix[i].id == steps[i].id;
    assert forall k :: 0 <= k < |prefix| ==> prefix[k].id == steps[k].id;
  }

  lemma {:induction false} DuplicateShrinksIdSet(steps: Steps)
    requires !UniqueIds(steps)
    ensures |IdSet(steps)| < |steps|
  {
    var n := |steps| - 1;
    var prefix := steps[..n];
    IdSetPrefix(steps, n);
    assert steps[..n + 1] == steps;
    if UniqueIds(prefix) {
      IdCount(prefix);
      var i, j :| 0 <= i < j < |steps| && steps[i].id == steps[j].id;
      OnlyLastRepeats(steps, i, j);
      assert IdSet(steps) == IdSet(prefix);
    } else {
      DuplicateShrinksIdSet(prefix);
    }
  }

  /** A graph is accepted if and only if it has steps, unique ids, only known dependencies and
      no cycle; otherwise the reported error describes a real defect. */
  method ValidateMissionGraph(steps: Steps) returns (r: Option<GraphError>)
    ensures r.None? <==> steps != [] && UniqueIds(steps) && KnownDependencies(steps) && Acyclic(steps)
    ensures r == Some(NoSteps) <==> steps == []
    ensures r == Some(DuplicateIds) <==> steps != [] && !UniqueIds(steps)
    ensures r.Some? && r.value.UnknownDependencies? ==>
              r.value.step in IdSet(steps) && r.value.missing != {} &&
              r.value.missing == Elements(Dependencies(steps, r.value.step)) - IdSet(steps)
    ensures r.Some? && r.value.SelfDependency? ==> DependsOn(steps, r.value.step, r.value.step)
    ensures r.Some? && r.value.DependencyCycle? ==>
              r.value.steps != {} && forall id :: id in r.value.steps <==> id in IdSet(steps) && Stuck(steps, id)
  {
    if steps == [] {
      return Some(NoSteps);
    }
    var known := IdSet(steps);
    if |steps| != |known| {
      if UniqueIds(steps) { IdCount(steps); }
      return Some(DuplicateIds);
    }
    if !UniqueIds(steps) { DuplicateShrinksIdSet(steps); }
    for n := 0 to |steps|
      invariant forall i :: 0 <= i < n ==> forall d <- steps[i].dependsOn :: d in known
    {
      IndexIsInverse(steps, n);
      var step := steps[n];
      var missing := Elements(step.dependsOn) - known;
      if missing != {} {
        ghost var d :| d in missing;
        assert d in steps[n].dependsOn && d !in IdSet(steps);
        return Some(UnknownDependencies(step.id, missing));
      }
      if step.id in step.dependsOn {
        SelfDependencyIsCycle(steps, step.id);
        return Some(SelfDependency(step.id));
      }
      forall d | d in steps[n].dependsOn ensures d in known {
        assert d in Elements(step.dependsOn) && d !in missing;
      }
    }
    var order := TopologicalSteps(steps);
    if order.Err? {
      ghost var id :| OnCycle(steps, id);
      SourceIsStep(steps, id, id);
      assert id in order.error;
      return Some(DependencyCycle(order.error));
    }
    return None;
  }

  lemma SelfDependencyIsCycle(steps: Steps, id: string)
    requires DependsOn(steps, id, id)
    ensures !Acyclic(steps)
  {
    assert IsChain(steps, [id, id]);
    assert OnCycle(steps, id);
  }
}
