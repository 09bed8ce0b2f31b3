/** Mission graphs: the dependency relation, topological orders and the greedy
    order that always takes the earliest-defined available step
    (solana_agent/missions/graph.py). */
module MissionGraph {

  datatype StepDef = StepDef(id: string, dependsOn: seq<string>)

  type Steps = seq<StepDef>

  // ---------- identifiers ----------

  function Ids(steps: Steps): seq<string> {
    seq(|steps|, i requires 0 <= i < |steps| => steps[i].id)
  }

  function IdSet(steps: Steps): set<string> {
    set i | 0 <= i < |steps| :: steps[i].id
  }

  predicate UniqueIds(steps: Steps) {
    forall i, j :: 0 <= i < j < |steps| ==> steps[i].id != steps[j].id
  }

  /** Every dependency names a step of the mission. */
  predicate KnownDependencies(steps: Steps) {
    forall i :: 0 <= i < |steps| ==> forall d <- steps[i].dependsOn :: d in IdSet(steps)
  }

  /** The definition index of a step id. */
  function IndexOf(steps: Steps, id: string): (i: nat)
    requires id in IdSet(steps)
    ensures i < |steps| && steps[i].id == id
    ensures forall j :: 0 <= j < i ==> steps[j].id != id
  {
    if steps[0].id == id then 0 else
      assert IdSet(steps) == {steps[0].id} + IdSet(steps[1..]) by {
        forall x | x in IdSet(steps) ensures x in {steps[0].id} + IdSet(steps[1..]) {
          var i :| 0 <= i < |steps| && steps[i].id == x;
          assert i > 0 ==> steps[1..][i - 1].id == x;
        }
      }
      1 + IndexOf(steps[1..], id)
  }

  function Dependencies(steps: Steps, id: string): seq<string>
    requires id in IdSet(steps)
  {
    steps[IndexOf(steps, id)].dependsOn
  }

  lemma IndexIsInverse(steps: Steps, i: nat)
    requires UniqueIds(steps) && i < |steps|
    ensures steps[i].id in IdSet(steps) && IndexOf(steps, steps[i].id) == i
  {
    var j := IndexOf(steps, steps[i].id);
    assert !(i < j) && !(j < i);
  }

  // ---------- topological orders ----------

  predicate NoDuplicates(s: seq<string>) {
    forall i, j :: 0 <= i < j < |s| ==> s[i] != s[j]
  }

  function Elements(s: seq<string>): set<string> {
    set x | x in s
  }

  /** Every step of the order comes after all its dependencies. */
  ghost predicate DependenciesFirst(steps: Steps, order: seq<string>) {
    forall k :: 0 <= k < |order| ==>
      order[k] in IdSet(steps) &&
      forall d <- Dependencies(steps, order[k]) :: d in order[..k]
  }

  /** A permutation of the steps with every dependency before its dependents. */
  ghost predicate IsTopologicalOrder(steps: Steps, order: seq<string>) {
    NoDuplicates(order) && Elements(order) == IdSet(steps) && DependenciesFirst(steps, order)
  }

  /** p is no later than q when sequences are compared by definition index. */
  ghost predicate LexicographicallyAtMost(steps: Steps, p: seq<string>, q: seq<string>) {
    p == q || exists k: nat :: FirstDifferenceIsEarlier(steps, p, q, k)
  }

  ghost predicate FirstDifferenceIsEarlier(steps: Steps, p: seq<string>, q: seq<string>, k: nat) {
    && k < |p| && k < |q| && p[..k] == q[..k]
    && p[k] in IdSet(steps) && q[k] in IdSet(steps)
    && IndexOf(steps, p[k]) < IndexOf(steps, q[k])
  }

  // ---------- the greedy order ----------

  /** A step that is not emitted yet and whose dependencies all are. */
  predicate Available(steps: Steps, emitted: set<string>, id: string) {
    id in IdSet(steps) && id !in emitted && forall d <- Dependencies(steps, id) :: d in emitted
  }

  /** The earliest-defined available step at index from or later, |steps| if there is none. */
  function FirstAvailable(steps: Steps, emitted: set<string>, from: nat): (i: nat)
    requires from <= |steps|
    ensures from <= i <= |steps|
    ensures i < |steps| ==> Available(steps, emitted, steps[i].id)
    ensures forall j :: from <= j < i ==> !Available(steps, emitted, steps[j].id)
    decreases |steps| - from
  {
    if from == |steps| || Available(steps, emitted, steps[from].id) then from
    else FirstAvailable(steps, emitted, from + 1)
  }

  /** Repeatedly emits the earliest-defined available step until none is left. */
  function GreedyOrder(steps: Steps, emitted: set<string>): (order: seq<string>)
    decreases |IdSet(steps) - emitted|
  {
    var i := FirstAvailable(steps, emitted, 0);
    if i == |steps| then []
    else
      var id := steps[i].id;
      assert IdSet(steps) - (emitted + {id}) < IdSet(steps) - emitted;
      SmallerSet(IdSet(steps) - (emitted + {id}), IdSet(steps) - emitted);
      [id] + GreedyOrder(steps, emitted + {id})
  }

  lemma SmallerSet<T>(a: set<T>, b: set<T>)
    requires a < b
    ensures |a| < |b|
  {
    assert b == a + (b - a);
    var x :| x in b - a;
  }

  lemma GreedyUnfolds(steps: Steps, emitted: set<string>) returns (i: nat)
    ensures i == FirstAvailable(steps, emitted, 0)
    ensures i == |steps| ==> GreedyOrder(steps, emitted) == []
    ensures i < |steps| ==>
              && |IdSet(steps) - (emitted + {steps[i].id})| < |IdSet(steps) - emitted|
              && GreedyOrder(steps, emitted) == [steps[i].id] + GreedyOrder(steps, emitted + {steps[i].id})
  {
    i := FirstAvailable(steps, emitted, 0);
    if i < |steps| {
      assert Available(steps, emitted, steps[i].id);
      SmallerSet(IdSet(steps) - (emitted + {steps[i].id}), IdSet(steps) - emitted);
    }
  }

  lemma ElementsCons(emitted: set<string>, x: string, t: seq<string>)
    ensures Elements([x] + t) == {x} + Elements(t)
    ensures emitted + Elements([x] + t) == emitted + {x} + Elements(t)
  {
  }

  lemma TakeCons(x: string, t: seq<string>, k: nat)
    requires 0 < k <= |t| + 1
    ensures ([x] + t)[..k] == [x] + t[..k - 1]
  {
  }

  lemma NoDuplicatesCons(x: string, t: seq<string>)
    requires NoDuplicates(t) && x !in t
    ensures NoDuplicates([x] + t)
  {
  }

  /** The greedy order emits each step at most once, and only steps not yet emitted. */
  lemma {:induction false} GreedyEmitsOnce(steps: Steps, emitted: set<string>)
    ensures NoDuplicates(GreedyOrder(steps, emitted))
    ensures Elements(GreedyOrder(steps, emitted)) <= IdSet(steps) - emitted
    decreases |IdSet(steps) - emitted|
  {
    var i := GreedyUnfolds(steps, emitted);
    if i < |steps| {
      var id := steps[i].id;
      GreedyEmitsOnce(steps, emitted + {id});
      var t := GreedyOrder(steps, emitted + {id});
      assert id !in Elements(t);
      NoDuplicatesCons(id, t);
      ElementsCons(emitted, id, t);
    }
  }

  /** Each step of the greedy order has all its dependencies emitted before it. */
  lemma {:induction false} GreedyEmitsAvailable(steps: Steps, emitted: set<string>, k: nat)
    requires k < |GreedyOrder(steps, emitted)|
    ensures Available(steps, emitted + Elements(GreedyOrder(steps, emitted)[..k]), GreedyOrder(steps, emitted)[k])
    decreases k
  {
    var i := GreedyUnfolds(steps, emitted);
    var id := steps[i].id;
    var r := GreedyOrder(steps, emitted);
    if k == 0 {
      assert emitted + Elements(r[..0]) == emitted;
    } else {
      var t := GreedyOrder(steps, emitted + {id});
      GreedyEmitsAvailable(steps, emitted + {id}, k - 1);
      TakeCons(id, t, k);
      ElementsCons(emitted, id, t[..k - 1]);
    }
  }

  /** The greedy order stops only when no step is available. */
  lemma {:induction false} GreedyExhausts(steps: Steps, emitted: set<string>, id: string)
    ensures !Available(steps, emitted + Elements(GreedyOrder(steps, emitted)), id)
    decreases |IdSet(steps) - emitted|
  {
    var i := GreedyUnfolds(steps, emitted);
    if i == |steps| {
      assert emitted + Elements([]) == emitted;
      if id in IdSet(steps) {
        assert !Available(steps, emitted, steps[IndexOf(steps, id)].id);
      }
    } else {
      var first := steps[i].id;
      GreedyExhausts(steps, emitted + {first}, id);
      ElementsCons(emitted, first, GreedyOrder(steps, emitted + {first}));
    }
  }

  // ---------- cycles ----------

  predicate DependsOn(steps: Steps, id: string, dependency: string) {
    id in IdSet(steps) && dependency in Dependencies(steps, id)
  }

  /** A non-empty chain of dependency edges: each entry depends on the next one. */
  ghost predicate IsChain(steps: Steps, p: seq<string>) {
    |p| >= 2 && forall k :: 0 < k < |p| ==> DependsOn(steps, p[k - 1], p[k])
  }

  ghost predicate DependsTransitively(steps: Steps, from: string, to: string) {
    exists p :: IsChain(steps, p) && p[0] == from && p[|p| - 1] == to
  }

  ghost predicate OnCycle(steps: Steps, id: string) {
    DependsTransitively(steps, id, id)
  }

  /** On a cycle, or reachable from one along the edges from a dependency to its dependents. */
  ghost predicate Stuck(steps: Steps, id: string) {
    OnCycle(steps, id) || exists c :: OnCycle(steps, c) && DependsTransitively(steps, id, c)
  }

  ghost predicate Acyclic(steps: Steps) {
    forall id :: !OnCycle(steps, id)
  }

  /** Along a chain inside a dependencies-first order, positions strictly decrease. */
  lemma {:induction false} ChainGoesBackwards(steps: Steps, order: seq<string>, p: seq<string>, k: nat)
    requires DependenciesFirst(steps, order) && NoDuplicates(order)
    requires IsChain(steps, p) && 1 <= k < |p|
    requires p[0] in order
    ensures exists i, j :: 0 <= j < i < |order| && order[i] == p[0] && order[j] == p[k]
  {
    if k == 1 {
      var i :| 0 <= i < |order| && order[i] == p[0];
      assert DependsOn(steps, p[k - 1], p[k]);
      assert p[1] in order[..i];
    } else {
      ChainGoesBackwards(steps, order, p, k - 1);
      var i, j :| 0 <= j < i < |order| && order[i] == p[0] && order[j] == p[k - 1];
      assert DependsOn(steps, p[k - 1], p[k]);
      assert p[k] in order[..j];
    }
  }

  lemma EmittedNotOnCycle(steps: Steps, order: seq<string>, id: string)
    requires DependenciesFirst(steps, order) && NoDuplicates(order) && id in order
    ensures !OnCycle(steps, id)
  {
    if OnCycle(steps, id) {
      var p :| IsChain(steps, p) && p[0] == id && p[|p| - 1] == id;
      ChainGoesBackwards(steps, order, p, |p| - 1);
      assert false;
    }
  }

  lemma EmittedNotStuck(steps: Steps, order: seq<string>, id: string)
    requires DependenciesFirst(steps, order) && NoDuplicates(order) && id in order
    ensures !Stuck(steps, id)
  {
    EmittedNotOnCycle(steps, order, id);
    forall c | OnCycle(steps, c) && DependsTransitively(steps, id, c) ensures false {
      var p :| IsChain(steps, p) && p[0] == id && p[|p| - 1] == c;
      ChainGoesBackwards(steps, order, p, |p| - 1);
      EmittedNotOnCycle(steps, order, c);
    }
  }

  /** Every member of a set of steps depends on another member of the set. */
  ghost predicate SelfSupporting(steps: Steps, u: set<string>) {
    forall id {:trigger HasDependencyIn(steps, u, id)} :: id in u ==> HasDependencyIn(steps, u, id)
  }

  ghost predicate HasDependencyIn(steps: Steps, u: set<string>, id: string) {
    exists d :: DependsOn(steps, id, d) && d in u
  }

  /** A walk of n dependency edges that never leaves a self-supporting set. */
  lemma {:induction false} WalkInside(steps: Steps, u: set<string>, id: string, n: nat) returns (w: seq<string>)
    requires SelfSupporting(steps, u) && id in u
    ensures |w| == n + 1 && w[0] == id
    ensures forall k :: 0 <= k <= n ==> w[k] in u
    ensures n > 0 ==> IsChain(steps, w)
    decreases n
  {
    if n == 0 {
      w := [id];
    } else {
      assert HasDependencyIn(steps, u, id);
      var d :| DependsOn(steps, id, d) && d in u;
      var t := WalkInside(steps, u, d, n - 1);
      w := [id] + t;
      forall k | 0 < k < |w| ensures DependsOn(steps, w[k - 1], w[k]) {
        if k > 1 {
          assert DependsOn(steps, t[k - 2], t[k - 1]);
        }
      }
    }
  }

  lemma {:induction false} DistinctCount(w: seq<string>)
    requires NoDuplicates(w)
    ensures |Elements(w)| == |w|
  {
    if w == [] {
      assert Elements(w) == {};
    } else {
      DistinctCount(w[1..]);
      assert Elements(w) == {w[0]} + Elements(w[1..]);
    }
  }

  lemma SubsetCount<T>(a: set<T>, b: set<T>)
    requires a <= b
    ensures |a| <= |b|
  {
    assert b == a + (b - a);
  }

  /** A walk longer than the set it stays in visits some step twice. */
  lemma Pigeonhole(w: seq<string>, u: set<string>) returns (i: nat, j: nat)
    requires forall k :: 0 <= k < |w| ==> w[k] in u
    requires |w| > |u|
    ensures i < j < |w| && w[i] == w[j]
  {
    if NoDuplicates(w) {
      DistinctCount(w);
      SubsetCount(Elements(w), u);
      assert false;
    }
    i, j :| 0 <= i < j < |w| && w[i] == w[j];
  }

  lemma SubChain(steps: Steps, p: seq<string>, i: nat, j: nat)
    requires IsChain(steps, p) && i < j < |p|
    ensures DependsTransitively(steps, p[i], p[j])
  {
    var q := p[i..j + 1];
    forall k | 0 < k < |q| ensures DependsOn(steps, q[k - 1], q[k]) {
      assert DependsOn(steps, p[i + k - 1], p[i + k]);
    }
    assert IsChain(steps, q) && q[0] == p[i] && q[|q| - 1] == p[j];
  }

  /** A step of a self-supporting set is on a cycle or leads to one. */
  lemma SelfSupportingIsStuck(steps: Steps, u: set<string>, id: string)
    requires SelfSupporting(steps, u) && id in u
    ensures Stuck(steps, id)
  {
    var w := WalkInside(steps, u, id, |u|);
    assert |u| > 0;
    var i, j := Pigeonhole(w, u);
    SubChain(steps, w, i, j);
    if i > 0 {
      SubChain(steps, w, 0, i);
      assert OnCycle(steps, w[i]) && DependsTransitively(steps, id, w[i]);
    }
  }

  // ---------- the theorems about the greedy order ----------

  lemma GreedyIsDependenciesFirst(steps: Steps)
    ensures var r := GreedyOrder(steps, {});
            NoDuplicates(r) && DependenciesFirst(steps, r) && Elements(r) <= IdSet(steps)
  {
    GreedyEmitsOnce(steps, {});
    var r := GreedyOrder(steps, {});
    forall k | 0 <= k < |r|
      ensures r[k] in IdSet(steps) && forall d <- Dependencies(steps, r[k]) :: d in r[..k]
    {
      GreedyEmitsAvailable(steps, {}, k);
    }
  }

  /** The steps the greedy order leaves out are exactly those on, or reachable from, a cycle. */
  lemma GreedyLeavesStuck(steps: Steps, id: string)
    requires KnownDependencies(steps) && id in IdSet(steps)
    ensures id !in GreedyOrder(steps, {}) <==> Stuck(steps, id)
  {
    GreedyIsDependenciesFirst(steps);
    var r := GreedyOrder(steps, {});
    if id in r {
      EmittedNotStuck(steps, r, id);
    } else {
      var u := IdSet(steps) - Elements(r);
      forall x | x in u ensures HasDependencyIn(steps, u, x) {
        GreedyExhausts(steps, {}, x);
        var d :| d in Dependencies(steps, x) && d !in {} + Elements(r);
        assert DependsOn(steps, x, d) && d in u;
      }
      SelfSupportingIsStuck(steps, u, id);
    }
  }

  /** The greedy order covers every step if and only if the dependencies have no cycle. */
  lemma GreedyCompleteIffAcyclic(steps: Steps)
    requires KnownDependencies(steps)
    ensures IsTopologicalOrder(steps, GreedyOrder(steps, {})) <==> Acyclic(steps)
  {
    GreedyIsDependenciesFirst(steps);
    var r := GreedyOrder(steps, {});
    if IsTopologicalOrder(steps, r) {
      forall id ensures !OnCycle(steps, id) {
        if OnCycle(steps, id) {
          var p :| IsChain(steps, p) && p[0] == id && p[|p| - 1] == id;
          assert DependsOn(steps, p[0], p[1]);
          assert id in Elements(r);
          EmittedNotOnCycle(steps, r, id);
        }
      }
    } else {
      var id :| id in IdSet(steps) && id !in Elements(r);
      GreedyLeavesStuck(steps, id);
    }
  }

  /** No topological order precedes the greedy one. */
  lemma GreedyIsLeast(steps: Steps, q: seq<string>)
    requires UniqueIds(steps) && IsTopologicalOrder(steps, q)
    ensures LexicographicallyAtMost(steps, GreedyOrder(steps, {}), q)
  {
    var r := GreedyOrder(steps, {});
    LeastFrom(steps, q, 0);
    assert q[0..] == q && Elements(q[..0]) == {};
  }

  /** The same, after the first k steps of q have been emitted. */
  lemma {:induction false} LeastFrom(steps: Steps, q: seq<string>, k: nat)
    requires UniqueIds(steps) && IsTopologicalOrder(steps, q) && k <= |q|
    ensures LexicographicallyAtMost(steps, GreedyOrder(steps, Elements(q[..k])), q[k..])
    decreases |q| - k
  {
    var emitted := Elements(q[..k]);
    var i := GreedyUnfolds(steps, emitted);
    if k == |q| {
      assert q[..k] == q;
      assert emitted == IdSet(steps);
      assert i == |steps|;
    } else {
      NextIsAvailable(steps, q, k);
      var j := IndexOf(steps, q[k]);
      assert i <= j;
      IndexIsInverse(steps, i);
      var t := GreedyOrder(steps, emitted + {steps[i].id});
      if i == j {
        PrefixElements(q, k);
        LeastFrom(steps, q, k + 1);
        ConsPreservesOrder(steps, q[k], t, q[k + 1..]);
        DropOne(q, k);
      } else {
        EarlierHead(steps, [steps[i].id] + t, q[k..]);
      }
    }
  }

  lemma DropOne(q: seq<string>, k: nat)
    requires k < |q|
    ensures q[k..] == [q[k]] + q[k + 1..]
  {
  }

  lemma PrefixElements(q: seq<string>, k: nat)
    requires k < |q|
    ensures Elements(q[..k + 1]) == Elements(q[..k]) + {q[k]}
  {
    assert q[..k + 1] == q[..k] + [q[k]];
  }

  lemma NextIsAvailable(steps: Steps, q: seq<string>, k: nat)
    requires IsTopologicalOrder(steps, q) && k < |q|
    ensures Available(steps, Elements(q[..k]), q[k])
  {
    assert q[k] in Elements(q);
  }

  lemma EarlierHead(steps: Steps, p: seq<string>, q: seq<string>)
    requires p != [] && q != [] && p[0] in IdSet(steps) && q[0] in IdSet(steps)
    requires IndexOf(steps, p[0]) < IndexOf(steps, q[0])
    ensures LexicographicallyAtMost(steps, p, q)
  {
    assert FirstDifferenceIsEarlier(steps, p, q, 0);
  }

  lemma ConsPrefix(x: string, p: seq<string>, k: nat)
    requires k < |p|
    ensures ([x] + p)[..k + 1] == [x] + p[..k] && ([x] + p)[k + 1] == p[k]
  {
    TakeCons(x, p, k + 1);
  }

  lemma ConsPreservesOrder(steps: Steps, x: string, p: seq<string>, q: seq<string>)
    requires LexicographicallyAtMost(steps, p, q)
    ensures LexicographicallyAtMost(steps, [x] + p, [x] + q)
  {
    if p != q {
      var k: nat :| FirstDifferenceIsEarlier(steps, p, q, k);
      ConsPrefix(x, p, k);
      ConsPrefix(x, q, k);
      assert FirstDifferenceIsEarlier(steps, [x] + p, [x] + q, k + 1);
    }
  }
}
