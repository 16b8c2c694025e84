/**
 Building the graph of a workflow: dependency lists, Kahn's algorithm and the
 position check on gotos.
 */
module BuildDag {
  import opened Graph
  import opened Wrappers
  import opened Ledger

  datatype Goto = Goto(target: Id, maxIterations: int)

  datatype Step = Step(id: Id, dependsOn: seq<Id>, jump: Option<Goto>)

  datatype BuildError =
    | UnknownDependency(step: Id, dependency: Id)
    | NoRoots
    | CycleDetected
    | UnknownTarget(step: Id, target: Id)
    | TargetNotBefore(step: Id, target: Id)

  const DEFAULT_MAX_ITERATIONS := 10

  // ---- the graph a list of steps describes ----

  function Ids(steps: seq<Step>): (ids: seq<Id>)
    ensures |ids| == |steps| && forall i | 0 <= i < |steps| :: ids[i] == steps[i].id
  {
    seq(|steps|, i requires 0 <= i < |steps| => steps[i].id)
  }

  /** What the parser has already checked: ids are unique. */
  ghost predicate UniqueIds(steps: seq<Step>) {
    Distinct(Ids(steps))
  }

  ghost predicate DependenciesKnown(steps: seq<Step>) {
    KnownTo(steps, |steps|)
  }

  /** The dependencies of the first `k` steps are steps. */
  ghost predicate KnownTo(steps: seq<Step>, k: nat)
    requires k <= |steps|
  {
    forall i, d | 0 <= i < k && d in steps[i].dependsOn :: d in Ids(steps)
  }

  /** Dependency `k` of step `i` is the first unknown one in declaration order. */
  ghost predicate FirstUnknown(steps: seq<Step>, i: nat, k: nat) {
    && i < |steps| && KnownTo(steps, i) && k < |steps[i].dependsOn| && steps[i].dependsOn[k] !in Ids(steps)
    && forall j | 0 <= j < k :: steps[i].dependsOn[j] in Ids(steps)
  }

  /** One entry `id` for every occurrence of `p` in `deps`. */
  ghost function Entries(deps: seq<Id>, id: Id, p: Id): seq<Id> {
    if deps == [] then []
    else Entries(deps[..|deps| - 1], id, p) + if deps[|deps| - 1] == p then [id] else []
  }

  ghost function ChildrenOf(steps: seq<Step>, p: Id): seq<Id> {
    if steps == [] then []
    else
      var last := steps[|steps| - 1];
      ChildrenOf(steps[..|steps| - 1], p) + Entries(last.dependsOn, last.id, p)
  }

  /** The parents table after the first `i` steps. */
  ghost function ParentsAfter(steps: seq<Step>, i: nat): map<Id, seq<Id>>
    requires i <= |steps|
  {
    if i == 0 then map n | n in Elements(Ids(steps)) :: []
    else ParentsAfter(steps, i - 1)[steps[i - 1].id := steps[i - 1].dependsOn]
  }

  ghost function StepGraph(steps: seq<Step>): Graph {
    Graph(
      Ids(steps),
      ParentsAfter(steps, |steps|),
      map n | n in Elements(Ids(steps)) :: ChildrenOf(steps, n))
  }

  /** The roots in declaration order. */
  ghost function RootsOf(steps: seq<Step>): seq<Id> {
    if steps == [] then []
    else
      var last := steps[|steps| - 1];
      RootsOf(steps[..|steps| - 1]) + if last.dependsOn == [] then [last.id] else []
  }

  ghost predicate TargetBefore(order: seq<Id>, target: Id, step: Id) {
    exists i, j :: 0 <= i < j < |order| && order[i] == target && order[j] == step
  }

  ghost predicate GotoAccepted(s: Step, order: seq<Id>) {
    s.jump.Some? ==> TargetBefore(order, s.jump.value.target, s.id)
  }

  /** Every goto points to a step strictly before it in `order`. */
  ghost predicate GotosBefore(steps: seq<Step>, order: seq<Id>) {
    forall i | 0 <= i < |steps| :: GotoAccepted(steps[i], order)
  }

  ghost predicate FirstRejected(steps: seq<Step>, order: seq<Id>, i: nat) {
    i < |steps| && GotosBefore(steps[..i], order) && steps[i].jump.Some? && !GotoAccepted(steps[i], order)
  }

  function EffectiveMax(j: Goto): int {
    if j.maxIterations <= 0 then DEFAULT_MAX_ITERATIONS else j.maxIterations
  }

  lemma {:induction false} EntriesCount(deps: seq<Id>, id: Id, p: Id, n: Id)
    ensures multiset(Entries(deps, id, p))[n] == if n == id then multiset(deps)[p] else 0
  {
    if deps != [] {
      var last := |deps| - 1;
      assert deps == deps[..last] + [deps[last]];
      EntriesCount(deps[..last], id, p, n);
    }
  }

  lemma {:induction false} ChildrenOfOthers(steps: seq<Step>, p: Id, n: Id)
    requires forall i | 0 <= i < |steps| :: steps[i].id != n
    ensures multiset(ChildrenOf(steps, p))[n] == 0
  {
    if steps != [] {
      var last := |steps| - 1;
      ChildrenOfOthers(steps[..last], p, n);
      EntriesCount(steps[last].dependsOn, steps[last].id, p, n);
    }
  }

  lemma {:induction false} ChildrenCount(steps: seq<Step>, p: Id, i: nat)
    requires i < |steps| && forall j | 0 <= j < |steps| && j != i :: steps[j].id != steps[i].id
    ensures multiset(ChildrenOf(steps, p))[steps[i].id] == multiset(steps[i].dependsOn)[p]
  {
    hide Entries;
    var last := |steps| - 1;
    EntriesCount(steps[last].dependsOn, steps[last].id, p, steps[i].id);
    if i < last {
      ChildrenCount(steps[..last], p, i);
    } else {
      ChildrenOfOthers(steps[..last], p, steps[i].id);
    }
  }

  /** `x` is listed no later than `y` among the steps. */
  ghost predicate NotAfter(steps: seq<Step>, x: Id, y: Id) {
    exists i, j :: 0 <= i <= j < |steps| && steps[i].id == x && steps[j].id == y
  }

  lemma {:induction false} EntriesAre(deps: seq<Id>, id: Id, p: Id)
    ensures forall k | 0 <= k < |Entries(deps, id, p)| :: Entries(deps, id, p)[k] == id
  {
    if deps != [] {
      EntriesAre(deps[..|deps| - 1], id, p);
    }
  }

  lemma NotAfterGrows(steps: seq<Step>)
    requires steps != []
    ensures forall x, y | NotAfter(steps[..|steps| - 1], x, y) ::
              NotAfter(steps, x, y) && NotAfter(steps, x, steps[|steps| - 1].id)
    ensures NotAfter(steps, steps[|steps| - 1].id, steps[|steps| - 1].id)
  {
    var init, last := steps[..|steps| - 1], steps[|steps| - 1];
    forall x, y | NotAfter(init, x, y)
      ensures NotAfter(steps, x, y) && NotAfter(steps, x, last.id)
    {
      var i, j :| 0 <= i <= j < |init| && init[i].id == x && init[j].id == y;
      assert steps[i].id == x && steps[j].id == y && steps[|init|].id == last.id;
    }
    assert steps[|init|].id == last.id;
  }

  /** Children lists and the roots are in declaration order, so that is the order in which they are signalled and started. */
  lemma {:induction false} DeclarationOrder(steps: seq<Step>, p: Id)
    ensures forall a, b | 0 <= a <= b < |ChildrenOf(steps, p)| ::
              NotAfter(steps, ChildrenOf(steps, p)[a], ChildrenOf(steps, p)[b])
    ensures forall a, b | 0 <= a <= b < |RootsOf(steps)| :: NotAfter(steps, RootsOf(steps)[a], RootsOf(steps)[b])
  {
    if steps != [] {
      var init, last := steps[..|steps| - 1], steps[|steps| - 1];
      DeclarationOrder(init, p);
      NotAfterGrows(steps);
      EntriesAre(last.dependsOn, last.id, p);
      hide NotAfter, Entries;
      forall a, b | 0 <= a <= b < |ChildrenOf(steps, p)|
        ensures NotAfter(steps, ChildrenOf(steps, p)[a], ChildrenOf(steps, p)[b])
      {
        if a < |ChildrenOf(init, p)| {
          assert NotAfter(init, ChildrenOf(init, p)[a], ChildrenOf(init, p)[a]);
        }
      }
      forall a, b | 0 <= a <= b < |RootsOf(steps)|
        ensures NotAfter(steps, RootsOf(steps)[a], RootsOf(steps)[b])
      {
        if a < |RootsOf(init)| {
          assert NotAfter(init, RootsOf(init)[a], RootsOf(init)[a]);
        }
      }
    }
  }

  lemma IdsDiffer(steps: seq<Step>, i: nat)
    requires UniqueIds(steps) && i < |steps|
    ensures forall j | 0 <= j < |steps| && j != i :: steps[j].id != steps[i].id
  {
    forall j | 0 <= j < |steps| && j != i
      ensures steps[j].id != steps[i].id
    {
      assert Ids(steps)[j] != Ids(steps)[i];
    }
  }

  lemma StepOfId(steps: seq<Step>, n: Id) returns (i: nat)
    requires n in Ids(steps)
    ensures i < |steps| && steps[i].id == n
  {
    i :| 0 <= i < |steps| && Ids(steps)[i] == n;
  }

  lemma IdKnown(steps: seq<Step>, j: nat)
    requires j < |steps|
    ensures steps[j].id in Elements(Ids(steps))
  {
    assert Ids(steps)[j] == steps[j].id;
  }

  lemma {:induction false} ParentsAfterKeys(steps: seq<Step>, i: nat)
    requires i <= |steps|
    ensures ParentsAfter(steps, i).Keys == Elements(Ids(steps))
  {
    hide Elements;
    if i > 0 {
      ParentsAfterKeys(steps, i - 1);
      IdKnown(steps, i - 1);
    }
  }

  lemma {:induction false} ParentsAfterAt(steps: seq<Step>, i: nat, j: nat)
    requires UniqueIds(steps) && i <= |steps| && j < |steps|
    ensures steps[j].id in ParentsAfter(steps, i)
    ensures ParentsAfter(steps, i)[steps[j].id] == if j < i then steps[j].dependsOn else []
  {
    IdKnown(steps, j);
    hide Elements, UniqueIds;
    if i > 0 {
      ParentsAfterAt(steps, i - 1, j);
      IdsDiffer(steps, j);
    }
  }

  lemma ParentsAfterExact(steps: seq<Step>, i: nat)
    requires UniqueIds(steps) && i <= |steps|
    ensures ParentsAfter(steps, i).Keys == Elements(Ids(steps))
    ensures forall j | 0 <= j < |steps| :: steps[j].id in ParentsAfter(steps, i)
    ensures forall j | 0 <= j < |steps| :: ParentsAfter(steps, i)[steps[j].id] == if j < i then steps[j].dependsOn else []
  {
    hide ParentsAfter, Elements, UniqueIds;
    ParentsAfterKeys(steps, i);
    forall j | 0 <= j < |steps|
      ensures steps[j].id in ParentsAfter(steps, i)
      ensures ParentsAfter(steps, i)[steps[j].id] == if j < i then steps[j].dependsOn else []
    {
      ParentsAfterAt(steps, i, j);
    }
  }

  /** The graph keeps every dependency list as written. */
  lemma ParentsAsWritten(steps: seq<Step>, i: nat)
    requires UniqueIds(steps) && i < |steps|
    ensures steps[i].id in Nodes(StepGraph(steps)) && Parents(StepGraph(steps), steps[i].id) == steps[i].dependsOn
  {
    ParentsAfterExact(steps, |steps|);
  }

  /** With known dependencies the children lists mirror the dependency lists. */
  lemma StepGraphWellFormed(steps: seq<Step>)
    requires UniqueIds(steps) && DependenciesKnown(steps)
    ensures WellFormed(StepGraph(steps))
  {
    var g := StepGraph(steps);
    ParentsAfterExact(steps, |steps|);
    hide ParentsAfter, Distinct, ChildrenOf;
    forall p, n
      ensures Mirrored(g, p, n)
    {
      StepGraphMirrored(steps, p, n);
    }
    forall p, n | Edge(g, p, n)
      ensures p in Nodes(g) && n in Nodes(g)
    {
      assert Mirrored(g, p, n);
      assert multiset(Children(g, p))[n] > 0;
      assert multiset(Parents(g, n))[p] > 0;
    }
  }

  lemma StepGraphMirrored(steps: seq<Step>, p: Id, n: Id)
    requires UniqueIds(steps) && DependenciesKnown(steps)
    ensures Mirrored(StepGraph(steps), p, n)
  {
    var g := StepGraph(steps);
    ParentsAfterExact(steps, |steps|);
    hide ParentsAfter, Distinct, ChildrenOf;
    if n in Ids(steps) {
      var i := StepOfId(steps, n);
      IdsDiffer(steps, i);
      ParentsAsWritten(steps, i);
      ChildrenCount(steps, p, i);
      if p !in Ids(steps) {
        assert p !in steps[i].dependsOn;
      }
    } else {
      forall i | 0 <= i < |steps|
        ensures steps[i].id != n
      {
        assert Ids(steps)[i] != n;
      }
      ChildrenOfOthers(steps, p, n);
    }
  }

  lemma {:induction false} RootsExact(steps: seq<Step>)
    requires UniqueIds(steps)
    ensures Distinct(RootsOf(steps))
    ensures forall n | n in RootsOf(steps) :: n in Ids(steps)
    ensures forall i | 0 <= i < |steps| :: steps[i].id in RootsOf(steps) <==> steps[i].dependsOn == []
  {
    if steps != [] {
      var last := |steps| - 1;
      var init := steps[..last];
      assert Ids(init) == Ids(steps)[..last];
      RootsExact(init);
      IdsDiffer(steps, last);
      assert steps[last].id == Ids(steps)[last];
      assert steps[last].id !in Ids(init);
      forall i | 0 <= i < |steps|
        ensures steps[i].id in RootsOf(steps) <==> steps[i].dependsOn == []
      {
        if i < last {
          assert init[i] == steps[i];
        }
      }
    }
  }

  lemma StepGraphRoots(steps: seq<Step>)
    requires UniqueIds(steps)
    ensures RootsOfGraph(StepGraph(steps), RootsOf(steps))
  {
    RootsExact(steps);
    var g := StepGraph(steps);
    forall n
      ensures n in RootsOf(steps) <==> n in Nodes(g) && Parents(g, n) == []
    {
      if n in Ids(steps) {
        var i := StepOfId(steps, n);
        ParentsAsWritten(steps, i);
      }
    }
  }

  // ---- Kahn's algorithm, one queue operation at a time ----

  ghost predicate Ordered(g: Graph, order: seq<Id>) {
    forall i, j {:trigger Edge(g, order[i], order[j])} ::
      0 <= i < |order| && 0 <= j < |order| && Edge(g, order[i], order[j]) ==> i < j
  }

  /**
   The loop state: `order` holds the processed steps, `queue` the ready ones, and the
   table counts the unprocessed dependencies.  `open` is the step being processed.
   */
  ghost predicate KahnState(
    g: Graph, ph: Phases, inDegree: map<Id, int>, queue: seq<Id>, order: seq<Id>, open: Option<Id>)
  {
    && WaitingIsDue(g, ph) && inDegree.Keys == Nodes(g)
    && (forall n | n in Nodes(g) :: inDegree[n] == Due(g, ph, n))
    && (forall n | n in Nodes(g) && Some(n) != open && ph[n].Done? :: ph[n] == Done(|Children(g, n)|))
    && (forall n :: n in order <==> n in Nodes(g) && ph[n].Done?)
    && (forall n :: n in queue <==> n in Nodes(g) && ph[n].Pending?)
    && (forall n | n in Nodes(g) :: !ph[n].Running?)
    && Distinct(order) && Distinct(queue) && Ordered(g, order)
  }

  ghost predicate RootsOfGraph(g: Graph, roots: seq<Id>) {
    Distinct(roots) && forall n :: n in roots <==> n in Nodes(g) && Parents(g, n) == []
  }

  lemma KahnStart(g: Graph, roots: seq<Id>, inDegree: map<Id, int>)
    requires WellFormed(g) && RootsOfGraph(g, roots)
    requires inDegree.Keys == Nodes(g) && forall n | n in Nodes(g) :: inDegree[n] == |Parents(g, n)|
    ensures KahnState(g, InitialPhases(g), inDegree, roots, [], None)
  {
    hide Due;
    InitialLedger(g);
  }

  /** The next step has no edge to a processed one, so the order stays topological. */
  lemma KahnOrder(g: Graph, ph: Phases, order: seq<Id>, id: Id)
    requires WellFormed(g) && WaitingIsDue(g, ph) && Ordered(g, order) && id in Nodes(g) && ph[id].Pending?
    requires forall n :: n in order ==> n in Nodes(g) && ph[n].Done?
    ensures Ordered(g, order + [id])
  {
    hide Due, Distinct;
    forall j | 0 <= j < |order|
      ensures !Edge(g, id, order[j])
    {
      assert order[j] in order;
      if Edge(g, id, order[j]) {
        ParentsSignalled(g, ph, id, order[j]);
      }
    }
    if Edge(g, id, id) {
      ParentsSignalled(g, ph, id, id);
    }
  }

  lemma DistinctMoves(queue: seq<Id>, order: seq<Id>)
    requires Distinct(queue) && Distinct(order) && queue != [] && queue[0] !in order
    ensures Distinct(queue[1..]) && Distinct(order + [queue[0]])
    ensures forall n :: n in queue[1..] <==> n in queue && n != queue[0]
    ensures forall n :: n in order + [queue[0]] <==> n in order || n == queue[0]
  {
    assert queue == [queue[0]] + queue[1..];
  }

  lemma KahnTake(g: Graph, ph: Phases, inDegree: map<Id, int>, queue: seq<Id>, order: seq<Id>)
    requires WellFormed(g) && KahnState(g, ph, inDegree, queue, order, None) && queue != []
    ensures queue[0] in Nodes(g) && queue[0] !in order
    ensures KahnState(g, ph[queue[0] := Done(0)], inDegree, queue[1..], order + [queue[0]], Some(queue[0]))
    ensures Nodes(g) - Elements(order + [queue[0]]) < Nodes(g) - Elements(order)
  {
    hide Due, Distinct, Ordered, WellFormed;
    var id := queue[0];
    assert id in queue;
    KahnOrder(g, ph, order, id);
    DistinctMoves(queue, order);
    QuietChangeKeepsLedger(g, ph, id, Done(0));
    assert Elements(order + [id]) == Elements(order) + {id};
    assert id in Nodes(g) - Elements(order);
  }

  lemma KahnSignal(g: Graph, ph: Phases, inDegree: map<Id, int>, queue: seq<Id>, order: seq<Id>, id: Id)
    requires WellFormed(g) && KahnState(g, ph, inDegree, queue, order, Some(id))
    requires id in Nodes(g) && ph[id].Done? && ph[id].signalled < |Children(g, id)|
    ensures var child := Children(g, id)[ph[id].signalled];
            var sent := ph[id := Done(ph[id].signalled + 1)];
            && child in inDegree && child != id
            && var lowered := inDegree[child := inDegree[child] - 1];
            && KahnState(
                 g, if lowered[child] == 0 then sent[child := Pending] else sent, lowered,
                 if lowered[child] == 0 then queue + [child] else queue, order, Some(id))
  {
    hide Due, Ordered, Distinct, WellFormed;
    SignalKeepsLedger(g, ph, id);
    var child := Children(g, id)[ph[id].signalled];
    DistinctAppend(queue, child);
  }

  lemma DistinctAppend(queue: seq<Id>, child: Id)
    requires Distinct(queue) && child !in queue
    ensures Distinct(queue + [child])
    ensures forall n :: n in queue + [child] <==> n in queue || n == child
  {
  }

  lemma KahnClose(g: Graph, ph: Phases, inDegree: map<Id, int>, queue: seq<Id>, order: seq<Id>, id: Id)
    requires KahnState(g, ph, inDegree, queue, order, Some(id)) && id in Nodes(g) && ph[id] == Done(|Children(g, id)|)
    ensures KahnState(g, ph, inDegree, queue, order, None)
  {
  }

  lemma KahnEnd(g: Graph, ph: Phases, inDegree: map<Id, int>, order: seq<Id>)
    requires WellFormed(g) && KahnState(g, ph, inDegree, [], order, None)
    ensures |order| == |g.ids| <==> Acyclic(g)
    ensures |order| == |g.ids| ==> IsTopologicalOrder(g, order)
  {
    hide Due;
    SameSize(g, order);
    assert forall n | n in Nodes(g) :: ph[n].Idle? || ph[n] == Done(|Children(g, n)|);
    if Elements(order) == Nodes(g) {
      TopologicalOrderExcludesCycles(g, order);
    } else {
      assert exists n :: n in Nodes(g) && ph[n].Idle? by {
        var n :| n in Nodes(g) && n !in Elements(order);
        assert n !in order;
      }
      WaitingMeansCycle(g, ph);
    }
  }

  lemma SameSize(g: Graph, order: seq<Id>)
    requires WellFormed(g) && Distinct(order) && Elements(order) <= Nodes(g)
    ensures |order| == |g.ids| <==> Elements(order) == Nodes(g)
  {
    DistinctSize(order);
    DistinctSize(g.ids);
    assert Elements(g.ids) == Nodes(g);
    SubsetSize(Elements(order), Nodes(g));
  }

  lemma WaitingMeansCycle(g: Graph, ph: Phases)
    requires WellFormed(g) && WaitingIsDue(g, ph)
    requires forall n | n in Nodes(g) :: ph[n].Idle? || ph[n] == Done(|Children(g, n)|)
    requires exists n :: n in Nodes(g) && ph[n].Idle?
    ensures !Acyclic(g)
  {
    hide Due;
    if Acyclic(g) {
      QuietMeansDone(g, ph);
      assert false;
    }
  }

  /** Kahn's algorithm; the order is complete exactly when the graph is acyclic. */
  method TopoSort(g: Graph, roots: seq<Id>) returns (sorted: Option<seq<Id>>)
    requires WellFormed(g) && RootsOfGraph(g, roots)
    ensures sorted.Some? <==> Acyclic(g)
    ensures sorted.Some? ==> IsTopologicalOrder(g, sorted.value)
  {
    hide KahnState, WellFormed, RootsOfGraph, Acyclic, IsTopologicalOrder, InitialPhases, Elements;
    var inDegree := map n | n in g.children.Keys :: |Parents(g, n)|;
    var queue := roots;
    var order: seq<Id> := [];
    ghost var ph := InitialPhases(g);
    KahnStart(g, roots, inDegree);
    while queue != []
      invariant KahnState(g, ph, inDegree, queue, order, None)
      decreases Nodes(g) - Elements(order)
    {
      var id := queue[0];
      KahnTake(g, ph, inDegree, queue, order);
      ph := ph[id := Done(0)];
      queue := queue[1..];
      order := order + [id];
      ghost var processed := order;
      var cs := Children(g, id);
      for k := 0 to |cs|
        invariant KahnState(g, ph, inDegree, queue, order, Some(id))
        invariant id in ph && ph[id] == Done(k) && order == processed
      {
        var child := cs[k];
        KahnSignal(g, ph, inDegree, queue, order, id);
        inDegree := inDegree[child := inDegree[child] - 1];
        ph := ph[id := Done(k + 1)];
        if inDegree[child] == 0 {
          queue := queue + [child];
          ph := ph[child := Pending];
        }
      }
      KahnClose(g, ph, inDegree, queue, order, id);
    }
    KahnEnd(g, ph, inDegree, order);
    sorted := if |order| != |g.ids| then None else Some(order);
  }

  // ---- the built object ----

  class DAG {
    var ids: seq<Id>
    var parents: map<Id, seq<Id>>
    var children: map<Id, seq<Id>>
    var roots: seq<Id>
    var order: seq<Id>
    var maxIterations: map<Id, int>

    constructor (g: Graph, roots: seq<Id>)
      ensures AsGraph() == g && this.roots == roots && order == [] && maxIterations == map[]
    {
      ids, parents, children := g.ids, g.parents, g.children;
      this.roots, order, maxIterations := roots, [], map[];
    }

    function AsGraph(): Graph
      reads this
    {
      Graph(ids, parents, children)
    }

    /** The first goto, in declaration order, whose target is unknown or not strictly before it. */
    method ValidateGotos(steps: seq<Step>) returns (err: Option<BuildError>)
      requires UniqueIds(steps) && ids == Ids(steps) && Distinct(order) && Elements(order) == Elements(ids)
      modifies this`maxIterations
      ensures err.None? <==> GotosBefore(steps, order)
      ensures err.Some? ==> exists i: nat ::
                && FirstRejected(steps, order, i)
                && err.value == (if steps[i].jump.value.target in ids
                                 then TargetNotBefore(steps[i].id, steps[i].jump.value.target)
                                 else UnknownTarget(steps[i].id, steps[i].jump.value.target))
      ensures err.None? ==> forall i | 0 <= i < |steps| && steps[i].jump.Some? ::
                && steps[i].id in maxIterations
                && maxIterations[steps[i].id] ==
                   (if steps[i].jump.value.maxIterations <= 0 then 10 else steps[i].jump.value.maxIterations)
    {
      var orderIndex: map<Id, nat> := map[];
      for i := 0 to |order|
        invariant forall n :: n in orderIndex <==> n in order[..i]
        invariant forall j | 0 <= j < i :: orderIndex[order[j]] == j
      {
        orderIndex := orderIndex[order[i] := i];
      }
      for i := 0 to |steps|
        invariant GotosBefore(steps[..i], order)
        invariant forall j | 0 <= j < i && steps[j].jump.Some? ::
                    steps[j].id in maxIterations && maxIterations[steps[j].id] == EffectiveMax(steps[j].jump.value)
      {
        assert steps[..i + 1] == steps[..i] + [steps[i]];
        forall j | 0 <= j < i
          ensures steps[j].id != steps[i].id
        {
          assert Ids(steps)[j] != Ids(steps)[i];
        }
        if steps[i].jump.Some? {
          var target := steps[i].jump.value.target;
          assert Ids(steps)[i] in Elements(ids);
          assert forall n :: n in order <==> n in Elements(ids);
          if target !in ids {
            assert target !in order;
            assert FirstRejected(steps, order, i);
            return Some(UnknownTarget(steps[i].id, target));
          }
          assert target in order && steps[i].id in order;
          if orderIndex[target] >= orderIndex[steps[i].id] {
            assert FirstRejected(steps, order, i);
            return Some(TargetNotBefore(steps[i].id, target));
          }
          assert order[orderIndex[target]] == target && order[orderIndex[steps[i].id]] == steps[i].id;
          maxIterations := maxIterations[steps[i].id := EffectiveMax(steps[i].jump.value)];
        }
      }
      assert steps[..|steps|] == steps;
      err := None;
    }
  }

  /**
   Succeeds exactly when all dependencies are known, the graph is acyclic and the
   gotos point backwards in the order it computed.  On an error the original hands
   out no DAG; here the partly built one is returned as well, so that the contract
   can name the order the gotos were checked against.
   */
  method BuildDAG(steps: seq<Step>) returns (dag: DAG, err: Option<BuildError>)
    requires UniqueIds(steps)
    ensures fresh(dag)
    ensures err.None? <==> DependenciesKnown(steps) && Acyclic(StepGraph(steps)) && GotosBefore(steps, dag.order)
    ensures DependenciesKnown(steps) ==> dag.AsGraph() == StepGraph(steps) && dag.roots == RootsOf(steps)
    ensures DependenciesKnown(steps) && Acyclic(StepGraph(steps)) ==> IsTopologicalOrder(StepGraph(steps), dag.order)
    ensures err.None? ==> forall i | 0 <= i < |steps| && steps[i].jump.Some? ::
              && (exists a, b :: 0 <= a < b < |dag.order|
                    && dag.order[a] == steps[i].jump.value.target && dag.order[b] == steps[i].id)
              && steps[i].id in dag.maxIterations
              && dag.maxIterations[steps[i].id] ==
                 (if steps[i].jump.value.maxIterations <= 0 then 10 else steps[i].jump.value.maxIterations)
    ensures err.Some? && err.value.UnknownDependency? <==> !DependenciesKnown(steps)
    ensures err == Some(NoRoots) <==> DependenciesKnown(steps) && steps != [] && RootsOf(steps) == []
    ensures err == Some(CycleDetected) <==>
              DependenciesKnown(steps) && (steps == [] || RootsOf(steps) != []) && !Acyclic(StepGraph(steps))
    ensures !DependenciesKnown(steps) ==> exists i: nat, k: nat ::
              FirstUnknown(steps, i, k) && err == Some(UnknownDependency(steps[i].id, steps[i].dependsOn[k]))
    ensures DependenciesKnown(steps) && Acyclic(StepGraph(steps)) && !GotosBefore(steps, dag.order) ==> exists i: nat ::
              && FirstRejected(steps, dag.order, i)
              && (forall a, b | 0 <= a < |dag.order| && 0 <= b < |dag.order| ::
                    dag.order[a] == steps[i].jump.value.target && dag.order[b] == steps[i].id ==> b <= a)
              && err == Some(if steps[i].jump.value.target in Ids(steps)
                             then TargetNotBefore(steps[i].id, steps[i].jump.value.target)
                             else UnknownTarget(steps[i].id, steps[i].jump.value.target))
  {
    var g, roots;
    g, roots, err := Link(steps);
    dag := new DAG(g, roots);
    if err.Some? {
      return;
    }
    StepGraphWellFormed(steps);
    StepGraphRoots(steps);
    assert g.ids == Ids(steps);
    hide WellFormed, RootsOfGraph, DependenciesKnown, StepGraph, RootsOf, IsTopologicalOrder;
    if |roots| == 0 && |steps| > 0 {
      err := Some(NoRoots);
      NoRootsMeansCycle(g);
      return;
    }
    var sorted := TopoSort(g, roots);
    if sorted.None? {
      err := Some(CycleDetected);
      return;
    }
    dag.order := sorted.value;
    TopologicalOrderCovers(g, dag.order);
    err := dag.ValidateGotos(steps);
  }

  lemma TopologicalOrderCovers(g: Graph, order: seq<Id>)
    requires WellFormed(g) && IsTopologicalOrder(g, order)
    ensures Distinct(order) && Elements(order) == Elements(g.ids)
  {
  }

  /** The children table after the first `i` steps. */
  ghost function ChildrenAfter(steps: seq<Step>, i: nat): map<Id, seq<Id>>
    requires i <= |steps|
  {
    map n | n in Elements(Ids(steps)) :: ChildrenOf(steps[..i], n)
  }

  lemma LinkNext(steps: seq<Step>, i: nat, children': map<Id, seq<Id>>)
    requires UniqueIds(steps) && i < |steps|
    requires children'.Keys == Elements(Ids(steps))
    requires forall p | p in children' ::
               children'[p] == ChildrenAfter(steps, i)[p] + Entries(steps[i].dependsOn, steps[i].id, p)
    ensures children' == ChildrenAfter(steps, i + 1)
    ensures ParentsAfter(steps, i + 1) == ParentsAfter(steps, i)[steps[i].id := steps[i].dependsOn]
    ensures RootsOf(steps[..i + 1]) == RootsOf(steps[..i]) + if steps[i].dependsOn == [] then [steps[i].id] else []
    ensures steps[i].id in ParentsAfter(steps, i) && ParentsAfter(steps, i)[steps[i].id] == []
  {
    hide Distinct, ChildrenOf, Entries, RootsOf, ParentsAfter;
    forall p
      ensures ChildrenOf(steps[..i + 1], p) == ChildrenOf(steps[..i], p) + Entries(steps[i].dependsOn, steps[i].id, p)
    {
      PrefixNext(steps, i, p);
    }
    PrefixNext(steps, i, steps[i].id);
    ParentsAfterExact(steps, i);
    ParentsNext(steps, i);
  }

  lemma ParentsNext(steps: seq<Step>, i: nat)
    requires i < |steps|
    ensures ParentsAfter(steps, i + 1) == ParentsAfter(steps, i)[steps[i].id := steps[i].dependsOn]
  {
  }

  lemma PrefixNext(steps: seq<Step>, i: nat, p: Id)
    requires i < |steps|
    ensures ChildrenOf(steps[..i + 1], p) == ChildrenOf(steps[..i], p) + Entries(steps[i].dependsOn, steps[i].id, p)
    ensures RootsOf(steps[..i + 1]) == RootsOf(steps[..i]) + if steps[i].dependsOn == [] then [steps[i].id] else []
  {
    hide Entries;
    assert steps[..i + 1][..i] == steps[..i];
  }

  lemma LinkStart(steps: seq<Step>, empty: map<Id, seq<Id>>)
    requires empty == map n | n in Elements(Ids(steps)) :: []
    ensures empty == ParentsAfter(steps, 0) && empty == ChildrenAfter(steps, 0) && empty.Keys == Elements(Ids(steps))
    ensures RootsOf(steps[..0]) == [] && KnownTo(steps, 0)
  {
  }

  /** Fills the dependency lists step by step, stopping at the first unknown dependency. */
  method Link(steps: seq<Step>) returns (g: Graph, roots: seq<Id>, err: Option<BuildError>)
    requires UniqueIds(steps)
    ensures err.None? <==> DependenciesKnown(steps)
    ensures err.Some? ==> exists i: nat, k: nat ::
              FirstUnknown(steps, i, k) && err == Some(UnknownDependency(steps[i].id, steps[i].dependsOn[k]))
    ensures err.None? ==> g == StepGraph(steps) && roots == RootsOf(steps)
  {
    hide Distinct, ChildrenOf, ChildrenAfter, ParentsAfter, RootsOf, StepGraph, Entries, KnownTo, Elements;
    var ids := Ids(steps);
    var parents: map<Id, seq<Id>> := map n | n in Elements(ids) :: [];
    var children := parents;
    roots := [];
    LinkStart(steps, parents);
    for i := 0 to |steps|
      invariant children.Keys == Elements(ids)
      invariant parents == ParentsAfter(steps, i) && children == ChildrenAfter(steps, i)
      invariant roots == RootsOf(steps[..i]) && KnownTo(steps, i)
    {
      var s := steps[i];
      ParentsAfterExact(steps, i);
      KnownNext(steps, i);
      if |s.dependsOn| == 0 {
        NoEntries(s.dependsOn, s.id);
        LinkNext(steps, i, children);
        assert parents == parents[s.id := []];
        roots := roots + [s.id];
      } else {
        var parents', children';
        parents', children', err := LinkStep(parents, children, s);
        if err.Some? {
          g := Graph(ids, parents', children');
          UnknownAt(steps, i, err.value);
          return;
        }
        LinkNext(steps, i, children');
        parents, children := parents', children';
      }
    }
    LinkEnd(steps);
    err := None;
    g := Graph(ids, parents, children);
  }

  lemma UnknownAt(steps: seq<Step>, i: nat, error: BuildError)
    requires i < |steps| && KnownTo(steps, i)
    requires exists k: nat :: FirstUnknownIn(Elements(Ids(steps)), steps[i].dependsOn, k)
                              && error == UnknownDependency(steps[i].id, steps[i].dependsOn[k])
    ensures exists k: nat :: FirstUnknown(steps, i, k) && error == UnknownDependency(steps[i].id, steps[i].dependsOn[k])
  {
    var k: nat :| FirstUnknownIn(Elements(Ids(steps)), steps[i].dependsOn, k)
                  && error == UnknownDependency(steps[i].id, steps[i].dependsOn[k]);
    assert FirstUnknown(steps, i, k);
  }

  lemma KnownNext(steps: seq<Step>, i: nat)
    requires i < |steps| && KnownTo(steps, i)
    ensures KnownTo(steps, i + 1) <==> forall d | d in steps[i].dependsOn :: d in Elements(Ids(steps))
    ensures KnownTo(steps, |steps|) ==> KnownTo(steps, i + 1)
  {
  }

  lemma NoEntries(deps: seq<Id>, id: Id)
    requires deps == []
    ensures forall p :: Entries(deps, id, p) == []
  {
  }

  lemma LinkEnd(steps: seq<Step>)
    ensures Graph(Ids(steps), ParentsAfter(steps, |steps|), ChildrenAfter(steps, |steps|)) == StepGraph(steps)
    ensures RootsOf(steps[..|steps|]) == RootsOf(steps)
  {
    hide ChildrenOf, ParentsAfter;
    assert steps[..|steps|] == steps;
  }

  lemma EntriesNext(deps: seq<Id>, k: nat, id: Id, p: Id)
    requires k < |deps|
    ensures Entries(deps[..k + 1], id, p) == Entries(deps[..k], id, p) + if deps[k] == p then [id] else []
  {
    assert deps[..k + 1][..k] == deps[..k];
  }

  /** The children table when the first `k` dependencies of a step are linked. */
  ghost predicate ChildrenLinked(
    children: map<Id, seq<Id>>, children': map<Id, seq<Id>>, deps: seq<Id>, id: Id, k: nat)
    requires k <= |deps|
  {
    && children'.Keys == children.Keys
    && forall p | p in children :: children'[p] == children[p] + Entries(deps[..k], id, p)
  }

  lemma ChildrenLinkedNext(
    children: map<Id, seq<Id>>, children': map<Id, seq<Id>>, deps: seq<Id>, id: Id, k: nat)
    requires k < |deps| && deps[k] in children' && ChildrenLinked(children, children', deps, id, k)
    ensures ChildrenLinked(children, children'[deps[k] := children'[deps[k]] + [id]], deps, id, k + 1)
  {
    hide Entries;
    forall p | p in children
      ensures children'[deps[k] := children'[deps[k]] + [id]][p] == children[p] + Entries(deps[..k + 1], id, p)
    {
      EntriesNext(deps, k, id, p);
    }
  }

  ghost predicate FirstUnknownIn(known: set<Id>, deps: seq<Id>, k: nat) {
    k < |deps| && deps[k] !in known && forall j | 0 <= j < k :: deps[j] in known
  }

  /** Appends one step to the children of each dependency, and each dependency to its parents. */
  method LinkStep(parents: map<Id, seq<Id>>, children: map<Id, seq<Id>>, s: Step)
    returns (parents': map<Id, seq<Id>>, children': map<Id, seq<Id>>, err: Option<BuildError>)
    requires s.id in parents && parents[s.id] == []
    ensures children'.Keys == children.Keys && parents'.Keys == parents.Keys
    ensures err.None? <==> forall d | d in s.dependsOn :: d in children
    ensures err.Some? ==> exists k: nat ::
              FirstUnknownIn(children.Keys, s.dependsOn, k) && err == Some(UnknownDependency(s.id, s.dependsOn[k]))
    ensures err.None? ==> parents' == parents[s.id := s.dependsOn]
    ensures err.None? ==> forall p | p in children :: children'[p] == children[p] + Entries(s.dependsOn, s.id, p)
  {
    hide Entries;
    parents', children' := parents, children;
    assert s.dependsOn[..|s.dependsOn|] == s.dependsOn;
    forall p
      ensures Entries(s.dependsOn[..0], s.id, p) == []
    {
      NoEntries(s.dependsOn[..0], s.id);
    }
    for k := 0 to |s.dependsOn|
      invariant ChildrenLinked(children, children', s.dependsOn, s.id, k)
      invariant forall j | 0 <= j < k :: s.dependsOn[j] in children
      invariant parents' == parents[s.id := s.dependsOn[..k]]
    {
      var dep := s.dependsOn[k];
      if dep !in children' {
        assert FirstUnknownIn(children.Keys, s.dependsOn, k);
        return parents', children', Some(UnknownDependency(s.id, dep));
      }
      ChildrenLinkedNext(children, children', s.dependsOn, s.id, k);
      assert s.dependsOn[..k + 1] == s.dependsOn[..k] + [dep];
      children' := children'[dep := children'[dep] + [s.id]];
      parents' := parents'[s.id := parents'[s.id] + [dep]];
    }
    err := None;
  }

  /** A non-empty graph without a parentless step has a cycle, so that error is no false alarm. */
  lemma NoRootsMeansCycle(g: Graph)
    requires WellFormed(g) && g.ids != [] && RootsOfGraph(g, [])
    ensures !Acyclic(g)
  {
    hide WellFormed, RootsOfGraph, Acyclic, HasParentIn, Nodes;
    var all := Nodes(g);
    FirstIsNode(g);
    forall n | n in all
      ensures HasParentIn(g, all, n)
    {
      NoParentless(g, n);
      ParentInGraph(g, n);
    }
    StuckSetHasCycle(g, all);
  }

  lemma FirstIsNode(g: Graph)
    requires WellFormed(g) && g.ids != []
    ensures g.ids[0] in Nodes(g)
  {
    assert g.ids[0] in g.ids;
  }

  lemma NoParentless(g: Graph, n: Id)
    requires RootsOfGraph(g, []) && n in Nodes(g)
    ensures Parents(g, n) != []
  {
    assert n !in [];
  }

  lemma ParentInGraph(g: Graph, n: Id)
    requires WellFormed(g) && Parents(g, n) != []
    ensures HasParentIn(g, Nodes(g), n)
  {
    var p := Parents(g, n)[0];
    EdgeBothWays(g, p, n);
    hide WellFormed;
    assert p in Nodes(g) && Edge(g, p, n);
  }

  /**
   The position check accepts every goto whose target is a proper ancestor, whatever
   topological order was computed; the converse fails, see `Witnesses`.
   */
  lemma AncestorTargetsPass(g: Graph, order: seq<Id>, target: Id, step: Id)
    requires WellFormed(g) && IsTopologicalOrder(g, order) && Ancestor(g, target, step)
    ensures TargetBefore(order, target, step)
  {
    var p :| PathBetween(g, p, target, step) && 2 <= |p|;
    PositionsGrow(g, order, p, |p| - 1);
    var i, j := Position(order, target), Position(order, step);
    assert order[i] == target && order[j] == step;
  }
}
