/**
 The dependency graph of a workflow: for every step its parents (`depends_on`)
 and its children, both as lists in which a repeated dependency occurs as often
 as it was written.  Paths, ancestors, cycles and topological orders.
 */
module Graph {
  type Id = string

  /** `ids` lists the steps in declaration order. */
  datatype Graph = Graph(ids: seq<Id>, parents: map<Id, seq<Id>>, children: map<Id, seq<Id>>)

  /** The known steps. */
  function Nodes(g: Graph): set<Id> {
    g.children.Keys
  }

  ghost predicate Distinct(s: seq<Id>) {
    forall i, j | 0 <= i < j < |s| :: s[i] != s[j]
  }

  function Elements(s: seq<Id>): set<Id> {
    set x | x in s
  }

  /** A key that is absent reads as the empty list, as in the original's maps. */
  function Children(g: Graph, n: Id): seq<Id> {
    if n in g.children then g.children[n] else []
  }

  function Parents(g: Graph, n: Id): seq<Id> {
    if n in g.parents then g.parents[n] else []
  }

  predicate Edge(g: Graph, a: Id, b: Id) {
    b in Children(g, a)
  }

  /** The edge from `p` to `n` is listed as often at one end as at the other. */
  ghost predicate Mirrored(g: Graph, p: Id, n: Id) {
    multiset(Children(g, p))[n] == multiset(Parents(g, n))[p]
  }

  /** Both adjacency lists mention only known steps and describe the same edges, with multiplicity. */
  ghost predicate WellFormed(g: Graph) {
    && Distinct(g.ids) && (forall n {:trigger n in g.ids} :: n in g.ids <==> n in Nodes(g))
    && g.parents.Keys == Nodes(g)
    && (forall a, b {:trigger Edge(g, a, b)} :: Edge(g, a, b) ==> a in Nodes(g) && b in Nodes(g))
    && (forall p, n {:trigger Mirrored(g, p, n)} :: Mirrored(g, p, n))
  }

  ghost predicate Path(g: Graph, p: seq<Id>) {
    && 0 < |p|
    && (forall i | 0 <= i < |p| :: p[i] in Nodes(g))
    && (forall i | 0 <= i < |p| - 1 :: Edge(g, p[i], p[i + 1]))
  }

  ghost predicate PathBetween(g: Graph, p: seq<Id>, a: Id, b: Id) {
    Path(g, p) && p[0] == a && p[|p| - 1] == b
  }

  /** `b` is `a` or one of its descendants. */
  ghost predicate Reach(g: Graph, a: Id, b: Id) {
    exists p :: PathBetween(g, p, a, b)
  }

  ghost predicate Cycle(g: Graph, p: seq<Id>) {
    Path(g, p) && 2 <= |p| && p[0] == p[|p| - 1]
  }

  ghost predicate Acyclic(g: Graph) {
    forall p :: !Cycle(g, p)
  }

  /** `a` is a proper ancestor of `b`. */
  ghost predicate Ancestor(g: Graph, a: Id, b: Id) {
    exists p :: PathBetween(g, p, a, b) && 2 <= |p|
  }

  /** The steps on some path from `a` to `b`. */
  ghost predicate Between(g: Graph, a: Id, b: Id, n: Id) {
    Reach(g, a, n) && Reach(g, n, b)
  }

  ghost predicate IsTopologicalOrder(g: Graph, order: seq<Id>) {
    && Distinct(order)
    && Elements(order) == Nodes(g)
    && (forall i, j | 0 <= i < |order| && 0 <= j < |order| && Edge(g, order[i], order[j]) :: i < j)
  }

  // ---- edges seen from both ends ----

  lemma EdgeBothWays(g: Graph, p: Id, n: Id)
    requires WellFormed(g)
    ensures Edge(g, p, n) <==> p in Parents(g, n)
    ensures Edge(g, p, n) ==> p in Nodes(g) && n in Nodes(g)
  {
    assert Mirrored(g, p, n);
    assert n in multiset(Children(g, p)) <==> n in Children(g, p);
    assert p in multiset(Parents(g, n)) <==> p in Parents(g, n);
  }

  // ---- reachability ----

  lemma ReachSelf(g: Graph, a: Id)
    requires a in Nodes(g)
    ensures Reach(g, a, a)
  {
    assert PathBetween(g, [a], a, a);
  }

  lemma ReachTrans(g: Graph, a: Id, b: Id, d: Id)
    requires Reach(g, a, b) && Reach(g, b, d)
    ensures Reach(g, a, d)
    ensures a != b || b != d ==> a != d || exists p :: Cycle(g, p)
  {
    var p :| PathBetween(g, p, a, b);
    var q :| PathBetween(g, q, b, d);
    var r := p + q[1..];
    forall i | 0 <= i < |r| - 1
      ensures Edge(g, r[i], r[i + 1])
    {
      if i >= |p| - 1 {
        assert r[i] == q[i - (|p| - 1)];
      }
    }
    assert PathBetween(g, r, a, d);
    if (a != b || b != d) && a == d {
      assert Cycle(g, r);
    }
  }

  lemma ReachEdge(g: Graph, a: Id, b: Id)
    requires WellFormed(g) && Edge(g, a, b)
    ensures Reach(g, a, b) && Ancestor(g, a, b)
  {
    EdgeBothWays(g, a, b);
    assert PathBetween(g, [a, b], a, b);
  }

  /** An ancestor is a reachable step, and in an acyclic graph a different one. */
  lemma AncestorReach(g: Graph, a: Id, b: Id)
    ensures Ancestor(g, a, b) ==> Reach(g, a, b)
    ensures Reach(g, a, b) && a != b ==> Ancestor(g, a, b)
    ensures Acyclic(g) ==> (Ancestor(g, a, b) <==> Reach(g, a, b) && a != b)
  {
    if Ancestor(g, a, b) {
      var p :| PathBetween(g, p, a, b) && 2 <= |p|;
      assert a == b ==> Cycle(g, p);
    }
    if Reach(g, a, b) && a != b {
      var p :| PathBetween(g, p, a, b);
      assert 2 <= |p|;
    }
  }

  /** The last edge of a non-trivial path. */
  lemma LastEdge(g: Graph, a: Id, b: Id) returns (q: Id)
    requires Reach(g, a, b) && a != b
    ensures Reach(g, a, q) && Edge(g, q, b) && q in Nodes(g)
  {
    var p :| PathBetween(g, p, a, b);
    q := p[|p| - 2];
    assert PathBetween(g, p[..|p| - 1], a, q);
  }

  /** The first edge of a non-trivial path. */
  lemma FirstEdge(g: Graph, a: Id, b: Id) returns (q: Id)
    requires Reach(g, a, b) && a != b
    ensures Reach(g, q, b) && Edge(g, a, q) && q in Nodes(g)
  {
    var p :| PathBetween(g, p, a, b);
    q := p[1];
    assert PathBetween(g, p[1..], q, b);
  }

  // ---- cycles ----

  /** A topological order excludes cycles: positions strictly grow along a path. */
  lemma TopologicalOrderExcludesCycles(g: Graph, order: seq<Id>)
    requires WellFormed(g) && IsTopologicalOrder(g, order)
    ensures Acyclic(g)
  {
    forall p | Cycle(g, p)
      ensures false
    {
      PositionsGrow(g, order, p, |p| - 1);
    }
  }

  ghost function Position(order: seq<Id>, n: Id): (i: nat)
    requires n in order
    ensures i < |order| && order[i] == n
  {
    var i :| 0 <= i < |order| && order[i] == n;
    i
  }

  lemma {:induction false} PositionsGrow(g: Graph, order: seq<Id>, p: seq<Id>, k: nat)
    requires IsTopologicalOrder(g, order) && Path(g, p) && k < |p|
    ensures forall i | 0 <= i < |p| :: p[i] in order
    ensures k > 0 ==> Position(order, p[0]) < Position(order, p[k])
  {
    forall i | 0 <= i < |p|
      ensures p[i] in order
    {
      assert p[i] in Nodes(g);
      assert p[i] in Elements(order);
    }
    if k > 0 {
      PositionsGrow(g, order, p, k - 1);
      assert Edge(g, p[k - 1], p[k]);
    }
  }

  ghost predicate HasParentIn(g: Graph, stuck: set<Id>, n: Id) {
    exists q :: q in stuck && Edge(g, q, n)
  }

  /** Every member is a step with a parent that is a member as well. */
  ghost predicate Stuck(g: Graph, stuck: set<Id>) {
    && (forall m | m in stuck :: m in Nodes(g))
    && (forall m {:trigger HasParentIn(g, stuck, m)} | m in stuck :: HasParentIn(g, stuck, m))
  }

  ghost predicate PathInside(g: Graph, stuck: set<Id>, p: seq<Id>) {
    Path(g, p) && forall i | 0 <= i < |p| :: p[i] in stuck
  }

  /** Walking from parent to parent inside a stuck set extends a path by any length. */
  lemma {:induction false} WalkBack(g: Graph, stuck: set<Id>, tail: seq<Id>, more: nat) returns (p: seq<Id>)
    requires Stuck(g, stuck) && PathInside(g, stuck, tail)
    ensures PathInside(g, stuck, p) && |p| == |tail| + more
    decreases more
  {
    if more == 0 {
      p := tail;
    } else {
      assert HasParentIn(g, stuck, tail[0]);
      var q :| q in stuck && Edge(g, q, tail[0]);
      var longer := [q] + tail;
      assert PathInside(g, stuck, longer);
      p := WalkBack(g, stuck, longer, more - 1);
    }
  }

  lemma {:induction false} DistinctSize(s: seq<Id>)
    ensures |Elements(s)| <= |s|
    ensures Distinct(s) ==> |Elements(s)| == |s|
  {
    if s != [] {
      var last := |s| - 1;
      DistinctSize(s[..last]);
      assert Elements(s) == Elements(s[..last]) + {s[last]};
      if Distinct(s) {
        assert s[last] !in Elements(s[..last]);
      }
    }
  }

  lemma SubsetSize(a: set<Id>, b: set<Id>)
    requires a <= b
    ensures |a| <= |b|
    ensures a != b ==> |a| < |b|
  {
    assert b == a + (b - a);
    if a != b {
      var x :| x in b - a;
      assert |b - a| >= 1;
    }
  }

  /** Pigeonhole: a path longer than the set it stays in visits some step twice. */
  lemma LongPathHasCycle(g: Graph, stuck: set<Id>, p: seq<Id>)
    requires PathInside(g, stuck, p) && |p| > |stuck|
    ensures exists q :: Cycle(g, q)
  {
    assert Elements(p) <= stuck;
    SubsetSize(Elements(p), stuck);
    DistinctSize(p);
    var i, j :| 0 <= i < j < |p| && p[i] == p[j];
    assert Cycle(g, p[i..j + 1]);
  }

  /** A non-empty set of steps each of which has a parent in the set contains a cycle. */
  lemma StuckSetHasCycle(g: Graph, stuck: set<Id>)
    requires Stuck(g, stuck)
    ensures stuck != {} ==> !Acyclic(g)
  {
    if n :| n in stuck {
      assert PathInside(g, stuck, [n]);
      var p := WalkBack(g, stuck, [n], |stuck|);
      LongPathHasCycle(g, stuck, p);
    }
  }
}
