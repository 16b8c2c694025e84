/**
 The region a goto re-executes: the steps on some path from the goto's target to
 the goto step, found by one search along the children and one along the parents.
 */
module LoopBody {
  import opened Graph
  import opened Ledger

  ghost predicate IsLoopBody(g: Graph, target: Id, from: Id, body: seq<Id>) {
    Distinct(body) && forall n :: n in body <==> Between(g, target, from, n)
  }

  /** Only the goto step has children outside the region. */
  ghost predicate SingleExit(g: Graph, target: Id, from: Id) {
    forall b, child | Between(g, target, from, b) && b != from && Edge(g, b, child) :: Between(g, target, from, child)
  }

  /** What the scheduler needs of a goto; `validateGotos` looks at positions only. */
  ghost predicate WellFormedLoop(g: Graph, target: Id, from: Id) {
    Ancestor(g, target, from) && SingleExit(g, target, from)
  }

  // ---- searching ----

  ghost predicate ClosedUnder(s: set<Id>, next: map<Id, seq<Id>>) {
    forall n, m | n in s && n in next && m in next[n] :: m in s
  }

  lemma {:induction false} ClosedForward(g: Graph, s: set<Id>, p: seq<Id>)
    requires ClosedUnder(s, g.children) && Path(g, p) && p[0] in s
    ensures p[|p| - 1] in s
  {
    if |p| > 1 {
      assert Edge(g, p[0], p[1]);
      ClosedForward(g, s, p[1..]);
    }
  }

  lemma {:induction false} ClosedBackward(g: Graph, s: set<Id>, p: seq<Id>)
    requires WellFormed(g) && ClosedUnder(s, g.parents) && Path(g, p) && p[|p| - 1] in s
    ensures p[0] in s
  {
    if |p| > 1 {
      var last := |p| - 1;
      assert Edge(g, p[last - 1], p[last]);
      EdgeBothWays(g, p[last - 1], p[last]);
      ClosedBackward(g, s, p[..last]);
    }
  }

  /** `seen` lies in every closed set that holds `start`. */
  ghost predicate Least(next: map<Id, seq<Id>>, start: Id, seen: set<Id>) {
    forall s: set<Id> | start in s && ClosedUnder(s, next) :: seen <= s
  }

  /** Queued steps are seen; all but them and those in `busy` have had their neighbours seen. */
  ghost predicate Frontier(next: map<Id, seq<Id>>, seen: set<Id>, queue: seq<Id>, busy: set<Id>) {
    && (forall n | n in queue :: n in seen)
    && (forall n, m | n in seen && n !in queue && n !in busy && n in next && m in next[n] :: m in seen)
  }

  lemma Discover(next: map<Id, seq<Id>>, start: Id, seen: set<Id>, queue: seq<Id>, id: Id, m: Id)
    requires Least(next, start, seen) && Frontier(next, seen, queue, {id})
    requires id in seen && id in next && m in next[id]
    ensures Least(next, start, seen + {m}) && Frontier(next, seen + {m}, queue + [m], {id})
  {
  }

  lemma TakeNext(next: map<Id, seq<Id>>, seen: set<Id>, queue: seq<Id>)
    requires Frontier(next, seen, queue, {}) && queue != []
    ensures queue[0] in seen && Frontier(next, seen, queue[1..], {queue[0]})
  {
    assert queue == [queue[0]] + queue[1..];
  }

  lemma Settle(next: map<Id, seq<Id>>, seen: set<Id>, queue: seq<Id>, id: Id)
    requires Frontier(next, seen, queue, {id}) && (id in next ==> forall m | m in next[id] :: m in seen)
    ensures Frontier(next, seen, queue, {})
  {
  }

  lemma FrontierEmpty(next: map<Id, seq<Id>>, seen: set<Id>)
    requires Frontier(next, seen, [], {})
    ensures ClosedUnder(seen, next)
  {
  }

  lemma SearchStart(next: map<Id, seq<Id>>, start: Id)
    ensures Least(next, start, {start}) && Frontier(next, {start}, [start], {})
  {
  }

  /**
   Breadth-first search along `next`: the smallest set that holds `start` and is closed.
   `inside` is any closed set that bounds the search.
   */
  method Search(next: map<Id, seq<Id>>, start: Id, ghost inside: set<Id>) returns (seen: set<Id>)
    requires start in inside && ClosedUnder(inside, next)
    ensures start in seen && ClosedUnder(seen, next) && Least(next, start, seen)
  {
    hide Frontier, ClosedUnder, Least;
    SearchStart(next, start);
    seen := {start};
    var queue := [start];
    while queue != []
      invariant start in seen && Least(next, start, seen) && Frontier(next, seen, queue, {})
      decreases inside - seen, |queue|
    {
      WithinBound(next, start, seen, inside);
      var id := queue[0];
      TakeNext(next, seen, queue);
      ghost var before, waiting := seen, queue[1..];
      queue := queue[1..];
      var adjacent := if id in next then next[id] else [];
      for i := 0 to |adjacent|
        invariant before <= seen && Least(next, start, seen) && Frontier(next, seen, queue, {id})
        invariant seen == before ==> queue == waiting
        invariant forall j | 0 <= j < i :: adjacent[j] in seen
      {
        var m := adjacent[i];
        assert m in next[id];
        if m !in seen {
          Discover(next, start, seen, queue, id, m);
          seen := seen + {m};
          queue := queue + [m];
        }
      }
      Settle(next, seen, queue, id);
      WithinBound(next, start, seen, inside);
    }
    FrontierEmpty(next, seen);
  }

  lemma WithinBound(next: map<Id, seq<Id>>, start: Id, seen: set<Id>, inside: set<Id>)
    requires Least(next, start, seen) && start in inside && ClosedUnder(inside, next)
    ensures seen <= inside
  {
  }

  /**
   Exactly the steps on some path from the target to the goto step; none if and
   only if the target does not reach the goto step.
   */
  method FindLoopBody(g: Graph, target: Id, from: Id) returns (body: seq<Id>)
    requires WellFormed(g) && target in Nodes(g) && from in Nodes(g)
    ensures IsLoopBody(g, target, from, body)
    ensures body == [] <==> !Reach(g, target, from)
  {
    ghost var all := Nodes(g);
    forall n, m | n in all && n in g.children && m in g.children[n]
      ensures m in all
    {
      assert Edge(g, n, m);
    }
    forall n, m | n in all && n in g.parents && m in g.parents[n]
      ensures m in all
    {
      assert m in Parents(g, n);
      EdgeBothWays(g, m, n);
    }
    var forward := Search(g.children, target, all);
    var backward := Search(g.parents, from, all);
    SearchIsReach(g, target, from, forward, backward);
    body := [];
    var rest := forward;
    while rest != {}
      invariant rest <= forward
      invariant Distinct(body)
      invariant forall n :: n in body <==> n in forward && n !in rest && n in backward
    {
      var id :| id in rest;
      rest := rest - {id};
      if id in backward {
        body := body + [id];
      }
    }
    BodyEmpty(g, target, from, body);
  }

  /** The two searches find the descendants of the target and the ancestors of the goto step. */
  lemma SearchIsReach(g: Graph, target: Id, from: Id, forward: set<Id>, backward: set<Id>)
    requires WellFormed(g) && target in Nodes(g) && from in Nodes(g)
    requires target in forward && ClosedUnder(forward, g.children)
    requires Least(g.children, target, forward)
    requires from in backward && ClosedUnder(backward, g.parents)
    requires Least(g.parents, from, backward)
    ensures forall n :: n in forward <==> Reach(g, target, n)
    ensures forall n :: n in backward <==> Reach(g, n, from)
  {
    var below := set n | n in Nodes(g) && Reach(g, target, n);
    ReachSelf(g, target);
    forall n, m | n in below && n in g.children && m in g.children[n]
      ensures m in below
    {
      assert Edge(g, n, m);
      ReachEdge(g, n, m);
      ReachTrans(g, target, n, m);
    }
    assert forward <= below;
    forall n | Reach(g, target, n)
      ensures n in forward
    {
      var p :| PathBetween(g, p, target, n);
      ClosedForward(g, forward, p);
    }
    var above := set n | n in Nodes(g) && Reach(g, n, from);
    ReachSelf(g, from);
    forall n, m | n in above && n in g.parents && m in g.parents[n]
      ensures m in above
    {
      assert m in Parents(g, n);
      EdgeBothWays(g, m, n);
      ReachEdge(g, m, n);
      ReachTrans(g, m, n, from);
    }
    assert backward <= above;
    forall n | Reach(g, n, from)
      ensures n in backward
    {
      var p :| PathBetween(g, p, n, from);
      ClosedBackward(g, backward, p);
    }
  }

  lemma BodyEmpty(g: Graph, target: Id, from: Id, body: seq<Id>)
    requires target in Nodes(g) && IsLoopBody(g, target, from, body)
    ensures body == [] <==> !Reach(g, target, from)
    ensures body != [] ==> target in body
  {
    if Reach(g, target, from) {
      ReachSelf(g, target);
      assert Between(g, target, from, target);
      assert target in body;
    } else if body != [] {
      var n := body[0];
      assert n in body;
      ReachTrans(g, target, n, from);
    }
  }

  // ---- regions that overlap ----

  /** Following a path out of a region with a single exit leads through its goto step, unless the path ends inside. */
  lemma {:induction false} SingleExitPath(g: Graph, target: Id, from: Id, p: seq<Id>)
    requires SingleExit(g, target, from) && Path(g, p) && Between(g, target, from, p[0])
    ensures Between(g, target, from, p[|p| - 1]) || Reach(g, from, p[|p| - 1])
  {
    hide Reach;
    if p[0] == from {
      assert PathBetween(g, p, from, p[|p| - 1]);
      PathReaches(g, p);
    } else if |p| > 1 {
      assert Edge(g, p[0], p[1]);
      SingleExitPath(g, target, from, p[1..]);
    }
  }

  lemma PathReaches(g: Graph, p: seq<Id>)
    requires Path(g, p)
    ensures Reach(g, p[0], p[|p| - 1])
  {
    assert PathBetween(g, p, p[0], p[|p| - 1]);
  }

  /** Of two single-exit regions that share a step, one goto step is an ancestor of the other or the same. */
  lemma SharedStepOrders(g: Graph, target: Id, from: Id, target': Id, from': Id, shared: Id)
    requires SingleExit(g, target, from)
    requires Between(g, target, from, shared) && Between(g, target', from', shared)
    ensures Reach(g, from, from') || Reach(g, from', from)
  {
    var p :| PathBetween(g, p, shared, from');
    hide Reach;
    SingleExitPath(g, target, from, p);
  }

  // ---- in-degrees inside the region ----

  method LoopInDegree(g: Graph, bodySet: set<Id>, step: Id) returns (count: nat)
    ensures count == CountIn(Parents(g, step), bodySet)
  {
    count := 0;
    var ps := if step in g.parents then g.parents[step] else [];
    for i := 0 to |ps|
      invariant count + CountIn(ps[i..], bodySet) == CountIn(ps, bodySet)
    {
      assert ps[i..] == [ps[i]] + ps[i + 1..];
      if ps[i] in bodySet {
        count := count + 1;
      }
    }
  }

  /** The in-degree table after every step of `body` is reset. */
  function Rewound(g: Graph, body: seq<Id>, inDegree: map<Id, int>): map<Id, int> {
    map n | n in inDegree.Keys + Elements(body) ::
      if n in body then CountIn(Parents(g, n), Elements(body)) else inDegree[n]
  }

  /** The steps of `body` whose in-degree is zero, in the order of `body`. */
  function ReadySteps(body: seq<Id>, inDegree: map<Id, int>): seq<Id> {
    if body == [] then []
    else (if body[0] in inDegree && inDegree[body[0]] != 0 then [] else [body[0]]) + ReadySteps(body[1..], inDegree)
  }

  /**
   In an acyclic graph the target of a loop is the only step of the region without
   a parent in the region.
   */
  lemma TargetIsOnlyEntry(g: Graph, target: Id, from: Id, body: seq<Id>, n: Id)
    requires WellFormed(g) && Acyclic(g) && IsLoopBody(g, target, from, body) && n in body
    ensures CountIn(Parents(g, n), Elements(body)) == 0 <==> n == target
  {
    CountInZero(Parents(g, n), Elements(body));
    if n == target {
      forall p | p in Parents(g, n) && p in body
        ensures false
      {
        EdgeBothWays(g, p, n);
        ReachEdge(g, p, n);
        ReachTrans(g, target, p, n);
        AncestorReach(g, p, n);
      }
    } else {
      var q := LastEdge(g, target, n);
      EdgeBothWays(g, q, n);
      ReachEdge(g, q, n);
      ReachTrans(g, q, n, from);
      assert Between(g, target, from, q);
      assert q in body;
    }
  }

  /** Hence a rewind makes exactly the target ready, whatever order the region is listed in. */
  lemma RewindReadiesTarget(g: Graph, target: Id, from: Id, body: seq<Id>, inDegree: map<Id, int>)
    requires WellFormed(g) && Acyclic(g) && target in Nodes(g) && IsLoopBody(g, target, from, body)
    ensures ReadySteps(body, Rewound(g, body, inDegree)) == if Reach(g, target, from) then [target] else []
  {
    var after := Rewound(g, body, inDegree);
    forall n | n in body
      ensures n in after && (after[n] == 0 <==> n == target)
    {
      TargetIsOnlyEntry(g, target, from, body, n);
    }
    BodyEmpty(g, target, from, body);
    ReadyOnly(body, after, target);
  }

  lemma {:induction false} ReadyOnly(body: seq<Id>, inDegree: map<Id, int>, target: Id)
    requires Distinct(body)
    requires forall n | n in body :: n in inDegree && (inDegree[n] == 0 <==> n == target)
    ensures ReadySteps(body, inDegree) == if target in body then [target] else []
  {
    if body != [] {
      ReadyOnly(body[1..], inDegree, target);
      if body[0] == target {
        assert target !in body[1..];
      }
    }
  }
}
