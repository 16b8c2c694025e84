/**
 The shared state of one execution as the engine keeps it, with one method per critical
 section.  Each method does to the fields what the scheduler model says it does.
 */
module DagState {
  import opened Graph
  import opened Ledger
  import opened LoopBody
  import opened BuildDag
  import opened StepNode
  import opened Wrappers
  import opened Scheduler

  /** The table when the first `k` steps of the region are reset. */
  ghost function ResetTo(g: Graph, body: seq<Id>, before: map<Id, int>, k: nat): map<Id, int>
    requires k <= |body|
  {
    map n | n in before.Keys + Elements(body[..k]) ::
      if n in body[..k] then CountIn(Parents(g, n), Elements(body)) else before[n]
  }

  lemma ResetStart(g: Graph, body: seq<Id>, before: map<Id, int>, results: Results)
    ensures ResetTo(g, body, before, 0) == before && results - Elements(body[..0]) == results
    ensures ResetTo(g, body, before, |body|) == Rewound(g, body, before)
  {
    assert body[..|body|] == body;
  }

  lemma ResetNext(g: Graph, body: seq<Id>, before: map<Id, int>, results: Results, k: nat)
    requires k < |body|
    ensures ResetTo(g, body, before, k + 1)
            == ResetTo(g, body, before, k)[body[k] := CountIn(Parents(g, body[k]), Elements(body))]
    ensures results - Elements(body[..k + 1]) == (results - Elements(body[..k])) - {body[k]}
  {
    assert body[..k + 1] == body[..k] + [body[k]];
    assert Elements(body[..k + 1]) == Elements(body[..k]) + {body[k]};
  }

  class DagState {
    const g: Graph
    const gotoLoops: map<Id, Loop>
    const execCtx: ExecutionContext
    var firstErr: Option<Id>
    var ready: seq<Id>
    var closes: nat
    var completed: int
    var inDegree: map<Id, int>
    var gotoIterations: map<Id, nat>

    ghost predicate Uses(c: Config) {
      c.g == g && c.loops == gotoLoops
    }

    /** The fields hold what the model's state says. */
    ghost predicate Agrees(s: State)
      reads this, execCtx
    {
      && firstErr == s.firstErr && ready == s.ready && closes == s.closes && completed == s.completed
      && inDegree == s.inDegree && gotoIterations == s.iterations && execCtx.steps == s.results
    }

    /**
     From a graph the builder accepted to the initial state: in-degrees, the region of
     every goto, and the roots in the channel.
     */
    constructor (g: Graph, roots: seq<Id>, gotos: map<Id, Goto>, execCtx: ExecutionContext)
      requires WellFormed(g) && roots == RootList(g, g.ids)
      requires forall n | n in gotos :: n in Nodes(g) && gotos[n].target in Nodes(g)
      ensures this.g == g && this.execCtx == execCtx && gotoLoops.Keys == gotos.Keys
      ensures forall n | n in gotos ::
                gotoLoops[n].target == gotos[n].target && gotoLoops[n].maxIterations == gotos[n].maxIterations
      ensures forall c | Uses(c) && Acyclic(g) && g.ids != [] && c.slots > 0 :: ValidConfig(c)
      ensures forall c | Uses(c) && execCtx.steps == Init(c).results :: Agrees(Init(c))
    {
      var loops: map<Id, Loop> := map[];
      var rest := gotos.Keys;
      while rest != {}
        invariant rest <= gotos.Keys && loops.Keys == gotos.Keys - rest
        invariant forall n | n in loops ::
                    && loops[n].target == gotos[n].target && loops[n].maxIterations == gotos[n].maxIterations
                    && IsLoopBody(g, loops[n].target, n, loops[n].body)
        decreases rest
      {
        var n :| n in rest;
        var body := FindLoopBody(g, gotos[n].target, n);
        loops := loops[n := Loop(gotos[n].target, body, gotos[n].maxIterations)];
        rest := rest - {n};
      }
      this.g := g;
      this.execCtx := execCtx;
      gotoLoops := loops;
      firstErr := None;
      ready := roots;
      closes := 0;
      completed := 0;
      inDegree := map n | n in g.children.Keys :: |Parents(g, n)|;
      gotoIterations := map[];
    }

    /** Resets in-degrees to the edges inside the region, uncounts its steps and clears their results. */
    method ResetLoopBody(body: seq<Id>)
      modifies this`inDegree, this`completed, execCtx
      ensures inDegree == Rewound(g, body, old(inDegree))
      ensures completed == old(completed) - |body|
      ensures execCtx.steps == old(execCtx.steps) - Elements(body)
    {
      hide CountIn, Elements;
      var bodySet := Elements(body);
      ghost var before, results := inDegree, execCtx.steps;
      ResetStart(g, body, before, results);
      for i := 0 to |body|
        invariant inDegree == ResetTo(g, body, before, i)
        invariant completed == old(completed) - i
        invariant execCtx.steps == results - Elements(body[..i])
      {
        var degree := LoopInDegree(g, bodySet, body[i]);
        ResetNext(g, body, before, results, i);
        inDegree := inDegree[body[i] := degree];
        completed := completed - 1;
        execCtx.ClearStepResult(body[i]);
      }
      assert body[..|body|] == body;
    }

    /** The steps of the region without a parent in it. */
    method CollectReadyLoopNodes(body: seq<Id>) returns (nodes: seq<Id>)
      ensures nodes == ReadySteps(body, inDegree)
    {
      nodes := [];
      for i := 0 to |body|
        invariant nodes + ReadySteps(body[i..], inDegree) == ReadySteps(body, inDegree)
      {
        assert body[i..][1..] == body[i + 1..];
        if body[i] !in inDegree || inDegree[body[i]] == 0 {
          nodes := nodes + [body[i]];
        }
      }
    }

    /** Takes the goto if there is one, its condition holds and its limit is not used up. */
    method HandleGoto(n: Id, wanted: bool, ghost c: Config, ghost s: State) returns (nodes: seq<Id>, triggered: bool)
      requires Uses(c) && Agrees(s.(completed := s.completed + 1))
      modifies this`inDegree, this`completed, this`gotoIterations, execCtx
      ensures triggered <==> JumpTaken(c, s, n, false, wanted)
      ensures triggered ==> Agrees(Rewind(c, s, n).0) && Rewind(c, s, n).1 == NextJump(n, nodes)
      ensures !triggered ==> Agrees(s.(completed := s.completed + 1)) && nodes == []
    {
      hide Rewound, ReadySteps, NextJump;
      if n !in gotoLoops {
        return [], false;
      }
      var used := if n in gotoIterations then gotoIterations[n] else 0;
      if !wanted || used >= gotoLoops[n].maxIterations {
        return [], false;
      }
      gotoIterations := gotoIterations[n := used + 1];
      ResetLoopBody(gotoLoops[n].body);
      nodes := CollectReadyLoopNodes(gotoLoops[n].body);
      triggered := true;
    }

    /** The critical section after a step: its error, the counter, the goto. */
    method Finished(n: Id, failed: bool, wanted: bool, ghost c: Config, ghost s: State)
      returns (nodes: seq<Id>, triggered: bool, allDone: bool)
      requires Uses(c) && Agrees(s)
      modifies this`firstErr, this`inDegree, this`completed, this`gotoIterations, execCtx
      ensures Agrees(Finish(c, s, n, failed, wanted).0)
      ensures Finish(c, s, n, failed, wanted).1
              == if triggered then NextJump(n, nodes) else if allDone then Close(n) else NextSignal(c, n, 0)
      ensures triggered ==> !failed
    {
      if failed && firstErr.None? {
        firstErr := Some(n);
      }
      completed := completed + 1;
      ghost var s1 := if failed && s.firstErr == None then s.(firstErr := Some(n)) else s;
      assert Agrees(s1.(completed := s1.completed + 1));
      if !failed {
        nodes, triggered := HandleGoto(n, wanted, c, s1);
        if triggered {
          return nodes, true, false;
        }
      }
      return [], false, completed >= |g.ids|;
    }

    /** A refused step: its result is written outside the lock, then it is counted. */
    method CountSkipped(n: Id, ghost c: Config, ghost s: State) returns (allDone: bool)
      requires Uses(c) && Agrees(s)
      modifies this`completed
      ensures Agrees(Counted(c, s, n).0)
      ensures Counted(c, s, n).1 == if allDone then Close(n) else NextSignal(c, n, 0)
    {
      completed := completed + 1;
      allDone := completed >= |g.ids|;
    }

    /** One iteration of enqueueChildren under the lock. */
    method SignalNext(n: Id, k: nat, ghost c: Config, ghost s: State) returns (shouldEnqueue: bool)
      requires Uses(c) && Agrees(s) && k < |Children(g, n)|
      modifies this`inDegree
      ensures Agrees(Signalled(c, s, n, k).0)
      ensures Signalled(c, s, n, k).1 == if shouldEnqueue then Send(n, k) else NextSignal(c, n, k + 1)
    {
      var child := g.children[n][k];
      var degree := (if child in inDegree then inDegree[child] else 0) - 1;
      inDegree := inDegree[child := degree];
      shouldEnqueue := degree <= 0;
    }

    /** Closing a closed channel panics, so the caller must be the first. */
    method CloseDone(ghost ag: Agent, ghost c: Config, ghost s: State)
      requires closes == 0 && Agrees(s) && Enabled(c, s, Action.CloseDone(ag))
      modifies this`closes
      ensures Agrees(Do(c, s, Action.CloseDone(ag)))
    {
      closes := closes + 1;
    }
  }

  /** The roots the graph builder collected are the steps the scheduler starts with. */
  lemma BuiltRoots(steps: seq<Step>)
    requires UniqueIds(steps) && DependenciesKnown(steps)
    ensures RootsOf(steps) == RootList(StepGraph(steps), Ids(steps))
  {
    hide Distinct, ParentsAfter, ChildrenOf, StepGraph, KnownTo;
    RootsUpTo(steps, |steps|);
    assert steps[..|steps|] == steps && Ids(steps)[..|steps|] == Ids(steps);
  }

  lemma {:induction false} RootsUpTo(steps: seq<Step>, k: nat)
    requires UniqueIds(steps) && k <= |steps|
    ensures RootsOf(steps[..k]) == RootList(StepGraph(steps), Ids(steps)[..k])
  {
    if k > 0 {
      RootsUpTo(steps, k - 1);
      assert steps[..k][..k - 1] == steps[..k - 1];
      assert Ids(steps)[..k] == Ids(steps)[..k - 1] + [steps[k - 1].id];
      RootListAppend(StepGraph(steps), Ids(steps)[..k - 1], steps[k - 1].id);
      ParentsAsWritten(steps, k - 1);
    }
  }

  lemma {:induction false} RootListAppend(g: Graph, ids: seq<Id>, n: Id)
    ensures RootList(g, ids + [n]) == RootList(g, ids) + if Parents(g, n) == [] then [n] else []
  {
    if ids == [] {
      assert ids + [n] == [n];
    } else {
      assert (ids + [n])[1..] == ids[1..] + [n];
      RootListAppend(g, ids[1..], n);
    }
  }
}
