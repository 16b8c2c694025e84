/**
 Two workflows that the graph builder accepts and that go wrong under some schedule,
 because the position check on a goto target is weaker than well-formedness of the loop:
 one never finishes, the other closes `done` twice.
 */
module Witnesses {
  import opened Graph
  import opened Ledger
  import opened LoopBody
  import opened BuildDag
  import opened StepNode
  import opened Wrappers
  import opened Scheduler
  import opened SchedulerSafety

  const A: Id := "a"
  const B: Id := "b"
  const G: Id := "g"
  const X: Id := "x"

  /** Two steps without dependencies; `g` jumps to `a`. */
  const UNRELATED := [Step(A, [], None), Step(G, [], Some(Goto(A, 1)))]

  /** `g` and `x` depend on `b`; `g` jumps back to `b`. */
  const SIDE_EXIT := [Step(B, [], None), Step(G, [B], Some(Goto(B, 1))), Step(X, [B], None)]

  /** No condition and the default policies. */
  function Unconditional(n: Id): StepSpec {
    StepSpec(false, Stop, Retry)
  }

  function ConfigOf(g: Graph, loop: Loop): Config {
    Config(g, map[G := loop], Unconditional, 1, false, map[])
  }

  // ---- one action after another ----

  /** No goroutine has anything left to do except what is queued. */
  ghost predicate Calm(s: State, ready: seq<Id>, completed: int, inDegree: map<Id, int>, iterations: map<Id, nat>, closes: nat) {
    && s.ready == ready && s.completed == completed && s.inDegree == inDegree && s.iterations == iterations
    && s.closes == closes && s.firstErr == None && s.sem == 0 && s.wg == 0
    && s.dispatcher == Await && s.caller == AwaitDone && forall i | 0 <= i < |s.workers| :: s.workers[i] == Gone
  }

  lemma CalmMeans(s: State, ready: seq<Id>, completed: int, inDegree: map<Id, int>, iterations: map<Id, nat>, closes: nat)
    requires Calm(s, ready, completed, inDegree, iterations, closes)
    ensures s.closes == closes && s.completed == completed
  {
  }

  /** A calm state except that the newest worker has a task. */
  ghost predicate Active(
    s: State, t: Task, ready: seq<Id>, completed: int, inDegree: map<Id, int>, iterations: map<Id, nat>, closes: nat)
  {
    && s.ready == ready && s.completed == completed && s.inDegree == inDegree && s.iterations == iterations
    && s.closes == closes && s.firstErr == None && s.sem == 1 && s.wg == 1
    && s.dispatcher == Await && s.caller == AwaitDone
    && s.workers != [] && s.workers[|s.workers| - 1] == t && forall i | 0 <= i < |s.workers| - 1 :: s.workers[i] == Gone
  }

  function Newest(s: State): nat {
    if s.workers == [] then 0 else |s.workers| - 1
  }

  /** The dispatcher starts the first queued step. */
  lemma Start(c: Config, s: State, ready: seq<Id>, done: int, deg: map<Id, int>, it: map<Id, nat>, k: nat) returns (s': State)
    requires Reachable(c, s) && Calm(s, ready, done, deg, it, k) && ready != [] && c.slots == 1
    ensures Reachable(c, s') && Active(s', Run(ready[0]), ready[1..], done, deg, it, k)
  {
    ReachableNext(c, s, Receive);
    var s1 := Do(c, s, Receive);
    ReachableNext(c, s1, Inspect);
    var s2 := Do(c, s1, Inspect);
    ReachableNext(c, s2, Add);
    var s3 := Do(c, s2, Add);
    ReachableNext(c, s3, Take);
    s' := Do(c, s3, Take);
    assert s'.workers == s.workers + [Run(ready[0])];
  }

  /** The step succeeds. */
  lemma Succeed(c: Config, s: State, n: Id, ready: seq<Id>, done: int, deg: map<Id, int>, it: map<Id, nat>, k: nat) returns (s': State)
    requires Reachable(c, s) && Active(s, Run(n), ready, done, deg, it, k) && !c.resumed && c.specs == Unconditional
    ensures Reachable(c, s') && Active(s', Ran(n, false), ready, done, deg, it, k)
  {
    var a := Execute(Newest(s), Answers(WhenTrue, Succeeded(Null)));
    ReachableNext(c, s, a);
    s' := Do(c, s, a);
  }

  /** Its goroutine ends. */
  lemma End(c: Config, s: State, ready: seq<Id>, done: int, deg: map<Id, int>, it: map<Id, nat>, k: nat) returns (s': State)
    requires Reachable(c, s) && Active(s, Leave, ready, done, deg, it, k)
    ensures Reachable(c, s') && Calm(s', ready, done, deg, it, k)
  {
    var i := Newest(s);
    ReachableNext(c, s, Release(i));
    var s1 := Do(c, s, Release(i));
    ReachableNext(c, s1, WgDone(i));
    s' := Do(c, s1, WgDone(i));
    assert s'.workers == s.workers[..i] + [Gone];
  }

  /** The critical section after the step, without a goto. */
  lemma Count(c: Config, s: State, n: Id, ready: seq<Id>, done: int, deg: map<Id, int>, it: map<Id, nat>, k: nat) returns (s': State)
    requires Reachable(c, s) && Active(s, Ran(n, false), ready, done, deg, it, k)
    ensures Reachable(c, s')
    ensures Active(s', if done + 1 >= |c.g.ids| then Close(n) else NextSignal(c, n, 0), ready, done + 1, deg, it, k)
  {
    var a := Complete(Newest(s), false);
    ReachableNext(c, s, a);
    s' := Do(c, s, a);
  }

  lemma CloseOnce(c: Config, s: State, n: Id, ready: seq<Id>, done: int, deg: map<Id, int>, it: map<Id, nat>, k: nat) returns (s': State)
    requires Reachable(c, s) && Active(s, Close(n), ready, done, deg, it, k)
    ensures Reachable(c, s') && Active(s', Leave, ready, done, deg, it, k + 1)
  {
    var a := CloseDone(Worker(Newest(s)));
    ReachableNext(c, s, a);
    s' := Do(c, s, a);
  }

  /** A signal that makes a child ready, and the send. */
  lemma SignalSend(c: Config, s: State, n: Id, j: nat, ready: seq<Id>, done: int, deg: map<Id, int>, it: map<Id, nat>, k: nat)
    returns (s': State)
    requires Reachable(c, s) && Active(s, Signal(n, j), ready, done, deg, it, k) && j < |Children(c.g, n)|
    requires Children(c.g, n)[j] in deg && deg[Children(c.g, n)[j]] <= 1 && |ready| < |c.g.ids|
    ensures Reachable(c, s')
    ensures var child := Children(c.g, n)[j];
            Active(s', NextSignal(c, n, j + 1), ready + [child], done, deg[child := deg[child] - 1], it, k)
  {
    var ag := Worker(Newest(s));
    ReachableNext(c, s, SignalChild(ag));
    var s1 := Do(c, s, SignalChild(ag));
    ReachableNext(c, s1, SendChild(ag));
    s' := Do(c, s1, SendChild(ag));
  }

  /** The critical section with the goto taken. */
  lemma TakeGoto(c: Config, s: State, n: Id, ready: seq<Id>, done: int, deg: map<Id, int>, it: map<Id, nat>, k: nat) returns (s': State)
    requires Reachable(c, s) && Active(s, Ran(n, false), ready, done, deg, it, k)
    requires n in c.loops && Get(it, n) < c.loops[n].maxIterations
    ensures Reachable(c, s')
    ensures var body, deg' := c.loops[n].body, Rewound(c.g, c.loops[n].body, deg);
            Active(s', NextJump(n, ReadySteps(body, deg')), ready, done + 1 - |body|, deg', Bump(it, n), k)
  {
    var a := Complete(Newest(s), true);
    ReachableNext(c, s, a);
    s' := Do(c, s, a);
  }

  lemma SendFirst(c: Config, s: State, n: Id, m: Id, ready: seq<Id>, done: int, deg: map<Id, int>, it: map<Id, nat>, k: nat)
    returns (s': State)
    requires Reachable(c, s) && Active(s, Jump(n, [m]), ready, done, deg, it, k) && |ready| < |c.g.ids|
    ensures Reachable(c, s') && Active(s', Leave, ready + [m], done, deg, it, k)
  {
    var a := SendTarget(Newest(s));
    ReachableNext(c, s, a);
    s' := Do(c, s, a);
  }

  /** A step without children from the queue to its end. */
  lemma Leaf(c: Config, s: State, ready: seq<Id>, done: int, deg: map<Id, int>, it: map<Id, nat>, k: nat) returns (s': State)
    requires Reachable(c, s) && Calm(s, ready, done, deg, it, k) && c.slots == 1 && !c.resumed && c.specs == Unconditional
    requires ready != [] && Children(c.g, ready[0]) == []
    ensures Reachable(c, s')
    ensures Calm(s', ready[1..], done + 1, deg, it, if done + 1 >= |c.g.ids| then k + 1 else k)
  {
    hide Reachable;
    var n := ready[0];
    s' := Start(c, s, ready, done, deg, it, k);
    s' := Succeed(c, s', n, ready[1..], done, deg, it, k);
    s' := Count(c, s', n, ready[1..], done, deg, it, k);
    if done + 1 >= |c.g.ids| {
      s' := CloseOnce(c, s', n, ready[1..], done + 1, deg, it, k);
      s' := End(c, s', ready[1..], done + 1, deg, it, k + 1);
    } else {
      s' := End(c, s', ready[1..], done + 1, deg, it, k);
    }
  }

  // ---- unrolling the definitions on three steps at most ----

  lemma EntriesOfOne(id: Id, d: Id, p: Id)
    ensures Entries([], id, p) == []
    ensures Entries([d], id, p) == if d == p then [id] else []
  {
    assert [d][..0] == [];
  }

  lemma UnrelatedGraph()
    ensures StepGraph(UNRELATED) == TWO
  {
    var s1 := UNRELATED[..1];
    assert s1[..0] == [];
    forall p
      ensures ChildrenOf(UNRELATED, p) == []
    {
      EntriesOfOne(A, A, p);
      EntriesOfOne(G, A, p);
      assert ChildrenOf(s1, p) == [];
    }
    assert Ids(UNRELATED) == [A, G];
    assert Elements([A, G]) == {A, G};
    assert ParentsAfter(UNRELATED, 1) == map[A := [], G := []];
    assert ParentsAfter(UNRELATED, 2) == map[A := [], G := []];
  }

  lemma ChildrenAppend(steps: seq<Step>, last: Step, p: Id)
    ensures ChildrenOf(steps + [last], p) == ChildrenOf(steps, p) + Entries(last.dependsOn, last.id, p)
  {
    assert (steps + [last])[..|steps|] == steps;
  }

  lemma SideExitChildren(p: Id)
    ensures ChildrenOf(SIDE_EXIT, p) == if p == B then [G, X] else []
  {
    hide Entries, ChildrenOf;
    var b, g, x := SIDE_EXIT[0], SIDE_EXIT[1], SIDE_EXIT[2];
    EntriesOfOne(B, B, p);
    EntriesOfOne(G, B, p);
    EntriesOfOne(X, B, p);
    NoChildren(p);
    ChildrenAppend([], b, p);
    ChildrenAppend([b], g, p);
    ChildrenAppend([b, g], x, p);
    assert SIDE_EXIT == [b, g] + [x] && [b, g] == [b] + [g] && [b] == [] + [b];
  }

  lemma NoChildren(p: Id)
    ensures ChildrenOf([], p) == []
  {
  }

  lemma SideExitParents()
    ensures ParentsAfter(SIDE_EXIT, 3) == map[B := [], G := [B], X := [B]]
  {
    assert Ids(SIDE_EXIT) == [B, G, X];
    assert Elements([B, G, X]) == {B, G, X};
    assert ParentsAfter(SIDE_EXIT, 1) == map[B := [], G := [], X := []];
    assert ParentsAfter(SIDE_EXIT, 2) == map[B := [], G := [B], X := []];
  }

  lemma SideExitGraph()
    ensures StepGraph(SIDE_EXIT) == FORK
  {
    hide ChildrenOf, ParentsAfter;
    forall p
      ensures ChildrenOf(SIDE_EXIT, p) == if p == B then [G, X] else []
    {
      SideExitChildren(p);
    }
    SideExitParents();
    assert Ids(SIDE_EXIT) == [B, G, X];
    assert Elements([B, G, X]) == {B, G, X};
  }

  // ---- a target that is no ancestor ----

  const TWO := Graph([A, G], map[A := [], G := []], map[A := [], G := []])

  lemma TwoWellFormed()
    ensures WellFormed(TWO) && IsTopologicalOrder(TWO, [A, G]) && GotosBefore(UNRELATED, [A, G])
  {
    assert TWO.ids[0] == A && TWO.ids[1] == G;
    assert Elements([A, G]) == {A, G};
    assert TargetBefore([A, G], A, G);
  }

  lemma TwoRoots()
    ensures StepGraph(UNRELATED) == TWO
    ensures WellFormed(TWO) && Acyclic(TWO) && IsTopologicalOrder(TWO, [A, G]) && GotosBefore(UNRELATED, [A, G])
    ensures !Reach(TWO, A, G)
  {
    hide StepGraph, WellFormed, Acyclic, IsTopologicalOrder, GotosBefore, Reach;
    UnrelatedGraph();
    TwoWellFormed();
    TopologicalOrderExcludesCycles(TWO, [A, G]);
    if Reach(TWO, A, G) {
      var q := FirstEdge(TWO, A, G);
      assert false;
    }
  }

  /**
   The graph builder accepts the workflow, every step is executed and counted, and then
   nothing can happen any more although the call has not returned.
   */
  lemma UnrelatedTargetHangs() returns (c: Config, s: State)
    ensures c.g == StepGraph(UNRELATED) && ValidConfig(c) && GotosBefore(UNRELATED, [A, G]) && IsTopologicalOrder(c.g, [A, G])
    ensures !Ancestor(c.g, A, G)
    ensures Reachable(c, s) && s.completed == |c.g.ids| && s.closes == 0 && !s.caller.Returned?
    ensures forall a :: !Enabled(c, s, a)
  {
    hide Reachable, ValidConfig, Acyclic, Ancestor, WellFormed, IsTopologicalOrder, GotosBefore, StepGraph, Calm, Init, Enabled;
    TwoRoots();
    c := ConfigOf(TWO, Loop(A, [], 1));
    TwoValid(c);
    s := Init(c);
    ReachableStart(c);
    var deg := map[A := 0, G := 0];
    TwoStart(c);
    s := Leaf(c, s, [A, G], 0, deg, map[], 0);
    assert [A, G][1..] == [G];
    s := JumpNowhere(c, s, deg);
    CalmMeans(s, [], 2, deg, Bump(map[], G), 0);
    CalmIsStuck(c, s, 2, deg, Bump(map[], G));
  }

  lemma TwoStart(c: Config)
    requires c == ConfigOf(TWO, Loop(A, [], 1))
    ensures Calm(Init(c), [A, G], 0, map[A := 0, G := 0], map[], 0)
  {
    assert [A, G][1..] == [G] && [G][1..] == [];
    assert RootList(TWO, [G]) == [G];
    assert Init(c).inDegree == map[A := 0, G := 0];
  }

  /** The goto is taken, resets nothing and readies nothing. */
  lemma JumpNowhere(c: Config, s: State, deg: map<Id, int>) returns (s': State)
    requires c == ConfigOf(TWO, Loop(A, [], 1)) && Reachable(c, s) && Calm(s, [G], 1, deg, map[], 0)
    ensures Reachable(c, s') && Calm(s', [], 2, deg, Bump(map[], G), 0)
  {
    hide Reachable, Calm;
    s' := Start(c, s, [G], 1, deg, map[], 0);
    s' := Succeed(c, s', G, [], 1, deg, map[], 0);
    s' := TakeGoto(c, s', G, [], 1, deg, map[], 0);
    assert Rewound(TWO, [], deg) == deg;
    s' := End(c, s', [], 2, deg, Bump(map[], G), 0);
  }

  /** Nothing queued, nobody running and `done` still open: nothing can happen. */
  lemma CalmIsStuck(c: Config, s: State, completed: int, deg: map<Id, int>, it: map<Id, nat>)
    requires Calm(s, [], completed, deg, it, 0)
    ensures !s.caller.Returned? && forall a :: !Enabled(c, s, a)
  {
  }

  lemma TwoValid(c: Config)
    requires c == ConfigOf(TWO, Loop(A, [], 1)) && WellFormed(TWO) && Acyclic(TWO) && !Reach(TWO, A, G)
    ensures ValidConfig(c) && !Ancestor(c.g, A, G)
  {
    AncestorReach(TWO, A, G);
    forall n
      ensures !Between(TWO, A, G, n)
    {
      if Between(TWO, A, G, n) {
        ReachTrans(TWO, A, n, G);
      }
    }
  }

  // ---- a region with a side exit ----

  const FORK := Graph(
    [B, G, X],
    map[B := [], G := [B], X := [B]],
    map[B := [G, X], G := [], X := []])

  lemma ForkWellFormed()
    ensures WellFormed(FORK)
  {
    assert FORK.ids[0] == B && FORK.ids[1] == G && FORK.ids[2] == X;
    forall p, n
      ensures Mirrored(FORK, p, n)
    {
      assert multiset([G, X])[n] == if n == G || n == X then 1 else 0;
      assert multiset([B])[p] == if p == B then 1 else 0;
    }
  }

  lemma ForkOrder()
    ensures IsTopologicalOrder(FORK, [B, G, X]) && GotosBefore(SIDE_EXIT, [B, G, X])
  {
    var order := [B, G, X];
    assert order[0] == B && order[1] == G && order[2] == X;
    assert Elements(order) == {B, G, X};
    assert TargetBefore(order, B, G);
  }

  lemma ForkGraph()
    ensures StepGraph(SIDE_EXIT) == FORK && WellFormed(FORK) && Acyclic(FORK)
    ensures IsTopologicalOrder(FORK, [B, G, X]) && GotosBefore(SIDE_EXIT, [B, G, X])
  {
    hide StepGraph, WellFormed, Acyclic, IsTopologicalOrder, GotosBefore;
    SideExitGraph();
    ForkWellFormed();
    ForkOrder();
    TopologicalOrderExcludesCycles(FORK, [B, G, X]);
  }

  lemma ForkValid(c: Config)
    requires IsFork(c) && WellFormed(FORK) && Acyclic(FORK)
    ensures ValidConfig(c) && Ancestor(c.g, B, G) && !SingleExit(c.g, B, G)
  {
    ReachEdge(FORK, B, G);
    ReachSelf(FORK, B);
    ReachSelf(FORK, G);
    forall n
      ensures n in [B, G] <==> Between(FORK, B, G, n)
    {
      if Between(FORK, B, G, n) && n != G {
        var q := FirstEdge(FORK, n, G);
      }
    }
    assert Edge(FORK, B, X) && !Between(FORK, B, G, X);
  }

  ghost predicate IsFork(c: Config) {
    c == ConfigOf(FORK, Loop(B, [B, G], 1))
  }

  /** `b` runs and makes both of its children ready. */
  lemma RunB(c: Config, s: State, rest: seq<Id>, done: int, deg: map<Id, int>, it: map<Id, nat>, k: nat) returns (s': State)
    requires IsFork(c) && Reachable(c, s) && Calm(s, [B] + rest, done, deg, it, k)
    requires G in deg && X in deg && deg[G] <= 1 && deg[X] <= 1 && done + 1 < 3 && |rest| <= 1
    ensures Reachable(c, s')
    ensures Calm(s', rest + [G, X], done + 1, deg[G := deg[G] - 1][X := deg[X] - 1], it, k)
  {
    hide Reachable;
    assert ([B] + rest)[1..] == rest;
    s' := Start(c, s, [B] + rest, done, deg, it, k);
    s' := Succeed(c, s', B, rest, done, deg, it, k);
    s' := Count(c, s', B, rest, done, deg, it, k);
    s' := SignalSend(c, s', B, 0, rest, done + 1, deg, it, k);
    var deg1 := deg[G := deg[G] - 1];
    s' := SignalSend(c, s', B, 1, rest + [G], done + 1, deg1, it, k);
    assert rest + [G] + [X] == rest + [G, X];
    s' := End(c, s', rest + [G, X], done + 1, deg1[X := deg1[X] - 1], it, k);
  }

  lemma ForkRewound(deg: map<Id, int>)
    requires deg.Keys == {B, G, X}
    ensures Rewound(FORK, [B, G], deg) == deg[B := 0][G := 1]
    ensures ReadySteps([B, G], Rewound(FORK, [B, G], deg)) == [B]
  {
    var body := [B, G];
    assert Elements(body) == {B, G};
    assert CountIn([B], {B, G}) == 1 && CountIn([], {B, G}) == 0 by {
      assert [B][1..] == [];
    }
    var after := deg[B := 0][G := 1];
    assert Parents(FORK, B) == [] && Parents(FORK, G) == [B];
    assert Rewound(FORK, body, deg) == after;
    assert body[1..] == [G] && [G][1..] == [];
    assert ReadySteps([G], after) == [];
  }

  /** `g` runs and jumps back to `b`. */
  lemma JumpBack(c: Config, s: State, rest: seq<Id>, done: int, deg: map<Id, int>, it: map<Id, nat>, k: nat) returns (s': State)
    requires IsFork(c) && Reachable(c, s) && Calm(s, [G] + rest, done, deg, it, k)
    requires deg.Keys == {B, G, X} && Get(it, G) < 1 && |rest| <= 1
    ensures Reachable(c, s')
    ensures Calm(s', rest + [B], done - 1, deg[B := 0][G := 1], Bump(it, G), k)
  {
    hide Reachable;
    ForkRewound(deg);
    assert ([G] + rest)[1..] == rest;
    s' := Start(c, s, [G] + rest, done, deg, it, k);
    s' := Succeed(c, s', G, rest, done, deg, it, k);
    s' := TakeGoto(c, s', G, rest, done, deg, it, k);
    s' := SendFirst(c, s', G, B, rest, done - 1, deg[B := 0][G := 1], Bump(it, G), k);
    s' := End(c, s', rest + [B], done - 1, deg[B := 0][G := 1], Bump(it, G), k);
  }

  lemma ForkStart(c: Config)
    requires IsFork(c)
    ensures Calm(Init(c), [B] + [], 0, map[B := 0, G := 1, X := 1], map[], 0)
  {
    assert [B, G, X][1..] == [G, X] && [G, X][1..] == [X] && [X][1..] == [];
    assert RootList(FORK, [X]) == [];
    assert RootList(FORK, [G, X]) == [];
    assert Init(c).inDegree == map[B := 0, G := 1, X := 1];
  }

  /** The graph builder accepts the workflow, the target is an ancestor, and `done` is closed a second time. */
  lemma SideExitClosesTwice() returns (c: Config, s: State)
    ensures c.g == StepGraph(SIDE_EXIT) && ValidConfig(c) && GotosBefore(SIDE_EXIT, [B, G, X]) && IsTopologicalOrder(c.g, [B, G, X])
    ensures Ancestor(c.g, B, G) && !SingleExit(c.g, B, G)
    ensures Reachable(c, s) && s.closes == 2 && s.completed > |c.g.ids|
  {
    hide Reachable, ValidConfig, Acyclic, Ancestor, WellFormed, IsTopologicalOrder, GotosBefore, StepGraph, SingleExit;
    ForkGraph();
    c := ConfigOf(FORK, Loop(B, [B, G], 1));
    ForkValid(c);
    s := Init(c);
    ReachableStart(c);
    var first := map[B := 0, G := 1, X := 1];
    ForkStart(c);
    hide Calm, Init;
    s := FirstHalf(c, s, first);
    s := SecondHalf(c, s);
    CalmMeans(s, [], 4, map[B := 0, G := 0, X := -1], Bump(map[], G), 2);
  }

  lemma FirstHalf(c: Config, s: State, first: map<Id, int>) returns (s': State)
    requires IsFork(c) && Reachable(c, s) && first == map[B := 0, G := 1, X := 1] && Calm(s, [B] + [], 0, first, map[], 0)
    ensures Reachable(c, s') && Calm(s', [X, B], 0, map[B := 0, G := 1, X := 0], Bump(map[], G), 0)
  {
    hide Reachable, Calm;
    var sent := map[B := 0, G := 0, X := 0];
    s' := RunB(c, s, [], 0, first, map[], 0);
    assert first[G := 0][X := 0] == sent && [] + [G, X] == [G] + [X];
    s' := JumpBack(c, s', [X], 1, sent, map[], 0);
    assert sent[B := 0][G := 1] == map[B := 0, G := 1, X := 0] && [X] + [B] == [X, B];
  }

  lemma SecondHalf(c: Config, s: State) returns (s': State)
    requires IsFork(c) && Reachable(c, s) && Calm(s, [X, B], 0, map[B := 0, G := 1, X := 0], Bump(map[], G), 0)
    ensures Reachable(c, s') && Calm(s', [], 4, map[B := 0, G := 0, X := -1], Bump(map[], G), 2)
  {
    hide Reachable, Calm;
    var it, deg, over := Bump(map[], G), map[B := 0, G := 1, X := 0], map[B := 0, G := 0, X := -1];
    s' := Leaf(c, s, [X, B], 0, deg, it, 0);
    assert [X, B][1..] == [B] + [];
    s' := RunB(c, s', [], 1, deg, it, 0);
    assert deg[G := 0][X := -1] == over && [] + [G, X] == [G, X];
    s' := Leaf(c, s', [G, X], 2, over, it, 0);
    assert [G, X][1..] == [X] && [X][1..] == [];
    s' := Leaf(c, s', [X], 3, over, it, 1);
  }
}
