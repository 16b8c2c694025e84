/**
 The hypothesis on loops is exactly what the scheduler needs: where it fails there is a
 schedule that ends in a state from which nothing can move, or that drives an in-degree
 below zero.
 */
module SchedulerNecessity {
  import opened Graph
  import opened Ledger
  import opened LoopBody
  import opened Scheduler
  import opened SchedulerInvariant
  import opened SchedulerRewind
  import opened SchedulerSafety
  import opened SchedulerProgress
  import opened SchedulerExact
  import opened SchedulerHold

  /**
   A fresh run of an accepted workflow: every goto has a positive limit and points to
   another step, as the position check ensures, and two steps may run side by side.
   */
  ghost predicate FreshRun(c: Config) {
    && ValidConfig(c) && !c.resumed && c.slots >= 2
    && forall n | n in c.loops :: c.loops[n].maxIterations > 0 && c.loops[n].target != n
  }

  /** Nothing can happen any more although the call has not returned. */
  ghost predicate Hung(c: Config, s: State) {
    !s.caller.Returned? && forall a :: !Enabled(c, s, a)
  }

  // ---- up to the goto ----

  lemma StartSkewed(c: Config, h: Id)
    requires ValidConfig(c) && h in Nodes(c.g)
    ensures Skewed(c, Init(c), InitialPhases(c.g), map[], h)
  {
    hide Due, Acyclic;
    InvInit(c);
    var s, ph := Init(c), InitialPhases(c.g);
    assert TokensMatch(c, s, ph) && Shaped(c, s);
    forall m | m in Nodes(c.g)
      ensures SkewedDegree(c, s, ph, map[], m)
    {
      assert Degree(s, m) == Due(c.g, ph, m);
    }
  }

  /** Some run ends with everything at rest but one step that has a goto and wants to take it. */
  lemma ReachGoto(c: Config, n: Id) returns (s: State, ph: Phases, i: nat)
    requires FreshRun(c) && n in c.loops
    ensures Reachable(c, s) && Skewed(c, s, ph, map[], n) && Held(s, n, i)
    ensures JumpTaken(c, s, n, false, true) && Enabled(c, s, Complete(i, true))
    ensures Do(c, s, Complete(i, true)) == RewindState(c, s, i, n)
  {
    hide Skewed, Reachable, WellFormed, Acyclic, Negative, Held, IsLoopBody, InitialPhases, Enabled, Do, JumpTaken, RewindState;
    ReachableStart(c);
    StartSkewed(c, n);
    s, ph, i := HoldRun(c, Init(c), InitialPhases(c.g), map[], n);
    GotoNow(c, s, i, n);
  }

  lemma GotoNow(c: Config, s: State, i: nat, n: Id)
    requires Held(s, n, i) && n in c.loops && Get(s.iterations, n) < c.loops[n].maxIterations
    ensures JumpTaken(c, s, n, false, true) && Enabled(c, s, Complete(i, true))
    ensures Do(c, s, Complete(i, true)) == RewindState(c, s, i, n)
  {
  }

  // ---- a target that does not reach the goto step ----

  lemma SlotOfHeld(c: Config, s: State, ph: Phases, h: Id, i: nat)
    requires Flow(c, s, ph) && Held(s, h, i)
    ensures s.sem == 1 && (s.closes == 0 ==> s.caller == AwaitDone)
  {
    HeldTokensOf(c, s, h, i, Slot);
    assert Tokens(c, s, Slot) == Want(c, s, ph, Slot);
    hide Tokens;
  }

  /** The goto resets nothing and readies nothing, and nobody ever signals the goto step's children or closes `done`. */
  lemma UnreachedTargetHangs(c: Config, n: Id) returns (s: State)
    requires FreshRun(c) && n in c.loops && !Reach(c.g, c.loops[n].target, n)
    ensures Reachable(c, s) && Hung(c, s)
  {
    var s1, ph, i := ReachGoto(c, n);
    SkewedParts(c, s1, ph, map[], n);
    SlotOfHeld(c, s1, ph, n, i);
    NoRegion(c, n);
    EmptyRewind(c, s1, i, n);
    hide Reachable, FreshRun, Reach, Flow, SkewedLedger, Skewed, Held, RewindState, Enabled, Do;
    ReachableNext(c, s1, Complete(i, true));
    s := WindUp(c, RewindState(c, s1, i, n), i);
  }

  lemma NoRegion(c: Config, n: Id)
    requires ValidConfig(c) && n in c.loops && !Reach(c.g, c.loops[n].target, n)
    ensures c.loops[n].body == []
  {
    BodyEmpty(c.g, c.loops[n].target, n, c.loops[n].body);
  }

  /** The last goroutine ends and leaves nothing behind. */
  lemma WindUp(c: Config, s: State, i: nat) returns (s': State)
    requires Reachable(c, s) && i < |s.workers| && s.workers[i] == Leave
    requires forall j | 0 <= j < |s.workers| && j != i :: s.workers[j] == Gone
    requires s.dispatcher == Await && s.ready == [] && s.sem == 1 && s.closes == 0 && s.caller == AwaitDone
    ensures Reachable(c, s') && Hung(c, s')
  {
    hide Reachable;
    ReachableNext(c, s, Release(i));
    var s1 := Do(c, s, Release(i));
    ReachableNext(c, s1, WgDone(i));
    s' := Do(c, s1, WgDone(i));
    assert s'.workers == s.workers[i := Gone];
    RestIsHung(c, s');
  }

  lemma EmptyRewind(c: Config, s: State, i: nat, n: Id)
    requires n in c.loops && c.loops[n].body == [] && Held(s, n, i)
    ensures var s' := RewindState(c, s, i, n);
            && i < |s'.workers| && s'.workers[i] == Leave
            && (forall j | 0 <= j < |s'.workers| && j != i :: s'.workers[j] == Gone)
            && s'.dispatcher == Await && s'.ready == []
            && s'.sem == s.sem && s'.closes == s.closes && s'.caller == s.caller
  {
  }

  lemma RestIsHung(c: Config, s: State)
    requires Quiet(s) && s.closes == 0 && s.caller == AwaitDone
    ensures Hung(c, s)
  {
  }

  // ---- a region with a side exit ----

  /** How much more is due after the rewind at the steps outside the region. */
  ghost function Surplus(g: Graph, ph: Phases, ph': Phases, body: seq<Id>): map<Id, nat> {
    map m | m in Nodes(g) && m !in body && Due(g, ph', m) >= Due(g, ph, m) :: Due(g, ph', m) - Due(g, ph, m)
  }

  /** The held state with the goto step of a loop whose target reaches it. */
  ghost predicate BeforeGoto(c: Config, s: State, ph: Phases, n: Id, i: nat) {
    && ValidConfig(c) && Skewed(c, s, ph, map[], n) && Held(s, n, i) && n in c.loops
    && c.loops[n].target != n && Reach(c.g, c.loops[n].target, n)
  }

  ghost function After(c: Config, ph: Phases, n: Id): Phases
    requires n in c.loops
  {
    RewindPhases(ph, Elements(c.loops[n].body), c.loops[n].target)
  }

  lemma Regular(c: Config, s: State, ph: Phases, h: Id)
    requires Skewed(c, s, ph, map[], h)
    ensures WaitingIsDue(c.g, ph) && DegreesDue(c, s, ph)
  {
    hide Due, Flow;
    forall m | m in Nodes(c.g)
      ensures Degree(s, m) == Due(c.g, ph, m) && (ph[m].Idle? <==> Due(c.g, ph, m) > 0)
    {
      assert SkewedDegree(c, s, ph, map[], m);
    }
  }

  /** In the held state the other steps of the region have finished entirely. */
  lemma RegionAtRest(c: Config, s: State, ph: Phases, n: Id, i: nat, b: Id)
    requires BeforeGoto(c, s, ph, n, i) && b in c.loops[n].body
    ensures b in Nodes(c.g) && ph[b] == (if b == n then Running else Done(|Children(c.g, b)|))
    ensures Due(c.g, ph, b) == 0
    ensures PhaseIs(c.g, ph, n, Running)
  {
    hide Due, Flow, Acyclic, SkewedLedger, Unfailed, Uncounted;
    Regular(c, s, ph, n);
    SkewedParts(c, s, ph, map[], n);
    assert Covers(c.g, ph);
    assert Between(c.g, c.loops[n].target, n, b);
    RestingPhases(c, s, ph, n, i, n);
    if b != n {
      AncestorDone(c.g, ph, b, n);
      RestingPhases(c, s, ph, n, i, b);
    }
  }

  lemma OutsidePhase(c: Config, ph: Phases, n: Id, m: Id)
    requires n in c.loops && m in ph
    ensures m in After(c, ph, n)
    ensures After(c, ph, n)[m] == if m !in c.loops[n].body then ph[m] else if m == c.loops[n].target then Pending else Idle
  {
  }

  /** No step signals less after the rewind than before, a reopened one more. */
  lemma UnsentGrows(c: Config, s: State, ph: Phases, n: Id, i: nat, p: Id, m: Id)
    requires BeforeGoto(c, s, ph, n, i) && p in Nodes(c.g)
    ensures Unsent(c.g, After(c, ph, n), p, m) >= Unsent(c.g, ph, p, m)
    ensures p !in c.loops[n].body ==> Unsent(c.g, After(c, ph, n), p, m) == Unsent(c.g, ph, p, m)
    ensures p in c.loops[n].body ==> Unsent(c.g, After(c, ph, n), p, m) == CountFrom(c.g, p, 0, m)
    ensures p in c.loops[n].body && p != n ==> Unsent(c.g, ph, p, m) == 0
  {
    hide BeforeGoto, After;
    CoveredAtRest(c, s, ph, n, i);
    OutsidePhase(c, ph, n, p);
    if p in c.loops[n].body {
      RegionAtRest(c, s, ph, n, i, p);
      NothingLeft(c.g, p, m);
    }
  }

  lemma CoveredAtRest(c: Config, s: State, ph: Phases, n: Id, i: nat)
    requires BeforeGoto(c, s, ph, n, i)
    ensures Covers(c.g, ph) && n in c.loops && WellFormed(c.g) && Acyclic(c.g)
  {
  }

  lemma NothingLeft(g: Graph, p: Id, m: Id)
    ensures CountFrom(g, p, |Children(g, p)|, m) == 0
  {
    assert Children(g, p)[|Children(g, p)|..] == [];
  }

  lemma DueGrows(c: Config, s: State, ph: Phases, n: Id, i: nat, m: Id, b: Id)
    requires BeforeGoto(c, s, ph, n, i) && m in Nodes(c.g)
    ensures Due(c.g, After(c, ph, n), m) >= Due(c.g, ph, m)
    ensures b in c.loops[n].body && b != n && Edge(c.g, b, m) ==> Due(c.g, After(c, ph, n), m) > Due(c.g, ph, m)
  {
    hide BeforeGoto, After, Unsent, Due;
    CoveredAtRest(c, s, ph, n, i);
    forall p | p in c.g.ids
      ensures Unsent(c.g, After(c, ph, n), p, m) >= Unsent(c.g, ph, p, m)
    {
      assert p in Nodes(c.g);
      UnsentGrows(c, s, ph, n, i, p, m);
    }
    if b in c.loops[n].body && b != n && Edge(c.g, b, m) {
      EdgeBothWays(c.g, b, m);
      UnsentGrows(c, s, ph, n, i, b, m);
      var j :| 0 <= j < |Children(c.g, b)| && Children(c.g, b)[j] == m;
      CountFromEntry(c.g, b, 0, j);
      assert b in c.g.ids;
    }
    UnsentFromMore(c.g, ph, After(c, ph, n), c.g.ids, b, m);
    DueIsUnsent(c.g, ph, m);
    DueIsUnsent(c.g, After(c, ph, n), m);
  }

  /** Inside the region what is due is the rewound in-degree. */
  lemma RegionDue(c: Config, s: State, ph: Phases, n: Id, i: nat, m: Id)
    requires BeforeGoto(c, s, ph, n, i) && m in c.loops[n].body
    ensures m in Nodes(c.g) && Due(c.g, After(c, ph, n), m) == CountIn(Parents(c.g, m), Elements(c.loops[n].body))
  {
    hide BeforeGoto, After, Due, Unsent;
    CoveredAtRest(c, s, ph, n, i);
    var open := Elements(c.loops[n].body);
    RegionAtRest(c, s, ph, n, i, m);
    forall p | p in Nodes(c.g)
      ensures Unsent(c.g, After(c, ph, n), p, m) == if p in open then CountFrom(c.g, p, 0, m) else 0
    {
      UnsentGrows(c, s, ph, n, i, p, m);
      DueAtLeast(c.g, ph, p, m);
      BodyMember(c.loops[n].body, p);
    }
    DueOpen(c.g, After(c, ph, n), open, m);
  }

  lemma RewoundTable(c: Config, s: State, i: nat, n: Id, m: Id)
    requires n in c.loops
    ensures Degree(RewindState(c, s, i, n), m)
            == if m in c.loops[n].body then CountIn(Parents(c.g, m), Elements(c.loops[n].body)) else Degree(s, m)
  {
    hide ReadySteps, CountIn;
  }

  lemma InsideDegree(c: Config, s: State, ph: Phases, n: Id, i: nat, m: Id)
    requires BeforeGoto(c, s, ph, n, i) && m in c.loops[n].body
    ensures m in Nodes(c.g) && SkewedDegree(
              c, RewindState(c, s, i, n), After(c, ph, n), Surplus(c.g, ph, After(c, ph, n), c.loops[n].body), m)
  {
    CoveredAtRest(c, s, ph, n, i);
    assert IsLoopBody(c.g, c.loops[n].target, n, c.loops[n].body);
    hide BeforeGoto, Due, RewindState, After, IsLoopBody, WellFormed, Acyclic, Degree;
    RewoundTable(c, s, i, n, m);
    RegionDue(c, s, ph, n, i, m);
    OutsidePhase(c, ph, n, m);
    TargetIsOnlyEntry(c.g, c.loops[n].target, n, c.loops[n].body, m);
  }

  lemma OutsideDegree(c: Config, s: State, ph: Phases, n: Id, i: nat, m: Id)
    requires BeforeGoto(c, s, ph, n, i) && m in Nodes(c.g) && m !in c.loops[n].body
    ensures SkewedDegree(
              c, RewindState(c, s, i, n), After(c, ph, n), Surplus(c.g, ph, After(c, ph, n), c.loops[n].body), m)
  {
    SkewedParts(c, s, ph, map[], n);
    CoveredAtRest(c, s, ph, n, i);
    assert SkewedDegree(c, s, ph, map[], m);
    hide BeforeGoto, Due, RewindState, After, WellFormed, Acyclic, Degree, SkewedLedger, Skewed;
    RewoundTable(c, s, i, n, m);
    OutsidePhase(c, ph, n, m);
    DueGrows(c, s, ph, n, i, m, m);
  }

  lemma RewoundFlow(c: Config, s: State, ph: Phases, n: Id, i: nat, tok: Token)
    requires BeforeGoto(c, s, ph, n, i)
    ensures var s' := RewindState(c, s, i, n); Tokens(c, s', tok) == Want(c, s', After(c, ph, n), tok)
  {
    CoveredAtRest(c, s, ph, n, i);
    RewindMoves(c, s, i, n, tok);
    HeldTokensOf(c, s, n, i, tok);
    RewoundWant(c, s, ph, n, i, tok);
    hide Tokens, BeforeGoto, Want, RewindState;
  }

  lemma RewoundWant(c: Config, s: State, ph: Phases, n: Id, i: nat, tok: Token)
    requires BeforeGoto(c, s, ph, n, i)
    ensures Want(c, RewindState(c, s, i, n), After(c, ph, n), tok)
            == One(tok == Wait(c.loops[n].target)) + One(tok == Slot) + One(tok == Member)
  {
    var target := c.loops[n].target;
    SkewedParts(c, s, ph, map[], n);
    CoveredAtRest(c, s, ph, n, i);
    TargetInBody(c, n);
    GotoIsInBody(c, n);
    RegionAtRest(c, s, ph, n, i, target);
    OutsidePhase(c, ph, n, target);
    assert s.closes == 0;
    RewindSlots(c, s, ph, n, i);
    if tok.Wait? || tok.Act? || tok.Sig? {
      if tok.step in Nodes(c.g) {
        if tok.step in c.loops[n].body {
          RegionAtRest(c, s, ph, n, i, tok.step);
        }
        RestingPhases(c, s, ph, n, i, tok.step);
        OutsidePhase(c, ph, n, tok.step);
      }
    }
    hide BeforeGoto, Flow, Skewed, SkewedLedger, RewindPhases, Covers, ValidConfig, WellFormed, Acyclic;
  }

  lemma RewindSlots(c: Config, s: State, ph: Phases, n: Id, i: nat)
    requires Flow(c, s, ph) && Held(s, n, i) && n in c.loops
    ensures RewindState(c, s, i, n).sem == 1 && RewindState(c, s, i, n).wg == 1
    ensures RewindState(c, s, i, n).closes == s.closes
  {
    HeldTokensOf(c, s, n, i, Slot);
    HeldTokensOf(c, s, n, i, Member);
    assert Tokens(c, s, Slot) == Want(c, s, ph, Slot);
    assert Tokens(c, s, Member) == Want(c, s, ph, Member);
    hide Tokens;
  }

  lemma RewoundCount(c: Config, s: State, ph: Phases, n: Id, i: nat)
    requires BeforeGoto(c, s, ph, n, i)
    ensures RewindState(c, s, i, n).completed == |DoneSet(c.g, After(c, ph, n))|
  {
    CoveredAtRest(c, s, ph, n, i);
    GotoIsInBody(c, n);
    TargetInBody(c, n);
    var body := c.loops[n].body;
    assert Distinct(body) && s.completed == |DoneSet(c.g, ph)|;
    var counted := Elements(body) - {n};
    forall m | m in counted
      ensures m in DoneSet(c.g, ph)
    {
      RegionAtRest(c, s, ph, n, i, m);
    }
    RegionAtRest(c, s, ph, n, i, n);
    assert DoneSet(c.g, After(c, ph, n)) == DoneSet(c.g, ph) - counted by {
      forall m | m in Nodes(c.g)
        ensures m in DoneSet(c.g, After(c, ph, n)) <==> m in DoneSet(c.g, ph) && m !in counted
      {
        OutsidePhase(c, ph, n, m);
      }
      hide BeforeGoto, After;
    }
    hide BeforeGoto, After, Distinct;
    assert counted <= DoneSet(c.g, ph);
    RegionSize(body, n);
  }

  lemma RegionSize(body: seq<Id>, n: Id)
    requires Distinct(body) && n in body
    ensures |Elements(body) - {n}| == |body| - 1
  {
    DistinctSize(body);
    assert Elements(body) == (Elements(body) - {n}) + {n};
  }

  /** After the rewind the state is skewed by the side exits alone. */
  lemma RewoundSkewed(c: Config, s: State, ph: Phases, n: Id, i: nat, h: Id)
    requires BeforeGoto(c, s, ph, n, i) && h in Nodes(c.g) && !After(c, ph, n)[h].Done?
    ensures Skewed(
              c, RewindState(c, s, i, n), After(c, ph, n), Surplus(c.g, ph, After(c, ph, n), c.loops[n].body), h)
  {
    var s', ph' := RewindState(c, s, i, n), After(c, ph, n);
    forall m | m in Nodes(c.g)
      ensures SkewedDegree(c, s', ph', Surplus(c.g, ph, ph', c.loops[n].body), m)
    {
      if m in c.loops[n].body {
        InsideDegree(c, s, ph, n, i, m);
      } else {
        OutsideDegree(c, s, ph, n, i, m);
      }
    }
    forall tok
      ensures Tokens(c, s', tok) == Want(c, s', ph', tok)
    {
      RewoundFlow(c, s, ph, n, i, tok);
    }
    RewoundCount(c, s, ph, n, i);
    RewoundShape(c, s, ph, n, i);
    hide Surplus, SkewedDegree, Tokens, Want, BeforeGoto, RewindState, After;
  }

  lemma RewoundShape(c: Config, s: State, ph: Phases, n: Id, i: nat)
    requires BeforeGoto(c, s, ph, n, i)
    ensures var s', ph' := RewindState(c, s, i, n), After(c, ph, n);
            Covers(c.g, ph') && Shaped(c, s') && Unfailed(s') && s'.closes == 0
  {
    hide Tokens, Want, Due, Acyclic, SkewedLedger, Rewound, ReadySteps;
    CoveredAtRest(c, s, ph, n, i);
    var (s1, t) := Rewind(c, s, n);
    ShapedChange(c, s1, Worker(i), t);
    UnfailedTask(s, Worker(i), t, s1);
  }

  /** A step outside the region that a step inside signals has too low an entry after the rewind; some unfinished step is no ancestor of it. */
  lemma SideExitSkews(c: Config, s: State, ph: Phases, n: Id, i: nat) returns (x: Id, h: Id, extra: map<Id, nat>)
    requires BeforeGoto(c, s, ph, n, i) && !SingleExit(c.g, c.loops[n].target, n)
    ensures x in Nodes(c.g) && Get(extra, x) > 0 && !Ancestor(c.g, h, x)
    ensures Skewed(c, RewindState(c, s, i, n), After(c, ph, n), extra, h)
  {
    hide Skewed, Ancestor, Held, Between, Reach;
    var target, body := c.loops[n].target, c.loops[n].body;
    var b: Id;
    b, x :| Between(c.g, target, n, b) && b != n && Edge(c.g, b, x) && !Between(c.g, target, n, x);
    assert b in body && x !in body;
    EdgeBothWays(c.g, b, x);
    extra := Surplus(c.g, ph, After(c, ph, n), body);
    hide BeforeGoto, After, RewindState, WellFormed, Acyclic, SingleExit;
    DueGrows(c, s, ph, n, i, x, b);
    h := if Ancestor(c.g, n, x) then x else n;
    HeldAgain(c, s, ph, n, i, x);
    RewoundSkewed(c, s, ph, n, i, h);
    CoveredAtRest(c, s, ph, n, i);
    NotItsOwnAncestor(c.g, x);
  }

  /** With a side exit some run signals a step once too often. */
  lemma SideExitGoesNegative(c: Config, n: Id) returns (s: State)
    requires FreshRun(c) && n in c.loops && Reach(c.g, c.loops[n].target, n) && !SingleExit(c.g, c.loops[n].target, n)
    ensures Reachable(c, s) && Negative(c, s)
  {
    var s1, ph, i := ReachGoto(c, n);
    assert BeforeGoto(c, s1, ph, n, i);
    hide Skewed, Reachable, BeforeGoto, WellFormed, Acyclic, Negative, Held, After, RewindState, Ancestor, SingleExit, Enabled, Do, JumpTaken, IsLoopBody;
    ReachableNext(c, s1, Complete(i, true));
    CoveredAtRest(c, s1, ph, n, i);
    var x, h, extra := SideExitSkews(c, s1, ph, n, i);
    var s3, ph3, j := HoldRun(c, RewindState(c, s1, i, n), After(c, ph, n), extra, h);
    if !Negative(c, s3) {
      NothingOwed(c, s3, ph3, extra, h, j, x);
      assert false;
    }
    s := s3;
  }

  lemma NotItsOwnAncestor(g: Graph, x: Id)
    requires Acyclic(g)
    ensures !Ancestor(g, x, x)
  {
    AncestorReach(g, x, x);
  }

  /** Neither the goto step nor a descendant of it is finished after the rewind. */
  lemma HeldAgain(c: Config, s: State, ph: Phases, n: Id, i: nat, x: Id)
    requires BeforeGoto(c, s, ph, n, i) && x in Nodes(c.g) && x !in c.loops[n].body
    ensures n in Nodes(c.g) && n in After(c, ph, n) && !After(c, ph, n)[n].Done?
    ensures x in After(c, ph, n) && (Ancestor(c.g, n, x) ==> !After(c, ph, n)[x].Done?)
  {
    hide Due, Flow, Acyclic, Unfailed, Uncounted, Ancestor;
    GotoIsInBody(c, n);
    RegionAtRest(c, s, ph, n, i, n);
    Regular(c, s, ph, n);
    CoveredAtRest(c, s, ph, n, i);
    OutsidePhase(c, ph, n, n);
    OutsidePhase(c, ph, n, x);
    if Ancestor(c.g, n, x) && !ph[x].Idle? {
      AncestorReach(c.g, n, x);
      AncestorDone(c.g, ph, n, x);
      assert false;
    }
  }

  // ---- exact conditions ----

  ghost predicate TargetsAreAncestors(c: Config) {
    forall n | n in c.loops :: Ancestor(c.g, c.loops[n].target, n)
  }

  ghost predicate SingleExits(c: Config) {
    forall n | n in c.loops :: SingleExit(c.g, c.loops[n].target, n)
  }

  ghost predicate NeverHangs(c: Config) {
    forall s | Reachable(c, s) :: !Hung(c, s)
  }

  ghost predicate NeverNegative(c: Config) {
    forall s | Reachable(c, s) :: !Negative(c, s)
  }

  lemma WellFormedIsBoth(c: Config)
    ensures WellFormedLoops(c) <==> TargetsAreAncestors(c) && SingleExits(c)
  {
    hide Ancestor, SingleExit;
  }

  lemma WellFormedIsSafe(c: Config)
    requires ValidConfig(c) && WellFormedLoops(c)
    ensures NeverHangs(c) && NeverNegative(c)
  {
    hide ValidConfig, WellFormedLoops, Reachable, Enabled;
    forall s | Reachable(c, s)
      ensures !Hung(c, s) && !Negative(c, s)
    {
      if !s.caller.Returned? {
        NeverStuck(c, s);
      }
      forall m | m in Nodes(c.g)
        ensures Degree(s, m) >= 0
      {
        DegreesNeverNegative(c, s, m);
      }
    }
  }

  lemma HangFreeTargets(c: Config)
    requires FreshRun(c) && NeverHangs(c)
    ensures TargetsAreAncestors(c)
  {
    hide Hung, Reachable, ValidConfig, Ancestor, Reach;
    forall n | n in c.loops
      ensures Ancestor(c.g, c.loops[n].target, n)
    {
      if !Reach(c.g, c.loops[n].target, n) {
        var s := UnreachedTargetHangs(c, n);
        assert false;
      }
      AncestorReach(c.g, c.loops[n].target, n);
    }
  }

  lemma NonNegativeExits(c: Config)
    requires FreshRun(c) && NeverNegative(c) && TargetsAreAncestors(c)
    ensures SingleExits(c)
  {
    hide Negative, Reachable, ValidConfig, Ancestor, Reach, SingleExit;
    forall n | n in c.loops
      ensures SingleExit(c.g, c.loops[n].target, n)
    {
      AncestorReach(c.g, c.loops[n].target, n);
      if !SingleExit(c.g, c.loops[n].target, n) {
        var s := SideExitGoesNegative(c, n);
        assert false;
      }
    }
  }

  /** With single exits, some run hangs if and only if some target is not an ancestor of its goto step. */
  lemma HangsExactly(c: Config)
    requires FreshRun(c) && SingleExits(c)
    ensures NeverHangs(c) <==> TargetsAreAncestors(c)
  {
    hide FreshRun, SingleExits, NeverHangs, TargetsAreAncestors, WellFormedLoops;
    WellFormedIsBoth(c);
    if TargetsAreAncestors(c) {
      FreshIsValid(c);
      WellFormedIsSafe(c);
    } else if NeverHangs(c) {
      HangFreeTargets(c);
    }
  }

  lemma FreshIsValid(c: Config)
    requires FreshRun(c)
    ensures ValidConfig(c)
  {
  }

  /** With ancestors as targets, some run drives an in-degree below zero if and only if some region has a side exit. */
  lemma GoesNegativeExactly(c: Config)
    requires FreshRun(c) && TargetsAreAncestors(c)
    ensures NeverNegative(c) <==> SingleExits(c)
  {
    hide FreshRun, SingleExits, NeverNegative, TargetsAreAncestors, WellFormedLoops;
    WellFormedIsBoth(c);
    if SingleExits(c) {
      FreshIsValid(c);
      WellFormedIsSafe(c);
    } else if NeverNegative(c) {
      NonNegativeExits(c);
    }
  }

  /** The two together, for every accepted workflow. */
  lemma SafeExactly(c: Config)
    requires FreshRun(c)
    ensures NeverHangs(c) && NeverNegative(c) <==> WellFormedLoops(c)
  {
    hide FreshRun, SingleExits, NeverNegative, NeverHangs, TargetsAreAncestors, WellFormedLoops;
    WellFormedIsBoth(c);
    if WellFormedLoops(c) {
      FreshIsValid(c);
      WellFormedIsSafe(c);
    } else if NeverHangs(c) && NeverNegative(c) {
      HangFreeTargets(c);
      NonNegativeExits(c);
    }
  }

  // ---- consistency of whole runs ----

  /** Every goto taken among the first `k` actions met the condition of `RewindExact`. */
  ghost predicate JumpsSound(c: Config, states: seq<State>, actions: seq<Action>, k: nat)
    requires IsRun(c, states, actions) && k <= |actions|
  {
    forall j {:trigger actions[j]} | 0 <= j < k && IsJump(c, states[j], actions[j]) ::
      RewindSound(c, states[j], states[j].workers[actions[j].worker].step)
  }

  ghost predicate ConsistentUpTo(c: Config, states: seq<State>, k: nat) {
    forall j | 0 <= j <= k && j < |states| :: Consistent(c, states[j])
  }

  lemma StepConsistent(c: Config, s: State, a: Action)
    requires ValidConfig(c) && (forall n | n in c.loops :: c.loops[n].target != n)
    requires Consistent(c, s) && Enabled(c, s, a)
    ensures Consistent(c, Do(c, s, a)) <==> (IsJump(c, s, a) ==> RewindSound(c, s, s.workers[a.worker].step))
  {
    hide Inv, ValidConfig, Do, RewindSound;
    var ph :| Inv(c, s, ph);
    if IsJump(c, s, a) {
      JumpIsRewind(c, s, a);
      RewindExact(c, s, ph, a.worker);
    } else {
      PlainKeeps(c, s, ph, a);
    }
  }

  lemma {:induction false} ConsistentExactly(c: Config, states: seq<State>, actions: seq<Action>, k: nat)
    requires ValidConfig(c) && (forall n | n in c.loops :: c.loops[n].target != n)
    requires IsRun(c, states, actions) && states[0] == Init(c) && k <= |actions|
    ensures ConsistentUpTo(c, states, k) <==> JumpsSound(c, states, actions, k)
  {
    hide ValidConfig, Consistent, Do, Enabled, RewindSound, IsJump;
    if k == 0 {
      StartConsistent(c);
    } else {
      ConsistentExactly(c, states, actions, k - 1);
      var a := actions[k - 1];
      if ConsistentUpTo(c, states, k - 1) {
        StepConsistent(c, states[k - 1], a);
      }
    }
  }

  lemma StartConsistent(c: Config)
    requires ValidConfig(c)
    ensures Consistent(c, Init(c))
  {
    InvInit(c);
  }

  /** Along a run every state is consistent if and only if every goto taken on the way was sound. */
  lemma RunConsistentExactly(c: Config, states: seq<State>, actions: seq<Action>)
    requires ValidConfig(c) && (forall n | n in c.loops :: c.loops[n].target != n)
    requires IsRun(c, states, actions) && states[0] == Init(c)
    ensures (forall j | 0 <= j < |states| :: Consistent(c, states[j])) <==> JumpsSound(c, states, actions, |actions|)
  {
    hide ValidConfig, Consistent, JumpsSound;
    ConsistentExactly(c, states, actions, |actions|);
  }

  /** A consistent state is neither hung nor has it a negative in-degree. */
  lemma ConsistentIsSafe(c: Config, s: State)
    requires ValidConfig(c) && Consistent(c, s)
    ensures !Hung(c, s) && !Negative(c, s)
  {
    hide ValidConfig, WaitingIsDue, Flow, Due, TokensMatch, Shaped, Enabled;
    var ph :| Inv(c, s, ph);
    if !s.caller.Returned? {
      var a := SomethingEnabled(c, s, ph);
    }
    forall m | m in Nodes(c.g)
      ensures Degree(s, m) >= 0
    {
      assert Degree(s, m) == Due(c.g, ph, m);
    }
  }

  /** Every reachable state is consistent if and only if all loops are well formed. */
  lemma AlwaysConsistentExactly(c: Config)
    requires FreshRun(c)
    ensures (forall s | Reachable(c, s) :: Consistent(c, s)) <==> WellFormedLoops(c)
  {
    FreshIsValid(c);
    hide FreshRun, Reachable, WellFormedLoops, ValidConfig, Consistent, Hung, Negative;
    SafeExactly(c);
    if WellFormedLoops(c) {
      forall s | Reachable(c, s)
        ensures Consistent(c, s)
      {
        ReachableConsistent(c, s);
      }
    } else if forall s | Reachable(c, s) :: Consistent(c, s) {
      forall s | Reachable(c, s)
        ensures !Hung(c, s) && !Negative(c, s)
      {
        ConsistentIsSafe(c, s);
      }
    }
  }

  lemma ReachableConsistent(c: Config, s: State)
    requires ValidConfig(c) && WellFormedLoops(c) && Reachable(c, s)
    ensures Consistent(c, s)
  {
    var ph := ReachableInv(c, s);
  }
}
