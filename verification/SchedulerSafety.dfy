/**
 Safety of every run with well-formed loops, whatever the interleaving, the step
 outcomes and the goto conditions.
 */
module SchedulerSafety {
  import opened Graph
  import opened Ledger
  import opened LoopBody
  import opened Wrappers
  import opened Scheduler
  import opened SchedulerInvariant
  import opened SchedulerRewind

  /** The phases after an action. */
  function NextPhases(c: Config, s: State, ph: Phases, a: Action): Phases
    requires Enabled(c, s, a)
  {
    match a
    case Take => ph[s.dispatcher.step := Running]
    case Skip1 => ph[s.dispatcher.step := Running]
    case Skip2 => ph[s.dispatcher.step := Done(0)]
    case Complete(i, wanted) =>
      var n := s.workers[i].step;
      if JumpTaken(c, s, n, s.workers[i].failed, wanted)
      then RewindPhases(ph, Elements(c.loops[n].body), c.loops[n].target)
      else ph[n := Done(0)]
    case SignalChild(ag) => SignalPhases(c, s, ph, TaskOf(s, ag).step, TaskOf(s, ag).next)
    case _ => ph
  }

  predicate IsJump(c: Config, s: State, a: Action)
    requires Enabled(c, s, a)
  {
    a.Complete? && JumpTaken(c, s, s.workers[a.worker].step, s.workers[a.worker].failed, a.wanted)
  }

  /** Whatever the shape of the loops, every action but a taken goto keeps the invariant. */
  lemma PlainKeeps(c: Config, s: State, ph: Phases, a: Action)
    requires ValidConfig(c) && Inv(c, s, ph) && Enabled(c, s, a) && !IsJump(c, s, a)
    ensures Inv(c, Do(c, s, a), NextPhases(c, s, ph, a))
  {
    hide Inv, ValidConfig;
    match a {
      case Receive => ReceiveKeeps(c, s, ph);
      case Inspect => BookkeepingKeeps(c, s, ph, a);
      case Add => BookkeepingKeeps(c, s, ph, a);
      case SeeDone => BookkeepingKeeps(c, s, ph, a);
      case Return => BookkeepingKeeps(c, s, ph, a);
      case Take => ValidGraph(c); TakeKeeps(c, s, ph);
      case Skip1 => ValidGraph(c); SkipKeeps(c, s, ph);
      case Skip2 =>
        CountedKeeps(c, s, ph, TheDispatcher, s.dispatcher.step, s.firstErr);
        SkipIsCounted(c, s);
      case Execute(i, answers) => ExecuteKeeps(c, s, ph, i, answers);
      case Complete(i, wanted) =>
        CountedKeeps(c, s, ph, Worker(i), s.workers[i].step, ErrorAfter(s, s.workers[i].step, s.workers[i].failed));
        CompleteIsCounted(c, s, i, wanted);
      case SignalChild(ag) => SignalKeeps(c, s, ph, ag);
      case SendChild(ag) => SendKeeps(c, s, ph, ag);
      case CloseDone(ag) => CloseKeeps(c, s, ph, ag);
      case SendTarget(i) => SendTargetKeeps(c, s, ph, i);
      case Release(i) => ReleaseKeeps(c, s, ph, i);
      case WgDone(i) => WgDoneKeeps(c, s, ph, i);
    }
  }

  lemma JumpIsRewind(c: Config, s: State, a: Action)
    requires Enabled(c, s, a) && IsJump(c, s, a)
    ensures Do(c, s, a) == RewindState(c, s, a.worker, s.workers[a.worker].step)
    ensures JumpTaken(c, s, s.workers[a.worker].step, false, true)
  {
  }

  /** With well-formed loops every action keeps the invariant. */
  lemma StepKeeps(c: Config, s: State, ph: Phases, a: Action)
    requires ValidConfig(c) && WellFormedLoops(c) && Inv(c, s, ph) && Enabled(c, s, a)
    ensures Inv(c, Do(c, s, a), NextPhases(c, s, ph, a))
  {
    hide Inv, ValidConfig, WellFormedLoops, Do;
    if IsJump(c, s, a) {
      LoopOf(c, s.workers[a.worker].step);
      JumpIsRewind(c, s, a);
      RewindKeeps(c, s, ph, a.worker);
    } else {
      PlainKeeps(c, s, ph, a);
    }
  }

  lemma ValidGraph(c: Config)
    requires ValidConfig(c)
    ensures WellFormed(c.g) && Acyclic(c.g)
  {
  }

  lemma LoopOf(c: Config, n: Id)
    requires WellFormedLoops(c) && n in c.loops
    ensures WellFormedLoop(c.g, c.loops[n].target, n)
  {
  }

  function ErrorAfter(s: State, n: Id, failed: bool): Option<Id> {
    if failed && s.firstErr == None then Some(n) else s.firstErr
  }

  /** Without a goto a finished execution is counted as a refused step is. */
  lemma CompleteIsCounted(c: Config, s: State, i: nat, wanted: bool)
    requires Enabled(c, s, Complete(i, wanted)) && !JumpTaken(c, s, s.workers[i].step, s.workers[i].failed, wanted)
    ensures var n := s.workers[i].step;
            Do(c, s, Complete(i, wanted)) == CountedState(c, s, Worker(i), n, ErrorAfter(s, n, s.workers[i].failed))
  {
  }

  lemma SkipIsCounted(c: Config, s: State)
    requires Enabled(c, s, Skip2)
    ensures Do(c, s, Skip2) == CountedState(c, s, TheDispatcher, s.dispatcher.step, s.firstErr)
  {
  }

  /** Phases along a run. */
  ghost function PhasesAt(c: Config, states: seq<State>, actions: seq<Action>, k: nat): Phases
    requires IsRun(c, states, actions) && k <= |actions|
  {
    if k == 0 then InitialPhases(c.g)
    else NextPhases(c, states[k - 1], PhasesAt(c, states, actions, k - 1), actions[k - 1])
  }

  lemma {:induction false} RunKeeps(c: Config, states: seq<State>, actions: seq<Action>, k: nat)
    requires ValidConfig(c) && WellFormedLoops(c)
    requires IsRun(c, states, actions) && states[0] == Init(c) && k <= |actions|
    ensures Inv(c, states[k], PhasesAt(c, states, actions, k))
  {
    hide Inv, ValidConfig, WellFormedLoops, NextPhases, Do, Enabled, Init;
    if k == 0 {
      InvInit(c);
    } else {
      RunKeeps(c, states, actions, k - 1);
      StepKeeps(c, states[k - 1], PhasesAt(c, states, actions, k - 1), actions[k - 1]);
    }
  }

  /** Every reachable state has phases that satisfy the invariant. */
  lemma ReachableInv(c: Config, s: State) returns (ph: Phases)
    requires ValidConfig(c) && WellFormedLoops(c) && Reachable(c, s)
    ensures Inv(c, s, ph)
  {
    var states, actions :| IsRun(c, states, actions) && states[0] == Init(c) && states[|states| - 1] == s;
    RunKeeps(c, states, actions, |actions|);
    ph := PhasesAt(c, states, actions, |actions|);
  }

  lemma ReachableNext(c: Config, s: State, a: Action)
    requires Reachable(c, s) && Enabled(c, s, a)
    ensures Reachable(c, Do(c, s, a))
  {
    hide Enabled, Do;
    var states, actions :| IsRun(c, states, actions) && states[0] == Init(c) && states[|states| - 1] == s;
    var states', actions' := states + [Do(c, s, a)], actions + [a];
    forall i | 0 <= i < |actions'|
      ensures Enabled(c, states'[i], actions'[i]) && states'[i + 1] == Do(c, states'[i], actions'[i])
    {
      if i < |actions| {
        assert actions'[i] == actions[i];
      }
    }
    assert IsRun(c, states', actions');
  }

  lemma ReachableStart(c: Config)
    ensures Reachable(c, Init(c))
  {
    assert IsRun(c, [Init(c)], []);
  }

  // ---- what a reachable state looks like ----

  /** How often `n` is queued, held by the dispatcher or about to be sent; and how often it is being executed. */
  function EnRoute(c: Config, s: State, n: Id): nat {
    Tokens(c, s, Wait(n)) + Tokens(c, s, Act(n))
  }

  /** No step is on its way or running twice at a time, and nothing but steps ever is. */
  lemma NeverTwice(c: Config, s: State, n: Id)
    requires ValidConfig(c) && WellFormedLoops(c) && Reachable(c, s)
    ensures EnRoute(c, s, n) <= 1
    ensures EnRoute(c, s, n) > 0 ==> n in Nodes(c.g)
  {
    var ph := ReachableInv(c, s);
    hide Tokens, WaitingIsDue, DegreesDue, CountsMatch, Shaped, ValidConfig, WellFormedLoops, Reachable;
    assert Tokens(c, s, Wait(n)) == Want(c, s, ph, Wait(n));
    assert Tokens(c, s, Act(n)) == Want(c, s, ph, Act(n));
  }

  /**
   A step that is on its way or running has been signalled by all its dependencies: its
   in-degree is zero and none of them is on its way or running.
   */
  lemma DependenciesFirst(c: Config, s: State, n: Id, p: Id)
    requires ValidConfig(c) && WellFormedLoops(c) && Reachable(c, s)
    requires EnRoute(c, s, n) > 0 && p in Parents(c.g, n)
    ensures Degree(s, n) == 0
    ensures EnRoute(c, s, p) == 0 && Degree(s, p) == 0
  {
    var ph := ReachableInv(c, s);
    hide Tokens, Due, CountsMatch, Shaped, WellFormedLoops, Reachable, Acyclic;
    assert Tokens(c, s, Wait(n)) == Want(c, s, ph, Wait(n));
    assert Tokens(c, s, Act(n)) == Want(c, s, ph, Act(n));
    EdgeBothWays(c.g, p, n);
    ParentsSignalled(c.g, ph, p, n);
    assert Tokens(c, s, Wait(p)) == Want(c, s, ph, Wait(p));
    assert Tokens(c, s, Act(p)) == Want(c, s, ph, Act(p));
  }

  /**
   Two gotos whose regions share a step are never in flight together, so a rewind cannot
   pull a step away from under another loop.
   */
  lemma OneGotoAtATime(c: Config, s: State, n: Id, m: Id, shared: Id)
    requires ValidConfig(c) && WellFormedLoops(c) && Reachable(c, s)
    requires n in c.loops && m in c.loops && n != m && shared in c.loops[n].body && shared in c.loops[m].body
    ensures EnRoute(c, s, n) == 0 || EnRoute(c, s, m) == 0
  {
    var ph := ReachableInv(c, s);
    assert Between(c.g, c.loops[n].target, n, shared) && Between(c.g, c.loops[m].target, m, shared);
    LoopOf(c, n);
    SharedStepOrders(c.g, c.loops[n].target, n, c.loops[m].target, m, shared);
    hide Tokens, Due, CountsMatch, Shaped, WellFormedLoops, Reachable, Acyclic, Between, SingleExit;
    if Reach(c.g, n, m) {
      AncestorNotInFlight(c, s, ph, n, m);
    } else {
      AncestorNotInFlight(c, s, ph, m, n);
    }
  }

  lemma AncestorNotInFlight(c: Config, s: State, ph: Phases, a: Id, n: Id)
    requires ValidConfig(c) && Inv(c, s, ph) && Reach(c.g, a, n) && a != n && n in Nodes(c.g)
    ensures EnRoute(c, s, a) == 0 || EnRoute(c, s, n) == 0
  {
    hide Tokens, Due, CountsMatch, Shaped, Acyclic, Reach;
    assert Tokens(c, s, Wait(n)) == Want(c, s, ph, Wait(n)) && Tokens(c, s, Act(n)) == Want(c, s, ph, Act(n));
    if EnRoute(c, s, n) > 0 {
      AncestorDone(c.g, ph, a, n);
      assert Tokens(c, s, Wait(a)) == Want(c, s, ph, Wait(a)) && Tokens(c, s, Act(a)) == Want(c, s, ph, Act(a));
    }
  }

  /** `done` is closed at most once, and only when every step has completed and nothing is on its way. */
  lemma DoneClosedOnce(c: Config, s: State)
    requires ValidConfig(c) && WellFormedLoops(c) && Reachable(c, s)
    ensures s.closes <= 1 && 0 <= s.completed <= |c.g.ids|
    ensures s.closes == 1 ==> s.completed == |c.g.ids| && forall n :: EnRoute(c, s, n) == 0
  {
    var ph := ReachableInv(c, s);
    hide Tokens, WaitingIsDue, DegreesDue, Shaped, WellFormedLoops, Reachable, Acyclic;
    AllDoneSize(c.g, ph);
    if s.closes == 1 {
      forall n
        ensures EnRoute(c, s, n) == 0
      {
        assert Tokens(c, s, Wait(n)) == Want(c, s, ph, Wait(n));
        assert Tokens(c, s, Act(n)) == Want(c, s, ph, Act(n));
      }
    }
  }

  /** The in-degree table never goes below zero, so the `<= 0` test is an `== 0` test. */
  lemma DegreesNeverNegative(c: Config, s: State, n: Id)
    requires ValidConfig(c) && WellFormedLoops(c) && Reachable(c, s) && n in Nodes(c.g)
    ensures 0 <= Degree(s, n) <= |Parents(c.g, n)|
  {
    var ph := ReachableInv(c, s);
    hide Tokens, WaitingIsDue, CountsMatch, TokensMatch, Shaped, WellFormedLoops, Reachable, Acyclic;
    UnsentFromAtMost(c.g, ph, c.g.ids, n);
  }

  lemma {:induction false} UnsentFromAtMost(g: Graph, ph: Phases, from: seq<Id>, n: Id)
    requires WellFormed(g) && Distinct(from) && forall p | p in from :: p in Nodes(g)
    ensures UnsentFrom(g, ph, from, n) <= CountIn(Parents(g, n), Elements(from)) <= |Parents(g, n)|
  {
    hide Acyclic;
    var ps := Parents(g, n);
    CountInAtMost(ps, Elements(from));
    if from == [] {
    } else {
      var p, rest := from[0], from[1..];
      UnsentFromAtMost(g, ph, rest, n);
      assert Elements(from) == Elements(rest) + {p};
      assert p !in rest;
      CountInAdd(ps, Elements(rest), p);
      assert Mirrored(g, p, n);
      SuffixCount(Children(g, p), if p in ph && ph[p].Done? then ph[p].signalled else 0, n);
    }
  }

  lemma SuffixCount(s: seq<Id>, k: nat, n: Id)
    ensures k <= |s| ==> multiset(s[k..])[n] <= multiset(s)[n]
  {
    if k <= |s| {
      assert s == s[..k] + s[k..];
    }
  }

  lemma {:induction false} CountInAtMost(ps: seq<Id>, within: set<Id>)
    ensures CountIn(ps, within) <= |ps|
  {
    if ps != [] {
      CountInAtMost(ps[1..], within);
    }
  }

  /** No goto is taken more often than its limit allows. */
  lemma IterationsBounded(c: Config, s: State, n: Id)
    requires ValidConfig(c) && WellFormedLoops(c) && Reachable(c, s) && Get(s.iterations, n) > 0
    ensures n in c.loops && Get(s.iterations, n) <= c.loops[n].maxIterations
  {
    var ph := ReachableInv(c, s);
  }
}
