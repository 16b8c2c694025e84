/**
 Schedule independence and recovery equivalence of workflows without gotos: if what the
 evaluator and the actions answer for a step depends only on the results of its
 dependencies and no step returns an error, every interleaving ends with the result map
 of the sequential evaluation, and so does resuming from a snapshot taken in mid-run.
 */
module SchedulerDeterminism {
  import opened Graph
  import opened Ledger
  import opened StepNode
  import opened Wrappers
  import opened Scheduler
  import opened SchedulerInvariant
  import opened SchedulerSafety
  import opened SchedulerRounds

  /** What a step answers, given the results of its dependencies. */
  type Behaviour = (Id, Results) -> Answers

  function DependencyResults(g: Graph, results: Results, n: Id): Results {
    map p | p in Parents(g, n) && p in results :: results[p]
  }

  // ---- the sequential evaluation ----

  function EvalStep(c: Config, f: Behaviour, results: Results, n: Id): Effect {
    NodeRule(Spec(c, n), false, results, n, f(n, DependencyResults(c.g, results, n)))
  }

  /** The result map after the first `k` steps of `order`, one after the other. */
  function SequentialResults(c: Config, f: Behaviour, order: seq<Id>, k: nat): Results
    requires k <= |order|
  {
    if k == 0 then map[] else EvalStep(c, f, SequentialResults(c, f, order, k - 1), order[k - 1]).results
  }

  /** None of the first `k` steps of the sequential evaluation returns an error. */
  ghost predicate ErrorFree(c: Config, f: Behaviour, order: seq<Id>, k: nat)
    requires k <= |order|
  {
    k > 0 ==>
      ErrorFree(c, f, order, k - 1) && !EvalStep(c, f, SequentialResults(c, f, order, k - 1), order[k - 1]).failed
  }

  lemma {:induction false} ErrorFreeAt(c: Config, f: Behaviour, order: seq<Id>, k: nat, j: nat)
    requires j < k <= |order| && ErrorFree(c, f, order, k)
    ensures !EvalStep(c, f, SequentialResults(c, f, order, j), order[j]).failed
    ensures ErrorFree(c, f, order, j)
  {
    hide EvalStep, SequentialResults;
    if j < k - 1 {
      ErrorFreeAt(c, f, order, k - 1, j);
    }
  }

  /** A result map in which every step has the result its dependencies' results lead to. */
  ghost predicate SettledAt(c: Config, f: Behaviour, r: Results, n: Id) {
    && n in r
    && var e := NodeRule(Spec(c, n), false, r - {n}, n, f(n, DependencyResults(c.g, r, n)));
       !e.failed && n in e.results && e.results[n] == r[n]
  }

  ghost predicate Settled(c: Config, f: Behaviour, r: Results) {
    r.Keys == Nodes(c.g) && forall n | n in Nodes(c.g) :: SettledAt(c, f, r, n)
  }

  lemma EvalStepLeaves(c: Config, f: Behaviour, results: Results, n: Id)
    ensures var e := EvalStep(c, f, results, n);
            && (forall m | m != n && m in results :: m in e.results && e.results[m] == results[m])
            && (!e.failed ==> e.results.Keys == results.Keys + {n})
  {
    NodeLeavesResult(Spec(c, n), false, results, n, f(n, DependencyResults(c.g, results, n)));
    hide NodeRule;
  }

  lemma {:induction false} SequentialKeys(c: Config, f: Behaviour, order: seq<Id>, k: nat)
    requires k <= |order| && ErrorFree(c, f, order, k)
    ensures SequentialResults(c, f, order, k).Keys == Elements(order[..k])
  {
    hide EvalStep, DependencyResults;
    if k > 0 {
      SequentialKeys(c, f, order, k - 1);
      EvalStepLeaves(c, f, SequentialResults(c, f, order, k - 1), order[k - 1]);
      assert order[..k] == order[..k - 1] + [order[k - 1]];
    }
  }

  /** A later step leaves an earlier result alone. */
  lemma {:induction false} SequentialStable(c: Config, f: Behaviour, order: seq<Id>, j: nat, k: nat, m: nat)
    requires Distinct(order) && j < k <= m <= |order| && ErrorFree(c, f, order, m)
    ensures var at, later := SequentialResults(c, f, order, k), SequentialResults(c, f, order, m);
            order[j] in at && order[j] in later && later[order[j]] == at[order[j]]
    decreases m
  {
    hide EvalStep, DependencyResults, ErrorFree;
    if m == k {
      SequentialKeys(c, f, order, m);
      assert order[..k][j] == order[j];
    } else {
      ErrorFreeAt(c, f, order, m, m - 1);
      SequentialStable(c, f, order, j, k, m - 1);
      EvalStepLeaves(c, f, SequentialResults(c, f, order, m - 1), order[m - 1]);
    }
  }

  /** The sequential evaluation in topological order gives such a map. */
  lemma SequentialIsSettled(c: Config, f: Behaviour, order: seq<Id>)
    requires WellFormed(c.g) && IsTopologicalOrder(c.g, order) && ErrorFree(c, f, order, |order|)
    ensures Settled(c, f, SequentialResults(c, f, order, |order|))
  {
    hide SettledAt, SequentialResults, ErrorFree;
    var r := SequentialResults(c, f, order, |order|);
    SequentialKeys(c, f, order, |order|);
    assert order[..|order|] == order;
    forall n | n in Nodes(c.g)
      ensures SettledAt(c, f, r, n)
    {
      assert n in Elements(order);
      var j :| 0 <= j < |order| && order[j] == n;
      SequentialSettledAt(c, f, order, j);
    }
  }

  /** The dependencies of a step are evaluated before it and keep their results. */
  lemma SequentialDependencies(c: Config, f: Behaviour, order: seq<Id>, j: nat)
    requires WellFormed(c.g) && IsTopologicalOrder(c.g, order) && ErrorFree(c, f, order, |order|) && j < |order|
    ensures DependencyResults(c.g, SequentialResults(c, f, order, j), order[j])
            == DependencyResults(c.g, SequentialResults(c, f, order, |order|), order[j])
  {
    hide SequentialResults, ErrorFree;
    var n := order[j];
    forall p | p in Parents(c.g, n)
      ensures p in SequentialResults(c, f, order, j) && p in SequentialResults(c, f, order, |order|)
      ensures SequentialResults(c, f, order, |order|)[p] == SequentialResults(c, f, order, j)[p]
    {
      EdgeBothWays(c.g, p, n);
      assert p in Elements(order);
      var i :| 0 <= i < |order| && order[i] == p;
      assert Edge(c.g, order[i], order[j]);
      SequentialStable(c, f, order, i, j, |order|);
    }
  }

  lemma SequentialSettledAt(c: Config, f: Behaviour, order: seq<Id>, j: nat)
    requires WellFormed(c.g) && IsTopologicalOrder(c.g, order) && ErrorFree(c, f, order, |order|) && j < |order|
    ensures SettledAt(c, f, SequentialResults(c, f, order, |order|), order[j])
  {
    hide NodeRule, DependencyResults, WellFormed;
    var n := order[j];
    var before, r := SequentialResults(c, f, order, j), SequentialResults(c, f, order, |order|);
    ErrorFreeAt(c, f, order, |order|, j);
    SequentialDependencies(c, f, order, j);
    SequentialStable(c, f, order, j, j + 1, |order|);
    SequentialKeys(c, f, order, j);
    assert n !in order[..j];
    FreshNode(Spec(c, n), before, r - {n}, n, f(n, DependencyResults(c.g, r, n)));
  }

  // ---- one step inside a run ----

  predicate Kept(result: StepResult) {
    result.status == StatusSuccess || result.status == StatusSkipped
  }

  /** Executing a step whose dependencies have settled settles it, also when resumed. */
  lemma NodeFits(spec: StepSpec, resumed: bool, results: Results, r: Results, id: Id, answers: Answers)
    requires id in r && var e := NodeRule(spec, false, r - {id}, id, answers); !e.failed && id in e.results && e.results[id] == r[id]
    requires resumed && id in results && Kept(results[id]) ==> results[id] == r[id]
    requires resumed && id in results && results[id].status == StatusRunning ==> spec.onRecovery == Retry
    ensures var e := NodeRule(spec, resumed, results, id, answers); !e.failed && e.results == results[id := r[id]]
    ensures Terminal(r[id].status)
  {
  }

  // ---- runs ----

  /** Every execution in the run answers as `f` says. */
  ghost predicate Follows(c: Config, f: Behaviour, s: State, a: Action) {
    a.Execute? && a.worker < |s.workers| && s.workers[a.worker].Run? ==>
      a.answers == f(s.workers[a.worker].step, DependencyResults(c.g, s.results, s.workers[a.worker].step))
  }

  ghost predicate Deterministic(c: Config, f: Behaviour, states: seq<State>, actions: seq<Action>) {
    |states| == |actions| + 1 && forall i {:trigger actions[i]} | 0 <= i < |actions| :: Follows(c, f, states[i], actions[i])
  }

  ghost predicate HasResult(s: State, r: Results, n: Id) {
    n in s.results && n in r && s.results[n] == r[n]
  }

  /** What is recorded agrees with `r`; a result that resuming would keep is the right one. */
  ghost predicate MapFits(c: Config, results: Results, r: Results) {
    forall n | n in results ::
      && n in r
      && (!c.resumed ==> results[n] == r[n])
      && (Kept(results[n]) ==> results[n] == r[n])
      && (results[n].status == StatusRunning ==> Spec(c, n).onRecovery == Retry)
  }

  ghost predicate Fits(c: Config, r: Results, s: State, ph: Phases) {
    && s.firstErr == None && !s.dispatcher.Refuse? && !s.dispatcher.Refused?
    && (forall n | n in Nodes(c.g) && n in ph && ph[n].Done? :: HasResult(s, r, n))
    && (forall i | 0 <= i < |s.workers| && s.workers[i].Ran? :: !s.workers[i].failed && HasResult(s, r, s.workers[i].step))
    && MapFits(c, s.results, r)
  }

  lemma DependenciesSettled(c: Config, r: Results, s: State, ph: Phases, n: Id)
    requires WellFormed(c.g) && WaitingIsDue(c.g, ph) && Fits(c, r, s, ph) && PhaseIs(c.g, ph, n, Running)
    ensures DependencyResults(c.g, s.results, n) == DependencyResults(c.g, r, n)
  {
    hide Due;
    forall p | p in Parents(c.g, n)
      ensures HasResult(s, r, p)
    {
      EdgeBothWays(c.g, p, n);
      ParentsSignalled(c.g, ph, p, n);
    }
  }

  lemma ExecuteEffect(c: Config, f: Behaviour, r: Results, s: State, ph: Phases, i: nat, answers: Answers)
    requires ValidConfig(c) && Inv(c, s, ph) && Settled(c, f, r) && Fits(c, r, s, ph)
    requires Enabled(c, s, Execute(i, answers)) && Follows(c, f, s, Execute(i, answers))
    ensures var n := s.workers[i].step;
            && n in r && Terminal(r[n].status)
            && Do(c, s, Execute(i, answers)) == WithTask(s.(results := s.results[n := r[n]]), Worker(i), Ran(n, false))
  {
    hide Due, Tokens, Want, Acyclic, CountsMatch, DegreesDue, NodeRule;
    var n := s.workers[i].step;
    ExecuteKeeps(c, s, ph, i, answers);
    DependenciesSettled(c, r, s, ph, n);
    assert SettledAt(c, f, r, n);
    NodeFits(Spec(c, n), c.resumed, s.results, r, n, answers);
  }

  lemma FitsExecute(c: Config, f: Behaviour, r: Results, s: State, ph: Phases, i: nat, answers: Answers)
    requires ValidConfig(c) && Inv(c, s, ph) && Settled(c, f, r) && Fits(c, r, s, ph)
    requires Enabled(c, s, Execute(i, answers)) && Follows(c, f, s, Execute(i, answers))
    ensures Fits(c, r, Do(c, s, Execute(i, answers)), ph)
  {
    hide Inv, ValidConfig, Settled, Follows, Do;
    ExecuteEffect(c, f, r, s, ph, i, answers);
  }

  lemma FitsComplete(c: Config, r: Results, s: State, ph: Phases, i: nat, wanted: bool)
    requires c.loops == map[] && Fits(c, r, s, ph) && Enabled(c, s, Complete(i, wanted))
    ensures Fits(c, r, Do(c, s, Complete(i, wanted)), NextPhases(c, s, ph, Complete(i, wanted)))
  {
    hide MapFits, HasResult;
    var n := s.workers[i].step;
    var s' := Do(c, s, Complete(i, wanted));
    assert s'.results == s.results && HasResult(s, r, n);
    HasResultSame(s, s', r);
  }

  lemma HasResultSame(s: State, s': State, r: Results)
    requires s'.results == s.results
    ensures forall n :: HasResult(s', r, n) <==> HasResult(s, r, n)
  {
  }

  lemma FitsSignal(c: Config, r: Results, s: State, ph: Phases, a: Agent)
    requires ValidConfig(c) && Inv(c, s, ph) && Enabled(c, s, SignalChild(a)) && Fits(c, r, s, ph)
    ensures Fits(c, r, Do(c, s, SignalChild(a)), SignalPhases(c, s, ph, TaskOf(s, a).step, TaskOf(s, a).next))
  {
    hide Due, Tokens, Want, Acyclic, DoneSet, AllDone, MapFits, HasResult;
    SignalHeld(c, s, ph, a, TaskOf(s, a).step, TaskOf(s, a).next);
    SignalLedger(c, s, ph, a, TaskOf(s, a).step, TaskOf(s, a).next);
    HasResultSame(s, Do(c, s, SignalChild(a)), r);
  }

  lemma FitsTask(c: Config, r: Results, s: State, ph: Phases, s1: State, a: Agent, t: Task)
    requires Fits(c, r, s, ph) && s1.firstErr == s.firstErr && s1.results == s.results
    requires s1.workers == s.workers && s1.dispatcher == s.dispatcher && !t.Ran?
    ensures Fits(c, r, WithTask(s1, a, t), ph)
  {
    hide MapFits, HasResult;
    HasResultSame(s, WithTask(s1, a, t), r);
  }

  lemma FitsQuiet(c: Config, r: Results, s: State, ph: Phases, a: Action)
    requires Enabled(c, s, a) && Fits(c, r, s, ph)
    requires !a.Skip1? && !a.Skip2? && !a.Execute? && !a.Complete? && !a.SignalChild?
    ensures Fits(c, r, Do(c, s, a), NextPhases(c, s, ph, a))
  {
    hide Fits, SignalPhases, Counted, Finish, Signalled, NodeRule;
    match a {
      case SendChild(ag) =>
        var n, k := TaskOf(s, ag).step, TaskOf(s, ag).sent;
        FitsTask(c, r, s, ph, s.(ready := s.ready + [Children(c.g, n)[k]]), ag, NextSignal(c, n, k + 1));
      case CloseDone(ag) => FitsTask(c, r, s, ph, s.(closes := s.closes + 1), ag, Leave);
      case SendTarget(i) =>
        var n, rest := s.workers[i].step, s.workers[i].rest;
        FitsTask(c, r, s, ph, s.(ready := s.ready + [rest[0]]), Worker(i), NextJump(n, rest[1..]));
      case Release(i) => FitsTask(c, r, s, ph, s.(sem := s.sem - 1), Worker(i), Detach);
      case WgDone(i) => FitsTask(c, r, s, ph, s.(wg := s.wg - 1), Worker(i), Gone);
      case _ => FitsPlain(c, r, s, ph, a);
    }
  }

  lemma FitsPlain(c: Config, r: Results, s: State, ph: Phases, a: Action)
    requires Enabled(c, s, a) && Fits(c, r, s, ph)
    requires a == Receive || a == Inspect || a == Add || a == Take || a == SeeDone || a == Return
    ensures Fits(c, r, Do(c, s, a), NextPhases(c, s, ph, a))
  {
    hide MapFits, HasResult, Counted, Finish, Signalled, NodeRule, RecoveryRule;
    HasResultSame(s, Do(c, s, a), r);
  }

  lemma StepFits(c: Config, f: Behaviour, r: Results, s: State, ph: Phases, a: Action)
    requires ValidConfig(c) && c.loops == map[] && Inv(c, s, ph) && Settled(c, f, r) && Fits(c, r, s, ph)
    requires Enabled(c, s, a) && Follows(c, f, s, a)
    ensures Fits(c, r, Do(c, s, a), NextPhases(c, s, ph, a))
  {
    match a {
      case Execute(i, answers) =>
        hide Inv, ValidConfig, Settled, Fits, Do, Follows;
        FitsExecute(c, f, r, s, ph, i, answers);
      case Complete(i, wanted) =>
        hide Inv, ValidConfig, Settled, Fits, Do;
        FitsComplete(c, r, s, ph, i, wanted);
      case SignalChild(ag) =>
        hide Inv, ValidConfig, Settled, Fits, Do;
        FitsSignal(c, r, s, ph, ag);
      case Skip1 => assert false;
      case Skip2 => assert false;
      case _ =>
        hide Inv, ValidConfig, Settled, Fits, Do;
        FitsQuiet(c, r, s, ph, a);
    }
  }

  lemma {:induction false} RunFits(c: Config, f: Behaviour, r: Results, states: seq<State>, actions: seq<Action>, k: nat)
    requires ValidConfig(c) && c.loops == map[] && Settled(c, f, r)
    requires IsRun(c, states, actions) && states[0] == Init(c) && Deterministic(c, f, states, actions) && k <= |actions|
    requires c.resumed ==> MapFits(c, c.recovered, r)
    ensures Fits(c, r, states[k], PhasesAt(c, states, actions, k))
  {
    hide ValidConfig, Settled, Do, NextPhases, Inv, Follows;
    assert WellFormedLoops(c);
    if k > 0 {
      hide Fits;
      RunFits(c, f, r, states, actions, k - 1);
      RunKeeps(c, states, actions, k - 1);
      assert Follows(c, f, states[k - 1], actions[k - 1]);
      StepFits(c, f, r, states[k - 1], PhasesAt(c, states, actions, k - 1), actions[k - 1]);
    }
  }

  lemma FitsAtEnd(c: Config, f: Behaviour, r: Results, states: seq<State>, actions: seq<Action>)
    requires ValidConfig(c) && c.loops == map[] && Settled(c, f, r)
    requires IsRun(c, states, actions) && states[0] == Init(c) && Deterministic(c, f, states, actions)
    requires c.resumed ==> MapFits(c, c.recovered, r)
    requires states[|actions|].caller.Returned?
    ensures states[|actions|].results == r && states[|actions|].caller.error == None
  {
    hide ValidConfig, Do, NextPhases, WaitingIsDue, DegreesDue, TokensMatch, SettledAt;
    assert WellFormedLoops(c);
    RunKeeps(c, states, actions, |actions|);
    RunRounds(c, states, actions, |actions|);
    RunFits(c, f, r, states, actions, |actions|);
    var s := states[|actions|];
    forall n | n in Nodes(c.g)
      ensures HasResult(s, r, n)
    {
    }
  }

  /** Every interleaving that returns ends with the result map of the sequential evaluation in topological order. */
  lemma ScheduleIndependence(c: Config, f: Behaviour, order: seq<Id>, states: seq<State>, actions: seq<Action>)
    requires ValidConfig(c) && c.loops == map[] && !c.resumed
    requires IsTopologicalOrder(c.g, order) && ErrorFree(c, f, order, |order|)
    requires IsRun(c, states, actions) && states[0] == Init(c) && Deterministic(c, f, states, actions)
    requires states[|actions|].caller.Returned?
    ensures states[|actions|].results == SequentialResults(c, f, order, |order|)
    ensures states[|actions|].caller.error == None
  {
    hide IsRun, Init, Deterministic, ErrorFree, SequentialResults, Settled, IsTopologicalOrder, Acyclic;
    SequentialIsSettled(c, f, order);
    FitsAtEnd(c, f, SequentialResults(c, f, order, |order|), states, actions);
  }

  // ---- resuming ----

  /**
   A snapshot of a running workflow: final results as recorded at that moment; steps in
   flight may appear as running or waiting, or not at all.
   */
  ghost predicate SnapshotOf(snapshot: Results, results: Results, g: Graph) {
    forall n | n in snapshot ::
      && n in Nodes(g)
      && ((n in results && snapshot[n] == results[n])
          || snapshot[n].status == StatusRunning || snapshot[n].status == StatusWaiting)
  }

  /** In a deterministic run everything recorded at any moment is the final result. */
  lemma SnapshotFits(c: Config, f: Behaviour, r: Results, states: seq<State>, actions: seq<Action>, k: nat, snapshot: Results)
    requires ValidConfig(c) && c.loops == map[] && !c.resumed && Settled(c, f, r)
    requires IsRun(c, states, actions) && states[0] == Init(c) && Deterministic(c, f, states, actions) && k <= |actions|
    requires SnapshotOf(snapshot, states[k].results, c.g)
    requires forall n | n in snapshot && snapshot[n].status == StatusRunning :: Spec(c, n).onRecovery == Retry
    ensures MapFits(c.(resumed := true, recovered := snapshot), snapshot, r)
  {
    hide ValidConfig, Do, NextPhases, WaitingIsDue, DegreesDue, TokensMatch, SettledAt;
    RunFits(c, f, r, states, actions, k);
  }

  /**
   Stop a run anywhere, resume from a snapshot of it: the resumed run ends with the same
   result map as a run from scratch, whatever the two schedules.
   */
  lemma RecoveryEquivalence(
    c: Config, f: Behaviour, order: seq<Id>,
    states: seq<State>, actions: seq<Action>, k: nat, snapshot: Results,
    states': seq<State>, actions': seq<Action>)
    requires ValidConfig(c) && c.loops == map[] && !c.resumed
    requires IsTopologicalOrder(c.g, order) && ErrorFree(c, f, order, |order|)
    requires IsRun(c, states, actions) && states[0] == Init(c) && Deterministic(c, f, states, actions) && k <= |actions|
    requires SnapshotOf(snapshot, states[k].results, c.g)
    requires forall n | n in snapshot && snapshot[n].status == StatusRunning :: Spec(c, n).onRecovery == Retry
    requires var c' := c.(resumed := true, recovered := snapshot);
             IsRun(c', states', actions') && states'[0] == Init(c') && Deterministic(c', f, states', actions')
    requires states'[|actions'|].caller.Returned?
    ensures states'[|actions'|].results == SequentialResults(c, f, order, |order|)
    ensures states'[|actions'|].caller.error == None
  {
    hide Deterministic, ErrorFree, SequentialResults, IsTopologicalOrder, Acyclic, Init, Do, MapFits;
    var r := SequentialResults(c, f, order, |order|);
    var c' := c.(resumed := true, recovered := snapshot);
    SequentialIsSettled(c, f, order);
    SnapshotFits(c, f, r, states, actions, k, snapshot);
    SameSettled(c, c', f, r);
    FitsAtEnd(c', f, r, states', actions');
  }

  lemma SameSettled(c: Config, c': Config, f: Behaviour, r: Results)
    requires c'.g == c.g && c'.specs == c.specs && Settled(c, f, r)
    ensures Settled(c', f, r)
  {
    hide NodeRule;
    forall n | n in Nodes(c.g)
      ensures SettledAt(c', f, r, n)
    {
      assert SettledAt(c, f, r, n);
    }
  }
}
