/**
 Counting over whole runs: how often each step is executed or skipped, in terms of the
 gotos taken, and what is left when the call returns.
 */
module SchedulerRounds {
  import opened Graph
  import opened Ledger
  import opened LoopBody
  import opened StepNode
  import opened Wrappers
  import opened Scheduler
  import opened SchedulerInvariant
  import opened SchedulerRewind
  import opened SchedulerSafety

  // ---- rounds of one step ----

  function Rewinds(c: Config, s: State, m: Id, n: Id): nat {
    if m in c.loops && n in c.loops[m].body then Get(s.iterations, m) else 0
  }

  /** How often `n` was reset by the gotos of the steps in `ids`. */
  function Resets(c: Config, s: State, ids: seq<Id>, n: Id): nat {
    if ids == [] then 0 else Rewinds(c, s, ids[0], n) + Resets(c, s, ids[1..], n)
  }

  /** A step has been counted once for every reset, and once more if its current round is finished. */
  ghost predicate RoundsMatch(c: Config, s: State, ph: Phases) {
    forall n | n in Nodes(c.g) ::
      n in ph && Get(s.finished, n) == Resets(c, s, c.g.ids, n) + One(ph[n].Done?)
  }

  lemma {:induction false} ResetsSame(c: Config, s: State, s': State, ids: seq<Id>, n: Id)
    requires forall m | m in ids :: Rewinds(c, s, m, n) == Rewinds(c, s', m, n)
    ensures Resets(c, s, ids, n) == Resets(c, s', ids, n)
  {
    if ids != [] {
      ResetsSame(c, s, s', ids[1..], n);
    }
  }

  lemma {:induction false} ResetsBump(c: Config, s: State, s': State, ids: seq<Id>, m: Id, n: Id)
    requires Distinct(ids) && m in ids && m in c.loops && s'.iterations == Bump(s.iterations, m)
    ensures Resets(c, s', ids, n) == Resets(c, s, ids, n) + One(n in c.loops[m].body)
  {
    if ids[0] == m {
      assert m !in ids[1..];
      ResetsSame(c, s, s', ids[1..], n);
    } else {
      ResetsBump(c, s, s', ids[1..], m, n);
    }
  }

  lemma CountedRounds(c: Config, s: State, ph: Phases, a: Agent, n: Id, e: Option<Id>)
    requires RoundsMatch(c, s, ph) && PhaseIs(c.g, ph, n, Running)
    ensures RoundsMatch(c, CountedState(c, s, a, n, e), ph[n := Done(0)])
  {
    var s' := CountedState(c, s, a, n, e);
    forall m | m in Nodes(c.g)
      ensures Resets(c, s', c.g.ids, m) == Resets(c, s, c.g.ids, m)
    {
      ResetsSame(c, s, s', c.g.ids, m);
    }
  }

  lemma RewindRounds(c: Config, s: State, ph: Phases, i: nat, n: Id)
    requires WellFormed(c.g) && RoundsMatch(c, s, ph) && PhaseIs(c.g, ph, n, Running) && n in c.loops && n in c.loops[n].body
    requires forall m | m in c.loops[n].body && m != n :: PhaseIs(c.g, ph, m, Done(|Children(c.g, m)|))
    ensures RoundsMatch(c, RewindState(c, s, i, n), RewindPhases(ph, Elements(c.loops[n].body), c.loops[n].target))
  {
    hide Resets, WellFormed, Rewound, ReadySteps, RewindPhases;
    forall m | m in Nodes(c.g)
      ensures var s', ph' := RewindState(c, s, i, n), RewindPhases(ph, Elements(c.loops[n].body), c.loops[n].target);
              m in ph' && Get(s'.finished, m) == Resets(c, s', c.g.ids, m) + One(ph'[m].Done?)
    {
      RewindRound(c, s, ph, i, n, m);
    }
  }

  lemma RewindRound(c: Config, s: State, ph: Phases, i: nat, n: Id, m: Id)
    requires WellFormed(c.g) && PhaseIs(c.g, ph, n, Running) && n in c.loops && n in c.loops[n].body && m in Nodes(c.g)
    requires m in ph && Get(s.finished, m) == Resets(c, s, c.g.ids, m) + One(ph[m].Done?)
    requires m in c.loops[n].body && m != n ==> PhaseIs(c.g, ph, m, Done(|Children(c.g, m)|))
    ensures var s', ph' := RewindState(c, s, i, n), RewindPhases(ph, Elements(c.loops[n].body), c.loops[n].target);
            m in ph' && Get(s'.finished, m) == Resets(c, s', c.g.ids, m) + One(ph'[m].Done?)
  {
    hide Resets, WellFormed, Rewound, ReadySteps;
    var s' := RewindState(c, s, i, n);
    assert s'.iterations == Bump(s.iterations, n) && s'.finished == Bump(s.finished, n);
    RewindResets(c, s, s', n, m);
  }

  lemma RewindResets(c: Config, s: State, s': State, n: Id, m: Id)
    requires WellFormed(c.g) && n in Nodes(c.g) && n in c.loops && s'.iterations == Bump(s.iterations, n)
    ensures Resets(c, s', c.g.ids, m) == Resets(c, s, c.g.ids, m) + One(m in c.loops[n].body)
  {
    assert n in c.g.ids;
    ResetsBump(c, s, s', c.g.ids, n, m);
  }

  lemma QuietRounds(c: Config, s: State, ph: Phases, s': State, ph': Phases)
    requires RoundsMatch(c, s, ph) && s'.iterations == s.iterations && s'.finished == s.finished
    requires forall n | n in Nodes(c.g) :: n in ph && n in ph' && (ph'[n].Done? <==> ph[n].Done?)
    ensures RoundsMatch(c, s', ph')
  {
    forall m | m in Nodes(c.g)
      ensures Resets(c, s', c.g.ids, m) == Resets(c, s, c.g.ids, m)
    {
      ResetsSame(c, s, s', c.g.ids, m);
    }
  }

  lemma StepRounds(c: Config, s: State, ph: Phases, a: Action)
    requires ValidConfig(c) && WellFormedLoops(c) && Inv(c, s, ph) && Enabled(c, s, a) && RoundsMatch(c, s, ph)
    ensures RoundsMatch(c, Do(c, s, a), NextPhases(c, s, ph, a))
  {
    hide Inv, ValidConfig, WellFormedLoops, RoundsMatch, CountedState, Do;
    match a {
      case Skip2 =>
        CountedKeeps(c, s, ph, TheDispatcher, s.dispatcher.step, s.firstErr);
        CountedRounds(c, s, ph, TheDispatcher, s.dispatcher.step, s.firstErr);
        SkipIsCounted(c, s);
      case Complete(i, wanted) => CompleteRounds(c, s, ph, i, wanted);
      case SignalChild(ag) => SignalRounds(c, s, ph, ag);
      case _ =>
        HistoryEffect(c, s, a);
        QuietPhases(c, s, ph, a);
        QuietRounds(c, s, ph, Do(c, s, a), NextPhases(c, s, ph, a));
    }
  }

  /** Only the critical sections count a step as finished or an iteration as used. */
  lemma HistoryEffect(c: Config, s: State, a: Action)
    requires Enabled(c, s, a) && !a.Skip2? && !a.Complete?
    ensures Do(c, s, a).finished == s.finished && Do(c, s, a).iterations == s.iterations
  {
    hide NodeRule, WithTask, TaskOf;
  }

  /** Who writes the error, the wait group and the caller. */
  lemma CallerEffect(c: Config, s: State, a: Action)
    requires Enabled(c, s, a)
    ensures !a.SeeDone? && !a.Return? ==> Do(c, s, a).caller == s.caller
    ensures a.SeeDone? ==> Do(c, s, a).caller == AwaitWorkers
    ensures a.Return? ==> Do(c, s, a).caller == Returned(s.firstErr)
    ensures !a.Add? && !a.WgDone? ==> Do(c, s, a).wg == s.wg
    ensures !a.Complete? ==> Do(c, s, a).firstErr == s.firstErr
  {
    hide NodeRule, Rewound, ReadySteps, WithTask;
  }

  /** The dispatcher's choices leave alone which steps are finished. */
  lemma QuietPhases(c: Config, s: State, ph: Phases, a: Action)
    requires ValidConfig(c) && Inv(c, s, ph) && Enabled(c, s, a) && !a.Skip2? && !a.Complete? && !a.SignalChild?
    ensures forall m | m in Nodes(c.g) :: m in ph && m in NextPhases(c, s, ph, a) && (NextPhases(c, s, ph, a)[m].Done? <==> ph[m].Done?)
  {
    hide Due, AllTokens, WaitAll, Acyclic, Distinct, CountsMatch;
    if a == Take || a == Skip1 {
      HoldsWait(c, s, ph, s.dispatcher.step);
    }
  }

  lemma SignalRounds(c: Config, s: State, ph: Phases, a: Agent)
    requires ValidConfig(c) && Inv(c, s, ph) && Enabled(c, s, SignalChild(a)) && RoundsMatch(c, s, ph)
    ensures RoundsMatch(c, Do(c, s, SignalChild(a)), SignalPhases(c, s, ph, TaskOf(s, a).step, TaskOf(s, a).next))
  {
    hide Due, Tokens, Want, Acyclic, DoneSet, AllDone, RoundsMatch;
    var n, k := TaskOf(s, a).step, TaskOf(s, a).next;
    SignalHeld(c, s, ph, a, n, k);
    SignalLedger(c, s, ph, a, n, k);
    QuietRounds(c, s, ph, Do(c, s, SignalChild(a)), SignalPhases(c, s, ph, n, k));
  }

  lemma CompleteRounds(c: Config, s: State, ph: Phases, i: nat, wanted: bool)
    requires ValidConfig(c) && WellFormedLoops(c) && Inv(c, s, ph) && Enabled(c, s, Complete(i, wanted)) && RoundsMatch(c, s, ph)
    ensures RoundsMatch(c, Do(c, s, Complete(i, wanted)), NextPhases(c, s, ph, Complete(i, wanted)))
  {
    hide Inv, ValidConfig, WellFormedLoops, RoundsMatch;
    var n, failed := s.workers[i].step, s.workers[i].failed;
    if JumpTaken(c, s, n, failed, wanted) {
      LoopOf(c, n);
      RewindKeeps(c, s, ph, i);
      GotoStepInBody(c, n);
      ValidGraph(c);
      RewindRounds(c, s, ph, i, n);
      assert Do(c, s, Complete(i, wanted)) == RewindState(c, s, i, n);
    } else {
      var e := ErrorAfter(s, n, failed);
      CountedKeeps(c, s, ph, Worker(i), n, e);
      CountedRounds(c, s, ph, Worker(i), n, e);
      CompleteIsCounted(c, s, i, wanted);
    }
  }

  lemma GotoStepInBody(c: Config, n: Id)
    requires ValidConfig(c) && WellFormedLoops(c) && n in c.loops
    ensures n in c.loops[n].body
  {
    hide Acyclic;
    AncestorReach(c.g, c.loops[n].target, n);
    ReachSelf(c.g, n);
    assert Between(c.g, c.loops[n].target, n, n);
  }

  // ---- after the call has returned ----

  ghost predicate ReturnedClean(s: State) {
    s.caller.Returned? ==> s.wg == 0 && s.caller.error == s.firstErr
  }

  lemma AfterClose(c: Config, s: State, ph: Phases)
    requires TokensMatch(c, s, ph) && CountsMatch(c, s, ph) && s.closes > 0
    ensures forall n :: Tokens(c, s, Wait(n)) == 0 && Tokens(c, s, Act(n)) == 0
  {
    hide Tokens;
    forall n
      ensures Tokens(c, s, Wait(n)) == 0 && Tokens(c, s, Act(n)) == 0
    {
      assert Tokens(c, s, Wait(n)) == Want(c, s, ph, Wait(n));
      assert Tokens(c, s, Act(n)) == Want(c, s, ph, Act(n));
    }
  }

  lemma StepClean(c: Config, s: State, ph: Phases, a: Action)
    requires Inv(c, s, ph) && Enabled(c, s, a) && ReturnedClean(s)
    ensures ReturnedClean(Do(c, s, a))
  {
    hide WaitingIsDue, DegreesDue, Tokens, Want, CountsMatch, TokensMatch, Do;
    CallerEffect(c, s, a);
    if s.caller.Returned? {
      AfterClose(c, s, ph);
      match a {
        case Add =>
          AdmitHolds(c, s);
          assert false;
        case Complete(i, _) =>
          TaskChange(c, s, Worker(i), Gone, Act(s.workers[i].step));
          assert false;
        case WgDone(i) =>
          MemberHeld(c, s, ph, i);
          assert false;
        case _ =>
      }
    }
  }

  lemma AdmitHolds(c: Config, s: State)
    requires s.dispatcher.Admit?
    ensures Tokens(c, s, Wait(s.dispatcher.step)) > 0
  {
  }

  lemma MemberHeld(c: Config, s: State, ph: Phases, i: nat)
    requires TokensMatch(c, s, ph) && i < |s.workers| && s.workers[i] != Gone
    ensures s.wg > 0
  {
    hide AllTokens, WaitAll, TaskTokens;
    TaskChange(c, s, Worker(i), Gone, Member);
    assert Tokens(c, s, Member) == Want(c, s, ph, Member);
  }

  // ---- whole runs ----

  lemma {:induction false} RunRounds(c: Config, states: seq<State>, actions: seq<Action>, k: nat)
    requires ValidConfig(c) && WellFormedLoops(c)
    requires IsRun(c, states, actions) && states[0] == Init(c) && k <= |actions|
    ensures RoundsMatch(c, states[k], PhasesAt(c, states, actions, k)) && ReturnedClean(states[k])
  {
    hide Inv, ValidConfig, WellFormedLoops, NextPhases, RoundsMatch, ReturnedClean, Init, Do, Enabled;
    if k == 0 {
      RoundsInit(c);
    } else {
      RunRounds(c, states, actions, k - 1);
      RunKeeps(c, states, actions, k - 1);
      StepRounds(c, states[k - 1], PhasesAt(c, states, actions, k - 1), actions[k - 1]);
      StepClean(c, states[k - 1], PhasesAt(c, states, actions, k - 1), actions[k - 1]);
    }
  }

  lemma RoundsInit(c: Config)
    requires ValidConfig(c)
    ensures RoundsMatch(c, Init(c), InitialPhases(c.g)) && ReturnedClean(Init(c))
  {
    hide Acyclic, WellFormed;
    forall n
      ensures Resets(c, Init(c), c.g.ids, n) == 0
    {
      NoResets(c, Init(c), c.g.ids, n);
    }
  }

  lemma {:induction false} NoResets(c: Config, s: State, ids: seq<Id>, n: Id)
    requires s.iterations == map[]
    ensures Resets(c, s, ids, n) == 0
  {
    if ids != [] {
      NoResets(c, s, ids[1..], n);
    }
  }

  lemma ReachableRounds(c: Config, s: State) returns (ph: Phases)
    requires ValidConfig(c) && WellFormedLoops(c) && Reachable(c, s)
    ensures Inv(c, s, ph) && RoundsMatch(c, s, ph) && ReturnedClean(s)
  {
    hide Inv, ValidConfig, WellFormedLoops, RoundsMatch, ReturnedClean;
    var states, actions :| IsRun(c, states, actions) && states[0] == Init(c) && states[|states| - 1] == s;
    RunKeeps(c, states, actions, |actions|);
    RunRounds(c, states, actions, |actions|);
    ph := PhasesAt(c, states, actions, |actions|);
  }

  /** The steps whose current round is finished, read off the history. */
  ghost function FinishedNow(c: Config, s: State): set<Id> {
    set n | n in Nodes(c.g) && Get(s.finished, n) > Resets(c, s, c.g.ids, n)
  }

  /**
   In every reachable state `completed` is the number of steps finished in their
   current round, across any number of rewinds.
   */
  lemma CompletedIsFinishedNow(c: Config, s: State)
    requires ValidConfig(c) && WellFormedLoops(c) && Reachable(c, s)
    ensures s.completed == |FinishedNow(c, s)|
    ensures forall n | n in Nodes(c.g) :: Get(s.finished, n) <= Resets(c, s, c.g.ids, n) + 1
  {
    var ph := ReachableRounds(c, s);
    hide WaitingIsDue, DegreesDue, TokensMatch, Shaped, Acyclic, WellFormed, Reachable, WellFormedLoops, Resets;
    assert FinishedNow(c, s) == DoneSet(c.g, ph);
  }

  /** A step on its way or running has not finished its current round, and all its dependencies have finished theirs. */
  lemma DependenciesFinished(c: Config, s: State, n: Id)
    requires ValidConfig(c) && WellFormedLoops(c) && Reachable(c, s) && EnRoute(c, s, n) > 0
    ensures n !in FinishedNow(c, s) && forall p | p in Parents(c.g, n) :: p in FinishedNow(c, s)
  {
    var ph := ReachableRounds(c, s);
    hide Due, Tokens, CountsMatch, DegreesDue, Shaped, Acyclic, Reachable, WellFormedLoops, Resets;
    assert Tokens(c, s, Wait(n)) == Want(c, s, ph, Wait(n));
    assert Tokens(c, s, Act(n)) == Want(c, s, ph, Act(n));
    forall p | p in Parents(c.g, n)
      ensures p in FinishedNow(c, s)
    {
      EdgeBothWays(c.g, p, n);
      ParentsSignalled(c.g, ph, p, n);
    }
  }

  /**
   When the call returns, every step was executed or skipped exactly once plus once for
   each goto that reset it; no worker is left; and the first error is what is returned.
   */
  lemma ReturnedIsComplete(c: Config, s: State)
    requires ValidConfig(c) && WellFormedLoops(c) && Reachable(c, s) && s.caller.Returned?
    ensures forall n | n in Nodes(c.g) :: Get(s.finished, n) == 1 + Resets(c, s, c.g.ids, n)
    ensures forall i | 0 <= i < |s.workers| :: s.workers[i] == Gone
    ensures s.caller.error == s.firstErr && s.closes == 1
  {
    var ph := ReachableRounds(c, s);
    hide WaitingIsDue, DegreesDue, Acyclic, WellFormed, Reachable, WellFormedLoops, Resets, Tokens;
    forall i | 0 <= i < |s.workers|
      ensures s.workers[i] == Gone
    {
      if s.workers[i] != Gone {
        MemberHeld(c, s, ph, i);
      }
    }
  }

  // ---- totals ----

  function TotalFinished(c: Config, s: State, ids: seq<Id>): nat {
    if ids == [] then 0 else Get(s.finished, ids[0]) + TotalFinished(c, s, ids[1..])
  }

  /** Sum over the gotos of iterations taken times size of the region. */
  function TotalRewound(c: Config, s: State, loops: seq<Id>): nat {
    if loops == [] then 0
    else (if loops[0] in c.loops then Get(s.iterations, loops[0]) * |c.loops[loops[0]].body| else 0)
         + TotalRewound(c, s, loops[1..])
  }

  /** The same sum by steps. */
  function TotalResets(c: Config, s: State, loops: seq<Id>, ids: seq<Id>): nat {
    if ids == [] then 0 else Resets(c, s, loops, ids[0]) + TotalResets(c, s, loops, ids[1..])
  }

  function TotalRewinds(c: Config, s: State, m: Id, ids: seq<Id>): nat {
    if ids == [] then 0 else Rewinds(c, s, m, ids[0]) + TotalRewinds(c, s, m, ids[1..])
  }

  lemma {:induction false} TotalResetsSplit(c: Config, s: State, loops: seq<Id>, ids: seq<Id>)
    requires loops != []
    ensures TotalResets(c, s, loops, ids) == TotalRewinds(c, s, loops[0], ids) + TotalResets(c, s, loops[1..], ids)
  {
    if ids != [] {
      TotalResetsSplit(c, s, loops, ids[1..]);
    }
  }

  lemma {:induction false} TotalResetsEmpty(c: Config, s: State, ids: seq<Id>)
    ensures TotalResets(c, s, [], ids) == 0
  {
    if ids != [] {
      TotalResetsEmpty(c, s, ids[1..]);
    }
  }

  lemma {:induction false} RewindsCount(c: Config, s: State, m: Id, ids: seq<Id>)
    requires m in c.loops && Distinct(ids)
    ensures TotalRewinds(c, s, m, ids) == Get(s.iterations, m) * |Elements(ids) * Elements(c.loops[m].body)|
  {
    hide Get;
    var body := Elements(c.loops[m].body);
    if ids == [] {
      assert Elements(ids) * body == {};
    } else {
      var rest := Elements(ids[1..]) * body;
      RewindsCount(c, s, m, ids[1..]);
      HeadSize(ids, body);
      assert Rewinds(c, s, m, ids[0]) == Get(s.iterations, m) * One(ids[0] in body);
      Distribute(Get(s.iterations, m), |rest|, One(ids[0] in body));
    }
  }

  lemma HeadSize(ids: seq<Id>, body: set<Id>)
    requires Distinct(ids) && ids != []
    ensures |Elements(ids) * body| == |Elements(ids[1..]) * body| + One(ids[0] in body)
  {
    var rest := Elements(ids[1..]) * body;
    assert ids[0] !in ids[1..];
    assert Elements(ids) == Elements(ids[1..]) + {ids[0]};
    if ids[0] in body {
      assert Elements(ids) * body == rest + {ids[0]};
    } else {
      assert Elements(ids) * body == rest;
    }
  }

  lemma Distribute(k: nat, a: nat, b: nat)
    ensures k * (a + b) == k * a + k * b
  {
  }

  lemma {:induction false} TotalRewindsZero(c: Config, s: State, m: Id, ids: seq<Id>)
    requires m !in c.loops
    ensures TotalRewinds(c, s, m, ids) == 0
  {
    if ids != [] {
      TotalRewindsZero(c, s, m, ids[1..]);
    }
  }

  lemma {:induction false} SumsAgree(c: Config, s: State, loops: seq<Id>)
    requires ValidConfig(c)
    ensures TotalResets(c, s, loops, c.g.ids) == TotalRewound(c, s, loops)
  {
    hide Acyclic;
    if loops == [] {
      TotalResetsEmpty(c, s, c.g.ids);
    } else {
      SumsAgree(c, s, loops[1..]);
      TotalResetsSplit(c, s, loops, c.g.ids);
      var m := loops[0];
      if m in c.loops {
        RewindsCount(c, s, m, c.g.ids);
        BodySize(c, m);
      } else {
        TotalRewindsZero(c, s, m, c.g.ids);
      }
    }
  }

  lemma BodySize(c: Config, m: Id)
    requires ValidConfig(c) && m in c.loops
    ensures |Elements(c.g.ids) * Elements(c.loops[m].body)| == |c.loops[m].body|
  {
    hide Acyclic;
    var body := c.loops[m].body;
    forall n | n in body
      ensures n in c.g.ids
    {
      assert Between(c.g, c.loops[m].target, m, n);
      var p :| PathBetween(c.g, p, c.loops[m].target, n);
      assert n in Nodes(c.g);
    }
    assert Elements(c.g.ids) * Elements(body) == Elements(body);
    DistinctSize(body);
  }

  lemma {:induction false} TotalAtEnd(c: Config, s: State, ids: seq<Id>)
    requires forall n | n in ids :: Get(s.finished, n) == 1 + Resets(c, s, c.g.ids, n)
    ensures TotalFinished(c, s, ids) == |ids| + TotalResets(c, s, c.g.ids, ids)
  {
    if ids != [] {
      TotalAtEnd(c, s, ids[1..]);
    }
  }

  /** A whole run executes or skips the number of steps plus iterations times region size, summed over the gotos. */
  lemma ExactTotal(c: Config, s: State)
    requires ValidConfig(c) && WellFormedLoops(c) && Reachable(c, s) && s.caller.Returned?
    ensures TotalFinished(c, s, c.g.ids) == |c.g.ids| + TotalRewound(c, s, c.g.ids)
  {
    hide Acyclic, WellFormedLoops, Reachable, Resets;
    ReturnedIsComplete(c, s);
    forall n | n in c.g.ids
      ensures Get(s.finished, n) == 1 + Resets(c, s, c.g.ids, n)
    {
      assert n in Nodes(c.g);
    }
    TotalAtEnd(c, s, c.g.ids);
    SumsAgree(c, s, c.g.ids);
  }
}
