/**
 A schedule that holds back one executed step until nothing else can move.  It works
 also after a rewind that left some in-degrees too low: what the table lacks at each
 step is carried along as `extra`, and the schedule either ends with everything but the
 held step at rest or lowers an in-degree below zero.
 */
module SchedulerHold {
  import opened Graph
  import opened Ledger
  import opened StepNode
  import opened Wrappers
  import opened Scheduler
  import opened SchedulerInvariant
  import opened SchedulerSafety
  import opened SchedulerProgress

  ghost predicate Negative(c: Config, s: State) {
    exists m :: m in Nodes(c.g) && Degree(s, m) < 0
  }

  /** The table is `extra` lower than what is due, and a step waits while its entry is positive. */
  ghost predicate SkewedDegree(c: Config, s: State, ph: Phases, extra: map<Id, nat>, m: Id) {
    && 0 <= Degree(s, m) && Degree(s, m) + Get(extra, m) == Due(c.g, ph, m)
    && (m in ph && ph[m].Idle? <==> Degree(s, m) > 0)
  }

  ghost predicate SkewedLedger(c: Config, s: State, ph: Phases, extra: map<Id, nat>) {
    Covers(c.g, ph) && forall m | m in Nodes(c.g) :: SkewedDegree(c, s, ph, extra, m)
  }

  /** No step has failed so far. */
  ghost predicate Unfailed(s: State) {
    && s.firstErr == None && !s.dispatcher.Refuse? && !s.dispatcher.Refused?
    && forall i | 0 <= i < |s.workers| && s.workers[i].Ran? :: !s.workers[i].failed
  }

  /** Step `h` has not been counted in its round, so `done` is open. */
  ghost predicate Uncounted(c: Config, s: State, ph: Phases, h: Id) {
    && h in Nodes(c.g) && h in ph && !ph[h].Done?
    && s.completed == |DoneSet(c.g, ph)| && s.closes == 0
  }

  ghost predicate Skewed(c: Config, s: State, ph: Phases, extra: map<Id, nat>, h: Id) {
    SkewedLedger(c, s, ph, extra) && Flow(c, s, ph) && Unfailed(s) && Uncounted(c, s, ph, h)
  }

  /** Nothing is left to do but to count `h`, which worker `i` has executed. */
  ghost predicate Held(s: State, h: Id, i: nat) {
    && i < |s.workers| && s.workers[i] == Ran(h, false)
    && (forall j | 0 <= j < |s.workers| && j != i :: s.workers[j] == Gone)
    && s.dispatcher == Await && s.ready == []
  }

  ghost predicate Quiet(s: State) {
    (forall j | 0 <= j < |s.workers| :: s.workers[j] == Gone) && s.dispatcher == Await && s.ready == []
  }

  /** An action of the schedule. */
  ghost predicate Allowed(c: Config, s: State, h: Id, a: Action) {
    && Enabled(c, s, a) && Tame(a)
    && (a.Complete? ==> s.workers[a.worker].step != h)
    && !a.CloseDone? && !a.SeeDone? && !a.Return? && !a.Skip1? && !a.Skip2?
  }

  // ---- at rest ----

  lemma HeldTokensOf(c: Config, s: State, h: Id, i: nat, tok: Token)
    requires Held(s, h, i)
    ensures Tokens(c, s, tok) == One(tok == Act(h)) + One(tok == Slot) + One(tok == Member)
  {
    AllTokensUpdate(c, s.workers, i, Gone, tok);
    GoneHoldNothing(c, s.workers[i := Gone], tok);
  }

  lemma QuietTokens(c: Config, s: State, tok: Token)
    requires Quiet(s)
    ensures Tokens(c, s, tok) == 0
  {
    GoneHoldNothing(c, s.workers, tok);
  }

  /** Then every other step waits or has finished entirely. */
  lemma RestingPhases(c: Config, s: State, ph: Phases, h: Id, i: nat, m: Id)
    requires Flow(c, s, ph) && Covers(c.g, ph) && m in Nodes(c.g) && (Held(s, h, i) || Quiet(s))
    ensures ph[m].Idle? || ph[m] == Done(|Children(c.g, m)|) || (Held(s, h, i) && m == h && ph[m].Running?)
    ensures Held(s, h, i) ==> PhaseIs(c.g, ph, h, Running)
  {
    hide Tokens, Shaped;
    forall tok
      ensures Tokens(c, s, tok) == if Held(s, h, i) then One(tok == Act(h)) + One(tok == Slot) + One(tok == Member) else 0
    {
      if Held(s, h, i) { HeldTokensOf(c, s, h, i, tok); } else { QuietTokens(c, s, tok); }
    }
    hide Held, Quiet;
    assert Tokens(c, s, Wait(m)) == Want(c, s, ph, Wait(m));
    assert Tokens(c, s, Act(m)) == Want(c, s, ph, Act(m));
    assert Tokens(c, s, Act(h)) == Want(c, s, ph, Act(h));
    if ph[m].Done? {
      assert Tokens(c, s, Sig(m, ph[m].signalled)) == Want(c, s, ph, Sig(m, ph[m].signalled));
    }
  }

  /** Who waits at rest is owed a signal by a step that waits, or by the held one. */
  lemma OwedAtRest(c: Config, s: State, ph: Phases, h: Id, i: nat, m: Id) returns (p: Id)
    requires WellFormed(c.g) && Flow(c, s, ph) && Covers(c.g, ph) && (Held(s, h, i) || Quiet(s))
    requires m in Nodes(c.g) && Due(c.g, ph, m) > 0
    ensures p in Nodes(c.g) && Edge(c.g, p, m) && (ph[p].Idle? || (Held(s, h, i) && p == h))
  {
    hide Flow, Held, Quiet;
    p := UnsentFromPositive(c.g, ph, c.g.ids, m);
    assert p in c.g.ids;
    UnsentPositive(c.g, ph, p, m);
    RestingPhases(c, s, ph, h, i, p);
  }

  /** With no held step everything would be counted. */
  lemma NeverQuiet(c: Config, s: State, ph: Phases, extra: map<Id, nat>, h: Id)
    requires WellFormed(c.g) && Acyclic(c.g) && Skewed(c, s, ph, extra, h)
    ensures !Quiet(s)
  {
    if Quiet(s) {
      hide Due, Flow, Acyclic, Unfailed, WellFormed, Held;
      var waiting := set m | m in Nodes(c.g) && ph[m].Idle?;
      forall m | m in waiting
        ensures HasParentIn(c.g, waiting, m)
      {
        assert SkewedDegree(c, s, ph, extra, m);
        NotHeldIfQuiet(s, h, 0);
        var p := OwedAtRest(c, s, ph, h, 0, m);
        assert p in waiting && Edge(c.g, p, m);
      }
      NotHeldIfQuiet(s, h, 0);
      RestingPhases(c, s, ph, h, 0, h);
      assert h in waiting;
      StuckSetHasCycle(c.g, waiting);
      assert false;
    }
  }

  lemma NotHeldIfQuiet(s: State, h: Id, i: nat)
    requires Quiet(s)
    ensures !Held(s, h, i)
  {
  }

  /** At rest, a step whose ancestors do not include the held one has been signalled by all its dependencies: its entry is not too low. */
  lemma NothingOwed(c: Config, s: State, ph: Phases, extra: map<Id, nat>, h: Id, i: nat, x: Id)
    requires WellFormed(c.g) && Acyclic(c.g) && Skewed(c, s, ph, extra, h) && Held(s, h, i)
    requires x in Nodes(c.g) && !Ancestor(c.g, h, x)
    ensures Get(extra, x) == 0
  {
    hide Due, Flow, Acyclic, Unfailed, WellFormed, Held, Reach, Ancestor;
    if Due(c.g, ph, x) > 0 {
      var above := set m | m in Nodes(c.g) && ph[m].Idle? && Reach(c.g, m, x) && m != x;
      forall m | (m in above || m == x) && Due(c.g, ph, m) > 0
        ensures HasParentIn(c.g, above, m)
      {
        var p := OwedAtRest(c, s, ph, h, i, m);
        EdgeAbove(c.g, p, m, x);
        assert p in above && Edge(c.g, p, m);
      }
      forall m | m in above
        ensures HasParentIn(c.g, above, m)
      {
        assert SkewedDegree(c, s, ph, extra, m);
      }
      assert HasParentIn(c.g, above, x);
      StuckSetHasCycle(c.g, above);
      assert false;
    }
    assert SkewedDegree(c, s, ph, extra, x);
  }

  lemma EdgeAbove(g: Graph, p: Id, m: Id, x: Id)
    requires WellFormed(g) && Acyclic(g) && Edge(g, p, m) && (m == x || Reach(g, m, x))
    ensures Reach(g, p, x) && p != x && Ancestor(g, p, x)
  {
    ReachEdge(g, p, m);
    ReachSelf(g, m);
    AncestorReach(g, p, m);
    ReachTrans(g, p, m, x);
    AncestorReach(g, p, x);
  }

  // ---- choosing the next action ----

  lemma OnlyOneExecutes(c: Config, s: State, ph: Phases, h: Id, i: nat, j: nat)
    requires TokensMatch(c, s, ph) && i < |s.workers| && j < |s.workers| && i != j
    requires s.workers[i] == Ran(h, false)
    ensures s.workers[j] != Ran(h, false)
  {
    hide WaitAll;
    if s.workers[j] == Ran(h, false) {
      ActOnce(c, s, ph, h);
      AllTokensUpdate(c, s.workers, i, Gone, Act(h));
      AllTokensUpdate(c, s.workers[i := Gone], j, Gone, Act(h));
      assert false;
    }
  }

  lemma NoCloseTask(c: Config, s: State, ph: Phases, h: Id, a: Agent)
    requires Flow(c, s, ph) && Uncounted(c, s, ph, h) && Acts(s, a)
    ensures !TaskOf(s, a).Close?
  {
    hide AllTokens, WaitAll, Shaped;
    TaskChange(c, s, a, Leave, Closing);
    assert Tokens(c, s, Closing) == Want(c, s, ph, Closing) == 0;
  }

  /** With at most the held worker left, a second slot is free. */
  lemma SlotFree(c: Config, s: State, ph: Phases, h: Id)
    requires Flow(c, s, ph) && c.slots >= 2 && s.dispatcher.Acquire?
    requires forall j | 0 <= j < |s.workers| :: s.workers[j] == Gone || s.workers[j] == Ran(h, false)
    ensures s.sem < c.slots
  {
    hide Shaped;
    NoSlotQueued(s.ready);
    assert Tokens(c, s, Slot) == Want(c, s, ph, Slot);
    if i :| 0 <= i < |s.workers| && s.workers[i] == Ran(h, false) {
      forall j | 0 <= j < |s.workers| && j != i
        ensures s.workers[j] == Gone
      {
        OnlyOneExecutes(c, s, ph, h, i, j);
      }
      AllTokensUpdate(c, s.workers, i, Gone, Slot);
      GoneHoldNothing(c, s.workers[i := Gone], Slot);
    } else {
      GoneHoldNothing(c, s.workers, Slot);
    }
  }

  lemma WorkerMoves(c: Config, s: State, ph: Phases, h: Id, j: nat) returns (act: Action)
    requires WellFormed(c.g) && Flow(c, s, ph) && Unfailed(s) && Uncounted(c, s, ph, h)
    requires j < |s.workers| && s.workers[j] != Gone && s.workers[j] != Ran(h, false)
    ensures Allowed(c, s, h, act)
  {
    hide WellFormed, TokensMatch, Shaped, Uncounted;
    act := TaskEnabled(c, s, ph, Worker(j));
    NoCloseTask(c, s, ph, h, Worker(j));
  }

  lemma DispatcherMoves(c: Config, s: State, ph: Phases, h: Id) returns (act: Action)
    requires WellFormed(c.g) && c.slots >= 2 && Flow(c, s, ph) && Unfailed(s) && Uncounted(c, s, ph, h)
    requires forall j | 0 <= j < |s.workers| :: s.workers[j] == Gone || s.workers[j] == Ran(h, false)
    requires s.dispatcher != Await || s.ready != []
    ensures Allowed(c, s, h, act)
  {
    hide WellFormed, TokensMatch, Uncounted;
    match s.dispatcher {
      case Await => act := Receive;
      case Check(_) => act := Inspect;
      case Admit(_) => act := Add;
      case Acquire(_) =>
        SlotFree(c, s, ph, h);
        act := Take;
      case Busy(_) =>
        act := TaskEnabled(c, s, ph, TheDispatcher);
        NoCloseTask(c, s, ph, h, TheDispatcher);
    }
  }

  lemma Choose(c: Config, s: State, ph: Phases, extra: map<Id, nat>, h: Id) returns (act: Option<Action>, i: nat)
    requires WellFormed(c.g) && Acyclic(c.g) && c.slots >= 2 && Skewed(c, s, ph, extra, h)
    ensures act.Some? ==> Allowed(c, s, h, act.value)
    ensures act.None? ==> Held(s, h, i)
  {
    hide WellFormed, Acyclic, SkewedLedger, Flow, Unfailed, Uncounted, Allowed;
    i := 0;
    if j :| 0 <= j < |s.workers| && s.workers[j] != Gone && s.workers[j] != Ran(h, false) {
      var a := WorkerMoves(c, s, ph, h, j);
      act := Some(a);
    } else if s.dispatcher != Await || s.ready != [] {
      var a := DispatcherMoves(c, s, ph, h);
      act := Some(a);
    } else {
      act := None;
      NeverQuiet(c, s, ph, extra, h);
      i :| 0 <= i < |s.workers| && s.workers[i] == Ran(h, false);
      forall j | 0 <= j < |s.workers| && j != i
        ensures s.workers[j] == Gone
      {
        FlowTokens(c, s, ph);
        OnlyOneExecutes(c, s, ph, h, i, j);
      }
    }
  }

  lemma FlowTokens(c: Config, s: State, ph: Phases)
    requires Flow(c, s, ph)
    ensures TokensMatch(c, s, ph)
  {
  }

  // ---- one action ----

  /** Actions that move neither in-degrees nor phases. */
  lemma PassiveSkewed(c: Config, s: State, ph: Phases, extra: map<Id, nat>, h: Id, s': State)
    requires Skewed(c, s, ph, extra, h) && Flow(c, s', ph) && Unfailed(s')
    requires s'.inDegree == s.inDegree && s'.completed == s.completed && s'.closes == s.closes
    ensures Skewed(c, s', ph, extra, h)
  {
    hide Flow, Unfailed, Due;
    forall m | m in Nodes(c.g)
      ensures SkewedDegree(c, s', ph, extra, m)
    {
      assert SkewedDegree(c, s, ph, extra, m);
    }
  }

  lemma PassiveFlow(c: Config, s: State, ph: Phases, a: Action)
    requires Flow(c, s, ph) && Enabled(c, s, a)
    requires a == Receive || a == Inspect || a == Add || a.Execute? || a.SendChild? || a.SendTarget? || a.Release? || a.WgDone?
    ensures Flow(c, Do(c, s, a), ph)
  {
    hide Flow, Do;
    match a {
      case Receive => ReceiveFlow(c, s, ph);
      case Inspect => BookkeepingFlow(c, s, ph, a);
      case Add => BookkeepingFlow(c, s, ph, a);
      case Execute(i, answers) => ExecuteFlow(c, s, ph, i, answers);
      case SendChild(ag) => SendFlow(c, s, ph, ag);
      case SendTarget(i) => SendTargetFlow(c, s, ph, i);
      case Release(i) => ReleaseFlow(c, s, ph, i);
      case WgDone(i) => WgDoneFlow(c, s, ph, i);
    }
  }

  lemma PassiveFields(c: Config, s: State, a: Action)
    requires Enabled(c, s, a)
    requires a == Receive || a == Inspect || a == Add || a.Execute? || a.SendChild? || a.SendTarget? || a.Release? || a.WgDone?
    ensures var s' := Do(c, s, a);
            s'.inDegree == s.inDegree && s'.completed == s.completed && s'.closes == s.closes && s'.firstErr == s.firstErr
  {
    hide WithTask, NodeRule, TaskOf;
  }

  /** In a fresh run a step that succeeds returns no error. */
  lemma Succeeding(spec: StepSpec, results: Results, id: Id)
    ensures !NodeRule(spec, false, results, id, SUCCEEDS).failed
  {
  }

  lemma UnfailedTask(s: State, a: Agent, t: Task, s1: State)
    requires Unfailed(s) && s1.firstErr == s.firstErr && s1.workers == s.workers && s1.dispatcher == s.dispatcher
    requires t.Ran? ==> !t.failed
    ensures Unfailed(WithTask(s1, a, t))
  {
  }

  lemma PassiveUnfailed(c: Config, s: State, a: Action)
    requires Unfailed(s) && Enabled(c, s, a) && Tame(a) && !c.resumed
    requires a == Receive || a == Inspect || a == Add || a.Execute? || a.SendChild? || a.SendTarget? || a.Release? || a.WgDone?
    ensures Unfailed(Do(c, s, a))
  {
    hide WithTask, NodeRule, NextSignal, NextJump;
    match a {
      case Execute(i, answers) =>
        var n := s.workers[i].step;
        var e := NodeRule(Spec(c, n), c.resumed, s.results, n, answers);
        Succeeding(Spec(c, n), s.results, n);
        UnfailedTask(s, Worker(i), Ran(n, e.failed), s.(results := e.results));
      case SendChild(ag) =>
        var n, k := TaskOf(s, ag).step, TaskOf(s, ag).sent;
        NextIsNotRan(c, n, k + 1, []);
        UnfailedTask(s, ag, NextSignal(c, n, k + 1), s.(ready := s.ready + [Children(c.g, n)[k]]));
      case SendTarget(i) =>
        var n, rest := s.workers[i].step, s.workers[i].rest;
        NextIsNotRan(c, n, 0, rest[1..]);
        UnfailedTask(s, Worker(i), NextJump(n, rest[1..]), s.(ready := s.ready + [rest[0]]));
      case Release(i) => UnfailedTask(s, Worker(i), Detach, s.(sem := s.sem - 1));
      case WgDone(i) => UnfailedTask(s, Worker(i), Gone, s.(wg := s.wg - 1));
      case _ =>
    }
  }

  lemma NextIsNotRan(c: Config, n: Id, k: nat, rest: seq<Id>)
    ensures !NextSignal(c, n, k).Ran? && !NextJump(n, rest).Ran?
  {
  }

  /** A step changes phase without signalling anything. */
  lemma PhaseSkewed(c: Config, s: State, ph: Phases, extra: map<Id, nat>, n: Id, v: Phase, s': State)
    requires WellFormed(c.g) && SkewedLedger(c, s, ph, extra) && n in Nodes(c.g) && !ph[n].Idle? && !ph[n].Done?
    requires !v.Idle? && (v.Done? ==> v.signalled == 0) && s'.inDegree == s.inDegree
    ensures SkewedLedger(c, s', ph[n := v], extra)
  {
    var ph' := ph[n := v];
    DueSame(c.g, ph, n, v);
    hide Due, WellFormed;
    forall m | m in Nodes(c.g)
      ensures SkewedDegree(c, s', ph', extra, m)
    {
      assert SkewedDegree(c, s, ph, extra, m);
      assert Due(c.g, ph', m) == Due(c.g, ph, m);
    }
  }

  lemma TakeSkewed(c: Config, s: State, ph: Phases, extra: map<Id, nat>, h: Id)
    requires WellFormed(c.g) && Skewed(c, s, ph, extra, h) && Enabled(c, s, Take)
    ensures Skewed(c, Do(c, s, Take), ph[s.dispatcher.step := Running], extra, h)
  {
    hide SkewedLedger, WellFormed, TokensMatch, Shaped;
    var n, s' := s.dispatcher.step, Do(c, s, Take);
    TakeFlow(c, s, ph);
    PhaseSkewed(c, s, ph, extra, n, Running, s');
    assert DoneSet(c.g, ph[n := Running]) == DoneSet(c.g, ph);
  }

  lemma CompleteSkewed(c: Config, s: State, ph: Phases, extra: map<Id, nat>, h: Id, i: nat)
    requires WellFormed(c.g) && Skewed(c, s, ph, extra, h) && Enabled(c, s, Complete(i, false)) && s.workers[i].step != h
    ensures PhaseIs(c.g, ph, s.workers[i].step, Running)
    ensures Skewed(c, Do(c, s, Complete(i, false)), ph[s.workers[i].step := Done(0)], extra, h)
  {
    hide SkewedLedger, WellFormed, Tokens, Want, DoneSet, Do;
    var n := s.workers[i].step;
    var s', ph' := CountedState(c, s, Worker(i), n, None), ph[n := Done(0)];
    var (s1, t) := Counted(c, s.(firstErr := None), n);
    TaskChange(c, s, Worker(i), t, Act(n));
    HoldsAct(c, s, ph, n);
    CompleteIsCounted(c, s, i, false);
    DoneSetGrows(c.g, ph, n);
    AllDoneSize(c.g, ph');
    assert !AllDone(c.g, ph');
    PhaseSkewed(c, s, ph, extra, n, Done(0), s');
    ShapedChange(c, s1, Worker(i), t);
    forall tok
      ensures Tokens(c, s', tok) == Want(c, s', ph', tok)
    {
      CountedTokens(c, s, ph, Worker(i), n, None, tok);
    }
    CountedUnfailed(c, s, i, n);
  }

  lemma CountedUnfailed(c: Config, s: State, i: nat, n: Id)
    requires Unfailed(s) && i < |s.workers|
    ensures Unfailed(CountedState(c, s, Worker(i), n, None))
  {
    NextIsNotRan(c, n, 0, []);
    hide NextSignal;
  }

  /** A signal to a step whose entry is already zero drives it below; any other one moves the skewed ledger as it should. */
  lemma SignalSkewedLedger(c: Config, s: State, ph: Phases, extra: map<Id, nat>, a: Agent, n: Id, k: nat)
    requires WellFormed(c.g) && SkewedLedger(c, s, ph, extra) && k < |Children(c.g, n)| && PhaseIs(c.g, ph, n, Done(k))
    ensures var child := Children(c.g, n)[k];
            && child in Nodes(c.g)
            && (Degree(s, child) <= 0 ==> Degree(SignalState(c, s, a, n, k), child) < 0 && Get(extra, child) > 0)
            && (Degree(s, child) > 0 ==>
                  PhaseIs(c.g, ph, child, Idle) && child != n
                  && SkewedLedger(c, SignalState(c, s, a, n, k), SignalPhases(c, s, ph, n, k), extra))
  {
    hide Due, WellFormed;
    var child := Children(c.g, n)[k];
    var sent := ph[n := Done(k + 1)];
    SignalDue(c.g, ph, n, child);
    assert SkewedDegree(c, s, ph, extra, child);
    if Degree(s, child) > 0 {
      var s', ph' := SignalState(c, s, a, n, k), SignalPhases(c, s, ph, n, k);
      if Degree(s, child) <= 1 {
        DueSame(c.g, sent, child, Pending);
      }
      forall m | m in Nodes(c.g)
        ensures SkewedDegree(c, s', ph', extra, m)
      {
        SignalDue(c.g, ph, n, m);
        assert SkewedDegree(c, s, ph, extra, m);
        assert Due(c.g, ph', m) == Due(c.g, sent, m);
      }
    }
  }

  lemma SignalSkewed(c: Config, s: State, ph: Phases, extra: map<Id, nat>, h: Id, a: Agent)
    requires WellFormed(c.g) && Skewed(c, s, ph, extra, h) && Enabled(c, s, SignalChild(a))
    ensures var n, k := TaskOf(s, a).step, TaskOf(s, a).next;
            var child := Children(c.g, n)[k];
            && PhaseIs(c.g, ph, n, Done(k)) && child in Nodes(c.g)
            && (Degree(s, child) <= 0 ==> Negative(c, Do(c, s, SignalChild(a))) && Get(extra, child) > 0)
            && (Degree(s, child) > 0 ==>
                  PhaseIs(c.g, ph, child, Idle) && child != n
                  && Skewed(c, Do(c, s, SignalChild(a)), SignalPhases(c, s, ph, n, k), extra, h))
  {
    hide SkewedLedger, WellFormed, Tokens, Want, DoneSet, AllDone, SignalPhases;
    var n, k := TaskOf(s, a).step, TaskOf(s, a).next;
    var child := Children(c.g, n)[k];
    var s' := SignalState(c, s, a, n, k);
    assert Do(c, s, SignalChild(a)) == s';
    SignalHeld(c, s, ph, a, n, k);
    SignalSkewedLedger(c, s, ph, extra, a, n, k);
    if Degree(s, child) > 0 {
      SignalDone(c, s, ph, n, k);
      SignalUncounted(c, s, ph, h, n, k);
      var (s1, t) := Signalled(c, s, n, k);
      ShapedChange(c, s1, a, t);
      UnfailedTask(s, a, t, s1);
      forall tok
        ensures Tokens(c, s', tok) == Want(c, s', SignalPhases(c, s, ph, n, k), tok)
      {
        SignalTokens(c, s, ph, a, n, k, tok);
      }
    }
  }

  lemma SignalUncounted(c: Config, s: State, ph: Phases, h: Id, n: Id, k: nat)
    requires PhaseIs(c.g, ph, n, Done(k)) && k < |Children(c.g, n)| && h in ph && !ph[h].Done?
    ensures h in SignalPhases(c, s, ph, n, k) && !SignalPhases(c, s, ph, n, k)[h].Done?
  {
  }

  /** Every allowed action keeps the skewed state and lowers the work left, or drives an in-degree below zero. */
  lemma HoldStep(c: Config, s: State, ph: Phases, extra: map<Id, nat>, h: Id, a: Action)
    requires WellFormed(c.g) && !c.resumed && Skewed(c, s, ph, extra, h) && Allowed(c, s, h, a)
    ensures Do(c, s, a).iterations == s.iterations
    ensures || (Negative(c, Do(c, s, a)) && extra != map[])
            || (Skewed(c, Do(c, s, a), NextPhases(c, s, ph, a), extra, h)
                && Work(c, Do(c, s, a), NextPhases(c, s, ph, a)) < Work(c, s, ph))
  {
    hide Skewed, WellFormed, Do, Work, Negative;
    assert !IsJump(c, s, a);
    SameIterations(c, s, a);
    SkewedParts(c, s, ph, extra, h);
    match a {
      case Take => TakeSkewed(c, s, ph, extra, h); TakeDrops(c, s, ph);
      case Complete(i, _) =>
        CompleteSkewed(c, s, ph, extra, h, i);
        CompleteIsCounted(c, s, i, false);
        CountedDrops(c, s, ph, Worker(i), s.workers[i].step, ErrorAfter(s, s.workers[i].step, s.workers[i].failed));
      case SignalChild(ag) =>
        SignalSkewed(c, s, ph, extra, h, ag);
        if Degree(s, Children(c.g, TaskOf(s, ag).step)[TaskOf(s, ag).next]) > 0 {
          SignalDrops(c, s, ph, ag);
        }
      case _ => PassiveStep(c, s, ph, extra, h, a);
    }
  }

  lemma SkewedParts(c: Config, s: State, ph: Phases, extra: map<Id, nat>, h: Id)
    requires Skewed(c, s, ph, extra, h)
    ensures SkewedLedger(c, s, ph, extra) && Flow(c, s, ph) && Unfailed(s) && Uncounted(c, s, ph, h)
  {
  }

  lemma PassiveStep(c: Config, s: State, ph: Phases, extra: map<Id, nat>, h: Id, a: Action)
    requires !c.resumed && Skewed(c, s, ph, extra, h) && Allowed(c, s, h, a)
    requires a == Receive || a == Inspect || a == Add || a.Execute? || a.SendChild? || a.SendTarget? || a.Release? || a.WgDone?
    ensures Skewed(c, Do(c, s, a), ph, extra, h) && Work(c, Do(c, s, a), ph) < Work(c, s, ph)
  {
    hide Skewed, Do, Work, Flow, Unfailed;
    SkewedParts(c, s, ph, extra, h);
    PassiveFlow(c, s, ph, a);
    PassiveUnfailed(c, s, a);
    PassiveFields(c, s, a);
    PassiveSkewed(c, s, ph, extra, h, Do(c, s, a));
    match a {
      case Receive => DispatcherDrops(c, s, ph, a);
      case Inspect => DispatcherDrops(c, s, ph, a);
      case Add => DispatcherDrops(c, s, ph, a);
      case Execute(_, _) => WorkerDrops(c, s, ph, a);
      case SendChild(ag) => SendDrops(c, s, ph, ag);
      case SendTarget(i) => SendTargetDrops(c, s, ph, i);
      case Release(_) => WorkerDrops(c, s, ph, a);
      case WgDone(_) => WorkerDrops(c, s, ph, a);
    }
  }

  /**
   The schedule: from any reachable skewed state to one where only the held step is left,
   or to a negative in-degree; the latter only if some entry was too low.
   */
  lemma {:induction false} HoldRun(c: Config, s: State, ph: Phases, extra: map<Id, nat>, h: Id)
    returns (s': State, ph': Phases, i: nat)
    requires WellFormed(c.g) && Acyclic(c.g) && !c.resumed && c.slots >= 2
    requires Reachable(c, s) && Skewed(c, s, ph, extra, h)
    ensures Reachable(c, s') && s'.iterations == s.iterations
    ensures (Negative(c, s') && extra != map[]) || (Skewed(c, s', ph', extra, h) && Held(s', h, i))
    decreases Work(c, s, ph)
  {
    hide Skewed, WellFormed, Acyclic, Reachable, Do, Negative, Work, Held, NextPhases;
    s', ph' := s, ph;
    var act, k := Choose(c, s, ph, extra, h);
    i := k;
    if act.Some? {
      var a := act.value;
      ReachableNext(c, s, a);
      HoldStep(c, s, ph, extra, h, a);
      if Negative(c, Do(c, s, a)) && extra != map[] {
        s' := Do(c, s, a);
      } else {
        s', ph', i := HoldRun(c, Do(c, s, a), NextPhases(c, s, ph, a), extra, h);
      }
    }
  }
}
