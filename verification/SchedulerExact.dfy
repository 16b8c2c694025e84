/**
 When a rewind keeps the scheduler's bookkeeping: exactly when only the goto step
 leaves the region, or, for a target that does not reach the goto step, when there is
 nothing left that the goto step would have had to do.
 */
module SchedulerExact {
  import opened Graph
  import opened Ledger
  import opened LoopBody
  import opened Scheduler
  import opened SchedulerInvariant
  import opened SchedulerRewind

  /** A state in which some assignment of phases satisfies the invariant. */
  ghost predicate Consistent(c: Config, s: State) {
    exists ph :: Inv(c, s, ph)
  }

  /** What a caller can check about a goto before it is taken. */
  ghost predicate RewindSound(c: Config, s: State, n: Id)
    requires n in c.loops
  {
    if Reach(c.g, c.loops[n].target, n) then SingleExit(c.g, c.loops[n].target, n)
    else Children(c.g, n) == [] && s.completed + 1 < |c.g.ids|
  }

  /** The tokens a taken goto moves, whatever the shape of the loop. */
  lemma RewindMoves(c: Config, s: State, i: nat, n: Id, tok: Token)
    requires WellFormed(c.g) && Acyclic(c.g) && n in c.loops && c.loops[n].target in Nodes(c.g)
    requires IsLoopBody(c.g, c.loops[n].target, n, c.loops[n].body)
    requires i < |s.workers| && s.workers[i].Ran? && s.workers[i].step == n
    ensures Tokens(c, RewindState(c, s, i, n), tok) + One(tok == Act(n)) ==
            Tokens(c, s, tok) + One(Reach(c.g, c.loops[n].target, n) && tok == Wait(c.loops[n].target))
  {
    hide AllTokens, Acyclic, WellFormed, IsLoopBody, Reach;
    var target := c.loops[n].target;
    RewindReadiesTarget(c.g, target, n, c.loops[n].body, s.inDegree);
    var (s1, t) := Rewind(c, s, n);
    assert Tokens(c, s1, tok) == Tokens(c, s, tok);
    TaskChange(c, s1, Worker(i), t, tok);
    if Reach(c.g, target, n) {
      assert t == Jump(n, [target]);
      assert WaitAll([target][1..], tok) == 0;
      assert TaskTokens(c, t, tok) == One(tok == Wait(target));
    } else {
      assert t == Leave;
    }
  }

  /** Phases of steps in flight can be read off the tokens. */
  lemma FlightPhases(c: Config, s: State, ph: Phases, m: Id)
    requires TokensMatch(c, s, ph) && WaitingIsDue(c.g, ph) && m in Nodes(c.g)
    ensures Tokens(c, s, Wait(m)) > 0 <==> ph[m].Pending?
    ensures Tokens(c, s, Act(m)) > 0 <==> ph[m].Running?
    ensures forall k: nat | k < |Children(c.g, m)| :: Tokens(c, s, Sig(m, k)) > 0 <==> ph[m] == Done(k)
  {
    hide Tokens, Due;
    assert Tokens(c, s, Wait(m)) == Want(c, s, ph, Wait(m));
    assert Tokens(c, s, Act(m)) == Want(c, s, ph, Act(m));
    forall k: nat | k < |Children(c.g, m)|
      ensures Tokens(c, s, Sig(m, k)) > 0 <==> ph[m] == Done(k)
    {
      assert Tokens(c, s, Sig(m, k)) == Want(c, s, ph, Sig(m, k));
    }
  }

  /** Hypotheses shared by the lemmas about one taken goto and phases `ph'` fitting the state after it. */
  ghost predicate Jumped(c: Config, s: State, ph: Phases, i: nat, n: Id, ph': Phases) {
    && ValidConfig(c) && Inv(c, s, ph)
    && i < |s.workers| && s.workers[i].Ran? && s.workers[i].step == n && n in c.loops && c.loops[n].target != n
    && Inv(c, RewindState(c, s, i, n), ph')
  }

  lemma GotoRunning(c: Config, s: State, ph: Phases, i: nat)
    requires TokensMatch(c, s, ph) && i < |s.workers| && s.workers[i].Ran?
    ensures PhaseIs(c.g, ph, s.workers[i].step, Running)
  {
    hide AllTokens, WaitAll;
    TaskChange(c, s, Worker(i), Leave, Act(s.workers[i].step));
    HoldsAct(c, s, ph, s.workers[i].step);
  }

  /** After the rewind no step of the region can be in a finished phase. */
  lemma BodyReopened(c: Config, s: State, ph: Phases, i: nat, n: Id, ph': Phases, b: Id)
    requires Jumped(c, s, ph, i, n, ph') && Reach(c.g, c.loops[n].target, n) && b in c.loops[n].body
    ensures b in Nodes(c.g) && !ph'[b].Done?
  {
    hide Due, Tokens, Acyclic, Reach, CountsMatch, Shaped;
    var target, body := c.loops[n].target, c.loops[n].body;
    var s' := RewindState(c, s, i, n);
    BodyInGraph(c, n, b);
    if b == target {
      RewindMoves(c, s, i, n, Wait(target));
      FlightPhases(c, s', ph', b);
    } else {
      TargetIsOnlyEntry(c.g, target, n, body, b);
      assert Degree(s', b) == CountIn(Parents(c.g, b), Elements(body));
      assert Degree(s', b) == Due(c.g, ph', b);
    }
  }

  lemma BodyInGraph(c: Config, n: Id, b: Id)
    requires ValidConfig(c) && n in c.loops && b in c.loops[n].body
    ensures b in Nodes(c.g)
  {
    hide Acyclic;
    assert Between(c.g, c.loops[n].target, n, b);
    var p :| PathBetween(c.g, p, c.loops[n].target, b);
  }

  /** Outside the region a finished step was finished before, with the same signals sent. */
  lemma OutsideAsBefore(c: Config, s: State, ph: Phases, i: nat, n: Id, ph': Phases, p: Id)
    requires Jumped(c, s, ph, i, n, ph') && p in Nodes(c.g) && p !in c.loops[n].body && p != n && ph'[p].Done?
    ensures ph[p] == ph'[p]
  {
    hide Due, Tokens, Acyclic, Reach, CountsMatch, Shaped;
    var s' := RewindState(c, s, i, n);
    FlightPhases(c, s, ph, p);
    FlightPhases(c, s', ph', p);
    var k := ph'[p].signalled;
    RewindMoves(c, s, i, n, Wait(p));
    RewindMoves(c, s, i, n, Act(p));
    RewindMoves(c, s, i, n, Sig(p, k));
    if ph[p].Done? {
      RewindMoves(c, s, i, n, Sig(p, ph[p].signalled));
    }
    TargetInBody(c, n);
    assert Degree(s', p) == Degree(s, p);
    assert Degree(s', p) == Due(c.g, ph', p) && Degree(s, p) == Due(c.g, ph, p);
  }

  lemma TargetInBody(c: Config, n: Id)
    requires ValidConfig(c) && n in c.loops
    ensures Reach(c.g, c.loops[n].target, n) ==> c.loops[n].target in c.loops[n].body
  {
    hide Acyclic;
    BodyEmpty(c.g, c.loops[n].target, n, c.loops[n].body);
  }

  lemma OutsideDueSame(c: Config, s: State, ph: Phases, i: nat, n: Id, ph': Phases, x: Id)
    requires Jumped(c, s, ph, i, n, ph') && x in Nodes(c.g) && x !in c.loops[n].body
    ensures Due(c.g, ph', x) == Due(c.g, ph, x)
  {
    hide Due, Tokens, Acyclic, Reach, CountsMatch, Shaped, WaitingIsDue;
    var s' := RewindState(c, s, i, n);
    assert Degree(s', x) == Degree(s, x);
    assert Degree(s', x) == Due(c.g, ph', x) && Degree(s, x) == Due(c.g, ph, x);
  }

  /** A side exit: the child outside is owed the signal again, and the table does not know it. */
  lemma SideExitBreaks(c: Config, s: State, ph: Phases, i: nat, n: Id, ph': Phases, b: Id, x: Id)
    requires Jumped(c, s, ph, i, n, ph') && Reach(c.g, c.loops[n].target, n)
    requires b in c.loops[n].body && b != n && Edge(c.g, b, x)
    ensures x in c.loops[n].body
  {
    if x !in c.loops[n].body {
      hide Due, Tokens, Acyclic, CountsMatch, Shaped;
      GotoRunning(c, s, ph, i);
      BodyInGraph(c, n, b);
      assert Between(c.g, c.loops[n].target, n, b);
      AncestorDone(c.g, ph, b, n);
      BodyReopened(c, s, ph, i, n, ph', b);
      BodyFullySignalled(c, s, ph, i, n, ph', b);
      EdgeBothWays(c.g, b, x);
      OutsideDueSame(c, s, ph, i, n, ph', x);
      MoreDue(c, s, ph, i, n, ph', b, x);
      assert false;
    }
  }

  /** A step of the region still signalling when the goto is taken contradicts the reset. */
  lemma BodyFullySignalled(c: Config, s: State, ph: Phases, i: nat, n: Id, ph': Phases, b: Id)
    requires Jumped(c, s, ph, i, n, ph') && b in Nodes(c.g) && ph[b].Done? && !ph'[b].Done?
    ensures ph[b] == Done(|Children(c.g, b)|)
  {
    hide Due, Tokens, Acyclic, Reach, CountsMatch, Shaped;
    var k := ph[b].signalled;
    if k < |Children(c.g, b)| {
      FlightPhases(c, s, ph, b);
      RewindMoves(c, s, i, n, Sig(b, k));
      FlightPhases(c, RewindState(c, s, i, n), ph', b);
      assert false;
    }
  }

  lemma MoreDue(c: Config, s: State, ph: Phases, i: nat, n: Id, ph': Phases, b: Id, x: Id)
    requires Jumped(c, s, ph, i, n, ph') && Reach(c.g, c.loops[n].target, n)
    requires b in c.loops[n].body && b in Nodes(c.g) && Edge(c.g, b, x)
    requires ph[b] == Done(|Children(c.g, b)|) && !ph'[b].Done?
    ensures x in Nodes(c.g) && Due(c.g, ph', x) > Due(c.g, ph, x)
  {
    hide Tokens, Acyclic, CountsMatch, Shaped, Due;
    EdgeBothWays(c.g, b, x);
    forall p | p in c.g.ids
      ensures Unsent(c.g, ph', p, x) >= Unsent(c.g, ph, p, x)
    {
      assert p in Nodes(c.g);
      if p in c.loops[n].body || p == n {
        GotoRunning(c, s, ph, i);
        GotoIsInBody(c, n);
        BodyReopened(c, s, ph, i, n, ph', p);
        CountFromStart(c.g, p, if ph[p].Done? then ph[p].signalled else 0, x);
      } else if ph'[p].Done? {
        OutsideAsBefore(c, s, ph, i, n, ph', p);
      } else {
        CountFromStart(c.g, p, if ph[p].Done? then ph[p].signalled else 0, x);
      }
    }
    var j :| 0 <= j < |Children(c.g, b)| && Children(c.g, b)[j] == x;
    CountFromEntry(c.g, b, 0, j);
    assert b in c.g.ids;
    UnsentFromMore(c.g, ph, ph', c.g.ids, b, x);
    DueIsUnsent(c.g, ph, x);
    DueIsUnsent(c.g, ph', x);
  }

  lemma DueIsUnsent(g: Graph, ph: Phases, x: Id)
    ensures Due(g, ph, x) == UnsentFrom(g, ph, g.ids, x)
  {
  }

  lemma GotoIsInBody(c: Config, n: Id)
    requires ValidConfig(c) && n in c.loops && Reach(c.g, c.loops[n].target, n)
    ensures n in c.loops[n].body
  {
    hide Acyclic;
    ReachSelf(c.g, n);
    assert Between(c.g, c.loops[n].target, n, n);
  }

  lemma CountFromStart(g: Graph, p: Id, k: nat, x: Id)
    ensures CountFrom(g, p, k, x) <= CountFrom(g, p, 0, x)
  {
    var cs := Children(g, p);
    if k <= |cs| {
      assert cs[0..] == cs[..k] + cs[k..];
    }
  }

  lemma {:induction false} UnsentFromMore(g: Graph, ph: Phases, ph': Phases, from: seq<Id>, b: Id, x: Id)
    requires forall p | p in from :: Unsent(g, ph', p, x) >= Unsent(g, ph, p, x)
    ensures UnsentFrom(g, ph', from, x) >= UnsentFrom(g, ph, from, x)
    ensures b in from && Unsent(g, ph', b, x) > Unsent(g, ph, b, x) ==> UnsentFrom(g, ph', from, x) > UnsentFrom(g, ph, from, x)
  {
    hide Unsent;
    if from != [] {
      UnsentFromMore(g, ph, ph', from[1..], b, x);
    }
  }

  /** After an empty rewind the goto step can only count as entirely finished. */
  lemma EmptyGotoDone(c: Config, s: State, ph: Phases, i: nat, n: Id, ph': Phases)
    requires Jumped(c, s, ph, i, n, ph') && !Reach(c.g, c.loops[n].target, n) && c.loops[n].body == []
    ensures PhaseIs(c.g, ph, n, Running) && ph'[n] == Done(|Children(c.g, n)|)
  {
    hide Due, Tokens, Acyclic, Reach, CountsMatch, Shaped;
    var s' := RewindState(c, s, i, n);
    GotoRunning(c, s, ph, i);
    FlightPhases(c, s, ph, n);
    FlightPhases(c, s', ph', n);
    RewindMoves(c, s, i, n, Wait(n));
    RewindMoves(c, s, i, n, Act(n));
    ActOnce(c, s, ph, n);
    assert Degree(s', n) == Degree(s, n);
    assert Degree(s', n) == Due(c.g, ph', n) && Degree(s, n) == Due(c.g, ph, n);
    assert ph'[n].Done?;
    if ph'[n].signalled < |Children(c.g, n)| {
      RewindMoves(c, s, i, n, Sig(n, ph'[n].signalled));
      assert false;
    }
  }

  lemma EmptyBodyOf(c: Config, s: State, ph: Phases, n: Id)
    requires ValidConfig(c) && Inv(c, s, ph) && PhaseIs(c.g, ph, n, Running) && n in c.loops
    ensures s.closes == 0 && Tokens(c, s, Closing) == 0
    ensures !Reach(c.g, c.loops[n].target, n) ==> c.loops[n].body == []
  {
    hide Due, Tokens, Acyclic, Reach, WaitingIsDue, DegreesDue, Shaped;
    BodyEmpty(c.g, c.loops[n].target, n, c.loops[n].body);
    assert Tokens(c, s, Closing) == Want(c, s, ph, Closing);
  }

  /** A target that does not reach the goto step: nothing is reset, and the goto step's children are never signalled. */
  lemma EmptyBodyBreaks(c: Config, s: State, ph: Phases, i: nat, n: Id, ph': Phases)
    requires Jumped(c, s, ph, i, n, ph') && !Reach(c.g, c.loops[n].target, n)
    ensures Children(c.g, n) == [] && s.completed + 1 < |c.g.ids|
  {
    hide Inv, Reach, WellFormed, Acyclic, IsLoopBody;
    GotoAt(c, s, ph, i);
    EmptyBodyOf(c, s, ph, n);
    EmptyGotoDone(c, s, ph, i, n, ph');
    if Children(c.g, n) != [] {
      var x := Children(c.g, n)[0];
      assert Edge(c.g, n, x);
      EdgeBothWays(c.g, n, x);
      OutsideDueSame(c, s, ph, i, n, ph', x);
      LessDue(c, s, ph, i, n, ph', x);
      assert false;
    }
    NotAllCounted(c, s, i, n, ph');
  }

  lemma GotoAt(c: Config, s: State, ph: Phases, i: nat)
    requires Inv(c, s, ph) && i < |s.workers| && s.workers[i].Ran?
    ensures PhaseIs(c.g, ph, s.workers[i].step, Running)
  {
    hide WaitingIsDue, DegreesDue, CountsMatch, Shaped, Tokens;
    GotoRunning(c, s, ph, i);
  }

  lemma NotAllCounted(c: Config, s: State, i: nat, n: Id, ph': Phases)
    requires ValidConfig(c) && n in c.loops && c.loops[n].body == []
    requires i < |s.workers| && s.workers[i].Ran? && s.workers[i].step == n && s.closes == 0
    requires !Reach(c.g, c.loops[n].target, n)
    requires Inv(c, RewindState(c, s, i, n), ph') && Tokens(c, s, Closing) == 0
    ensures s.completed + 1 < |c.g.ids|
  {
    hide Due, Tokens, Acyclic, Reach, WaitingIsDue;
    var s' := RewindState(c, s, i, n);
    RewindMoves(c, s, i, n, Closing);
    assert Tokens(c, s', Closing) == Want(c, s', ph', Closing);
    AllDoneSize(c.g, ph');
  }

  lemma LessDue(c: Config, s: State, ph: Phases, i: nat, n: Id, ph': Phases, x: Id)
    requires Jumped(c, s, ph, i, n, ph') && !Reach(c.g, c.loops[n].target, n) && c.loops[n].body == []
    requires PhaseIs(c.g, ph, n, Running) && ph'[n] == Done(|Children(c.g, n)|) && Edge(c.g, n, x)
    ensures x in Nodes(c.g) && Due(c.g, ph', x) < Due(c.g, ph, x)
  {
    hide Tokens, Acyclic, CountsMatch, Shaped, Due, Reach;
    EdgeBothWays(c.g, n, x);
    forall p | p in c.g.ids
      ensures Unsent(c.g, ph, p, x) >= Unsent(c.g, ph', p, x)
    {
      assert p in Nodes(c.g);
      if p == n {
        CountFromStart(c.g, p, |Children(c.g, n)|, x);
      } else if ph[p].Done? && !ph'[p].Done? {
        StillDone(c, s, ph, i, n, ph', p);
      } else if ph'[p].Done? {
        OutsideAsBefore(c, s, ph, i, n, ph', p);
      }
    }
    var j :| 0 <= j < |Children(c.g, n)| && Children(c.g, n)[j] == x;
    CountFromEntry(c.g, n, 0, j);
    assert n in c.g.ids;
    UnsentFromMore(c.g, ph', ph, c.g.ids, n, x);
    DueIsUnsent(c.g, ph, x);
    DueIsUnsent(c.g, ph', x);
  }

  lemma StillDone(c: Config, s: State, ph: Phases, i: nat, n: Id, ph': Phases, p: Id)
    requires Jumped(c, s, ph, i, n, ph') && !Reach(c.g, c.loops[n].target, n) && c.loops[n].body == []
    requires p in Nodes(c.g) && p != n && ph[p].Done?
    ensures ph'[p].Done?
  {
    hide Due, Tokens, Acyclic, Reach, CountsMatch, Shaped;
    var s' := RewindState(c, s, i, n);
    FlightPhases(c, s, ph, p);
    FlightPhases(c, s', ph', p);
    RewindMoves(c, s, i, n, Wait(p));
    RewindMoves(c, s, i, n, Act(p));
    assert Degree(s', p) == Degree(s, p);
    assert Degree(s', p) == Due(c.g, ph', p) && Degree(s, p) == Due(c.g, ph, p);
  }

  /** And then the goto is harmless: the step counts as finished and owes nothing to anyone. */
  lemma EmptyBodyKeeps(c: Config, s: State, ph: Phases, i: nat, n: Id)
    requires ValidConfig(c) && Inv(c, s, ph)
    requires i < |s.workers| && s.workers[i].Ran? && s.workers[i].step == n && JumpTaken(c, s, n, false, true)
    requires !Reach(c.g, c.loops[n].target, n) && Children(c.g, n) == [] && s.completed + 1 < |c.g.ids|
    ensures Inv(c, RewindState(c, s, i, n), ph[n := Done(0)])
  {
    hide Inv, Reach, ValidConfig;
    CountedKeeps(c, s, ph, Worker(i), n, s.firstErr);
    JumpIsCount(c, s, ph, i, n);
    OtherIterations(c, CountedState(c, s, Worker(i), n, s.firstErr), ph[n := Done(0)], RewindState(c, s, i, n));
  }

  lemma JumpIsCount(c: Config, s: State, ph: Phases, i: nat, n: Id)
    requires ValidConfig(c) && Inv(c, s, ph)
    requires i < |s.workers| && s.workers[i].Ran? && s.workers[i].step == n && JumpTaken(c, s, n, false, true)
    requires !Reach(c.g, c.loops[n].target, n) && Children(c.g, n) == [] && s.completed + 1 < |c.g.ids|
    ensures RewindState(c, s, i, n)
            == CountedState(c, s, Worker(i), n, s.firstErr).(iterations := RewindState(c, s, i, n).iterations)
    ensures WithinLimits(c, RewindState(c, s, i, n))
  {
    hide Due, Acyclic, Reach, Tokens, WaitingIsDue, TokensMatch, CountsMatch, DegreesDue;
    BodyEmpty(c.g, c.loops[n].target, n, c.loops[n].body);
    assert Rewind(c, s, n).1 == Leave;
    assert Rewound(c.g, [], s.inDegree) == s.inDegree;
    assert s.results - Elements([]) == s.results;
  }

  lemma OtherIterations(c: Config, s: State, ph: Phases, s': State)
    requires Inv(c, s, ph) && s' == s.(iterations := s'.iterations) && WithinLimits(c, s')
    ensures Inv(c, s', ph)
  {
    hide Due, Acyclic, WaitingIsDue, AllTokens, WaitAll, DispatcherTokens;
    forall tok
      ensures Tokens(c, s', tok) == Want(c, s', ph, tok)
    {
      assert Tokens(c, s, tok) == Want(c, s, ph, tok);
    }
  }

  lemma LoopKeeps(c: Config, s: State, ph: Phases, i: nat, n: Id)
    requires ValidConfig(c) && Inv(c, s, ph)
    requires i < |s.workers| && s.workers[i].Ran? && s.workers[i].step == n && JumpTaken(c, s, n, false, true)
    requires c.loops[n].target != n && Reach(c.g, c.loops[n].target, n) && SingleExit(c.g, c.loops[n].target, n)
    ensures Consistent(c, RewindState(c, s, i, n))
  {
    hide Inv, ValidConfig, Reach;
    AncestorReach(c.g, c.loops[n].target, n);
    assert WellFormedLoop(c.g, c.loops[n].target, n);
    RewindKeeps(c, s, ph, i);
  }

  lemma SideExitExact(c: Config, s: State, ph: Phases, i: nat, n: Id)
    requires ValidConfig(c) && Inv(c, s, ph)
    requires i < |s.workers| && s.workers[i].Ran? && s.workers[i].step == n && n in c.loops && c.loops[n].target != n
    requires Reach(c.g, c.loops[n].target, n) && Consistent(c, RewindState(c, s, i, n))
    ensures SingleExit(c.g, c.loops[n].target, n)
  {
    hide Inv, Reach, Acyclic;
    var ph' :| Inv(c, RewindState(c, s, i, n), ph');
    forall b, x | Between(c.g, c.loops[n].target, n, b) && b != n && Edge(c.g, b, x)
      ensures Between(c.g, c.loops[n].target, n, x)
    {
      SideExitBreaks(c, s, ph, i, n, ph', b, x);
    }
  }

  /**
   The exact condition, at every state the invariant describes and every taken goto
   whose target is another step: the state after the rewind is consistent if and only
   if only the goto step leaves the region or, for a target that does not reach the goto
   step, the step has no children and is not the last to complete.
   */
  lemma RewindExact(c: Config, s: State, ph: Phases, i: nat)
    requires ValidConfig(c) && Inv(c, s, ph)
    requires i < |s.workers| && s.workers[i].Ran? && JumpTaken(c, s, s.workers[i].step, false, true)
    requires c.loops[s.workers[i].step].target != s.workers[i].step
    ensures Consistent(c, RewindState(c, s, i, s.workers[i].step)) <==> RewindSound(c, s, s.workers[i].step)
  {
    hide Inv, Reach, ValidConfig, SingleExit;
    var n := s.workers[i].step;
    if Reach(c.g, c.loops[n].target, n) {
      if SingleExit(c.g, c.loops[n].target, n) {
        LoopKeeps(c, s, ph, i, n);
      }
      if Consistent(c, RewindState(c, s, i, n)) {
        SideExitExact(c, s, ph, i, n);
      }
    } else {
      if RewindSound(c, s, n) {
        EmptyBodyKeeps(c, s, ph, i, n);
      }
      if Consistent(c, RewindState(c, s, i, n)) {
        var ph' :| Inv(c, RewindState(c, s, i, n), ph');
        EmptyBodyBreaks(c, s, ph, i, n, ph');
      }
    }
  }
}
