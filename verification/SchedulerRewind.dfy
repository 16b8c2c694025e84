/**
 A goto rewinds steps in mid-run.  With a well-formed loop every other step of the
 region has finished and signalled all its children by then, the new in-degrees are
 again the unsignalled edges, and exactly the target is on its way.
 */
module SchedulerRewind {
  import opened Graph
  import opened Ledger
  import opened LoopBody
  import opened Scheduler
  import opened SchedulerInvariant

  /** The phases after a rewind of `body` to `target`. */
  function RewindPhases(ph: Phases, body: set<Id>, target: Id): Phases {
    map n | n in ph.Keys :: if n !in body then ph[n] else if n == target then Pending else Idle
  }

  /** The region of a loop, and a goto step in it that is running. */
  ghost predicate AtGoto(g: Graph, ph: Phases, target: Id, from: Id, body: set<Id>) {
    && WellFormed(g) && Acyclic(g) && WaitingIsDue(g, ph)
    && PhaseIs(g, ph, from, Running) && target in Nodes(g)
    && (forall n :: n in body <==> Between(g, target, from, n))
  }

  /** All other steps of the region have finished their round entirely. */
  lemma BodySettled(g: Graph, ph: Phases, target: Id, from: Id, body: set<Id>, n: Id)
    requires AtGoto(g, ph, target, from, body) && SingleExit(g, target, from) && n in body && n != from
    ensures PhaseIs(g, ph, n, Done(|Children(g, n)|))
  {
    hide Due, Acyclic;
    AncestorDone(g, ph, n, from);
    if ph[n].signalled < |Children(g, n)| {
      var child := Children(g, n)[ph[n].signalled];
      assert Edge(g, n, child);
      assert Between(g, target, from, child);
      if child != from {
        AncestorDone(g, ph, child, from);
      }
      ParentsSignalled(g, ph, n, child);
      assert false;
    }
  }

  lemma GotoInBody(g: Graph, ph: Phases, target: Id, from: Id, body: set<Id>)
    requires AtGoto(g, ph, target, from, body) && Ancestor(g, target, from)
    ensures target in body && from in body && target != from && Reach(g, target, from)
  {
    hide Due, WaitingIsDue;
    AncestorReach(g, target, from);
    ReachSelf(g, target);
    ReachSelf(g, from);
    assert Between(g, target, from, target) && Between(g, target, from, from);
  }

  /** Nothing outside the region still owes a signal to a step inside. */
  lemma OnlyBodyOpen(g: Graph, ph: Phases, target: Id, from: Id, body: set<Id>, n: Id)
    requires AtGoto(g, ph, target, from, body) && WellFormedLoop(g, target, from) && n in body
    ensures OpenOnly(g, RewindPhases(ph, body, target), body, n)
  {
    hide Due, Acyclic;
    var ph' := RewindPhases(ph, body, target);
    forall p | p in Nodes(g)
      ensures Unsent(g, ph', p, n) == if p in body then CountFrom(g, p, 0, n) else 0
    {
      if p !in body && Unsent(g, ph, p, n) > 0 {
        var k := if ph[p].Done? then ph[p].signalled else 0;
        CountFromPositive(g, p, k, n);
        if n != from {
          BodySettled(g, ph, target, from, body, n);
        }
        ParentsSignalled(g, ph, p, n);
        NothingFrom(g, p, k, n);
        assert false;
      }
    }
  }

  lemma NothingFrom(g: Graph, p: Id, k: nat, n: Id)
    requires forall j | k <= j < |Children(g, p)| :: Children(g, p)[j] != n
    ensures CountFrom(g, p, k, n) == 0
  {
  }

  /** The rewind changes nothing that is owed to a step outside the region. */
  lemma OutsideUnchanged(g: Graph, ph: Phases, target: Id, from: Id, body: set<Id>, n: Id)
    requires AtGoto(g, ph, target, from, body) && WellFormedLoop(g, target, from) && n !in body
    ensures Due(g, RewindPhases(ph, body, target), n) == Due(g, ph, n)
  {
    var ph' := RewindPhases(ph, body, target);
    forall p | p in g.ids
      ensures Unsent(g, ph, p, n) == Unsent(g, ph', p, n)
    {
      assert p in Nodes(g);
      if p in body && p != from {
        forall j | 0 <= j < |Children(g, p)|
          ensures Children(g, p)[j] != n
        {
          assert Edge(g, p, Children(g, p)[j]);
          assert Between(g, target, from, Children(g, p)[j]);
        }
        NothingFrom(g, p, 0, n);
        NothingFrom(g, p, if ph[p].Done? then ph[p].signalled else 0, n);
      }
    }
    UnsentFromSame(g, ph, ph', g.ids, n);
  }

  /** The ledger after a rewind: inside the region what is due is the in-degree within the region. */
  lemma RewindKeepsLedger(g: Graph, ph: Phases, target: Id, from: Id, body: seq<Id>)
    requires AtGoto(g, ph, target, from, Elements(body)) && WellFormedLoop(g, target, from)
    requires IsLoopBody(g, target, from, body)
    ensures var ph' := RewindPhases(ph, Elements(body), target);
            && WaitingIsDue(g, ph')
            && forall n | n in Nodes(g) ::
                 Due(g, ph', n) == if n in body then CountIn(Parents(g, n), Elements(body)) else Due(g, ph, n)
  {
    hide Due, Acyclic;
    var b := Elements(body);
    var ph' := RewindPhases(ph, b, target);
    forall n | n in Nodes(g)
      ensures Due(g, ph', n) == if n in body then CountIn(Parents(g, n), b) else Due(g, ph, n)
      ensures ph'[n].Idle? <==> Due(g, ph', n) > 0
    {
      if n in b {
        OnlyBodyOpen(g, ph, target, from, b, n);
        DueOpen(g, ph', b, n);
        TargetIsOnlyEntry(g, target, from, body, n);
      } else {
        OutsideUnchanged(g, ph, target, from, b, n);
      }
    }
  }

  /** The counter: the region was counted except for the goto step, whose count comes with this section. */
  lemma RewindCount(g: Graph, ph: Phases, target: Id, from: Id, body: seq<Id>)
    requires AtGoto(g, ph, target, from, Elements(body)) && WellFormedLoop(g, target, from)
    requires IsLoopBody(g, target, from, body)
    ensures |DoneSet(g, RewindPhases(ph, Elements(body), target))| == |DoneSet(g, ph)| + 1 - |body|
    ensures !AllDone(g, ph) && !AllDone(g, RewindPhases(ph, Elements(body), target))
  {
    hide Due, Acyclic;
    var b := Elements(body);
    var ph' := RewindPhases(ph, b, target);
    GotoInBody(g, ph, target, from, b);
    forall n | n in b && n != from
      ensures n in DoneSet(g, ph)
    {
      BodySettled(g, ph, target, from, b, n);
    }
    var counted := b - {from};
    assert DoneSet(g, ph') == DoneSet(g, ph) - counted;
    assert counted <= DoneSet(g, ph);
    DistinctSize(body);
    assert !ph'[target].Done? && !ph[from].Done?;
  }

  function RewindState(c: Config, s: State, i: nat, n: Id): State
    requires n in c.loops
  {
    var (s1, t) := Rewind(c, s, n);
    WithTask(s1, Worker(i), t)
  }

  lemma RewindWants(c: Config, s: State, ph: Phases, n: Id, s': State, tok: Token)
    requires n in c.loops
    requires AtGoto(c.g, ph, c.loops[n].target, n, Elements(c.loops[n].body))
    requires WellFormedLoop(c.g, c.loops[n].target, n)
    requires !AllDone(c.g, ph) && !AllDone(c.g, RewindPhases(ph, Elements(c.loops[n].body), c.loops[n].target))
    requires s'.sem == s.sem && s'.wg == s.wg && s'.closes == s.closes
    ensures Want(c, s', RewindPhases(ph, Elements(c.loops[n].body), c.loops[n].target), tok) + One(tok == Act(n)) ==
            Want(c, s, ph, tok) + One(tok == Wait(c.loops[n].target))
  {
    var target, body := c.loops[n].target, Elements(c.loops[n].body);
    GotoInBody(c.g, ph, target, n, body);
    hide AtGoto, WellFormedLoop, AllDone, Elements;
    match tok {
      case Wait(m) => RewindBodyPhase(c, ph, target, n, body, m);
      case Act(m) => RewindBodyPhase(c, ph, target, n, body, m);
      case Sig(m, _) => RewindBodyPhase(c, ph, target, n, body, m);
      case _ =>
    }
  }

  lemma RewindBodyPhase(c: Config, ph: Phases, target: Id, n: Id, body: set<Id>, m: Id)
    requires AtGoto(c.g, ph, target, n, body) && WellFormedLoop(c.g, target, n)
    ensures m in body ==> m in Nodes(c.g) && m in ph && ph[m] == if m == n then Running else Done(|Children(c.g, m)|)
    ensures PhaseIs(c.g, ph, n, Running) && target in Nodes(c.g) && target in ph
    ensures m in RewindPhases(ph, body, target) <==> m in ph
    ensures m in ph ==> RewindPhases(ph, body, target)[m] == if m !in body then ph[m] else if m == target then Pending else Idle
  {
    hide Due, Acyclic;
    if m in body && m != n {
      BodySettled(c.g, ph, target, n, body, m);
    }
  }

  lemma RewindTokens(c: Config, s: State, ph: Phases, i: nat, n: Id, tok: Token)
    requires TokensMatch(c, s, ph) && i < |s.workers| && s.workers[i].Ran? && s.workers[i].step == n && n in c.loops
    requires AtGoto(c.g, ph, c.loops[n].target, n, Elements(c.loops[n].body))
    requires WellFormedLoop(c.g, c.loops[n].target, n)
    requires !AllDone(c.g, ph) && !AllDone(c.g, RewindPhases(ph, Elements(c.loops[n].body), c.loops[n].target))
    requires Rewind(c, s, n).1 == Jump(n, [c.loops[n].target])
    ensures Tokens(c, RewindState(c, s, i, n), tok)
            == Want(c, RewindState(c, s, i, n), RewindPhases(ph, Elements(c.loops[n].body), c.loops[n].target), tok)
  {
    hide AllTokens, AtGoto, WellFormedLoop, AllDone, Elements, RewindPhases;
    var (s1, t) := Rewind(c, s, n);
    assert Tokens(c, s, tok) == Want(c, s, ph, tok);
    assert Tokens(c, s1, tok) == Tokens(c, s, tok);
    TaskChange(c, s1, Worker(i), t, tok);
    RewindWants(c, s, ph, n, RewindState(c, s, i, n), tok);
    assert WaitAll([c.loops[n].target][1..], tok) == 0;
  }

  lemma RewindDegrees(c: Config, s: State, ph: Phases, i: nat, n: Id)
    requires n in c.loops && IsLoopBody(c.g, c.loops[n].target, n, c.loops[n].body)
    requires AtGoto(c.g, ph, c.loops[n].target, n, Elements(c.loops[n].body))
    requires WellFormedLoop(c.g, c.loops[n].target, n) && DegreesDue(c, s, ph)
    ensures DegreesDue(c, RewindState(c, s, i, n), RewindPhases(ph, Elements(c.loops[n].body), c.loops[n].target))
  {
    hide Due, WaitingIsDue, Acyclic, AtGoto, WellFormedLoop, IsLoopBody;
    RewindKeepsLedger(c.g, ph, c.loops[n].target, n, c.loops[n].body);
  }

  /** What one goto keeps, as an exact list: it touches finished steps only. */
  lemma RewindKeeps(c: Config, s: State, ph: Phases, i: nat)
    requires ValidConfig(c) && Inv(c, s, ph)
    requires i < |s.workers| && s.workers[i].Ran? && JumpTaken(c, s, s.workers[i].step, false, true)
    requires WellFormedLoop(c.g, c.loops[s.workers[i].step].target, s.workers[i].step)
    ensures var n := s.workers[i].step;
            && PhaseIs(c.g, ph, n, Running)
            && Inv(c, RewindState(c, s, i, n), RewindPhases(ph, Elements(c.loops[n].body), c.loops[n].target))
            && (forall m | m in c.loops[n].body && m != n :: PhaseIs(c.g, ph, m, Done(|Children(c.g, m)|)))
  {
    hide Due, Tokens, Want, AllDone, DoneSet, WaitingIsDue, AtGoto, WellFormedLoop, IsLoopBody, DegreesDue,
      RewindPhases, Elements, Rewound, ReadySteps, ValidConfig;
    var n := s.workers[i].step;
    var target, body := c.loops[n].target, c.loops[n].body;
    RewindReady(c, s, ph, i, n);
    forall m | m in body && m != n
      ensures PhaseIs(c.g, ph, m, Done(|Children(c.g, m)|))
    {
      BodyMember(body, m);
      BodySettled(c.g, ph, target, n, Elements(body), m);
    }
    RewindKeepsLedger(c.g, ph, target, n, body);
    RewindDegrees(c, s, ph, i, n);
    RewindCount(c.g, ph, target, n, body);
    var (s1, t) := Rewind(c, s, n);
    ShapedChange(c, s1, Worker(i), t);
    forall tok
      ensures Tokens(c, RewindState(c, s, i, n), tok)
              == Want(c, RewindState(c, s, i, n), RewindPhases(ph, Elements(body), target), tok)
    {
      RewindTokens(c, s, ph, i, n, tok);
    }
  }

  lemma BodyMember(body: seq<Id>, m: Id)
    ensures m in body <==> m in Elements(body)
  {
  }

  lemma RewindReady(c: Config, s: State, ph: Phases, i: nat, n: Id)
    requires ValidConfig(c) && Inv(c, s, ph)
    requires i < |s.workers| && s.workers[i].Ran? && s.workers[i].step == n && n in c.loops
    requires WellFormedLoop(c.g, c.loops[n].target, n)
    ensures IsLoopBody(c.g, c.loops[n].target, n, c.loops[n].body)
    ensures AtGoto(c.g, ph, c.loops[n].target, n, Elements(c.loops[n].body)) && SingleExit(c.g, c.loops[n].target, n)
    ensures PhaseIs(c.g, ph, n, Running) && s.closes == 0
    ensures Rewind(c, s, n).1 == Jump(n, [c.loops[n].target])
  {
    hide Due, Tokens, Acyclic, WaitingIsDue, DoneSet;
    var target, body := c.loops[n].target, c.loops[n].body;
    TaskChange(c, s, Worker(i), Leave, Act(n));
    HoldsAct(c, s, ph, n);
    assert AtGoto(c.g, ph, target, n, Elements(body));
    GotoInBody(c.g, ph, target, n, Elements(body));
    RewindReadiesTarget(c.g, target, n, body, s.inDegree);
  }
}
