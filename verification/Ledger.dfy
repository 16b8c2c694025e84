/**
 The bookkeeping behind an in-degree table.  Every step is in one phase of its
 current round; a finished step has signalled the first `signalled` entries of
 its children list.  The in-degree a step ought to have is the number of
 dependency edges into it that are not signalled in the current round.
 Both Kahn's algorithm and the concurrent scheduler keep their table equal to it.
 */
module Ledger {
  import opened Graph

  datatype Phase = Idle | Pending | Running | Done(signalled: nat)

  type Phases = map<Id, Phase>

  ghost predicate Covers(g: Graph, ph: Phases) {
    && (forall n | n in Nodes(g) :: n in ph)
    && (forall n | n in Nodes(g) && ph[n].Done? :: ph[n].signalled <= |Children(g, n)|)
  }

  /** Children entries of `p` from position `k` on that name `n`. */
  ghost function CountFrom(g: Graph, p: Id, k: nat, n: Id): nat {
    if k <= |Children(g, p)| then multiset(Children(g, p)[k..])[n] else 0
  }

  /** Edges from `p` to `n` that `p` has still to signal in its current round. */
  ghost function Unsent(g: Graph, ph: Phases, p: Id, n: Id): nat {
    CountFrom(g, p, if p in ph && ph[p].Done? then ph[p].signalled else 0, n)
  }

  /** Unsignalled edges into `n` from the steps listed in `from`. */
  ghost function UnsentFrom(g: Graph, ph: Phases, from: seq<Id>, n: Id): nat {
    if from == [] then 0 else Unsent(g, ph, from[0], n) + UnsentFrom(g, ph, from[1..], n)
  }

  ghost function Due(g: Graph, ph: Phases, n: Id): nat {
    UnsentFrom(g, ph, g.ids, n)
  }

  /** A step waits exactly as long as some edge into it is unsignalled. */
  ghost predicate WaitingIsDue(g: Graph, ph: Phases) {
    && Covers(g, ph)
    && forall n | n in Nodes(g) :: ph[n].Idle? <==> Due(g, ph, n) > 0
  }

  /** The number of entries of `ps` that lie in `within`. */
  function CountIn(ps: seq<Id>, within: set<Id>): nat {
    if ps == [] then 0 else (if ps[0] in within then 1 else 0) + CountIn(ps[1..], within)
  }

  // ---- how the sums move ----

  lemma CountFromStep(g: Graph, p: Id, k: nat, n: Id)
    requires k < |Children(g, p)|
    ensures CountFrom(g, p, k, n) == CountFrom(g, p, k + 1, n) + if Children(g, p)[k] == n then 1 else 0
  {
    var cs := Children(g, p);
    assert cs[k..] == [cs[k]] + cs[k + 1..];
  }

  lemma CountFromEntry(g: Graph, p: Id, k: nat, j: nat)
    requires k <= j < |Children(g, p)|
    ensures CountFrom(g, p, k, Children(g, p)[j]) > 0
  {
    assert Children(g, p)[k..][j - k] == Children(g, p)[j];
    assert Children(g, p)[j] in multiset(Children(g, p)[k..]);
  }

  lemma CountFromPositive(g: Graph, p: Id, k: nat, n: Id)
    requires CountFrom(g, p, k, n) > 0
    ensures Edge(g, p, n) && k < |Children(g, p)|
  {
    assert n in multiset(Children(g, p)[k..]);
    assert n in Children(g, p)[k..];
  }

  lemma UnsentPositive(g: Graph, ph: Phases, p: Id, n: Id)
    requires Unsent(g, ph, p, n) > 0
    ensures Edge(g, p, n)
    ensures p in ph && ph[p].Done? ==> ph[p].signalled < |Children(g, p)|
  {
    CountFromPositive(g, p, if p in ph && ph[p].Done? then ph[p].signalled else 0, n);
  }

  lemma {:induction false} UnsentFromSame(g: Graph, ph: Phases, ph': Phases, from: seq<Id>, n: Id)
    requires forall p | p in from :: Unsent(g, ph, p, n) == Unsent(g, ph', p, n)
    ensures UnsentFrom(g, ph, from, n) == UnsentFrom(g, ph', from, n)
  {
    if from != [] {
      UnsentFromSame(g, ph, ph', from[1..], n);
    }
  }

  lemma {:induction false} UnsentFromChange(g: Graph, ph: Phases, ph': Phases, from: seq<Id>, q: Id, n: Id)
    requires Distinct(from) && q in from
    requires forall p | p in from && p != q :: Unsent(g, ph, p, n) == Unsent(g, ph', p, n)
    ensures UnsentFrom(g, ph', from, n) == UnsentFrom(g, ph, from, n) - Unsent(g, ph, q, n) + Unsent(g, ph', q, n)
    ensures Unsent(g, ph, q, n) <= UnsentFrom(g, ph, from, n)
  {
    if from[0] == q {
      assert q !in from[1..];
      UnsentFromSame(g, ph, ph', from[1..], n);
    } else {
      UnsentFromChange(g, ph, ph', from[1..], q, n);
    }
  }

  /** One step changing phase moves what is due at `n` by that step's own unsent edges only. */
  lemma DueChange(g: Graph, ph: Phases, q: Id, v: Phase, n: Id)
    requires WellFormed(g) && q in Nodes(g)
    ensures Due(g, ph[q := v], n) == Due(g, ph, n) - Unsent(g, ph, q, n) + Unsent(g, ph[q := v], q, n)
    ensures Unsent(g, ph, q, n) <= Due(g, ph, n)
  {
    assert q in g.ids;
    UnsentFromChange(g, ph, ph[q := v], g.ids, q, n);
  }

  /** Phases that agree on what is sent agree on what is due. */
  lemma DueSame(g: Graph, ph: Phases, q: Id, v: Phase)
    requires WellFormed(g) && q in Nodes(g)
    requires forall n :: Unsent(g, ph, q, n) == Unsent(g, ph[q := v], q, n)
    ensures forall n :: Due(g, ph[q := v], n) == Due(g, ph, n)
  {
    forall n
      ensures Due(g, ph[q := v], n) == Due(g, ph, n)
    {
      DueChange(g, ph, q, v, n);
    }
  }

  lemma DueAtLeast(g: Graph, ph: Phases, p: Id, n: Id)
    requires WellFormed(g) && p in Nodes(g)
    ensures Unsent(g, ph, p, n) <= Due(g, ph, n)
  {
    assert p in g.ids;
    UnsentFromAtLeast(g, ph, g.ids, p, n);
  }

  lemma {:induction false} UnsentFromAtLeast(g: Graph, ph: Phases, from: seq<Id>, p: Id, n: Id)
    requires p in from
    ensures Unsent(g, ph, p, n) <= UnsentFrom(g, ph, from, n)
  {
    if from[0] != p {
      UnsentFromAtLeast(g, ph, from[1..], p, n);
    }
  }

  lemma {:induction false} UnsentFromPositive(g: Graph, ph: Phases, from: seq<Id>, n: Id) returns (p: Id)
    requires UnsentFrom(g, ph, from, n) > 0
    ensures p in from && Unsent(g, ph, p, n) > 0
  {
    if Unsent(g, ph, from[0], n) > 0 {
      p := from[0];
    } else {
      p := UnsentFromPositive(g, ph, from[1..], n);
    }
  }

  // ---- totals that count entries of the parents list ----

  lemma {:induction false} CountInAdd(ps: seq<Id>, within: set<Id>, x: Id)
    requires x !in within
    ensures CountIn(ps, within + {x}) == CountIn(ps, within) + multiset(ps)[x]
  {
    if ps != [] {
      assert ps == [ps[0]] + ps[1..];
      CountInAdd(ps[1..], within, x);
    }
  }

  lemma {:induction false} CountInSame(ps: seq<Id>, a: set<Id>, b: set<Id>)
    requires forall p | p in ps :: p in a <==> p in b
    ensures CountIn(ps, a) == CountIn(ps, b)
  {
    if ps != [] {
      CountInSame(ps[1..], a, b);
    }
  }

  lemma {:induction false} CountInAll(ps: seq<Id>, within: set<Id>)
    requires forall p | p in ps :: p in within
    ensures CountIn(ps, within) == |ps|
  {
    if ps != [] {
      CountInAll(ps[1..], within);
    }
  }

  lemma {:induction false} CountInEmpty(ps: seq<Id>)
    ensures CountIn(ps, {}) == 0
  {
    if ps != [] {
      CountInEmpty(ps[1..]);
    }
  }

  lemma {:induction false} CountInZero(ps: seq<Id>, within: set<Id>)
    ensures CountIn(ps, within) == 0 <==> forall p | p in ps :: p !in within
  {
    if ps != [] {
      CountInZero(ps[1..], within);
      assert forall p | p in ps :: p == ps[0] || p in ps[1..];
    }
  }

  /** When exactly the steps in `open` have signalled nothing and the others owe `n` nothing. */
  ghost predicate OpenOnly(g: Graph, ph: Phases, open: set<Id>, n: Id) {
    forall p | p in Nodes(g) :: Unsent(g, ph, p, n) == if p in open then CountFrom(g, p, 0, n) else 0
  }

  lemma OpenEntry(g: Graph, ph: Phases, open: set<Id>, p: Id, rest: seq<Id>, n: Id)
    requires WellFormed(g) && OpenOnly(g, ph, open, n) && p in Nodes(g) && p !in rest
    ensures CountIn(Parents(g, n), open * Elements([p] + rest))
            == CountIn(Parents(g, n), open * Elements(rest)) + Unsent(g, ph, p, n)
  {
    hide Distinct;
    assert Children(g, p)[0..] == Children(g, p);
    assert Mirrored(g, p, n);
    assert Elements([p] + rest) == {p} + Elements(rest);
    if p in open {
      assert open * Elements([p] + rest) == open * Elements(rest) + {p};
      CountInAdd(Parents(g, n), open * Elements(rest), p);
    } else {
      assert open * Elements([p] + rest) == open * Elements(rest);
    }
  }

  lemma {:induction false} UnsentFromOpen(g: Graph, ph: Phases, open: set<Id>, from: seq<Id>, n: Id)
    requires WellFormed(g) && Distinct(from) && OpenOnly(g, ph, open, n)
    requires forall p | p in from :: p in Nodes(g)
    ensures UnsentFrom(g, ph, from, n) == CountIn(Parents(g, n), open * Elements(from))
  {
    hide WellFormed, OpenOnly, Unsent, CountIn;
    if from == [] {
      assert open * Elements(from) == {};
      CountInEmpty(Parents(g, n));
    } else {
      var p, rest := from[0], from[1..];
      assert from == [p] + rest && p !in rest;
      UnsentFromOpen(g, ph, open, rest, n);
      OpenEntry(g, ph, open, p, rest, n);
    }
  }

  /** What is due is then the number of parents entries in `open`: the rewound in-degree. */
  lemma DueOpen(g: Graph, ph: Phases, open: set<Id>, n: Id)
    requires WellFormed(g) && OpenOnly(g, ph, open, n)
    ensures Due(g, ph, n) == CountIn(Parents(g, n), open)
  {
    UnsentFromOpen(g, ph, open, g.ids, n);
    forall p | p in Parents(g, n)
      ensures p in g.ids
    {
      EdgeBothWays(g, p, n);
    }
    CountInSame(Parents(g, n), open * Elements(g.ids), open);
  }

  /** Before anything is signalled every entry of the parents list is due. */
  lemma DueInitially(g: Graph, ph: Phases, n: Id)
    requires WellFormed(g) && forall p | p in Nodes(g) :: p in ph && !ph[p].Done?
    ensures Due(g, ph, n) == |Parents(g, n)|
  {
    DueOpen(g, ph, Nodes(g), n);
    forall p | p in Parents(g, n)
      ensures p in Nodes(g)
    {
      EdgeBothWays(g, p, n);
    }
    CountInAll(Parents(g, n), Nodes(g));
  }

  /** The start of a run: the steps without dependencies are on their way, the others wait. */
  ghost function InitialPhases(g: Graph): Phases {
    map n | n in Nodes(g) :: if Parents(g, n) == [] then Pending else Idle
  }

  lemma InitialLedger(g: Graph)
    requires WellFormed(g)
    ensures WaitingIsDue(g, InitialPhases(g))
    ensures forall n | n in Nodes(g) :: Due(g, InitialPhases(g), n) == |Parents(g, n)|
  {
    var ph := InitialPhases(g);
    forall n | n in Nodes(g)
      ensures Due(g, ph, n) == |Parents(g, n)|
    {
      DueInitially(g, ph, n);
    }
  }

  // ---- consequences of WaitingIsDue ----

  /** The dependencies of a step that no longer waits have all finished and signalled it. */
  lemma ParentsSignalled(g: Graph, ph: Phases, p: Id, n: Id)
    requires WellFormed(g) && WaitingIsDue(g, ph) && Edge(g, p, n) && !(n in Nodes(g) && ph[n].Idle?)
    ensures n in Nodes(g) && p in Nodes(g) && ph[p].Done?
    ensures forall j | ph[p].signalled <= j < |Children(g, p)| :: Children(g, p)[j] != n
  {
    EdgeBothWays(g, p, n);
    DueAtLeast(g, ph, p, n);
    if !ph[p].Done? {
      var j :| 0 <= j < |Children(g, p)| && Children(g, p)[j] == n;
      CountFromEntry(g, p, 0, j);
    } else {
      forall j | ph[p].signalled <= j < |Children(g, p)|
        ensures Children(g, p)[j] != n
      {
        CountFromEntry(g, p, ph[p].signalled, j);
      }
    }
  }

  /** So all ancestors of a step that no longer waits have finished. */
  lemma {:induction false} AncestorsDone(g: Graph, ph: Phases, p: seq<Id>, i: nat)
    requires WellFormed(g) && WaitingIsDue(g, ph) && Path(g, p) && i < |p| - 1
    requires !ph[p[|p| - 1]].Idle?
    ensures ph[p[i]].Done?
    decreases |p| - i
  {
    if i < |p| - 2 {
      AncestorsDone(g, ph, p, i + 1);
    }
    assert Edge(g, p[i], p[i + 1]);
    ParentsSignalled(g, ph, p[i], p[i + 1]);
  }

  lemma AncestorDone(g: Graph, ph: Phases, a: Id, n: Id)
    requires WellFormed(g) && WaitingIsDue(g, ph) && n in Nodes(g) && !ph[n].Idle?
    requires Reach(g, a, n) && a != n
    ensures a in Nodes(g) && ph[a].Done?
  {
    var p :| PathBetween(g, p, a, n);
    AncestorsDone(g, ph, p, 0);
  }

  /** If nothing is in flight in an acyclic graph, then nothing waits either. */
  lemma QuietMeansDone(g: Graph, ph: Phases)
    requires WellFormed(g) && Acyclic(g) && WaitingIsDue(g, ph)
    requires forall n | n in Nodes(g) :: ph[n].Idle? || ph[n] == Done(|Children(g, n)|)
    ensures forall n | n in Nodes(g) :: ph[n] == Done(|Children(g, n)|)
  {
    var waiting := set n | n in Nodes(g) && ph[n].Idle?;
    forall n | n in waiting
      ensures HasParentIn(g, waiting, n)
    {
      var p := UnsentFromPositive(g, ph, g.ids, n);
      UnsentPositive(g, ph, p, n);
      assert p in waiting && Edge(g, p, n);
    }
    StuckSetHasCycle(g, waiting);
    assert forall n | n in Nodes(g) && ph[n].Idle? :: n in waiting;
  }

  // ---- one signal ----

  /** `p` signals its next child: what is due drops by one there and nowhere else. */
  lemma SignalDue(g: Graph, ph: Phases, p: Id, n: Id)
    requires WellFormed(g) && p in Nodes(g) && p in ph && ph[p].Done? && ph[p].signalled < |Children(g, p)|
    ensures var child := Children(g, p)[ph[p].signalled];
            && Due(g, ph[p := Done(ph[p].signalled + 1)], n) == Due(g, ph, n) - (if n == child then 1 else 0)
            && child in Nodes(g) && Due(g, ph, child) >= 1
  {
    hide Due;
    var k := ph[p].signalled;
    var child := Children(g, p)[k];
    assert Edge(g, p, child);
    EdgeBothWays(g, p, child);
    CountFromEntry(g, p, k, k);
    DueAtLeast(g, ph, p, child);
    DueChange(g, ph, p, Done(k + 1), n);
    CountFromStep(g, p, k, n);
  }

  /**
   `p` signals its next child: that child's due count drops by one, all others stay,
   and the child stops waiting exactly when the count reaches zero.
   */
  lemma SignalKeepsLedger(g: Graph, ph: Phases, p: Id)
    requires WellFormed(g) && WaitingIsDue(g, ph)
    requires p in Nodes(g) && ph[p].Done? && ph[p].signalled < |Children(g, p)|
    ensures var child := Children(g, p)[ph[p].signalled];
            var sent := ph[p := Done(ph[p].signalled + 1)];
            var ph' := if Due(g, ph, child) == 1 then sent[child := Pending] else sent;
            && child in Nodes(g) && ph[child].Idle? && child != p
            && WaitingIsDue(g, ph')
            && Due(g, ph, child) >= 1
            && forall n :: Due(g, ph', n) == Due(g, ph, n) - if n == child then 1 else 0
  {
    hide Due, WellFormed;
    var k := ph[p].signalled;
    var child := Children(g, p)[k];
    var sent := ph[p := Done(k + 1)];
    forall n
      ensures Due(g, sent, n) == Due(g, ph, n) - if n == child then 1 else 0
      ensures child in Nodes(g) && Due(g, ph, child) >= 1
    {
      SignalDue(g, ph, p, n);
    }
    SignalDue(g, ph, p, child);
    if Due(g, ph, child) == 1 {
      DueSame(g, sent, child, Pending);
    }
  }

  /** Phase changes that signal nothing and neither start nor end waiting keep the ledger. */
  lemma QuietChangeKeepsLedger(g: Graph, ph: Phases, q: Id, v: Phase)
    requires WellFormed(g) && WaitingIsDue(g, ph) && q in Nodes(g) && !ph[q].Idle? && !ph[q].Done?
    requires !v.Idle? && (v.Done? ==> v.signalled == 0)
    ensures WaitingIsDue(g, ph[q := v])
    ensures forall n :: Due(g, ph[q := v], n) == Due(g, ph, n)
  {
    var ph' := ph[q := v];
    DueSame(g, ph, q, v);
    assert Covers(g, ph');
    forall n | n in Nodes(g)
      ensures ph'[n].Idle? <==> Due(g, ph', n) > 0
    {
      assert Due(g, ph', n) == Due(g, ph, n);
    }
  }
}
