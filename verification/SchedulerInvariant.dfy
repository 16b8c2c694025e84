/**
 What every action of every interleaving keeps when all loops are well formed.
 The phase of each step is a ghost map beside the state.  Every program counter, queue
 entry and slot is read as tokens; the invariant says that each token is held exactly
 as often as the phases call for, so nothing is queued twice, lost or run twice.
 */
module SchedulerInvariant {
  import opened Graph
  import opened Ledger
  import opened StepNode
  import opened Wrappers
  import opened Scheduler

  datatype Token =
    | Wait(step: Id)          // on its way: about to be sent, queued, or held by the dispatcher
    | Act(step: Id)           // being executed, or recorded as skipped and not yet counted
    | Sig(step: Id, k: nat)   // its finished goroutine will signal child k next
    | Closing                 // about to close done
    | Slot                    // a semaphore slot
    | Member                  // a unit of the wait group

  // ---- tokens of a state ----

  function One(b: bool): nat {
    if b then 1 else 0
  }

  function WaitAll(q: seq<Id>, tok: Token): nat {
    if q == [] then 0 else One(tok == Wait(q[0])) + WaitAll(q[1..], tok)
  }

  function NextTokens(c: Config, n: Id, k: nat, tok: Token): nat {
    One(k < |Children(c.g, n)| && tok == Sig(n, k))
  }

  function TaskTokens(c: Config, t: Task, tok: Token): nat {
    match t
    case Run(n) => One(tok == Act(n))
    case Ran(n, _) => One(tok == Act(n))
    case Signal(n, k) => One(tok == Sig(n, k))
    case Send(n, k) =>
      One(k < |Children(c.g, n)| && tok == Wait(Children(c.g, n)[k])) + NextTokens(c, n, k + 1, tok)
    case Jump(_, rest) => WaitAll(rest, tok)
    case Close(_) => One(tok == Closing)
    case _ => 0
  }

  function HeldTokens(t: Task, tok: Token): nat {
    One(tok == Slot && t != Gone && t != Detach) + One(tok == Member && t != Gone)
  }

  function WorkerTokens(c: Config, t: Task, tok: Token): nat {
    TaskTokens(c, t, tok) + HeldTokens(t, tok)
  }

  function AllTokens(c: Config, ws: seq<Task>, tok: Token): nat {
    if ws == [] then 0 else WorkerTokens(c, ws[0], tok) + AllTokens(c, ws[1..], tok)
  }

  function DispatcherTokens(c: Config, d: Dispatcher, tok: Token): nat {
    match d
    case Await => 0
    case Check(n) => One(tok == Wait(n))
    case Admit(n) => One(tok == Wait(n))
    case Acquire(n) => One(tok == Wait(n)) + One(tok == Member)
    case Refuse(n) => One(tok == Wait(n))
    case Refused(n) => One(tok == Act(n))
    case Busy(t) => TaskTokens(c, t, tok)
  }

  /** How often `tok` is held. */
  function Tokens(c: Config, s: State, tok: Token): nat {
    WaitAll(s.ready, tok) + DispatcherTokens(c, s.dispatcher, tok) + AllTokens(c, s.workers, tok)
  }

  // ---- tokens the phases call for ----

  ghost function DoneSet(g: Graph, ph: Phases): set<Id> {
    set n | n in Nodes(g) && n in ph && ph[n].Done?
  }

  ghost predicate AllDone(g: Graph, ph: Phases) {
    forall n | n in Nodes(g) :: n in ph && ph[n].Done?
  }

  ghost predicate PhaseIs(g: Graph, ph: Phases, n: Id, p: Phase) {
    n in Nodes(g) && n in ph && ph[n] == p
  }

  ghost function Want(c: Config, s: State, ph: Phases, tok: Token): int {
    match tok
    case Wait(n) => if PhaseIs(c.g, ph, n, Pending) then 1 else 0
    case Act(n) => if PhaseIs(c.g, ph, n, Running) then 1 else 0
    case Sig(n, k) => if PhaseIs(c.g, ph, n, Done(k)) && k < |Children(c.g, n)| then 1 else 0
    case Closing => if AllDone(c.g, ph) && s.closes == 0 then 1 else 0
    case Slot => s.sem
    case Member => s.wg
  }

  ghost predicate TokensMatch(c: Config, s: State, ph: Phases) {
    forall tok :: Tokens(c, s, tok) == Want(c, s, ph, tok)
  }

  // ---- the invariant ----

  ghost predicate TaskOk(c: Config, t: Task) {
    match t
    case Run(n) => true
    case Ran(n, _) => true
    case Signal(n, k) => k < |Children(c.g, n)|
    case Send(n, k) => k < |Children(c.g, n)|
    case Jump(_, rest) => rest != []
    case _ => true
  }

  ghost predicate Shaped(c: Config, s: State) {
    && (forall i | 0 <= i < |s.workers| :: TaskOk(c, s.workers[i]))
    && (s.dispatcher.Busy? ==>
          TaskOk(c, s.dispatcher.task) && (s.dispatcher.task.Signal? || s.dispatcher.task.Send? || s.dispatcher.task.Close?))
    && s.sem <= c.slots
    && (s.caller != AwaitDone ==> s.closes > 0)
  }

  /** The in-degree table is the number of unsignalled dependency edges. */
  ghost predicate DegreesDue(c: Config, s: State, ph: Phases) {
    forall n | n in Nodes(c.g) :: Degree(s, n) == Due(c.g, ph, n)
  }

  ghost predicate CountsMatch(c: Config, s: State, ph: Phases) {
    && s.completed == |DoneSet(c.g, ph)|
    && s.closes <= 1
    && (s.closes == 1 ==> AllDone(c.g, ph))
  }

  ghost predicate WithinLimits(c: Config, s: State) {
    forall n | n in s.iterations :: n in c.loops && s.iterations[n] <= c.loops[n].maxIterations
  }

  ghost predicate Inv(c: Config, s: State, ph: Phases) {
    && WaitingIsDue(c.g, ph)
    && DegreesDue(c, s, ph)
    && CountsMatch(c, s, ph)
    && TokensMatch(c, s, ph)
    && Shaped(c, s)
    && WithinLimits(c, s)
  }

  // ---- token arithmetic ----

  lemma {:induction false} AllTokensUpdate(c: Config, ws: seq<Task>, i: nat, t: Task, tok: Token)
    requires i < |ws|
    ensures WorkerTokens(c, ws[i], tok) <= AllTokens(c, ws, tok)
    ensures AllTokens(c, ws[i := t], tok) + WorkerTokens(c, ws[i], tok) == AllTokens(c, ws, tok) + WorkerTokens(c, t, tok)
  {
    hide WorkerTokens;
    if i == 0 {
      assert ws[i := t][1..] == ws[1..];
    } else {
      assert ws[i := t][1..] == ws[1..][i - 1 := t];
      AllTokensUpdate(c, ws[1..], i - 1, t, tok);
    }
  }

  lemma {:induction false} AllTokensAppend(c: Config, ws: seq<Task>, t: Task, tok: Token)
    ensures AllTokens(c, ws + [t], tok) == AllTokens(c, ws, tok) + WorkerTokens(c, t, tok)
  {
    hide WorkerTokens;
    if ws == [] {
      assert ws + [t] == [t];
    } else {
      assert (ws + [t])[1..] == ws[1..] + [t];
      AllTokensAppend(c, ws[1..], t, tok);
    }
  }

  lemma {:induction false} WaitAllAppend(q: seq<Id>, n: Id, tok: Token)
    ensures WaitAll(q + [n], tok) == WaitAll(q, tok) + One(tok == Wait(n))
  {
    if q == [] {
      assert q + [n] == [n];
    } else {
      assert (q + [n])[1..] == q[1..] + [n];
      WaitAllAppend(q[1..], n, tok);
    }
  }

  /** Tokens an agent holds with a given task. */
  function AgentTokens(c: Config, a: Agent, t: Task, tok: Token): nat {
    if a.TheDispatcher? then TaskTokens(c, t, tok) else WorkerTokens(c, t, tok)
  }

  predicate Acts(s: State, a: Agent) {
    match a
    case TheDispatcher => s.dispatcher.Busy? || s.dispatcher.Refused?
    case Worker(i) => i < |s.workers|
  }

  /** A refused step is counted as completed just as an executed one. */
  function Holding(s: State, a: Agent): Task {
    if a.TheDispatcher? && s.dispatcher.Refused? then Ran(s.dispatcher.step, true) else TaskOf(s, a)
  }

  /** Giving an agent another task moves exactly that agent's tokens. */
  lemma TaskChange(c: Config, s: State, a: Agent, t: Task, tok: Token)
    requires Acts(s, a)
    ensures Tokens(c, WithTask(s, a, t), tok) + AgentTokens(c, a, Holding(s, a), tok) ==
            Tokens(c, s, tok) + AgentTokens(c, a, t, tok)
    ensures AgentTokens(c, a, Holding(s, a), tok) <= Tokens(c, s, tok)
  {
    if a.Worker? {
      AllTokensUpdate(c, s.workers, a.index, t, tok);
    }
  }

  lemma ShapedChange(c: Config, s: State, a: Agent, t: Task)
    requires Shaped(c, s) && Acts(s, a) && TaskOk(c, t)
    requires a.TheDispatcher? ==> t.Signal? || t.Send? || t.Close? || t == Leave
    ensures Shaped(c, WithTask(s, a, t))
  {
  }

  // ---- phases read off tokens ----

  lemma HoldsWait(c: Config, s: State, ph: Phases, n: Id)
    requires TokensMatch(c, s, ph) && Tokens(c, s, Wait(n)) > 0
    ensures PhaseIs(c.g, ph, n, Pending)
  {
    assert Want(c, s, ph, Wait(n)) > 0;
  }

  lemma HoldsAct(c: Config, s: State, ph: Phases, n: Id)
    requires TokensMatch(c, s, ph) && Tokens(c, s, Act(n)) > 0
    ensures PhaseIs(c.g, ph, n, Running)
  {
    assert Want(c, s, ph, Act(n)) > 0;
  }

  lemma HoldsSig(c: Config, s: State, ph: Phases, n: Id, k: nat)
    requires TokensMatch(c, s, ph) && Tokens(c, s, Sig(n, k)) > 0
    ensures PhaseIs(c.g, ph, n, Done(k)) && k < |Children(c.g, n)|
  {
    assert Want(c, s, ph, Sig(n, k)) > 0;
  }

  lemma ActOnce(c: Config, s: State, ph: Phases, n: Id)
    requires TokensMatch(c, s, ph)
    ensures Tokens(c, s, Act(n)) <= 1
  {
    hide Tokens;
    assert Tokens(c, s, Act(n)) == Want(c, s, ph, Act(n));
  }

  // ---- the start ----

  lemma {:induction false} RootTokens(g: Graph, ids: seq<Id>, n: Id)
    requires Distinct(ids)
    ensures WaitAll(RootList(g, ids), Wait(n)) == if n in ids && Parents(g, n) == [] then 1 else 0
    ensures forall tok: Token | !tok.Wait? :: WaitAll(RootList(g, ids), tok) == 0
  {
    if ids != [] {
      RootTokens(g, ids[1..], n);
      var head := if Parents(g, ids[0]) == [] then [ids[0]] else [];
      if head != [] {
        assert (head + RootList(g, ids[1..]))[1..] == RootList(g, ids[1..]);
      } else {
        assert head + RootList(g, ids[1..]) == RootList(g, ids[1..]);
      }
    }
  }

  lemma InvInit(c: Config)
    requires ValidConfig(c)
    ensures Inv(c, Init(c), InitialPhases(c.g))
  {
    hide Due, Acyclic, Distinct, RootList;
    var s, ph := Init(c), InitialPhases(c.g);
    InitialLedger(c.g);
    assert DoneSet(c.g, ph) == {};
    assert !AllDone(c.g, ph) by {
      assert c.g.ids[0] in c.g.ids;
      assert !ph[c.g.ids[0]].Done?;
    }
    forall tok
      ensures Tokens(c, s, tok) == Want(c, s, ph, tok)
    {
      RootTokens(c.g, c.g.ids, if tok.Wait? then tok.step else "");
      if tok.Wait? {
        assert tok.step in c.g.ids <==> tok.step in Nodes(c.g);
      }
    }
  }

  // ---- counting ----

  lemma NodesSize(g: Graph)
    requires WellFormed(g)
    ensures |Nodes(g)| == |g.ids|
  {
    DistinctSize(g.ids);
    assert Elements(g.ids) == Nodes(g) by {
      forall n
        ensures n in Elements(g.ids) <==> n in Nodes(g)
      {
        assert n in g.ids <==> n in Nodes(g);
      }
    }
  }

  lemma AllDoneSize(g: Graph, ph: Phases)
    requires WellFormed(g)
    ensures |DoneSet(g, ph)| <= |g.ids|
    ensures AllDone(g, ph) <==> |DoneSet(g, ph)| >= |g.ids|
  {
    NodesSize(g);
    SubsetSize(DoneSet(g, ph), Nodes(g));
    if DoneSet(g, ph) == Nodes(g) {
      forall n | n in Nodes(g)
        ensures n in ph && ph[n].Done?
      {
        assert n in DoneSet(g, ph);
      }
    }
  }

  lemma DoneSetGrows(g: Graph, ph: Phases, n: Id)
    requires PhaseIs(g, ph, n, Running)
    ensures |DoneSet(g, ph[n := Done(0)])| == |DoneSet(g, ph)| + 1
  {
    assert DoneSet(g, ph[n := Done(0)]) == DoneSet(g, ph) + {n};
  }

  /** The step whose completion makes everything complete has no children left to signal. */
  lemma LastHasNoChildren(g: Graph, ph: Phases, n: Id)
    requires WellFormed(g) && WaitingIsDue(g, ph) && PhaseIs(g, ph, n, Running)
    requires AllDone(g, ph[n := Done(0)])
    ensures Children(g, n) == []
  {
    hide Due;
    if Children(g, n) != [] {
      var child := Children(g, n)[0];
      assert Edge(g, n, child);
      ParentsSignalled(g, ph, n, child);
      assert false;
    }
  }

  // ---- dispatcher actions ----

  lemma NextHolds(c: Config, n: Id, k: nat, rest: seq<Id>)
    ensures forall tok :: TaskTokens(c, NextSignal(c, n, k), tok) == NextTokens(c, n, k, tok)
    ensures forall tok :: HeldTokens(NextSignal(c, n, k), tok) == One(tok == Slot) + One(tok == Member)
    ensures forall tok :: TaskTokens(c, NextJump(n, rest), tok) == WaitAll(rest, tok)
    ensures forall tok :: HeldTokens(NextJump(n, rest), tok) == One(tok == Slot) + One(tok == Member)
  {
  }

  /** The part of the invariant that program counters and queues make up; it does not mention in-degrees. */
  ghost predicate Flow(c: Config, s: State, ph: Phases) {
    TokensMatch(c, s, ph) && Shaped(c, s)
  }

  lemma ReceiveFlow(c: Config, s: State, ph: Phases)
    requires Flow(c, s, ph) && Enabled(c, s, Receive)
    ensures Flow(c, Do(c, s, Receive), ph)
  {
    hide AllTokens;
    var s' := Do(c, s, Receive);
    forall tok
      ensures Tokens(c, s', tok) == Want(c, s', ph, tok)
    {
      assert Tokens(c, s, tok) == Want(c, s, ph, tok);
    }
  }

  lemma BookkeepingFlow(c: Config, s: State, ph: Phases, a: Action)
    requires Flow(c, s, ph) && Enabled(c, s, a) && (a == Inspect || a == Add || a == SeeDone || a == Return)
    ensures Flow(c, Do(c, s, a), ph)
  {
    hide AllTokens, WaitAll;
    var s' := Do(c, s, a);
    forall tok
      ensures Tokens(c, s', tok) == Want(c, s', ph, tok)
    {
      assert Tokens(c, s, tok) == Want(c, s, ph, tok);
    }
  }

  lemma TakeFlow(c: Config, s: State, ph: Phases)
    requires Flow(c, s, ph) && Enabled(c, s, Take)
    ensures PhaseIs(c.g, ph, s.dispatcher.step, Pending)
    ensures Flow(c, Do(c, s, Take), ph[s.dispatcher.step := Running])
  {
    hide AllTokens, WaitAll;
    var n := s.dispatcher.step;
    var s', ph' := Do(c, s, Take), ph[n := Running];
    HoldsWait(c, s, ph, n);
    forall tok
      ensures Tokens(c, s', tok) == Want(c, s', ph', tok)
    {
      assert Tokens(c, s, tok) == Want(c, s, ph, tok);
      AllTokensAppend(c, s.workers, Run(n), tok);
    }
  }

  lemma SkipFlow(c: Config, s: State, ph: Phases)
    requires Flow(c, s, ph) && Enabled(c, s, Skip1)
    ensures PhaseIs(c.g, ph, s.dispatcher.step, Pending)
    ensures Flow(c, Do(c, s, Skip1), ph[s.dispatcher.step := Running])
  {
    hide AllTokens, WaitAll;
    var n := s.dispatcher.step;
    var s', ph' := Do(c, s, Skip1), ph[n := Running];
    HoldsWait(c, s, ph, n);
    forall tok
      ensures Tokens(c, s', tok) == Want(c, s', ph', tok)
    {
      assert Tokens(c, s, tok) == Want(c, s, ph, tok);
    }
  }

  lemma ReceiveKeeps(c: Config, s: State, ph: Phases)
    requires Inv(c, s, ph) && Enabled(c, s, Receive)
    ensures Inv(c, Do(c, s, Receive), ph)
  {
    hide WaitingIsDue, Due, TokensMatch, Shaped, DoneSet, AllDone;
    ReceiveFlow(c, s, ph);
  }

  lemma BookkeepingKeeps(c: Config, s: State, ph: Phases, a: Action)
    requires Inv(c, s, ph) && Enabled(c, s, a) && (a == Inspect || a == Add || a == SeeDone || a == Return)
    ensures Inv(c, Do(c, s, a), ph)
  {
    hide WaitingIsDue, Due, TokensMatch, Shaped, DoneSet, AllDone;
    BookkeepingFlow(c, s, ph, a);
  }

  lemma StartKeepsLedger(c: Config, s: State, ph: Phases, n: Id)
    requires WellFormed(c.g) && Inv(c, s, ph) && PhaseIs(c.g, ph, n, Pending)
    ensures WaitingIsDue(c.g, ph[n := Running]) && DegreesDue(c, s, ph[n := Running]) && CountsMatch(c, s, ph[n := Running])
  {
    hide Due, TokensMatch, Shaped;
    QuietChangeKeepsLedger(c.g, ph, n, Running);
    assert DoneSet(c.g, ph[n := Running]) == DoneSet(c.g, ph);
  }

  lemma TakeKeeps(c: Config, s: State, ph: Phases)
    requires WellFormed(c.g) && Inv(c, s, ph) && Enabled(c, s, Take)
    ensures PhaseIs(c.g, ph, s.dispatcher.step, Pending)
    ensures Inv(c, Do(c, s, Take), ph[s.dispatcher.step := Running])
  {
    hide WaitingIsDue, Due, TokensMatch, Shaped, DoneSet, AllDone, WellFormed;
    TakeFlow(c, s, ph);
    StartKeepsLedger(c, s, ph, s.dispatcher.step);
  }

  lemma SkipKeeps(c: Config, s: State, ph: Phases)
    requires WellFormed(c.g) && Inv(c, s, ph) && Enabled(c, s, Skip1)
    ensures PhaseIs(c.g, ph, s.dispatcher.step, Pending)
    ensures Inv(c, Do(c, s, Skip1), ph[s.dispatcher.step := Running])
  {
    hide WaitingIsDue, Due, TokensMatch, Shaped, DoneSet, AllDone, WellFormed;
    SkipFlow(c, s, ph);
    StartKeepsLedger(c, s, ph, s.dispatcher.step);
  }

  // ---- counting a step as completed ----

  /** The critical section without a goto, for an executed or a refused step; firstErr may have been set before. */
  function CountedState(c: Config, s: State, a: Agent, n: Id, e: Option<Id>): State {
    var (s1, t) := Counted(c, s.(firstErr := e), n);
    WithTask(s1, a, t)
  }

  lemma CountedTokens(c: Config, s: State, ph: Phases, a: Agent, n: Id, e: Option<Id>, tok: Token)
    requires TokensMatch(c, s, ph) && Acts(s, a) && Holding(s, a).Ran? && Holding(s, a).step == n
    requires PhaseIs(c.g, ph, n, Running)
    requires var full := s.completed + 1 >= |c.g.ids|;
             && (full <==> AllDone(c.g, ph[n := Done(0)]))
             && (full ==> Children(c.g, n) == [] && s.closes == 0)
    ensures var s' := CountedState(c, s, a, n, e);
            Tokens(c, s', tok) == Want(c, s', ph[n := Done(0)], tok)
  {
    hide AllTokens, WaitAll;
    var (s1, t) := Counted(c, s.(firstErr := e), n);
    assert Tokens(c, s, tok) == Want(c, s, ph, tok);
    assert Tokens(c, s1, tok) == Tokens(c, s, tok);
    TaskChange(c, s1, a, t, tok);
    NextHolds(c, n, 0, []);
  }

  /** The phases agree with the counter, before and after. */
  lemma CountedLedger(c: Config, s: State, ph: Phases, n: Id)
    requires ValidConfig(c) && WaitingIsDue(c.g, ph) && DegreesDue(c, s, ph) && CountsMatch(c, s, ph)
    requires PhaseIs(c.g, ph, n, Running)
    ensures var ph' := ph[n := Done(0)];
            && !AllDone(c.g, ph) && s.closes == 0
            && WaitingIsDue(c.g, ph') && DegreesDue(c, s, ph')
            && |DoneSet(c.g, ph')| == s.completed + 1
            && (AllDone(c.g, ph') <==> s.completed + 1 >= |c.g.ids|)
            && (AllDone(c.g, ph') ==> Children(c.g, n) == [])
  {
    hide Due, Acyclic, DoneSet;
    var ph' := ph[n := Done(0)];
    assert !AllDone(c.g, ph);
    QuietChangeKeepsLedger(c.g, ph, n, Done(0));
    DoneSetGrows(c.g, ph, n);
    AllDoneSize(c.g, ph');
    if AllDone(c.g, ph') {
      LastHasNoChildren(c.g, ph, n);
    }
  }

  lemma CountedKeeps(c: Config, s: State, ph: Phases, a: Agent, n: Id, e: Option<Id>)
    requires ValidConfig(c) && Inv(c, s, ph)
    requires Acts(s, a) && Holding(s, a).Ran? && Holding(s, a).step == n
    ensures PhaseIs(c.g, ph, n, Running)
    ensures Inv(c, CountedState(c, s, a, n, e), ph[n := Done(0)])
  {
    hide WaitingIsDue, Due, ValidConfig, DoneSet, AllDone, Tokens, Want;
    var (s1, t) := Counted(c, s.(firstErr := e), n);
    var ph' := ph[n := Done(0)];
    TaskChange(c, s, a, t, Act(n));
    HoldsAct(c, s, ph, n);
    CountedLedger(c, s, ph, n);
    ShapedChange(c, s1, a, t);
    forall tok
      ensures Tokens(c, CountedState(c, s, a, n, e), tok) == Want(c, CountedState(c, s, a, n, e), ph', tok)
    {
      CountedTokens(c, s, ph, a, n, e, tok);
    }
  }

  // ---- signalling a child ----

  function SignalPhases(c: Config, s: State, ph: Phases, n: Id, k: nat): Phases
    requires k < |Children(c.g, n)|
  {
    var child := Children(c.g, n)[k];
    if Degree(s, child) <= 1 then ph[n := Done(k + 1)][child := Pending] else ph[n := Done(k + 1)]
  }

  function SignalState(c: Config, s: State, a: Agent, n: Id, k: nat): State
    requires k < |Children(c.g, n)|
  {
    var (s1, t) := Signalled(c, s, n, k);
    WithTask(s1, a, t)
  }

  lemma SignalledHolds(c: Config, s: State, n: Id, k: nat, a: Agent, tok: Token)
    requires k < |Children(c.g, n)|
    ensures AgentTokens(c, a, Signalled(c, s, n, k).1, tok) + One(tok == Sig(n, k)) ==
            AgentTokens(c, a, Signal(n, k), tok)
            + NextTokens(c, n, k + 1, tok) + One(Degree(s, Children(c.g, n)[k]) <= 1 && tok == Wait(Children(c.g, n)[k]))
  {
  }

  lemma SignalWants(c: Config, s: State, ph: Phases, n: Id, k: nat, tok: Token)
    requires PhaseIs(c.g, ph, n, Done(k)) && k < |Children(c.g, n)|
    requires PhaseIs(c.g, ph, Children(c.g, n)[k], Idle) && Children(c.g, n)[k] != n
    ensures Want(c, s, SignalPhases(c, s, ph, n, k), tok) + One(tok == Sig(n, k)) ==
            Want(c, s, ph, tok)
            + NextTokens(c, n, k + 1, tok) + One(Degree(s, Children(c.g, n)[k]) <= 1 && tok == Wait(Children(c.g, n)[k]))
  {
    var child := Children(c.g, n)[k];
    var ph' := SignalPhases(c, s, ph, n, k);
    assert !ph[child].Done? && !ph'[child].Done?;
  }

  lemma SignalTokens(c: Config, s: State, ph: Phases, a: Agent, n: Id, k: nat, tok: Token)
    requires TokensMatch(c, s, ph) && Acts(s, a) && Holding(s, a) == Signal(n, k) && k < |Children(c.g, n)|
    requires PhaseIs(c.g, ph, n, Done(k)) && PhaseIs(c.g, ph, Children(c.g, n)[k], Idle) && Children(c.g, n)[k] != n
    ensures var s' := SignalState(c, s, a, n, k);
            Tokens(c, s', tok) == Want(c, s', SignalPhases(c, s, ph, n, k), tok)
  {
    hide AllTokens, WaitAll, AgentTokens, NextTokens, One, SignalPhases;
    var (s1, t) := Signalled(c, s, n, k);
    assert Tokens(c, s, tok) == Want(c, s, ph, tok);
    assert Tokens(c, s1, tok) == Tokens(c, s, tok);
    TaskChange(c, s1, a, t, tok);
    SignalledHolds(c, s, n, k, a, tok);
    SignalWants(c, s, ph, n, k, tok);
  }

  lemma SignalKeeps(c: Config, s: State, ph: Phases, a: Agent)
    requires ValidConfig(c) && Inv(c, s, ph) && Enabled(c, s, SignalChild(a))
    ensures PhaseIs(c.g, ph, TaskOf(s, a).step, Done(TaskOf(s, a).next))
    ensures Inv(c, Do(c, s, SignalChild(a)), SignalPhases(c, s, ph, TaskOf(s, a).step, TaskOf(s, a).next))
  {
    hide Due, Acyclic, Tokens, Want, AllDone, DoneSet;
    var n, k := TaskOf(s, a).step, TaskOf(s, a).next;
    assert Do(c, s, SignalChild(a)) == SignalState(c, s, a, n, k);
    SignalHeld(c, s, ph, a, n, k);
    SignalLedger(c, s, ph, a, n, k);
    SignalDone(c, s, ph, n, k);
    var (s1, t) := Signalled(c, s, n, k);
    ShapedChange(c, s1, a, t);
    forall tok
      ensures Tokens(c, SignalState(c, s, a, n, k), tok)
              == Want(c, SignalState(c, s, a, n, k), SignalPhases(c, s, ph, n, k), tok)
    {
      SignalTokens(c, s, ph, a, n, k, tok);
    }
  }

  lemma SignalHeld(c: Config, s: State, ph: Phases, a: Agent, n: Id, k: nat)
    requires TokensMatch(c, s, ph) && Acts(s, a) && Holding(s, a) == Signal(n, k)
    ensures PhaseIs(c.g, ph, n, Done(k))
  {
    hide Tokens;
    TaskChange(c, s, a, Leave, Sig(n, k));
    HoldsSig(c, s, ph, n, k);
  }

  lemma SignalLedger(c: Config, s: State, ph: Phases, a: Agent, n: Id, k: nat)
    requires WellFormed(c.g) && WaitingIsDue(c.g, ph) && DegreesDue(c, s, ph)
    requires k < |Children(c.g, n)| && PhaseIs(c.g, ph, n, Done(k))
    ensures PhaseIs(c.g, ph, Children(c.g, n)[k], Idle) && Children(c.g, n)[k] != n
    ensures WaitingIsDue(c.g, SignalPhases(c, s, ph, n, k))
    ensures DegreesDue(c, SignalState(c, s, a, n, k), SignalPhases(c, s, ph, n, k))
  {
    hide Due;
    SignalKeepsLedger(c.g, ph, n);
  }

  lemma SignalDone(c: Config, s: State, ph: Phases, n: Id, k: nat)
    requires PhaseIs(c.g, ph, n, Done(k)) && k < |Children(c.g, n)|
    requires PhaseIs(c.g, ph, Children(c.g, n)[k], Idle) && Children(c.g, n)[k] != n
    ensures DoneSet(c.g, SignalPhases(c, s, ph, n, k)) == DoneSet(c.g, ph)
    ensures !AllDone(c.g, ph) && !AllDone(c.g, SignalPhases(c, s, ph, n, k))
  {
    var child, ph' := Children(c.g, n)[k], SignalPhases(c, s, ph, n, k);
    assert !ph[child].Done? && !ph'[child].Done?;
  }

  // ---- sending to ready, closing, leaving ----

  lemma SentHolds(c: Config, a: Agent, n: Id, k: nat, tok: Token)
    requires k < |Children(c.g, n)|
    ensures AgentTokens(c, a, Send(n, k), tok)
            == AgentTokens(c, a, NextSignal(c, n, k + 1), tok) + One(tok == Wait(Children(c.g, n)[k]))
  {
  }

  lemma SendTokens(c: Config, s: State, ph: Phases, a: Agent, n: Id, k: nat, tok: Token)
    requires TokensMatch(c, s, ph) && Acts(s, a) && Holding(s, a) == Send(n, k) && k < |Children(c.g, n)|
    ensures var s' := WithTask(s.(ready := s.ready + [Children(c.g, n)[k]]), a, NextSignal(c, n, k + 1));
            Tokens(c, s', tok) == Want(c, s', ph, tok)
  {
    hide AllTokens, WaitAll, AgentTokens, DispatcherTokens, NextTokens;
    var child := Children(c.g, n)[k];
    var s1 := s.(ready := s.ready + [child]);
    assert Tokens(c, s, tok) == Want(c, s, ph, tok);
    TaskChange(c, s1, a, NextSignal(c, n, k + 1), tok);
    WaitAllAppend(s.ready, child, tok);
    SentHolds(c, a, n, k, tok);
  }

  lemma SendFlow(c: Config, s: State, ph: Phases, a: Agent)
    requires Flow(c, s, ph) && Enabled(c, s, SendChild(a))
    ensures Flow(c, Do(c, s, SendChild(a)), ph)
  {
    hide Tokens, Want;
    var n, k := TaskOf(s, a).step, TaskOf(s, a).sent;
    var s1, t := s.(ready := s.ready + [Children(c.g, n)[k]]), NextSignal(c, n, k + 1);
    assert Do(c, s, SendChild(a)) == WithTask(s1, a, t);
    ShapedChange(c, s1, a, t);
    forall tok
      ensures Tokens(c, WithTask(s1, a, t), tok) == Want(c, WithTask(s1, a, t), ph, tok)
    {
      SendTokens(c, s, ph, a, n, k, tok);
    }
  }

  lemma SendKeeps(c: Config, s: State, ph: Phases, a: Agent)
    requires Inv(c, s, ph) && Enabled(c, s, SendChild(a))
    ensures Inv(c, Do(c, s, SendChild(a)), ph)
  {
    hide WaitingIsDue, Due, TokensMatch, Shaped, DoneSet, AllDone, WithTask;
    SendFlow(c, s, ph, a);
  }

  lemma SendTargetTokens(c: Config, s: State, ph: Phases, i: nat, n: Id, rest: seq<Id>, tok: Token)
    requires TokensMatch(c, s, ph) && i < |s.workers| && s.workers[i] == Jump(n, rest) && rest != []
    ensures var s' := WithTask(s.(ready := s.ready + [rest[0]]), Worker(i), NextJump(n, rest[1..]));
            Tokens(c, s', tok) == Want(c, s', ph, tok)
  {
    hide AllTokens;
    assert Tokens(c, s, tok) == Want(c, s, ph, tok);
    TaskChange(c, s.(ready := s.ready + [rest[0]]), Worker(i), NextJump(n, rest[1..]), tok);
    WaitAllAppend(s.ready, rest[0], tok);
    NextHolds(c, n, 0, rest[1..]);
  }

  lemma SendTargetFlow(c: Config, s: State, ph: Phases, i: nat)
    requires Flow(c, s, ph) && Enabled(c, s, SendTarget(i))
    ensures Flow(c, Do(c, s, SendTarget(i)), ph)
  {
    hide Tokens, Want;
    var n, rest := s.workers[i].step, s.workers[i].rest;
    var s1, t := s.(ready := s.ready + [rest[0]]), NextJump(n, rest[1..]);
    assert Do(c, s, SendTarget(i)) == WithTask(s1, Worker(i), t);
    ShapedChange(c, s1, Worker(i), t);
    forall tok
      ensures Tokens(c, WithTask(s1, Worker(i), t), tok) == Want(c, WithTask(s1, Worker(i), t), ph, tok)
    {
      SendTargetTokens(c, s, ph, i, n, rest, tok);
    }
  }

  lemma SendTargetKeeps(c: Config, s: State, ph: Phases, i: nat)
    requires Inv(c, s, ph) && Enabled(c, s, SendTarget(i))
    ensures Inv(c, Do(c, s, SendTarget(i)), ph)
  {
    hide WaitingIsDue, Due, TokensMatch, Shaped, DoneSet, AllDone, WithTask;
    SendTargetFlow(c, s, ph, i);
  }

  lemma CloseKeeps(c: Config, s: State, ph: Phases, a: Agent)
    requires Inv(c, s, ph) && Enabled(c, s, CloseDone(a))
    ensures s.closes == 0 && AllDone(c.g, ph)
    ensures Inv(c, Do(c, s, CloseDone(a)), ph)
  {
    hide WaitingIsDue, Due, AllTokens, WaitAll, DoneSet;
    var s1 := s.(closes := s.closes + 1);
    var s' := Do(c, s, CloseDone(a));
    TaskChange(c, s, a, Leave, Closing);
    assert Want(c, s, ph, Closing) > 0;
    assert Shaped(c, s1);
    ShapedChange(c, s1, a, Leave);
    forall tok
      ensures Tokens(c, s', tok) == Want(c, s', ph, tok)
    {
      assert Tokens(c, s, tok) == Want(c, s, ph, tok);
      TaskChange(c, s1, a, Leave, tok);
    }
  }

  lemma ExecuteFlow(c: Config, s: State, ph: Phases, i: nat, answers: Answers)
    requires Flow(c, s, ph) && Enabled(c, s, Execute(i, answers))
    ensures PhaseIs(c.g, ph, s.workers[i].step, Running)
    ensures Flow(c, Do(c, s, Execute(i, answers)), ph)
  {
    hide AllTokens, WaitAll, NodeRule;
    var n := s.workers[i].step;
    var e := NodeRule(Spec(c, n), c.resumed, s.results, n, answers);
    var s1, t := s.(results := e.results), Ran(n, e.failed);
    var s' := Do(c, s, Execute(i, answers));
    TaskChange(c, s, Worker(i), t, Act(n));
    HoldsAct(c, s, ph, n);
    ShapedChange(c, s1, Worker(i), t);
    forall tok
      ensures Tokens(c, s', tok) == Want(c, s', ph, tok)
    {
      assert Tokens(c, s, tok) == Want(c, s, ph, tok);
      TaskChange(c, s1, Worker(i), t, tok);
    }
  }

  lemma ExecuteKeeps(c: Config, s: State, ph: Phases, i: nat, answers: Answers)
    requires Inv(c, s, ph) && Enabled(c, s, Execute(i, answers))
    ensures PhaseIs(c.g, ph, s.workers[i].step, Running)
    ensures Inv(c, Do(c, s, Execute(i, answers)), ph)
  {
    hide WaitingIsDue, Due, TokensMatch, Shaped, DoneSet, AllDone, WithTask, NodeRule;
    ExecuteFlow(c, s, ph, i, answers);
  }

  lemma ReleaseFlow(c: Config, s: State, ph: Phases, i: nat)
    requires Flow(c, s, ph) && Enabled(c, s, Release(i))
    ensures Flow(c, Do(c, s, Release(i)), ph)
  {
    hide AllTokens, WaitAll;
    var s1 := s.(sem := s.sem - 1);
    assert Do(c, s, Release(i)) == WithTask(s1, Worker(i), Detach);
    ShapedChange(c, s1, Worker(i), Detach);
    forall tok
      ensures Tokens(c, WithTask(s1, Worker(i), Detach), tok) == Want(c, WithTask(s1, Worker(i), Detach), ph, tok)
    {
      assert Tokens(c, s, tok) == Want(c, s, ph, tok);
      TaskChange(c, s1, Worker(i), Detach, tok);
    }
  }

  lemma ReleaseKeeps(c: Config, s: State, ph: Phases, i: nat)
    requires Inv(c, s, ph) && Enabled(c, s, Release(i))
    ensures Inv(c, Do(c, s, Release(i)), ph)
  {
    hide WaitingIsDue, Due, TokensMatch, Shaped, DoneSet, AllDone, WithTask;
    ReleaseFlow(c, s, ph, i);
  }

  lemma WgDoneFlow(c: Config, s: State, ph: Phases, i: nat)
    requires Flow(c, s, ph) && Enabled(c, s, WgDone(i))
    ensures Flow(c, Do(c, s, WgDone(i)), ph)
  {
    hide AllTokens, WaitAll;
    var s1 := s.(wg := s.wg - 1);
    assert Do(c, s, WgDone(i)) == WithTask(s1, Worker(i), Gone);
    ShapedChange(c, s1, Worker(i), Gone);
    forall tok
      ensures Tokens(c, WithTask(s1, Worker(i), Gone), tok) == Want(c, WithTask(s1, Worker(i), Gone), ph, tok)
    {
      assert Tokens(c, s, tok) == Want(c, s, ph, tok);
      TaskChange(c, s1, Worker(i), Gone, tok);
    }
  }

  lemma WgDoneKeeps(c: Config, s: State, ph: Phases, i: nat)
    requires Inv(c, s, ph) && Enabled(c, s, WgDone(i))
    ensures Inv(c, Do(c, s, WgDone(i)), ph)
  {
    hide WaitingIsDue, Due, TokensMatch, Shaped, DoneSet, AllDone, WithTask;
    WgDoneFlow(c, s, ph, i);
  }
}
