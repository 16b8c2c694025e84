/**
 Progress of every run with well-formed loops: no send to `ready` blocks, some action
 is enabled until the call returns, and no run goes on for ever.
 */
module SchedulerProgress {
  import opened Graph
  import opened Ledger
  import opened StepNode
  import opened Wrappers
  import opened Scheduler
  import opened SchedulerInvariant
  import opened SchedulerSafety

  // ---- the capacity of ready ----

  lemma {:induction false} WaitAllCounts(q: seq<Id>, n: Id)
    ensures n in q ==> WaitAll(q, Wait(n)) > 0
    ensures WaitAll(q, Wait(n)) > 1 || Distinct(q) || exists m :: WaitAll(q, Wait(m)) > 1
  {
    if q != [] {
      WaitAllCounts(q[1..], n);
      if q[0] in q[1..] {
        WaitAllCounts(q[1..], q[0]);
        assert WaitAll(q, Wait(q[0])) > 1;
      } else if !Distinct(q[1..]) {
        if m :| WaitAll(q[1..], Wait(m)) > 1 {
          assert WaitAll(q, Wait(m)) > 1;
        }
      }
    }
  }

  /**
   Queued steps are distinct, and a step about to be sent is not among them; so the
   channel, whose capacity is the number of steps, has room.
   */
  lemma RoomInReady(c: Config, s: State, ph: Phases, n: Id)
    requires WellFormed(c.g) && TokensMatch(c, s, ph)
    requires Tokens(c, s, Wait(n)) > WaitAll(s.ready, Wait(n))
    ensures |s.ready| < |c.g.ids|
  {
    hide AllTokens, DispatcherTokens, Acyclic;
    forall m
      ensures WaitAll(s.ready, Wait(m)) <= Tokens(c, s, Wait(m)) <= 1
      ensures m in s.ready ==> m in Nodes(c.g) && m != n
    {
      assert Tokens(c, s, Wait(m)) == Want(c, s, ph, Wait(m));
      WaitAllCounts(s.ready, m);
    }
    WaitAllCounts(s.ready, n);
    DistinctSize(s.ready);
    NodesSize(c.g);
    assert n in Nodes(c.g) by {
      assert Tokens(c, s, Wait(n)) == Want(c, s, ph, Wait(n));
    }
    SubsetSize(Elements(s.ready) + {n}, Nodes(c.g));
    assert n !in Elements(s.ready);
  }

  lemma SendHasRoom(c: Config, s: State, ph: Phases, a: Agent)
    requires WellFormed(c.g) && TokensMatch(c, s, ph) && Shaped(c, s) && Acts(s, a)
    requires TaskOf(s, a).Send? || TaskOf(s, a).Jump?
    ensures |s.ready| < |c.g.ids|
  {
    hide Want, Acyclic;
    var t := TaskOf(s, a);
    var n := if t.Send? then Children(c.g, t.step)[t.sent] else t.rest[0];
    assert TaskTokens(c, t, Wait(n)) > 0;
    if a.Worker? {
      AllTokensUpdate(c, s.workers, a.index, t, Wait(n));
    }
    RoomInReady(c, s, ph, n);
  }

  /** In a reachable state a goroutine that wants to send to ready can. */
  lemma SendsNeverBlock(c: Config, s: State, a: Agent)
    requires ValidConfig(c) && WellFormedLoops(c) && Reachable(c, s) && Acts(s, a)
    requires TaskOf(s, a).Send? || TaskOf(s, a).Jump?
    ensures |s.ready| < |c.g.ids|
    ensures TaskOf(s, a).Send? ==> Enabled(c, s, SendChild(a))
  {
    var ph := ReachableInv(c, s);
    hide WaitingIsDue, DegreesDue, CountsMatch, TokensMatch, Reachable, WellFormedLoops, Acyclic;
    SendHasRoom(c, s, ph, a);
  }

  // ---- no deadlock ----

  const SUCCEEDS := Answers(WhenTrue, Succeeded(Null))

  /** Steps succeed and gotos are not wanted. */
  predicate Tame(a: Action) {
    (a.Execute? ==> a.answers == SUCCEEDS) && (a.Complete? ==> !a.wanted)
  }

  /** The next action of a goroutine with something left to do. */
  lemma TaskEnabled(c: Config, s: State, ph: Phases, a: Agent) returns (act: Action)
    requires WellFormed(c.g) && TokensMatch(c, s, ph) && Shaped(c, s) && Acts(s, a)
    requires a.TheDispatcher? ==> s.dispatcher.Busy?
    requires TaskOf(s, a) != Gone
    ensures Enabled(c, s, act) && Tame(act)
    ensures act.Complete? ==> a == Worker(act.worker)
    ensures act.CloseDone? ==> TaskOf(s, a).Close?
    ensures !act.Skip1? && !act.Skip2? && !act.SeeDone? && !act.Return?
  {
    hide TokensMatch, Tokens, Want, WellFormed;
    match TaskOf(s, a) {
      case Run(_) => act := Execute(a.index, SUCCEEDS);
      case Ran(_, _) => act := Complete(a.index, false);
      case Signal(_, _) => act := SignalChild(a);
      case Send(_, _) => SendHasRoom(c, s, ph, a); act := SendChild(a);
      case Jump(_, _) => SendHasRoom(c, s, ph, a); act := SendTarget(a.index);
      case Close(_) => act := CloseDone(a);
      case Leave => SlotHeld(c, s, ph, a.index); act := Release(a.index);
      case Detach => act := WgDone(a.index);
    }
  }

  lemma SlotHeld(c: Config, s: State, ph: Phases, i: nat)
    requires TokensMatch(c, s, ph) && i < |s.workers| && s.workers[i] == Leave
    ensures s.sem > 0
  {
    TaskChange(c, s, Worker(i), Gone, Slot);
    assert Tokens(c, s, Slot) == Want(c, s, ph, Slot);
  }

  lemma {:induction false} GoneHoldNothing(c: Config, ws: seq<Task>, tok: Token)
    requires forall i | 0 <= i < |ws| :: ws[i] == Gone
    ensures AllTokens(c, ws, tok) == 0
  {
    if ws != [] {
      GoneHoldNothing(c, ws[1..], tok);
    }
  }

  /** With no goroutine active the run is over: every step has completed and done is closed. */
  lemma QuietState(c: Config, s: State, ph: Phases)
    requires ValidConfig(c) && Inv(c, s, ph)
    requires (forall i | 0 <= i < |s.workers| :: s.workers[i] == Gone) && s.dispatcher == Await && s.ready == []
    ensures s.closes == 1 && s.wg == 0 && s.sem == 0 && AllDone(c.g, ph)
  {
    hide Due, Acyclic;
    forall tok
      ensures Want(c, s, ph, tok) == 0
    {
      GoneHoldNothing(c, s.workers, tok);
      assert Tokens(c, s, tok) == Want(c, s, ph, tok);
    }
    assert Want(c, s, ph, Slot) == 0 && Want(c, s, ph, Member) == 0;
    forall n | n in Nodes(c.g)
      ensures ph[n].Idle? || ph[n] == Done(|Children(c.g, n)|)
    {
      assert Want(c, s, ph, Wait(n)) == 0;
      assert Want(c, s, ph, Act(n)) == 0;
      if ph[n].Done? {
        assert Want(c, s, ph, Sig(n, ph[n].signalled)) == 0;
      }
    }
    QuietMeansDone(c.g, ph);
    assert AllDone(c.g, ph);
    assert Want(c, s, ph, Closing) == 0;
  }

  lemma SomethingEnabled(c: Config, s: State, ph: Phases) returns (act: Action)
    requires ValidConfig(c) && Inv(c, s, ph) && !s.caller.Returned?
    ensures Enabled(c, s, act)
  {
    if i :| 0 <= i < |s.workers| && s.workers[i] != Gone {
      act := TaskEnabled(c, s, ph, Worker(i));
    } else {
      hide WaitingIsDue, DegreesDue, Acyclic, WellFormed;
      match s.dispatcher {
        case Await =>
          if s.ready != [] {
            act := Receive;
          } else {
            QuietState(c, s, ph);
            act := if s.caller == AwaitDone then SeeDone else Return;
          }
        case Check(_) => act := Inspect;
        case Admit(_) => act := Add;
        case Acquire(_) =>
          NoSlotTaken(c, s, ph);
          act := Take;
        case Refuse(_) => act := Skip1;
        case Refused(_) => act := Skip2;
        case Busy(_) => act := TaskEnabled(c, s, ph, TheDispatcher);
      }
    }
  }

  lemma NoSlotTaken(c: Config, s: State, ph: Phases)
    requires TokensMatch(c, s, ph) && s.dispatcher.Acquire?
    requires forall i | 0 <= i < |s.workers| :: s.workers[i] == Gone
    ensures s.sem == 0
  {
    GoneHoldNothing(c, s.workers, Slot);
    NoSlotQueued(s.ready);
    assert Tokens(c, s, Slot) == Want(c, s, ph, Slot);
  }

  lemma {:induction false} NoSlotQueued(q: seq<Id>)
    ensures WaitAll(q, Slot) == 0
  {
    if q != [] {
      NoSlotQueued(q[1..]);
    }
  }

  /** No deadlock: until the call has returned, some action is enabled. */
  lemma NeverStuck(c: Config, s: State)
    requires ValidConfig(c) && WellFormedLoops(c) && Reachable(c, s) && !s.caller.Returned?
    ensures exists act :: Enabled(c, s, act)
  {
    var ph := ReachableInv(c, s);
    var act := SomethingEnabled(c, s, ph);
  }

  // ---- termination ----

  /** Goto iterations still allowed to the steps in `ids`. */
  function Budget(c: Config, s: State, ids: seq<Id>): nat {
    if ids == [] then 0 else Allowance(c, s, ids[0]) + Budget(c, s, ids[1..])
  }

  function Allowance(c: Config, s: State, n: Id): nat {
    if n in c.loops && Get(s.iterations, n) < c.loops[n].maxIterations
    then c.loops[n].maxIterations - Get(s.iterations, n) else 0
  }

  /** Actions a queued step still costs, at most, in its round. */
  function Cost(c: Config, n: Id): nat {
    2 * |Children(c.g, n)| + 11
  }

  function QueueCost(c: Config, q: seq<Id>): nat {
    if q == [] then 0 else Cost(c, q[0]) + QueueCost(c, q[1..])
  }

  function TaskCost(c: Config, t: Task): nat {
    match t
    case Run(n) => 2 * |Children(c.g, n)| + 6
    case Ran(n, _) => 2 * |Children(c.g, n)| + 5
    case Signal(n, k) => if k < |Children(c.g, n)| then 2 * (|Children(c.g, n)| - k) + 3 else 0
    case Send(n, k) =>
      if k < |Children(c.g, n)| then 2 * (|Children(c.g, n)| - k) + 3 + Cost(c, Children(c.g, n)[k]) else 0
    case Jump(_, rest) => 3 + |rest| + QueueCost(c, rest)
    case Close(_) => 3
    case Leave => 2
    case Detach => 1
    case Gone => 0
  }

  function TasksCost(c: Config, ws: seq<Task>): nat {
    if ws == [] then 0 else TaskCost(c, ws[0]) + TasksCost(c, ws[1..])
  }

  function DispatcherCost(c: Config, d: Dispatcher): nat {
    match d
    case Await => 0
    case Check(n) => Cost(c, n) - 1
    case Admit(n) => Cost(c, n) - 2
    case Acquire(n) => Cost(c, n) - 3
    case Refuse(n) => Cost(c, n) - 2
    case Refused(n) => Cost(c, n) - 3
    case Busy(t) => TaskCost(c, t)
  }

  function CallerCost(caller: Caller): nat {
    match caller
    case AwaitDone => 2
    case AwaitWorkers => 1
    case Returned(_) => 0
  }

  function IdleCost(c: Config, ph: Phases, ids: seq<Id>): nat {
    if ids == [] then 0
    else (if ids[0] in ph && ph[ids[0]].Idle? then Cost(c, ids[0]) + 1 else 0) + IdleCost(c, ph, ids[1..])
  }

  /** Actions left at most before the next goto. */
  function Work(c: Config, s: State, ph: Phases): nat {
    IdleCost(c, ph, c.g.ids) + QueueCost(c, s.ready) + DispatcherCost(c, s.dispatcher)
    + TasksCost(c, s.workers) + CallerCost(s.caller)
  }

  lemma {:induction false} TasksCostUpdate(c: Config, ws: seq<Task>, i: nat, t: Task)
    requires i < |ws|
    ensures TasksCost(c, ws[i := t]) + TaskCost(c, ws[i]) == TasksCost(c, ws) + TaskCost(c, t)
  {
    hide TaskCost;
    if i == 0 {
      assert ws[i := t][1..] == ws[1..];
    } else {
      assert ws[i := t][1..] == ws[1..][i - 1 := t];
      TasksCostUpdate(c, ws[1..], i - 1, t);
    }
  }

  lemma {:induction false} TasksCostAppend(c: Config, ws: seq<Task>, t: Task)
    ensures TasksCost(c, ws + [t]) == TasksCost(c, ws) + TaskCost(c, t)
  {
    hide TaskCost;
    if ws == [] {
      assert ws + [t] == [t];
    } else {
      assert (ws + [t])[1..] == ws[1..] + [t];
      TasksCostAppend(c, ws[1..], t);
    }
  }

  lemma {:induction false} QueueCostAppend(c: Config, q: seq<Id>, n: Id)
    ensures QueueCost(c, q + [n]) == QueueCost(c, q) + Cost(c, n)
  {
    hide Cost;
    if q == [] {
      assert q + [n] == [n];
    } else {
      assert (q + [n])[1..] == q[1..] + [n];
      QueueCostAppend(c, q[1..], n);
    }
  }

  lemma {:induction false} IdleCostSame(c: Config, ph: Phases, ph': Phases, ids: seq<Id>)
    requires forall n | n in ids :: (n in ph && ph[n].Idle?) <==> (n in ph' && ph'[n].Idle?)
    ensures IdleCost(c, ph, ids) == IdleCost(c, ph', ids)
  {
    hide Cost;
    if ids != [] {
      IdleCostSame(c, ph, ph', ids[1..]);
    }
  }

  lemma {:induction false} IdleCostStart(c: Config, ph: Phases, ph': Phases, ids: seq<Id>, n: Id)
    requires Distinct(ids) && n in ids && n in ph && ph[n].Idle? && !(n in ph' && ph'[n].Idle?)
    requires forall m | m in ids && m != n :: (m in ph && ph[m].Idle?) <==> (m in ph' && ph'[m].Idle?)
    ensures IdleCost(c, ph', ids) + Cost(c, n) + 1 == IdleCost(c, ph, ids)
  {
    hide Cost;
    if ids[0] == n {
      assert n !in ids[1..];
      IdleCostSame(c, ph, ph', ids[1..]);
    } else {
      IdleCostStart(c, ph, ph', ids[1..], n);
    }
  }

  /** Giving an agent a cheaper task lowers the work. */
  lemma TaskCostDrop(c: Config, s: State, ph: Phases, a: Agent, t: Task)
    requires Acts(s, a)
    ensures Work(c, WithTask(s, a, t), ph) + TaskCost(c, TaskOf(s, a))
            + (if a.TheDispatcher? && s.dispatcher.Refused? then Cost(c, s.dispatcher.step) - 3 else 0)
            + (if a.TheDispatcher? && t == Leave then 2 else 0)
            == Work(c, s, ph) + TaskCost(c, t)
  {
    hide IdleCost, QueueCost, TasksCost;
    if a.Worker? {
      TasksCostUpdate(c, s.workers, a.index, t);
    }
  }

  lemma NextCost(c: Config, n: Id, k: nat, rest: seq<Id>)
    ensures k < |Children(c.g, n)| ==> TaskCost(c, NextSignal(c, n, k)) == 2 * (|Children(c.g, n)| - k) + 3
    ensures k >= |Children(c.g, n)| ==> TaskCost(c, NextSignal(c, n, k)) == 2
    ensures TaskCost(c, NextJump(n, rest)) <= 3 + |rest| + QueueCost(c, rest)
  {
  }

  /** Phase changes of a step that is not waiting before or after leave the idle cost. */
  lemma IdleCostQuiet(c: Config, ph: Phases, n: Id, v: Phase)
    requires n in ph && !ph[n].Idle? && !v.Idle?
    ensures IdleCost(c, ph[n := v], c.g.ids) == IdleCost(c, ph, c.g.ids)
  {
    IdleCostSame(c, ph, ph[n := v], c.g.ids);
  }

  lemma DispatcherDrops(c: Config, s: State, ph: Phases, a: Action)
    requires Enabled(c, s, a) && (a == Receive || a == Inspect || a == Add || a == SeeDone || a == Return)
    ensures Work(c, Do(c, s, a), ph) < Work(c, s, ph)
  {
    hide IdleCost, TasksCost, TaskCost;
    if a == Return {
      assert Do(c, s, a).caller == Returned(s.firstErr);
    }
  }

  lemma TakeDrops(c: Config, s: State, ph: Phases)
    requires Flow(c, s, ph) && Enabled(c, s, Take)
    ensures Work(c, Do(c, s, Take), ph[s.dispatcher.step := Running]) < Work(c, s, ph)
  {
    hide QueueCost, IdleCost, TasksCost, Flow;
    var n := s.dispatcher.step;
    TakeFlow(c, s, ph);
    IdleCostQuiet(c, ph, n, Running);
    TasksCostAppend(c, s.workers, Run(n));
  }

  lemma SkipDrops(c: Config, s: State, ph: Phases)
    requires Flow(c, s, ph) && Enabled(c, s, Skip1)
    ensures Work(c, Do(c, s, Skip1), ph[s.dispatcher.step := Running]) < Work(c, s, ph)
  {
    hide QueueCost, IdleCost, TasksCost, Flow;
    SkipFlow(c, s, ph);
    IdleCostQuiet(c, ph, s.dispatcher.step, Running);
  }

  lemma CountedDrops(c: Config, s: State, ph: Phases, a: Agent, n: Id, e: Option<Id>)
    requires PhaseIs(c.g, ph, n, Running) && Acts(s, a) && Holding(s, a).Ran? && Holding(s, a).step == n
    ensures Work(c, CountedState(c, s, a, n, e), ph[n := Done(0)]) < Work(c, s, ph)
  {
    hide QueueCost, IdleCost, TasksCost;
    var (s1, t) := Counted(c, s.(firstErr := e), n);
    IdleCostQuiet(c, ph, n, Done(0));
    TaskCostDrop(c, s1, ph, a, t);
    NextCost(c, n, 0, []);
    assert Work(c, s1, ph) == Work(c, s, ph);
  }

  /** A child made ready pays for its signal and the send; otherwise the signal pays for itself. */
  lemma SignalIdleCost(c: Config, s: State, ph: Phases, n: Id, k: nat)
    requires WellFormed(c.g) && k < |Children(c.g, n)| && PhaseIs(c.g, ph, n, Done(k))
    requires PhaseIs(c.g, ph, Children(c.g, n)[k], Idle) && Children(c.g, n)[k] != n
    ensures var child := Children(c.g, n)[k];
            IdleCost(c, SignalPhases(c, s, ph, n, k), c.g.ids) + (if Degree(s, child) <= 1 then Cost(c, child) + 1 else 0)
            == IdleCost(c, ph, c.g.ids)
  {
    hide Cost;
    var child := Children(c.g, n)[k];
    assert child in c.g.ids;
    if Degree(s, child) <= 1 {
      IdleCostStart(c, ph, SignalPhases(c, s, ph, n, k), c.g.ids, child);
    } else {
      IdleCostQuietDone(c, ph, n, k);
    }
  }

  lemma SignalDrops(c: Config, s: State, ph: Phases, a: Agent)
    requires WellFormed(c.g) && Enabled(c, s, SignalChild(a)) && PhaseIs(c.g, ph, TaskOf(s, a).step, Done(TaskOf(s, a).next))
    requires var child := Children(c.g, TaskOf(s, a).step)[TaskOf(s, a).next];
             PhaseIs(c.g, ph, child, Idle) && child != TaskOf(s, a).step
    ensures Work(c, Do(c, s, SignalChild(a)), SignalPhases(c, s, ph, TaskOf(s, a).step, TaskOf(s, a).next)) < Work(c, s, ph)
  {
    hide QueueCost, IdleCost, TasksCost, Cost, SignalPhases, WellFormed;
    var n, k := TaskOf(s, a).step, TaskOf(s, a).next;
    var (s1, t) := Signalled(c, s, n, k);
    SignalIdleCost(c, s, ph, n, k);
    TaskCostDrop(c, s1, SignalPhases(c, s, ph, n, k), a, t);
    NextCost(c, n, k + 1, []);
  }

  lemma IdleCostQuietDone(c: Config, ph: Phases, n: Id, k: nat)
    requires n in ph && !ph[n].Idle?
    ensures IdleCost(c, ph[n := Done(k + 1)], c.g.ids) == IdleCost(c, ph, c.g.ids)
  {
    IdleCostSame(c, ph, ph[n := Done(k + 1)], c.g.ids);
  }

  lemma SendDrops(c: Config, s: State, ph: Phases, a: Agent)
    requires Enabled(c, s, SendChild(a))
    ensures Work(c, Do(c, s, SendChild(a)), ph) < Work(c, s, ph)
  {
    hide QueueCost, IdleCost, TasksCost, Cost;
    var n, k := TaskOf(s, a).step, TaskOf(s, a).sent;
    var s1 := s.(ready := s.ready + [Children(c.g, n)[k]]);
    QueueCostAppend(c, s.ready, Children(c.g, n)[k]);
    TaskCostDrop(c, s1, ph, a, NextSignal(c, n, k + 1));
    NextCost(c, n, k + 1, []);
  }

  lemma WorkerDrops(c: Config, s: State, ph: Phases, a: Action)
    requires Enabled(c, s, a) && (a.Execute? || a.CloseDone? || a.Release? || a.WgDone?)
    ensures Work(c, Do(c, s, a), ph) < Work(c, s, ph)
  {
    hide QueueCost, IdleCost, TasksCost, NodeRule;
    match a {
      case Execute(i, answers) =>
        var n := s.workers[i].step;
        var e := NodeRule(Spec(c, n), c.resumed, s.results, n, answers);
        TaskCostDrop(c, s.(results := e.results), ph, Worker(i), Ran(n, e.failed));
      case CloseDone(ag) => TaskCostDrop(c, s.(closes := s.closes + 1), ph, ag, Leave);
      case Release(i) => TaskCostDrop(c, s.(sem := s.sem - 1), ph, Worker(i), Detach);
      case WgDone(i) => TaskCostDrop(c, s.(wg := s.wg - 1), ph, Worker(i), Gone);
    }
  }

  lemma SendTargetDrops(c: Config, s: State, ph: Phases, i: nat)
    requires Enabled(c, s, SendTarget(i))
    ensures Work(c, Do(c, s, SendTarget(i)), ph) < Work(c, s, ph)
  {
    hide IdleCost, TasksCost, Cost;
    var n, rest := s.workers[i].step, s.workers[i].rest;
    var s1 := s.(ready := s.ready + [rest[0]]);
    QueueCostAppend(c, s.ready, rest[0]);
    TaskCostDrop(c, s1, ph, Worker(i), NextJump(n, rest[1..]));
    NextCost(c, n, 0, rest[1..]);
  }

  lemma SameIterations(c: Config, s: State, a: Action)
    requires Enabled(c, s, a) && !IsJump(c, s, a)
    ensures Do(c, s, a).iterations == s.iterations
  {
    hide NodeRule, Rewind, WithTask;
  }

  lemma InvFlow(c: Config, s: State, ph: Phases)
    requires Inv(c, s, ph)
    ensures Flow(c, s, ph)
  {
  }

  lemma ChildWaits(c: Config, s: State, ph: Phases, a: Agent)
    requires ValidConfig(c) && Inv(c, s, ph) && Enabled(c, s, SignalChild(a))
    ensures var n, k := TaskOf(s, a).step, TaskOf(s, a).next;
            && PhaseIs(c.g, ph, n, Done(k)) && PhaseIs(c.g, ph, Children(c.g, n)[k], Idle) && Children(c.g, n)[k] != n
  {
    hide Due, Tokens, Want, Acyclic;
    SignalHeld(c, s, ph, a, TaskOf(s, a).step, TaskOf(s, a).next);
    SignalLedger(c, s, ph, a, TaskOf(s, a).step, TaskOf(s, a).next);
  }

  /** Every action other than a taken goto lowers the work left. */
  lemma WorkDrops(c: Config, s: State, ph: Phases, a: Action)
    requires ValidConfig(c) && WellFormedLoops(c) && Inv(c, s, ph) && Enabled(c, s, a) && !IsJump(c, s, a)
    ensures Work(c, Do(c, s, a), NextPhases(c, s, ph, a)) < Work(c, s, ph)
  {
    hide Work, Inv, ValidConfig, WellFormedLoops, Do, CountedState;
    match a {
      case Receive => DispatcherDrops(c, s, ph, a);
      case Inspect => DispatcherDrops(c, s, ph, a);
      case Add => DispatcherDrops(c, s, ph, a);
      case SeeDone => DispatcherDrops(c, s, ph, a);
      case Return => DispatcherDrops(c, s, ph, a);
      case Take => InvFlow(c, s, ph); TakeDrops(c, s, ph);
      case Skip1 => InvFlow(c, s, ph); SkipDrops(c, s, ph);
      case Skip2 =>
        SkipIsCounted(c, s);
        CountedKeeps(c, s, ph, TheDispatcher, s.dispatcher.step, s.firstErr);
        CountedDrops(c, s, ph, TheDispatcher, s.dispatcher.step, s.firstErr);
      case Execute(_, _) => WorkerDrops(c, s, ph, a);
      case Complete(i, wanted) =>
        CompleteIsCounted(c, s, i, wanted);
        CountedKeeps(c, s, ph, Worker(i), s.workers[i].step, ErrorAfter(s, s.workers[i].step, s.workers[i].failed));
        CountedDrops(c, s, ph, Worker(i), s.workers[i].step, ErrorAfter(s, s.workers[i].step, s.workers[i].failed));
      case SignalChild(ag) =>
        ValidGraph(c);
        ChildWaits(c, s, ph, ag);
        SignalDrops(c, s, ph, ag);
      case SendChild(ag) => SendDrops(c, s, ph, ag);
      case CloseDone(_) => WorkerDrops(c, s, ph, a);
      case SendTarget(i) => SendTargetDrops(c, s, ph, i);
      case Release(_) => WorkerDrops(c, s, ph, a);
      case WgDone(_) => WorkerDrops(c, s, ph, a);
    }
  }

  lemma {:induction false} BudgetSame(c: Config, s: State, s': State, ids: seq<Id>)
    requires forall n | n in ids :: Get(s.iterations, n) == Get(s'.iterations, n)
    ensures Budget(c, s, ids) == Budget(c, s', ids)
  {
    if ids != [] {
      BudgetSame(c, s, s', ids[1..]);
    }
  }

  lemma {:induction false} BudgetDrops(c: Config, s: State, s': State, ids: seq<Id>, n: Id)
    requires Distinct(ids) && n in ids && s'.iterations == Bump(s.iterations, n)
    requires n in c.loops && Get(s.iterations, n) < c.loops[n].maxIterations
    ensures Budget(c, s', ids) + 1 == Budget(c, s, ids)
  {
    if ids[0] == n {
      assert n !in ids[1..];
      BudgetSame(c, s, s', ids[1..]);
    } else {
      BudgetDrops(c, s, s', ids[1..], n);
    }
  }

  /** The measure of the run: a goto uses up one iteration, everything else lowers the work. */
  lemma StepDescends(c: Config, s: State, ph: Phases, a: Action)
    requires ValidConfig(c) && WellFormedLoops(c) && Inv(c, s, ph) && Enabled(c, s, a)
    ensures var s' := Do(c, s, a);
            || Budget(c, s', c.g.ids) < Budget(c, s, c.g.ids)
            || (Budget(c, s', c.g.ids) == Budget(c, s, c.g.ids) && Work(c, s', NextPhases(c, s, ph, a)) < Work(c, s, ph))
  {
    hide Work, Inv, Acyclic, WellFormedLoops;
    var s' := Do(c, s, a);
    if IsJump(c, s, a) {
      var n := s.workers[a.worker].step;
      assert n in c.g.ids;
      BudgetDrops(c, s, s', c.g.ids, n);
    } else {
      WorkDrops(c, s, ph, a);
      SameIterations(c, s, a);
      BudgetSame(c, s, s', c.g.ids);
    }
  }

  ghost predicate StepsAt(c: Config, run: nat -> State, acts: nat -> Action, i: nat) {
    Enabled(c, run(i), acts(i)) && run(i + 1) == Do(c, run(i), acts(i))
  }

  lemma {:induction false} RunStops(c: Config, run: nat -> State, acts: nat -> Action, i: nat, ph: Phases) returns (j: nat)
    requires ValidConfig(c) && WellFormedLoops(c) && Inv(c, run(i), ph)
    ensures !StepsAt(c, run, acts, j)
    decreases Budget(c, run(i), c.g.ids), Work(c, run(i), ph)
  {
    hide Work, Inv, ValidConfig, WellFormedLoops, Budget;
    if !StepsAt(c, run, acts, i) {
      j := i;
    } else {
      StepKeeps(c, run(i), ph, acts(i));
      StepDescends(c, run(i), ph, acts(i));
      j := RunStops(c, run, acts, i + 1, NextPhases(c, run(i), ph, acts(i)));
    }
  }

  /** No run goes on for ever, however it is scheduled and whatever steps and gotos answer. */
  lemma EveryRunEnds(c: Config, run: nat -> State, acts: nat -> Action)
    requires ValidConfig(c) && WellFormedLoops(c) && run(0) == Init(c)
    ensures exists j :: !StepsAt(c, run, acts, j)
  {
    InvInit(c);
    var j := RunStops(c, run, acts, 0, InitialPhases(c.g));
  }
}
