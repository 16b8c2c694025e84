/**
 The concurrent scheduler as a step relation.  The dispatcher goroutine, one worker
 goroutine per executed step and the caller of `executeDAG` each have a program
 counter; every critical section and every channel operation is one action.
 */
module Scheduler {
  import opened Graph
  import opened LoopBody
  import opened StepNode
  import opened Wrappers

  /** A goto: its target, the region `FindLoopBody` computed for it, its iteration limit. */
  datatype Loop = Loop(target: Id, body: seq<Id>, maxIterations: int)

  /** `slots` is the capacity of the semaphore. */
  datatype Config = Config(
    g: Graph, loops: map<Id, Loop>, specs: Id -> StepSpec, slots: nat, resumed: bool, recovered: Results)

  /** What a goroutine does next on behalf of a step. */
  datatype Task =
    | Run(step: Id)                     // executeNode
    | Ran(step: Id, failed: bool)       // the critical section after executeNode
    | Signal(step: Id, next: nat)       // lower the in-degree of child `next`
    | Send(step: Id, sent: nat)         // send child `sent` to ready
    | Jump(step: Id, rest: seq<Id>)     // send the steps a goto made ready
    | Close(step: Id)                   // close(done)
    | Leave                             // release the semaphore slot
    | Detach                            // wg.Done
    | Gone

  datatype Dispatcher =
    | Await                             // receive from ready
    | Check(step: Id)                   // read firstErr
    | Admit(step: Id)                   // wg.Add
    | Acquire(step: Id)                 // take a semaphore slot
    | Refuse(step: Id)                  // record the step as skipped
    | Refused(step: Id)                 // count it as completed
    | Busy(task: Task)                  // signal its children, or close(done)

  datatype Caller = AwaitDone | AwaitWorkers | Returned(error: Option<Id>)

  /**
   The fields of dagState, the result map and the goroutines.  `closes` counts calls of
   close(done).  `finished` and `launched` are history: how often a step was counted as
   completed and how often its goroutine was started.
   */
  datatype State = State(
    firstErr: Option<Id>, ready: seq<Id>, closes: nat, completed: int, inDegree: map<Id, int>,
    iterations: map<Id, nat>, sem: nat, wg: int, results: Results,
    dispatcher: Dispatcher, workers: seq<Task>, caller: Caller,
    finished: map<Id, nat>, launched: map<Id, nat>)

  datatype Agent = TheDispatcher | Worker(index: nat)

  datatype Action =
    | Receive | Inspect | Add | Take | Skip1 | Skip2
    | Execute(worker: nat, answers: Answers)
    | Complete(worker: nat, wanted: bool)   // `wanted`: the goto condition is true
    | SignalChild(agent: Agent) | SendChild(agent: Agent) | CloseDone(agent: Agent)
    | SendTarget(worker: nat) | Release(worker: nat) | WgDone(worker: nat)
    | SeeDone | Return

  // ---- reading maps as Go does: a missing key is zero ----

  function Degree(s: State, n: Id): int {
    if n in s.inDegree then s.inDegree[n] else 0
  }

  function Get(m: map<Id, nat>, n: Id): nat {
    if n in m then m[n] else 0
  }

  function Bump(m: map<Id, nat>, n: Id): map<Id, nat> {
    m[n := Get(m, n) + 1]
  }

  function Spec(c: Config, n: Id): StepSpec {
    c.specs(n)
  }

  // ---- the start ----

  function RootList(g: Graph, ids: seq<Id>): seq<Id> {
    if ids == [] then []
    else (if Parents(g, ids[0]) == [] then [ids[0]] else []) + RootList(g, ids[1..])
  }

  function Init(c: Config): State {
    State(
      None, RootList(c.g, c.g.ids), 0, 0, map n | n in Nodes(c.g) :: |Parents(c.g, n)|,
      map[], 0, 0, if c.resumed then c.recovered else map[],
      Await, [], AwaitDone, map[], map[])
  }

  // ---- goroutines ----

  function TaskOf(s: State, a: Agent): Task {
    match a
    case TheDispatcher => if s.dispatcher.Busy? then s.dispatcher.task else Gone
    case Worker(i) => if i < |s.workers| then s.workers[i] else Gone
  }

  /** After its task the dispatcher goes back to receiving. */
  function WithTask(s: State, a: Agent, t: Task): (r: State)
    ensures r == s.(dispatcher := r.dispatcher, workers := r.workers)
  {
    match a
    case TheDispatcher => s.(dispatcher := if t == Leave then Await else Busy(t))
    case Worker(i) => if i < |s.workers| then s.(workers := s.workers[i := t]) else s
  }

  function NextSignal(c: Config, n: Id, k: nat): Task {
    if k < |Children(c.g, n)| then Signal(n, k) else Leave
  }

  function NextJump(n: Id, rest: seq<Id>): Task {
    if rest == [] then Leave else Jump(n, rest)
  }

  // ---- the critical sections ----

  /** `completed++` and what follows it when no goto is taken. */
  function Counted(c: Config, s: State, n: Id): (State, Task) {
    var s1 := s.(completed := s.completed + 1, finished := Bump(s.finished, n));
    (s1, if s1.completed >= |c.g.ids| then Close(n) else NextSignal(c, n, 0))
  }

  predicate JumpTaken(c: Config, s: State, n: Id, failed: bool, wanted: bool) {
    !failed && n in c.loops && wanted && Get(s.iterations, n) < c.loops[n].maxIterations
  }

  /** handleGoto: count the iteration, reset the region, collect what became ready. */
  function Rewind(c: Config, s: State, n: Id): (State, Task)
    requires n in c.loops
  {
    var body := c.loops[n].body;
    var degrees := Rewound(c.g, body, s.inDegree);
    (s.(iterations := Bump(s.iterations, n), inDegree := degrees,
        completed := s.completed + 1 - |body|, finished := Bump(s.finished, n), results := s.results - Elements(body)),
     NextJump(n, ReadySteps(body, degrees)))
  }

  function Finish(c: Config, s: State, n: Id, failed: bool, wanted: bool): (State, Task) {
    var s1 := if failed && s.firstErr == None then s.(firstErr := Some(n)) else s;
    if JumpTaken(c, s1, n, failed, wanted) then Rewind(c, s1, n) else Counted(c, s1, n)
  }

  function Signalled(c: Config, s: State, n: Id, k: nat): (State, Task)
    requires k < |Children(c.g, n)|
  {
    var child := Children(c.g, n)[k];
    var s1 := s.(inDegree := s.inDegree[child := Degree(s, child) - 1]);
    (s1, if Degree(s1, child) <= 0 then Send(n, k) else NextSignal(c, n, k + 1))
  }

  // ---- actions ----

  predicate Enabled(c: Config, s: State, a: Action) {
    match a
    case Receive => s.dispatcher == Await && s.ready != []
    case Inspect => s.dispatcher.Check?
    case Add => s.dispatcher.Admit?
    case Take => s.dispatcher.Acquire? && s.sem < c.slots
    case Skip1 => s.dispatcher.Refuse?
    case Skip2 => s.dispatcher.Refused?
    case Execute(i, _) => TaskOf(s, Worker(i)).Run?
    case Complete(i, _) => TaskOf(s, Worker(i)).Ran?
    case SignalChild(ag) => TaskOf(s, ag).Signal? && TaskOf(s, ag).next < |Children(c.g, TaskOf(s, ag).step)|
    case SendChild(ag) =>
      && TaskOf(s, ag).Send? && TaskOf(s, ag).sent < |Children(c.g, TaskOf(s, ag).step)|
      && |s.ready| < |c.g.ids|
    case CloseDone(ag) => TaskOf(s, ag).Close?
    case SendTarget(i) => TaskOf(s, Worker(i)).Jump? && TaskOf(s, Worker(i)).rest != [] && |s.ready| < |c.g.ids|
    case Release(i) => TaskOf(s, Worker(i)).Leave? && s.sem > 0
    case WgDone(i) => TaskOf(s, Worker(i)).Detach?
    case SeeDone => s.caller == AwaitDone && s.closes > 0
    case Return => s.caller == AwaitWorkers && s.wg == 0
  }

  function Do(c: Config, s: State, a: Action): State
    requires Enabled(c, s, a)
  {
    match a
    case Receive => s.(ready := s.ready[1..], dispatcher := Check(s.ready[0]))
    case Inspect =>
      s.(dispatcher := if s.firstErr.Some? then Refuse(s.dispatcher.step) else Admit(s.dispatcher.step))
    case Add => s.(wg := s.wg + 1, dispatcher := Acquire(s.dispatcher.step))
    case Take =>
      s.(sem := s.sem + 1, workers := s.workers + [Run(s.dispatcher.step)],
         launched := Bump(s.launched, s.dispatcher.step), dispatcher := Await)
    case Skip1 =>
      s.(results := s.results[s.dispatcher.step := SKIPPED], dispatcher := Refused(s.dispatcher.step))
    case Skip2 =>
      var (s1, t) := Counted(c, s, s.dispatcher.step);
      WithTask(s1, TheDispatcher, t)
    case Execute(i, answers) =>
      var n := s.workers[i].step;
      var e := NodeRule(Spec(c, n), c.resumed, s.results, n, answers);
      WithTask(s.(results := e.results), Worker(i), Ran(n, e.failed))
    case Complete(i, wanted) =>
      var (s1, t) := Finish(c, s, s.workers[i].step, s.workers[i].failed, wanted);
      WithTask(s1, Worker(i), t)
    case SignalChild(ag) =>
      var (s1, t) := Signalled(c, s, TaskOf(s, ag).step, TaskOf(s, ag).next);
      WithTask(s1, ag, t)
    case SendChild(ag) =>
      var n, k := TaskOf(s, ag).step, TaskOf(s, ag).sent;
      WithTask(s.(ready := s.ready + [Children(c.g, n)[k]]), ag, NextSignal(c, n, k + 1))
    case CloseDone(ag) => WithTask(s.(closes := s.closes + 1), ag, Leave)
    case SendTarget(i) =>
      var n, rest := s.workers[i].step, s.workers[i].rest;
      WithTask(s.(ready := s.ready + [rest[0]]), Worker(i), NextJump(n, rest[1..]))
    case Release(i) => WithTask(s.(sem := s.sem - 1), Worker(i), Detach)
    case WgDone(i) => WithTask(s.(wg := s.wg - 1), Worker(i), Gone)
    case SeeDone => s.(caller := AwaitWorkers)
    case Return => s.(caller := Returned(s.firstErr))
  }

  /** A run: `states[i + 1]` results from `states[i]` by `actions[i]`. */
  ghost predicate IsRun(c: Config, states: seq<State>, actions: seq<Action>) {
    && |states| == |actions| + 1
    && (forall i {:trigger actions[i]} | 0 <= i < |actions| :: Enabled(c, states[i], actions[i]) && states[i + 1] == Do(c, states[i], actions[i]))
  }

  ghost predicate Reachable(c: Config, s: State) {
    exists states, actions :: IsRun(c, states, actions) && states[0] == Init(c) && states[|states| - 1] == s
  }

  // ---- hypotheses ----

  /** A graph `BuildDAG` accepted, with at least one step, and regions `FindLoopBody` computed. */
  ghost predicate ValidConfig(c: Config) {
    && WellFormed(c.g) && Acyclic(c.g) && c.g.ids != [] && c.slots > 0
    && forall n | n in c.loops ::
         n in Nodes(c.g) && c.loops[n].target in Nodes(c.g)
         && IsLoopBody(c.g, c.loops[n].target, n, c.loops[n].body)
  }

  /** The part of the hypothesis `validateGotos` does not check. */
  ghost predicate WellFormedLoops(c: Config) {
    forall n | n in c.loops :: WellFormedLoop(c.g, c.loops[n].target, n)
  }
}
