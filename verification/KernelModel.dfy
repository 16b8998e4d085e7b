/** The kernel as one step machine: process table, scheduler, mailboxes, capabilities, budgets,
    shared state, checkpoints, goals, plans and tasks, and the event log. Every function is one
    operation of the source, with the bus handlers of the events it publishes run in place. */
module KernelModel {
  import opened Common
  import opened Heap
  import opened States
  import opened SchedulerModel

  type TaskId = nat
  type PlanId = nat
  type GoalId = nat

  datatype Budget = Budget(maxTokens: nat, maxTools: nat, maxCost: real, maxRetries: nat)

  datatype Usage = Usage(tokens: nat, tools: nat, cost: real, retries: nat)

  const NoUsage := Usage(0, 0, 0.0, 0)

  datatype Definition = Definition(name: string, permissions: set<string>, budget: Budget)

  datatype Process = Process(state: ProcessState, definition: Definition, budget: Budget, goal: Option<GoalId>)

  datatype Checkpoint = Checkpoint(memory: map<string, Value>, usage: Usage)

  /** What the log records. Only the first seven kinds carry a process state for replay. */
  datatype Event =
    | ProcessCreated(pid: Pid)
    | ProcessReady(pid: Pid)
    | ProcessStarted(pid: Pid)
    | ProcessWaiting(pid: Pid)
    | ProcessCompleted(pid: Pid)
    | ProcessFailed(pid: Pid)
    | ProcessCancelled(pid: Pid)
    | StateCreated(key: string, value: Value)
    | StateChanged(key: string, value: Value)
    | StateDeleted(key: string)
    | MessageReceived(recipient: Pid)
    | MemoryStored(owner: Pid)
    | CheckpointCreated(owner: Pid)
    | CheckpointRestored(owner: Pid)
    | TaskEvent(task: TaskId, taskState: TaskState)
    | PlanEvent(plan: PlanId, planState: PlanState)
    | GoalEvent(goal: GoalId, goalState: GoalState)

  datatype Task = Task(
    plan: PlanId,
    definition: string,
    deps: seq<TaskId>,
    priority: int,
    state: TaskState,
    process: Option<Pid>)

  datatype Plan = Plan(goal: GoalId, tasks: seq<TaskId>, state: PlanState)

  datatype Cognition = Cognition(
    goals: map<GoalId, GoalState>,
    plans: map<PlanId, Plan>,
    tasks: map<TaskId, Task>,
    order: seq<TaskId>) // the task dictionary's insertion order

  datatype Services = Services(
    mail: map<Pid, seq<Value>>,
    caps: map<Pid, set<string>>,
    usage: map<Pid, Usage>,
    memory: map<Pid, map<string, Value>>,
    checkpoints: map<Pid, seq<Checkpoint>>,
    supervisor: Option<map<Pid, nat>>) // retry counts, when a supervisor is attached

  datatype World = World(
    table: map<Pid, Process>,
    sched: Sched,
    svc: Services,
    store: map<string, Value>,
    registry: map<string, Definition>,
    cog: Cognition,
    log: seq<Event>,
    unused: Pid, // the next process id: ids are never reused
    clock: int)

  function Boot(supervised: bool): World {
    World(map[], EmptySched,
          Services(map[], map[], map[], map[], map[], if supervised then Some(map[]) else None),
          map[], map[], Cognition(map[], map[], map[], []), [], 0, 0)
  }

  // ------------------------------------------------------------------
  // Primitives
  // ------------------------------------------------------------------

  function Emit(w: World, e: Event): World {
    w.(log := w.log + [e])
  }

  function SetState(w: World, p: Pid, s: ProcessState): World {
    if p in w.table then w.(table := w.table[p := w.table[p].(state := s)]) else w
  }

  predicate MayMove(w: World, p: Pid, s: ProcessState) {
    p in w.table && ProcessMayMove(w.table[p].state, s)
  }

  predicate Finished(w: World, p: Pid) {
    p in w.table && w.table[p].state.IsFinished()
  }

  const DefaultCapabilities: set<string> :=
    {"state.read", "state.write", "event.publish", "event.subscribe", "message.send"}

  const KnownCapabilities: set<string> :=
    DefaultCapabilities + {"memory.read", "memory.write", "process.create", "process.terminate",
    "process.inspect", "filesystem.read", "filesystem.write", "artifact.read", "artifact.write",
    "tool.python", "tool.shell", "tool.browser", "tool.llm", "tool.database", "kernel.admin",
    "checkpoint.create", "checkpoint.restore"}

  function CapabilitiesFor(d: Definition): set<string> {
    DefaultCapabilities + (d.permissions * KnownCapabilities)
  }

  predicate Permitted(w: World, p: Pid, capability: string) {
    p in w.svc.caps && capability in w.svc.caps[p]
  }

  // ------------------------------------------------------------------
  // Waiting and waking
  // ------------------------------------------------------------------

  predicate Holds(w: World, c: Condition) {
    match c
    case MessageArrives(p) => p in w.svc.mail && w.svc.mail[p] != []
    case KeyExists(k) => k in w.store
    case Approved(r) => "approval:" + r in w.store
    case TimeReached(t) => w.clock >= t
  }

  /** The registered conditions that hold now. */
  function TrueNow(w: World): set<Condition> {
    set x | x in w.sched.waiting && Holds(w, x.condition) :: x.condition
  }

  /** `_wake_process`, the scheduler's wake callback. */
  function Wake(w: World, p: Pid): (r: World)
    ensures r == w.(table := r.table, log := r.log)
  {
    if p in w.table && w.table[p].state in {Waiting, Blocked} then Emit(SetState(w, p, Ready), ProcessReady(p)) else w
  }

  function WakeAll(w: World, ps: seq<Pid>): (r: World)
    ensures r == w.(table := r.table, log := r.log)
    decreases ps
  {
    if ps == [] then w else WakeAll(Wake(w, ps[0]), ps[1..])
  }

  /** `evaluate_waiting`. Waking touches only the table and the log, and no condition reads
      those, so all callbacks may run after the scheduler's own loop. */
  function EvaluateWaiting(w: World): (r: World)
    ensures r == w.(table := r.table, log := r.log, sched := r.sched)
  {
    var holds := TrueNow(w);
    WakeAll(w.(sched := Evaluate(w.sched, holds)), Satisfied(w.sched.waiting, holds))
  }

  /** The scheduler's handler for a terminal event of `p`. */
  function OnTerminal(w: World, p: Pid): World {
    var w1 := EvaluateWaiting(w);
    w1.(sched := Notify(w1.sched, p))
  }

  // ------------------------------------------------------------------
  // Spawning
  // ------------------------------------------------------------------

  /** The registry's `register`; the flag says whether it raised. */
  function Register(w: World, d: Definition): (World, bool) {
    if d.name in w.registry then (w, true) else (w.(registry := w.registry[d.name := d]), false)
  }

  function Spawn(w: World, d: Definition, goal: Option<GoalId>, priority: int, needs: set<Pid>): World {
    var p := w.unused;
    w.(registry := if d.name in w.registry then w.registry else w.registry[d.name := d],
       svc := w.svc.(mail := if p in w.svc.mail then w.svc.mail else w.svc.mail[p := []],
                     caps := w.svc.caps[p := CapabilitiesFor(d)]),
       table := w.table[p := Process(Ready, d, d.budget, goal)],
       sched := Enqueue(w.sched, p, priority, needs),
       log := w.log + [ProcessCreated(p), ProcessReady(p)],
       unused := w.unused + 1)
  }

  // ------------------------------------------------------------------
  // Budgets, checkpoints and the supervisor
  // ------------------------------------------------------------------

  function UsageOf(w: World, p: Pid): Usage {
    if p in w.svc.usage then w.svc.usage[p] else NoUsage
  }

  function SetUsage(w: World, p: Pid, u: Usage): World {
    w.(svc := w.svc.(usage := w.svc.usage[p := u]))
  }

  predicate CanDispatch(u: Usage, b: Budget) {
    u.tokens < b.maxTokens && u.tools < b.maxTools && u.cost < b.maxCost && u.retries <= b.maxRetries
  }

  function MemoryOf(w: World, p: Pid): map<string, Value> {
    if p in w.svc.memory then w.svc.memory[p] else map[]
  }

  function CheckpointsOf(w: World, p: Pid): seq<Checkpoint> {
    if p in w.svc.checkpoints then w.svc.checkpoints[p] else []
  }

  function TakeCheckpoint(w: World, p: Pid): World {
    var c := Checkpoint(MemoryOf(w, p), UsageOf(w, p));
    Emit(SetUsage(w, p, UsageOf(w, p)).(svc := SetUsage(w, p, UsageOf(w, p)).svc.(
           checkpoints := w.svc.checkpoints[p := CheckpointsOf(w, p) + [c]])),
         CheckpointCreated(p))
  }

  function RestoreCheckpoint(w: World, p: Pid, c: Checkpoint): World {
    Emit(w.(svc := w.svc.(memory := w.svc.memory[p := MemoryOf(w, p) + c.memory], usage := w.svc.usage[p := c.usage])),
         CheckpointRestored(p))
  }

  /** `_prepare_for_resume`: a mailbox, fresh capabilities, READY by fiat, default priority. */
  function PrepareForResume(w: World, p: Pid): World {
    if p !in w.table then w else
    w.(svc := w.svc.(mail := if p in w.svc.mail then w.svc.mail else w.svc.mail[p := []],
                     caps := w.svc.caps[p := CapabilitiesFor(w.table[p].definition)]),
       table := w.table[p := w.table[p].(state := Ready)],
       sched := Enqueue(w.sched, p, 0, {}))
  }

  function RecordRetry(w: World, p: Pid): World {
    SetUsage(w, p, UsageOf(w, p).(retries := UsageOf(w, p).retries + 1))
  }

  function RetryCount(counts: map<Pid, nat>, p: Pid): nat {
    if p in counts then counts[p] else 0
  }

  datatype Recovery = NoSupervisor | Restore(checkpoint: Checkpoint) | Retry(count: nat) | Terminate

  /** The recovery policy: the latest checkpoint first, then the retry budget. */
  function Decide(w: World, p: Pid): Recovery {
    if w.svc.supervisor.None? || p !in w.table then NoSupervisor
    else if CheckpointsOf(w, p) != [] then Restore(CheckpointsOf(w, p)[|CheckpointsOf(w, p)| - 1])
    else
      var n := RetryCount(w.svc.supervisor.value, p);
      if n < w.table[p].budget.maxRetries then Retry(n + 1) else Terminate
  }

  /** The supervisor's handler for PROCESS_FAILED. */
  function Supervise(w: World, p: Pid): World {
    match Decide(w, p)
    case NoSupervisor => w
    case Restore(c) => RecordRetry(PrepareForResume(RestoreCheckpoint(w, p, c), p), p)
    case Retry(n) =>
      var counts := w.svc.supervisor.value;
      RecordRetry(PrepareForResume(w.(svc := w.svc.(supervisor := Some(counts[p := n]))), p), p)
    case Terminate => w
  }

  // ------------------------------------------------------------------
  // Shared state and messages
  // ------------------------------------------------------------------

  function PutState(w: World, key: string, value: Value): World {
    if key in w.store then
      if w.store[key] == value then w
      else EvaluateWaiting(Emit(w.(store := w.store[key := value]), StateChanged(key, value)))
    else EvaluateWaiting(Emit(w.(store := w.store[key := value]), StateCreated(key, value)))
  }

  function DeleteState(w: World, key: string): World {
    if key !in w.store then w
    else EvaluateWaiting(Emit(w.(store := w.store - {key}), StateDeleted(key)))
  }

  /** `send`: raises when the recipient has no mailbox. */
  function Send(w: World, to: Pid, message: Value): (World, bool) {
    if to !in w.svc.mail then (w, false)
    else
      var w1 := w.(svc := w.svc.(mail := w.svc.mail[to := w.svc.mail[to] + [message]]));
      (EvaluateWaiting(Emit(w1, MessageReceived(to))), true)
  }

  function Receive(w: World, p: Pid): World {
    if p !in w.svc.mail || w.svc.mail[p] == [] then w
    else w.(svc := w.svc.(mail := w.svc.mail[p := w.svc.mail[p][1..]]))
  }

  /** `grant_user_approval`. */
  function Grant(w: World, request: string): World {
    EvaluateWaiting(PutState(w, "approval:" + request, Number(1)))
  }

  // ------------------------------------------------------------------
  // Goals, plans and tasks
  // ------------------------------------------------------------------

  datatype TaskSpec = TaskSpec(name: string, definition: string, dependencies: seq<string>, priority: int)

  function CreateGoal(w: World, g: GoalId): World {
    Emit(w.(cog := w.cog.(goals := w.cog.goals[g := GoalCreated])), GoalEvent(g, GoalCreated))
  }

  /** `start_planning`; the flag says whether it raised. */
  function StartPlanning(w: World, g: GoalId): (World, bool) {
    if g !in w.cog.goals || !GoalMayMove(w.cog.goals[g], GoalPlanning) then (w, true)
    else (Emit(w.(cog := w.cog.(goals := w.cog.goals[g := GoalPlanning])), GoalEvent(g, GoalPlanning)), false)
  }

  predicate DepsMet(c: Cognition, deps: seq<TaskId>) {
    forall d :: d in deps ==> d in c.tasks && c.tasks[d].state == TaskCompleted
  }

  predicate BecomesReady(c: Cognition, t: TaskId) {
    t in c.tasks && c.tasks[t].state == TaskPending && DepsMet(c, c.tasks[t].deps)
  }

  function ReadyEvents(c: Cognition, ids: seq<TaskId>): seq<Event> {
    if ids == [] then []
    else
      var earlier, t := ids[..|ids| - 1], ids[|ids| - 1];
      ReadyEvents(c, earlier) + if BecomesReady(c, t) && t !in earlier then [TaskEvent(t, TaskReady)] else []
  }

  function TasksOf(c: Cognition, p: PlanId): seq<TaskId> {
    if p in c.plans then c.plans[p].tasks else []
  }

  /** The plan's pending tasks whose dependencies are complete become ready; nothing else does. */
  function Readied(c: Cognition, ids: seq<TaskId>): Cognition {
    c.(tasks := map t | t in c.tasks ::
         if t in ids && BecomesReady(c, t) then c.tasks[t].(state := TaskReady) else c.tasks[t])
  }

  /** `_update_ready_tasks`. */
  function UpdateReady(w: World, p: PlanId): World {
    var ids := TasksOf(w.cog, p);
    w.(cog := Readied(w.cog, ids), log := w.log + ReadyEvents(w.cog, ids))
  }

  function ReadyTasks(c: Cognition, ids: seq<TaskId>): seq<TaskId> {
    if ids == [] then []
    else (if ids[0] in c.tasks && c.tasks[ids[0]].state == TaskReady then [ids[0]] else []) + ReadyTasks(c, ids[1..])
  }

  /** Gives a ready task its process. */
  function StartTask(w: World, t: TaskId, d: Definition, goal: GoalId): World
    requires t in w.cog.tasks
  {
    var task := w.cog.tasks[t];
    var w1 := Spawn(w, d, Some(goal), task.priority, {});
    Emit(w1.(cog := w1.cog.(tasks := w1.cog.tasks[t := task.(process := Some(w.unused), state := TaskRunning)])),
         TaskEvent(t, TaskRunning))
  }

  /** The spawn loop over a snapshot of ready tasks; raises at an unregistered definition. */
  function StartTasks(w: World, goal: GoalId, ids: seq<TaskId>): (World, bool)
    decreases ids
  {
    if ids == [] then (w, false)
    else if ids[0] !in w.cog.tasks || w.cog.tasks[ids[0]].process.Some? then StartTasks(w, goal, ids[1..])
    else if w.cog.tasks[ids[0]].definition !in w.registry then (w, true)
    else StartTasks(StartTask(w, ids[0], w.registry[w.cog.tasks[ids[0]].definition], goal), goal, ids[1..])
  }

  /** `_spawn_ready_tasks`, which is all of `execute_plan`. */
  function SpawnReady(w: World, p: PlanId): (World, bool) {
    if p !in w.cog.plans then (w, true)
    else if w.cog.plans[p].state != PlanActive then (w, false)
    else StartTasks(w, w.cog.plans[p].goal, ReadyTasks(w.cog, w.cog.plans[p].tasks))
  }

  predicate AllCompleted(c: Cognition, ids: seq<TaskId>) {
    forall t :: t in ids ==> t in c.tasks && c.tasks[t].state == TaskCompleted
  }

  /** Moves a plan and its goal to their final states; stops where the source would raise. */
  function ClosePlan(w: World, p: PlanId, ps: PlanState, gs: GoalState): (World, bool)
    requires p in w.cog.plans
  {
    var plan := w.cog.plans[p];
    if !PlanMayMove(plan.state, ps) then (w, true)
    else
      var w1 := w.(cog := w.cog.(plans := w.cog.plans[p := plan.(state := ps)]));
      var w2 := if ps == PlanCompleted then Emit(w1, PlanEvent(p, PlanCompleted)) else w1;
      if plan.goal !in w.cog.goals || !GoalMayMove(w.cog.goals[plan.goal], gs) then (w2, true)
      else (Emit(w2.(cog := w2.cog.(goals := w2.cog.goals[plan.goal := gs])), GoalEvent(plan.goal, gs)), false)
  }

  /** `_check_plan_completion`. */
  function CheckCompletion(w: World, p: PlanId): (World, bool) {
    if p in w.cog.plans && w.cog.plans[p].tasks != [] && AllCompleted(w.cog, w.cog.plans[p].tasks)
    then ClosePlan(w, p, PlanCompleted, GoalCompleted)
    else (w, false)
  }

  /** The first task, in dictionary order, that the process was given to. */
  function TaskOf(c: Cognition, ids: seq<TaskId>, p: Pid): Option<TaskId> {
    if ids == [] then None
    else if ids[0] in c.tasks && c.tasks[ids[0]].process == Some(p) then Some(ids[0])
    else TaskOf(c, ids[1..], p)
  }

  function WithState(c: Cognition, t: TaskId, s: TaskState): Cognition
    requires t in c.tasks
  {
    c.(tasks := c.tasks[t := c.tasks[t].(state := s)])
  }

  function SetTask(w: World, t: TaskId, s: TaskState): World {
    if t in w.cog.tasks then Emit(w.(cog := WithState(w.cog, t, s)), TaskEvent(t, s)) else w
  }

  /** `on_process_completed`. */
  function TaskCompletes(w: World, p: Pid): (World, bool) {
    match TaskOf(w.cog, w.cog.order, p)
    case None => (w, false)
    case Some(t) =>
      if t !in w.cog.tasks || w.cog.tasks[t].state.IsFinished() then (w, false)
      else if !TaskMayMove(w.cog.tasks[t].state, TaskCompleted) then (w, true)
      else
        var plan := w.cog.tasks[t].plan;
        var (w1, raised) := SpawnReady(UpdateReady(SetTask(w, t, TaskCompleted), plan), plan);
        if raised then (w1, true) else CheckCompletion(w1, plan)
  }

  /** `on_process_failed`. */
  function TaskFails(w: World, p: Pid): (World, bool) {
    match TaskOf(w.cog, w.cog.order, p)
    case None => (w, false)
    case Some(t) =>
      if t !in w.cog.tasks || !TaskMayMove(w.cog.tasks[t].state, TaskFailed) then (w, true)
      else
        var plan := w.cog.tasks[t].plan;
        var w1 := SetTask(w, t, TaskFailed);
        if plan !in w1.cog.plans then (w1, true) else ClosePlan(w1, plan, PlanFailed, GoalFailed)
  }

  // ------------------------------------------------------------------
  // Creating a plan
  // ------------------------------------------------------------------

  predicate CleanSpecs(specs: seq<TaskSpec>) {
    && (forall i, j :: 0 <= i < j < |specs| ==> specs[i].name != specs[j].name)
    && (forall i, n :: 0 <= i < |specs| && n in specs[i].dependencies ==>
         exists j :: 0 <= j < |specs| && specs[j].name == n)
  }

  function IndexOf(specs: seq<TaskSpec>, name: string): nat {
    if specs == [] || specs[0].name == name then 0 else 1 + IndexOf(specs[1..], name)
  }

  function NewTask(specs: seq<TaskSpec>, i: nat, base: TaskId, plan: PlanId): Task
    requires i < |specs|
  {
    Task(plan, specs[i].definition,
         seq(|specs[i].dependencies|,
           k requires 0 <= k < |specs[i].dependencies| => base + IndexOf(specs, specs[i].dependencies[k])),
         specs[i].priority, TaskPending, None)
  }

  function NewIds(base: TaskId, n: nat): (ids: seq<TaskId>)
    ensures |ids| == n && forall i :: 0 <= i < n ==> ids[i] == base + i
    ensures forall t :: t in ids <==> base <= t < base + n
    decreases n
  {
    if n == 0 then [] else [base] + NewIds(base + 1, n - 1)
  }

  function AddPlan(c: Cognition, g: GoalId, specs: seq<TaskSpec>, plan: PlanId, base: TaskId): Cognition {
    var ids := NewIds(base, |specs|);
    c.(plans := c.plans[plan := Plan(g, ids, PlanActive)],
       tasks := c.tasks + map t | t in ids :: NewTask(specs, t - base, base, plan),
       order := c.order + ids)
  }

  /** `create_plan` for a goal, with `base`, `base + 1`, ... as the new task ids. */
  function CreatePlan(w: World, g: GoalId, specs: seq<TaskSpec>, plan: PlanId, base: TaskId): (World, bool) {
    if g !in w.cog.goals then (w, true)
    else
      var w1 := w.(cog := AddPlan(w.cog, g, specs, plan, base),
                   log := w.log + seq(|specs|, (i: nat) => TaskEvent(base + i, TaskPending)));
      if !GoalMayMove(w.cog.goals[g], GoalInProgress) then (w1, true)
      else
        var w2 := w1.(cog := w1.cog.(goals := w1.cog.goals[g := GoalInProgress]));
        (UpdateReady(Emit(Emit(w2, PlanEvent(plan, PlanActive)), GoalEvent(g, GoalInProgress)), plan), false)
  }

  // ------------------------------------------------------------------
  // Process bodies
  // ------------------------------------------------------------------

  datatype BodyOp =
    | WriteState(key: string, value: Value)
    | EraseState(key: string)
    | SendTo(to: Pid, message: Value)
    | TakeMessage
    | Remember(key: string, value: Value)
    | UseTool(capability: string, tokens: nat, cost: real)
    | SpawnChild(definition: string, priority: int)
    | SaveCheckpoint

  datatype BodyEnd = Returns | Raises | WaitsFor(condition: Condition)

  /** One execution of a process: what it does, how it ends, and whether it overran. An
      operation that raises ends it; a body that catches the exception is one without the
      operation. */
  datatype Body = Body(ops: seq<BodyOp>, end: BodyEnd, overran: bool)

  function RunOp(w: World, p: Pid, op: BodyOp): (World, bool) {
    match op
    case WriteState(k, v) => if Permitted(w, p, "state.write") then (PutState(w, k, v), true) else (w, false)
    case EraseState(k) => if Permitted(w, p, "state.write") then (DeleteState(w, k), true) else (w, false)
    case SendTo(to, m) => if Permitted(w, p, "message.send") then Send(w, to, m) else (w, false)
    case TakeMessage => (Receive(w, p), true)
    case Remember(k, v) =>
      if Permitted(w, p, "memory.write")
      then (Emit(w.(svc := w.svc.(memory := w.svc.memory[p := MemoryOf(w, p)[k := v]])), MemoryStored(p)), true)
      else (w, false)
    case UseTool(c, tokens, cost) =>
      if Permitted(w, p, c) then
        var u := UsageOf(w, p);
        (SetUsage(w, p, u.(tokens := u.tokens + tokens, tools := u.tools + 1, cost := u.cost + cost)), true)
      else (w, false)
    case SpawnChild(d, priority) =>
      if !Permitted(w, p, "process.create") || p !in w.table then (w, false)
      else if d !in w.registry then (w, true) // the tool reports the failure as its result
      else
        var w1 := Spawn(w, w.registry[d], w.table[p].goal, priority, {});
        var u := UsageOf(w1, p);
        (SetUsage(w1, p, u.(tools := u.tools + 1)), true)
    case SaveCheckpoint => if Permitted(w, p, "checkpoint.create") then (TakeCheckpoint(w, p), true) else (w, false)
  }

  function RunOps(w: World, p: Pid, ops: seq<BodyOp>): (World, bool)
    decreases ops
  {
    if ops == [] then (w, true)
    else
      var (w1, ok) := RunOp(w, p, ops[0]);
      if ok then RunOps(w1, p, ops[1..]) else (w1, false)
  }

  // ------------------------------------------------------------------
  // Dispatch
  // ------------------------------------------------------------------

  datatype Outcome = Idle | Ran(pid: Pid) | RaisedOut(pid: Pid)

  /** `_cleanup_process`: nothing, unless the process has finished. */
  function Cleanup(w: World, p: Pid): World {
    if !Finished(w, p) then w
    else w.(svc := w.svc.(caps := w.svc.caps - {p}, mail := w.svc.mail - {p}, usage := w.svc.usage - {p}))
  }

  /** A process that reaches a terminal state: its event, then the scheduler's handler. */
  function Announce(w: World, p: Pid, s: ProcessState, e: Event): World {
    OnTerminal(Emit(SetState(w, p, s), e), p)
  }

  /** `_fail_process`. When FAILED is not a legal next state, the event still goes out, the
      tasks are still failed, and the error then leaves `run_next`. */
  function FailProcess(w: World, p: Pid): (World, Outcome) {
    var legal := MayMove(w, p, Failed);
    var w1 := if legal then Announce(w, p, Failed, ProcessFailed(p)) else OnTerminal(Emit(w, ProcessFailed(p)), p);
    var (w2, raised) := TaskFails(Supervise(w1, p), p);
    if !legal || raised then (w2, RaisedOut(p)) else (Cleanup(w2, p), Ran(p))
  }

  /** A body that returned in time. */
  function Finish(w: World, p: Pid): (World, Outcome) {
    if !MayMove(w, p, Completed) then FailProcess(w, p)
    else
      var (w1, raised) := TaskCompletes(Announce(w, p, Completed, ProcessCompleted(p)), p);
      if raised then FailProcess(w1, p) else (Cleanup(w1, p), Ran(p))
  }

  /** A body that yields: checkpoint, WAITING, and the scheduler's registry. */
  function Park(w: World, p: Pid, c: Condition): World {
    var w1 := SetState(TakeCheckpoint(w, p), p, Waiting);
    Emit(w1.(sched := MarkWaiting(w1.sched, p, c)), ProcessWaiting(p))
  }

  function Begin(w: World, p: Pid): World {
    Emit(SetState(w, p, Running), ProcessStarted(p))
  }

  function Execute(w: World, p: Pid, body: Body): (World, Outcome) {
    if !MayMove(w, p, Running) then FailProcess(w, p)
    else
      var (w1, ok) := RunOps(Begin(w, p), p, body.ops);
      if !ok || body.end.Raises? then FailProcess(w1, p)
      else if body.end.WaitsFor? then (Park(w1, p, body.end.condition), Ran(p))
      else
        var w2 := SetUsage(w1, p, UsageOf(w1, p)); // record_execution; seconds are not a dispatch limit
        if body.overran then FailProcess(w2, p) else Finish(w2, p)
  }

  /** Takes the next process off the queue; reading its usage creates the record. */
  function TakeNext(w: World): World
    requires w.sched.queue != []
  {
    var p := w.sched.queue[0].pid;
    SetUsage(w.(sched := Dequeue(w.sched)), p, UsageOf(w, p))
  }

  function RunNext(w: World, body: Body): (World, Outcome) {
    var w1 := EvaluateWaiting(w);
    if w1.sched.queue == [] then (w1, Idle)
    else
      var p := w1.sched.queue[0].pid;
      if p !in w1.table then (w1.(sched := Dequeue(w1.sched)), RaisedOut(p))
      else
        var w2 := TakeNext(w1);
        if !CanDispatch(UsageOf(w2, p), w2.table[p].budget) then FailProcess(w2, p)
        else Execute(w2, p, body)
  }

  // ------------------------------------------------------------------
  // has_work and run
  // ------------------------------------------------------------------

  /** The last phase of `has_work`: look again for every waiting process with mail. */
  function ScanMail(w: World, p: Pid): (World, bool)
    decreases w.unused - p
  {
    if p >= w.unused then (w, false)
    else if p in w.table && w.table[p].state == Waiting && p in w.svc.mail && w.svc.mail[p] != [] then
      var w1 := EvaluateWaiting(w);
      if w1.sched.queue != [] then (w1, true) else ScanMail(w1, p + 1)
    else ScanMail(w, p + 1)
  }

  function HasWork(w: World): (World, bool) {
    if w.sched.queue != [] then (w, true)
    else
      var w1 := EvaluateWaiting(w);
      if w1.sched.queue != [] then (w1, true) else ScanMail(w1, 0)
  }

  datatype RunEnd = Drained | OutOfBodies | Escaped

  datatype RunResult = RunResult(world: World, dispatches: nat, end: RunEnd)

  /** `run`, against the bodies the dispatched processes turn out to have, in dispatch order. */
  function Run(w: World, bodies: seq<Body>): RunResult
    decreases bodies
  {
    var (w1, more) := HasWork(w);
    if !more then RunResult(w1, 0, Drained)
    else if bodies == [] then RunResult(w1, 0, OutOfBodies)
    else
      var (w2, out) := RunNext(w1, bodies[0]);
      if out.RaisedOut? then RunResult(w2, 1, Escaped)
      else
        var r := Run(w2, bodies[1..]);
        r.(dispatches := 1 + r.dispatches)
  }
}
