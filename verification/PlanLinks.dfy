/** What a plan asks for is what runs: tasks are linked to the tasks their dependencies name, and each
    process runs the definition of its task, for the goal of its plan, with the task's priority. */
module PlanLinks {
  import opened Common
  import opened Heap
  import opened States
  import opened SchedulerModel
  import opened KernelModel
  import opened PlanSafety
  import opened History
  import opened KernelRuns
  import opened Runs
  import opened Raises

  // ------------------------------------------------------------------
  // Creating a plan
  // ------------------------------------------------------------------

  lemma NewTaskLinks(specs: seq<TaskSpec>, i: nat, base: TaskId, plan: PlanId)
    requires CleanSpecs(specs) && i < |specs|
    ensures var task := NewTask(specs, i, base, plan);
      && task.plan == plan && task.definition == specs[i].definition && task.priority == specs[i].priority
      && |task.deps| == |specs[i].dependencies|
      && forall k :: 0 <= k < |task.deps| ==>
        base <= task.deps[k] < base + |specs| && specs[task.deps[k] - base].name == specs[i].dependencies[k]
  {
    var task := NewTask(specs, i, base, plan);
    forall k | 0 <= k < |task.deps|
      ensures base <= task.deps[k] < base + |specs| && specs[task.deps[k] - base].name == specs[i].dependencies[k]
    {
      var name := specs[i].dependencies[k];
      assert name in specs[i].dependencies;
      IndexOfFinds(specs, name);
    }
  }

  /** `create_plan` makes one task for each specification, in order, with its definition and priority,
      linked to exactly the tasks that its dependencies name; it is READY at once if it has none. */
  lemma CreatedByName(w: World, g: GoalId, specs: seq<TaskSpec>, plan: PlanId, base: TaskId, i: nat)
    requires Clean(w, CallCreatePlan(g, specs, plan, base)) && g in w.cog.goals && i < |specs|
    ensures var c := CreatePlan(w, g, specs, plan, base).0.cog;
      && plan in c.plans && c.plans[plan].goal == g && c.plans[plan].state == PlanActive
      && |c.plans[plan].tasks| == |specs| && c.plans[plan].tasks[i] == base + i
      && base + i in c.tasks
      && var task := c.tasks[base + i];
         && task.plan == plan && task.definition == specs[i].definition && task.priority == specs[i].priority
         && task.process == None && task.state == (if specs[i].dependencies == [] then TaskReady else TaskPending)
         && |task.deps| == |specs[i].dependencies|
         && forall k :: 0 <= k < |task.deps| ==>
           base <= task.deps[k] < base + |specs| && specs[task.deps[k] - base].name == specs[i].dependencies[k]
  {
    hide NewTask, CleanSpecs, CreatePlan, UpdateReady, PlannedCog, Readied, Planned;
    PlannedIs(w, g, specs, plan, base);
    NewTaskLinks(specs, i, base, plan);
    NewTaskBlank(specs, i, base, plan);
    PlannedAt(w.cog, g, specs, plan, base, i);
    PlannedWorld(w, g, specs, plan, base);
    var c := PlannedCog(w.cog, g, specs, plan, base);
    CreatedState(c, specs, plan, base, i);
    ReadiedPlans(c, TasksOf(c, plan));
    UpdatedCog(Planned(w, g, specs, plan, base), plan);
  }

  lemma PlannedWorld(w: World, g: GoalId, specs: seq<TaskSpec>, plan: PlanId, base: TaskId)
    ensures Planned(w, g, specs, plan, base).cog == PlannedCog(w.cog, g, specs, plan, base)
  {
    hide PlannedCog;
  }

  lemma ReadiedPlans(c: Cognition, ids: seq<TaskId>)
    ensures Readied(c, ids).plans == c.plans
  {}

  lemma PlannedAt(c: Cognition, g: GoalId, specs: seq<TaskSpec>, plan: PlanId, base: TaskId, i: nat)
    requires FreshIds(c, plan, base, |specs|) && CleanSpecs(specs) && i < |specs|
    ensures var r := PlannedCog(c, g, specs, plan, base);
      && plan in r.plans && r.plans[plan] == Plan(g, NewIds(base, |specs|), PlanActive)
      && base + i in r.tasks && r.tasks[base + i] == NewTask(specs, i, base, plan)
      && forall d :: d in r.tasks[base + i].deps ==> d in r.tasks && r.tasks[d].state == TaskPending
  {
    hide NewTask, CleanSpecs, PlannedCog, FreshIds, NewIds;
    PlannedExtends(c, g, specs, plan, base);
    NewTaskLinks(specs, i, base, plan);
    var r := PlannedCog(c, g, specs, plan, base);
    forall d: TaskId | base <= d < base + |specs| ensures d in r.tasks && r.tasks[d].state == TaskPending {
      NewTaskBlank(specs, d - base, base, plan);
    }
    forall d | d in r.tasks[base + i].deps ensures d in r.tasks && r.tasks[d].state == TaskPending {
      var k :| 0 <= k < |r.tasks[base + i].deps| && r.tasks[base + i].deps[k] == d;
    }
  }

  lemma UpdatedCog(w: World, q: PlanId)
    ensures UpdateReady(w, q).cog == Readied(w.cog, TasksOf(w.cog, q))
  {}

  lemma CreatedState(c: Cognition, specs: seq<TaskSpec>, plan: PlanId, base: TaskId, i: nat)
    requires i < |specs| && base + i in c.tasks && base + i in TasksOf(c, plan)
      && c.tasks[base + i].state == TaskPending
    requires forall d :: d in c.tasks[base + i].deps ==> d in c.tasks && c.tasks[d].state == TaskPending
    ensures var r := Readied(c, TasksOf(c, plan));
      var task := c.tasks[base + i];
      base + i in r.tasks && r.tasks[base + i] == task.(state := if task.deps == [] then TaskReady else TaskPending)
  {
    if c.tasks[base + i].deps != [] {
      assert c.tasks[base + i].deps[0] in c.tasks[base + i].deps;
    }
  }

  // ------------------------------------------------------------------
  // Spawning
  // ------------------------------------------------------------------

  /** A new process is READY, with its definition, the budget of the definition and its goal, an empty
      mailbox, and its priority in the queue, or held back for what it needs; nothing else
      changes but that a new definition is registered. */
  ghost predicate Spawned(w: World, r: World, d: Definition, goal: Option<GoalId>, priority: int, needs: set<Pid>) {
    var p := w.unused;
    && r.table == w.table[p := Process(Ready, d, d.budget, goal)] && p !in w.table
    && r.svc.mail == w.svc.mail[p := []] && r.unused == p + 1
    && r.log == w.log + [ProcessCreated(p), ProcessReady(p)]
    && (if needs == {} then exists e :: e in r.sched.queue && e.pid == p && e.priority == priority
        else Dependent(p, needs) in r.sched.pending && r.sched.queue == w.sched.queue)
    && r.registry == (if d.name in w.registry then w.registry else w.registry[d.name := d])
    && r.store == w.store && r.cog == w.cog && r.svc.memory == w.svc.memory && r.svc.checkpoints == w.svc.checkpoints
  }

  lemma SpawnMeans(w: World, d: Definition, goal: Option<GoalId>, priority: int, needs: set<Pid>, busy: set<Pid>,
      k: Track)
    requires Inv(w, busy, {}, k)
    ensures Spawned(w, Spawn(w, d, goal, priority, needs), d, goal, priority, needs)
  {
    hide Enqueue, CapabilitiesFor, Inv;
    NewPidIsUnknown(w, busy, k);
    if needs == {} {
      QueuedWith(w.sched, w.unused, priority);
    } else {
      HeldBack(w.sched, w.unused, priority, needs);
    }
  }

  lemma NewPidIsUnknown(w: World, busy: set<Pid>, k: Track)
    requires Inv(w, busy, {}, k)
    ensures !Queued(w.sched, w.unused) && !Waits(w.sched, w.unused)
    ensures w.unused !in w.table && w.unused !in w.svc.mail
  {}

  lemma HeldBack(s: Sched, p: Pid, priority: int, needs: set<Pid>)
    requires needs != {}
    ensures var r := Enqueue(s, p, priority, needs); Dependent(p, needs) in r.pending && r.queue == s.queue
  {
    PutIsThere(s.pending, p, needs);
    hide PutDependent;
  }

  lemma {:induction false} PutIsThere(pending: seq<Dependent>, p: Pid, needs: set<Pid>)
    ensures Dependent(p, needs) in PutDependent(pending, p, needs)
  {
    if pending != [] && pending[0].pid != p {
      PutIsThere(pending[1..], p, needs);
    }
  }

  /** A child runs the definition registered under the name asked for, for its parent's goal. */
  lemma ChildIsSpawned(w: World, p: Pid, d: string, priority: int, k: Track)
    requires Inv(w, {p}, {}, k) && RunOp(w, p, SpawnChild(d, priority)).1 && d in w.registry
    ensures var r := RunOp(w, p, SpawnChild(d, priority)).0;
      p in w.table && Spawned(w, r, w.registry[d], w.table[p].goal, priority, {})
  {
    hide Inv, Spawn, Permitted, UsageOf;
    assert p in w.table;
    SpawnMeans(w, w.registry[d], w.table[p].goal, priority, {}, {p}, k);
  }

  // ------------------------------------------------------------------
  // Starting tasks
  // ------------------------------------------------------------------

  /** Task `t` runs on a READY process with this definition, for this goal, queued with its priority. */
  ghost predicate RunsAs(w: World, t: TaskId, d: Definition, goal: GoalId) {
    && t in w.cog.tasks && w.cog.tasks[t].state == TaskRunning && w.cog.tasks[t].process.Some?
    && var p := w.cog.tasks[t].process.value;
       && p < w.unused && p in w.table && w.table[p].state == Ready && w.table[p].definition == d
       && w.table[p].goal == Some(goal)
       && exists e :: e in w.sched.queue && e.pid == p && e.priority == w.cog.tasks[t].priority
  }

  lemma StartedRunsAs(w: World, t: TaskId, d: Definition, goal: GoalId)
    requires t in w.cog.tasks && !Queued(w.sched, w.unused) && !Waits(w.sched, w.unused)
    ensures RunsAs(StartTask(w, t, d, goal), t, d, goal)
  {
    hide Enqueue, CapabilitiesFor;
    QueuedWith(w.sched, w.unused, w.cog.tasks[t].priority);
  }

  lemma QueuedWith(s: Sched, p: Pid, priority: int)
    requires !Queued(s, p) && !Waits(s, p)
    ensures exists e :: e in Enqueue(s, p, priority, {}).queue && e.pid == p && e.priority == priority
  {
    var s1 := s.(priorities := s.priorities[p := priority]);
    assert !Queued(s1, p) && !Waits(s1, p);
    InsertElements(s.queue, Entry(priority, s.order + 1, p));
    assert Entry(priority, s.order + 1, p) in Enqueue(s, p, priority, {}).queue;
  }

  lemma StaysRunning(w: World, u: TaskId, d': Definition, goal': GoalId, t: TaskId, d: Definition, goal: GoalId)
    requires RunsAs(w, t, d, goal) && u in w.cog.tasks && u != t
    ensures RunsAs(StartTask(w, u, d', goal'), t, d, goal)
  {
    hide Enqueue, CapabilitiesFor;
    var p := w.cog.tasks[t].process.value;
    var e :| e in w.sched.queue && e.pid == p && e.priority == w.cog.tasks[t].priority;
    EnqueueKeepsEntries(w.sched, w.unused, w.cog.tasks[u].priority, e);
    assert e in StartTask(w, u, d', goal').sched.queue;
  }

  lemma EnqueueKeepsEntries(s: Sched, p: Pid, priority: int, e: Entry)
    requires e in s.queue
    ensures e in Enqueue(s, p, priority, {}).queue
  {
    InsertElements(s.queue, Entry(priority, s.order + 1, p));
  }

  /** The definition of the task, as registered. */
  function DefinitionOf(w: World, t: TaskId): Option<Definition> {
    if t in w.cog.tasks && w.cog.tasks[t].definition in w.registry then Some(w.registry[w.cog.tasks[t].definition])
      else None
  }

  /** The registry has the definition under its name, so starting a task does not change it. */
  lemma StillDefined(w: World, u: TaskId, goal: GoalId, t: TaskId)
    requires Named(w) && u in w.cog.tasks && w.cog.tasks[u].definition in w.registry
    ensures var r := StartTask(w, u, w.registry[w.cog.tasks[u].definition], goal);
      DefinitionOf(r, t) == DefinitionOf(w, t) && Named(r)
  {
    hide Enqueue, CapabilitiesFor;
  }

  lemma {:induction false} StartTasksKeepRunning(w: World, goal: GoalId, ids: seq<TaskId>, t: TaskId, d: Definition,
      goal': GoalId)
    requires RunsAs(w, t, d, goal') && t !in ids
    ensures RunsAs(StartTasks(w, goal, ids).0, t, d, goal')
    decreases ids
  {
    hide StartTask, RunsAs;
    if ids != [] {
      var u := ids[0];
      if u !in w.cog.tasks || w.cog.tasks[u].process.Some? {
        StartTasksKeepRunning(w, goal, ids[1..], t, d, goal');
      } else if w.cog.tasks[u].definition in w.registry {
        StaysRunning(w, u, w.registry[w.cog.tasks[u].definition], goal, t, d, goal');
        StartTasksKeepRunning(StartTask(w, u, w.registry[w.cog.tasks[u].definition], goal), goal, ids[1..], t, d,
          goal');
      }
    }
  }

  lemma {:induction false} StartTasksRunAll(w: World, q: PlanId, goal: GoalId, ids: seq<TaskId>, t: TaskId, k: Track)
    requires Inv(w, {}, {}, k) && Named(w) && ReadyIds(w.cog, q, ids) && t in ids && !StartTasks(w, goal, ids).1
    ensures DefinitionOf(w, t).Some? && RunsAs(StartTasks(w, goal, ids).0, t, DefinitionOf(w, t).value, goal)
    decreases ids
  {
    hide Inv, Evolves, StartTask, RunsAs, DefinitionOf, Registered, SameBusy, Named;
    var u := ids[0];
    assert u in w.cog.tasks;
    ReadyIsFree(w, {}, {}, k, u);
    var d := w.registry[w.cog.tasks[u].definition];
    var w1 := StartTask(w, u, d, goal);
    StillDefined(w, u, goal, t);
    if u == t {
      NewPidIsUnknown(w, {}, k);
      StartedRunsAs(w, t, d, goal);
      DefinitionIs(w, t);
      StartTasksKeepRunning(w1, goal, ids[1..], t, d, goal);
    } else {
      StartTaskStep(w, u, d, goal, {}, {}, k);
      StartedLeavesReady(w.cog, q, ids, w.unused);
      StartTasksRunAll(w1, q, goal, ids[1..], t, k);
    }
  }

  lemma DefinitionIs(w: World, t: TaskId)
    requires t in w.cog.tasks && w.cog.tasks[t].definition in w.registry
    ensures DefinitionOf(w, t) == Some(w.registry[w.cog.tasks[t].definition])
  {}

  /** After `execute_plan` every task that was READY runs on a process of its own, which has the
      definition registered under the task's name for it, the goal of the plan, and the task's
      priority in the queue. */
  lemma ReadyTasksRunAsAsked(supervised: bool, calls: seq<Call>, q: PlanId, t: TaskId)
    requires Runs.Returns(Boot(supervised), calls)
    requires var w := Runs.After(Boot(supervised), calls);
      && q in w.cog.plans && w.cog.plans[q].state == PlanActive && !SpawnReady(w, q).1
      && t in w.cog.plans[q].tasks && t in w.cog.tasks && w.cog.tasks[t].state == TaskReady
    ensures var w := Runs.After(Boot(supervised), calls);
      && w.cog.tasks[t].definition in w.registry
      && RunsAs(SpawnReady(w, q).0, t, w.registry[w.cog.tasks[t].definition], w.cog.plans[q].goal)
  {
    hide Runs.After, Runs.Returns, Inv, Evolves, Named, RunsAs, ReadyTasks, StartTasks, ReadyIds, PlansOk;
    var k := Track(None, false);
    BootInv(supervised, k);
    BootNamed(supervised);
    EveryRunKeepsInv(Boot(supervised), calls, k);
    var w := Runs.After(Boot(supervised), calls);
    NamedStays(Boot(supervised), w);
    InvPlans(w, {}, {}, k);
    PlanReadyIds(w, q, {}, {});
    ReadyTasksAre(w.cog, w.cog.plans[q].tasks);
    StartTasksRunAll(w, q, w.cog.plans[q].goal, ReadyTasks(w.cog, w.cog.plans[q].tasks), t, k);
  }

  // ------------------------------------------------------------------
  // Dependencies by name, over a whole run
  // ------------------------------------------------------------------

  /** The task is COMPLETED, and its process's COMPLETED event comes before this place of the log. */
  ghost predicate CompletedBefore(w: World, t: TaskId, at: nat) {
    && t in w.cog.tasks && w.cog.tasks[t].state == TaskCompleted && w.cog.tasks[t].process.Some?
    && exists x :: 0 <= x < at && x < |w.log| && w.log[x] == ProcessCompleted(w.cog.tasks[t].process.value)
  }

  /** The task's process was started here. */
  ghost predicate StartedAt(w: World, t: TaskId, at: nat) {
    && t in w.cog.tasks && w.cog.tasks[t].process.Some?
    && at < |w.log| && w.log[at] == ProcessStarted(w.cog.tasks[t].process.value)
  }

  /** From any state of a run on: when the process of a task of a new plan was started, the task that
      each of its dependencies names had been completed, by a process whose COMPLETED event came
      first. */
  lemma NamedDependenciesComeFirst(w: World, g: GoalId, specs: seq<TaskSpec>, plan: PlanId, base: TaskId,
      later: seq<Call>,
      i: nat, n: nat, at: nat, k: Track)
    requires Inv(w, {}, {}, k) && !k.replays && Clean(w, CallCreatePlan(g, specs, plan, base)) && g in w.cog.goals
    requires Runs.Returns(CreatePlan(w, g, specs, plan, base).0, later)
    requires i < |specs| && n < |specs[i].dependencies|
    requires StartedAt(Runs.After(CreatePlan(w, g, specs, plan, base).0, later), base + i, at)
    ensures var r := Runs.After(CreatePlan(w, g, specs, plan, base).0, later);
      exists j :: 0 <= j < |specs| && specs[j].name == specs[i].dependencies[n] && CompletedBefore(r, base + j, at)
  {
    hide Runs.After, Runs.Returns, Inv, Evolves, CreatePlan, Clean, CogEvolves, CompletedBefore, StartedAt;
    var w1 := CreatePlan(w, g, specs, plan, base).0;
    var j := NamedLink(w, g, specs, plan, base, i, n);
    PlanReturns(w, g, specs, plan, base);
    CreatePlanStep(w, g, specs, plan, base, k);
    LinkedFirst(w1, later, base + i, base + j, at, k);
  }

  lemma LinkedFirst(w: World, later: seq<Call>, t: TaskId, d: TaskId, at: nat, k: Track)
    requires Inv(w, {}, {}, k) && !k.replays && Runs.Returns(w, later) && t in w.cog.tasks && d in w.cog.tasks[t].deps
    requires StartedAt(Runs.After(w, later), t, at)
    ensures CompletedBefore(Runs.After(w, later), d, at)
  {
    hide Runs.After, Runs.Returns, Inv, Evolves, CompletedBefore, StartedAt;
    EveryRunKeepsInv(w, later, k);
    SameLinks(w, Runs.After(w, later), t);
    StartedAfterDeps(Runs.After(w, later), t, d, at, k);
  }

  lemma NamedLink(w: World, g: GoalId, specs: seq<TaskSpec>, plan: PlanId, base: TaskId, i: nat, n: nat)
    returns (j: nat)
    requires Clean(w, CallCreatePlan(g, specs, plan, base)) && g in w.cog.goals && i < |specs|
      && n < |specs[i].dependencies|
    ensures j < |specs| && specs[j].name == specs[i].dependencies[n]
    ensures var c := CreatePlan(w, g, specs, plan, base).0.cog;
      base + i in c.tasks && base + j in c.tasks[base + i].deps
  {
    hide CreatePlan, CleanSpecs, FreshIds;
    CreatedByName(w, g, specs, plan, base, i);
    j := CreatePlan(w, g, specs, plan, base).0.cog.tasks[base + i].deps[n] - base;
  }

  lemma PlanReturns(w: World, g: GoalId, specs: seq<TaskSpec>, plan: PlanId, base: TaskId)
    requires Clean(w, CallCreatePlan(g, specs, plan, base)) && g in w.cog.goals
    ensures !CreatePlan(w, g, specs, plan, base).1
  {
    PlannedIs(w, g, specs, plan, base);
    hide CreatePlan, CleanSpecs, FreshIds;
  }

  lemma SameLinks(w: World, r: World, t: TaskId)
    requires Evolves(w, r) && t in w.cog.tasks
    ensures t in r.cog.tasks && r.cog.tasks[t].deps == w.cog.tasks[t].deps
  {}

  lemma StartedAfterDeps(w: World, t: TaskId, d: TaskId, at: nat, k: Track)
    requires Inv(w, {}, {}, k) && t in w.cog.tasks && d in w.cog.tasks[t].deps && StartedAt(w, t, at)
    ensures CompletedBefore(w, d, at)
  {
    InvTask(w, {}, {}, k, t);
    HistoryIs(w, k);
    hide Inv, PlansOk;
    assert DepsDone(w.cog, w.cog.tasks[t].deps, w.log, at);
    hide HistOk, TaskOk;
  }

  lemma HistoryIs(w: World, k: Track)
    requires Inv(w, {}, {}, k)
    ensures HistOk(w)
  {
    hide HistOk;
  }
}
