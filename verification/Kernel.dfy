/** The kernel as it runs: dictionaries, services and the scheduler changed in place, with the
    event handlers called where the events are published. Every method is proved to do exactly
    what the function of the same name in `KernelModel` says. */
module Kernels {
  import opened Common
  import opened Heap
  import opened States
  import opened SchedulerModel
  import opened KernelModel
  import opened KernelServices
  import PlanSafety
  import Schedulers

  class Kernel {
    const scheduler: Schedulers.Scheduler
    const mailboxes: MailboxManager
    const budgets: BudgetTracker
    var table: map<Pid, Process>
    var caps: map<Pid, set<string>>
    var memory: map<Pid, map<string, Value>>
    var checkpoints: map<Pid, seq<Checkpoint>>
    var retryCounts: Option<map<Pid, nat>>
    var store: map<string, Value>
    var registry: map<string, Definition>
    var goals: map<GoalId, GoalState>
    var plans: map<PlanId, Plan>
    var tasks: map<TaskId, Task>
    var order: seq<TaskId>
    var log: seq<Event>
    var unused: Pid
    var clock: int

    ghost predicate Valid()
      reads this, scheduler
    {
      scheduler.Valid()
    }

    ghost function Model(): World
      reads this, scheduler, mailboxes, budgets
    {
      World(table, scheduler.Model(),
            Services(mailboxes.boxes, caps, budgets.used, memory, checkpoints, retryCounts),
            store, registry, Cognition(goals, plans, tasks, order), log, unused, clock)
    }

    constructor (supervised: bool)
      ensures Valid() && Model() == Boot(supervised)
      ensures fresh(scheduler) && fresh(mailboxes) && fresh(budgets)
    {
      scheduler := new Schedulers.Scheduler();
      mailboxes := new MailboxManager();
      budgets := new BudgetTracker();
      table, caps, memory, checkpoints := map[], map[], map[], map[];
      retryCounts := if supervised then Some(map[]) else None;
      store, registry, goals, plans, tasks := map[], map[], map[], map[], map[];
      order, log, unused, clock := [], [], 0, 0;
    }

    // ----------------------------------------------------------------
    // Events and lifecycle
    // ----------------------------------------------------------------

    method Publish(e: Event)
      requires Valid()
      modifies `log
      ensures Valid() && Model() == Emit(old(Model()), e)
    {
      log := log + [e];
    }

    /** `transition_to`: an edge of the table, or the state the process is in already. */
    method Transition(p: Pid, s: ProcessState) returns (ok: bool)
      requires Valid()
      modifies `table
      ensures Valid() && (ok <==> MayMove(old(Model()), p, s))
      ensures Model() == if ok then SetState(old(Model()), p, s) else old(Model())
    {
      if p !in table {
        return false;
      }
      if table[p].state == s {
        assert table == table[p := table[p].(state := s)];
        return true;
      }
      if s !in ProcessTargets(table[p].state) {
        return false;
      }
      table := table[p := table[p].(state := s)];
      ok := true;
    }

    // ----------------------------------------------------------------
    // Waiting and waking
    // ----------------------------------------------------------------

    method ConditionHolds(c: Condition) returns (holds: bool)
      requires Valid()
      modifies {}
      ensures holds <==> Holds(Model(), c)
      ensures match c
        case MessageArrives(p) => holds <==> p in mailboxes.boxes && mailboxes.boxes[p] != []
        case KeyExists(k) => holds <==> k in store
        case Approved(r) => holds <==> "approval:" + r in store
        case TimeReached(t) => holds <==> t <= clock
    {
      match c
      case MessageArrives(p) =>
        var n := mailboxes.Pending(p);
        holds := n > 0;
      case KeyExists(k) => holds := k in store;
      case Approved(r) => holds := "approval:" + r in store;
      case TimeReached(t) => holds := clock >= t;
    }

    method ConditionsNow() returns (holds: set<Condition>)
      requires Valid()
      ensures holds == TrueNow(Model())
    {
      holds := {};
      var waiting := scheduler.waiting;
      var i := 0;
      while i < |waiting|
        invariant 0 <= i <= |waiting|
        invariant holds == set x | x in waiting[..i] && Holds(Model(), x.condition) :: x.condition
      {
        var now := ConditionHolds(waiting[i].condition);
        if now {
          holds := holds + {waiting[i].condition};
        }
        assert waiting[..i + 1] == waiting[..i] + [waiting[i]];
        i := i + 1;
      }
      assert waiting[..i] == waiting;
    }

    /** `_wake_process`. */
    method WakeProcess(p: Pid)
      requires Valid()
      modifies `table, `log
      ensures Valid() && Model() == Wake(old(Model()), p)
    {
      if p !in table || table[p].state !in {Waiting, Blocked} {
        return;
      }
      var ok := Transition(p, Ready);
      Publish(ProcessReady(p));
    }

    method EvaluateWaiting()
      requires Valid()
      modifies this, scheduler
      ensures Valid() && Model() == KernelModel.EvaluateWaiting(old(Model()))
    {
      hide TrueNow, Evaluate, Satisfied, Wake;
      var holds := ConditionsNow();
      var woken := scheduler.EvaluateWaiting(holds);
      ghost var start := Model();
      var i := 0;
      while i < |woken|
        invariant 0 <= i <= |woken| && Valid()
        invariant WakeAll(Model(), woken[i..]) == WakeAll(start, woken)
      {
        assert woken[i..][0] == woken[i] && woken[i..][1..] == woken[i + 1..];
        WakeProcess(woken[i]);
        i := i + 1;
      }
    }

    /** The scheduler's handler for terminal events. */
    method OnTerminal(p: Pid)
      requires Valid()
      modifies this, scheduler
      ensures Valid() && Model() == KernelModel.OnTerminal(old(Model()), p)
    {
      hide KernelModel.EvaluateWaiting, Notify;
      EvaluateWaiting();
      var released := scheduler.NotifyCompleted(p);
    }

    // ----------------------------------------------------------------
    // Spawning
    // ----------------------------------------------------------------

    method Register(d: Definition) returns (raised: bool)
      requires Valid()
      modifies `registry
      ensures Valid() && (Model(), raised) == KernelModel.Register(old(Model()), d)
    {
      if d.name in registry {
        return true;
      }
      registry := registry[d.name := d];
      raised := false;
    }

    method Spawn(d: Definition, goal: Option<GoalId>, priority: int, needs: set<Pid>) returns (p: Pid)
      requires Valid()
      modifies this, scheduler, mailboxes
      ensures Valid() && Model() == KernelModel.Spawn(old(Model()), d, goal, priority, needs)
      ensures p == old(unused)
    {
      hide Enqueue, CapabilitiesFor, KernelModel.Spawn, Entered;
      SpawnIs(Model(), d, goal, priority, needs);
      p := Enter(d, goal);
      scheduler.Enqueue(p, priority, needs);
      Publish(ProcessCreated(p));
      Publish(ProcessReady(p));
    }

    /** The new process's record, mailbox and capabilities. */
    method Enter(d: Definition, goal: Option<GoalId>) returns (p: Pid)
      requires Valid()
      modifies `registry, `unused, `caps, `table, mailboxes
      ensures Valid() && Model() == Entered(old(Model()), d, goal) && p == old(unused)
    {
      hide CapabilitiesFor, Schedulers.Represents, Schedulers.Scheduler.Model, Schedulers.Scheduler.Valid, Entered;
      ghost var w := Model();
      if d.name !in registry {
        registry := registry[d.name := d];
      }
      p := unused;
      unused := unused + 1;
      mailboxes.Create(p);
      caps := caps[p := CapabilitiesFor(d)];
      table := table[p := Process.Process(Ready, d, d.budget, goal)];
      EnteredIs(w, d, goal, Model());
    }

    // ----------------------------------------------------------------
    // Checkpoints and the supervisor
    // ----------------------------------------------------------------

    method TakeCheckpoint(p: Pid)
      requires Valid()
      modifies `checkpoints, `log, budgets
      ensures Valid() && Model() == KernelModel.TakeCheckpoint(old(Model()), p)
    {
      var u := budgets.UsageFor(p);
      var contents := if p in memory then memory[p] else map[];
      var earlier := if p in checkpoints then checkpoints[p] else [];
      checkpoints := checkpoints[p := earlier + [Checkpoint(contents, u)]];
      Publish(CheckpointCreated(p));
    }

    method RestoreCheckpoint(p: Pid, c: Checkpoint)
      requires Valid()
      modifies `memory, `log, budgets
      ensures Valid() && Model() == KernelModel.RestoreCheckpoint(old(Model()), p, c)
    {
      var contents := if p in memory then memory[p] else map[];
      memory := memory[p := contents + c.memory];
      budgets.Overwrite(p, c.usage);
      Publish(CheckpointRestored(p));
    }

    method PrepareForResume(p: Pid)
      requires Valid()
      modifies this, scheduler, mailboxes
      ensures Valid() && Model() == KernelModel.PrepareForResume(old(Model()), p)
    {
      hide Enqueue, CapabilitiesFor;
      if p !in table {
        return;
      }
      var has := mailboxes.Exists(p);
      if !has {
        mailboxes.Create(p);
      }
      caps := caps[p := CapabilitiesFor(table[p].definition)];
      table := table[p := table[p].(state := Ready)];
      scheduler.Enqueue(p, 0, {});
    }

    method ApplyRestore(p: Pid, c: Checkpoint)
      requires Valid()
      modifies this, scheduler, mailboxes, budgets
      ensures Valid() && Model()
        == RecordRetry(KernelModel.PrepareForResume(KernelModel.RestoreCheckpoint(old(Model()), p, c), p), p)
    {
      hide KernelModel.PrepareForResume, KernelModel.RestoreCheckpoint;
      RestoreCheckpoint(p, c);
      PrepareForResume(p);
      budgets.RecordRetry(p);
    }

    method ApplyRetry(p: Pid)
      requires Valid()
      modifies this, scheduler, mailboxes, budgets
      ensures Valid() && Model() == RecordRetry(KernelModel.PrepareForResume(old(Model()), p), p)
    {
      hide KernelModel.PrepareForResume;
      PrepareForResume(p);
      budgets.RecordRetry(p);
    }

    /** The supervisor's handler for PROCESS_FAILED: restore, retry or give up. */
    method Supervise(p: Pid)
      requires Valid()
      modifies this, scheduler, mailboxes, budgets
      ensures Valid() && Model() == KernelModel.Supervise(old(Model()), p)
    {
      hide KernelModel.PrepareForResume, KernelModel.RestoreCheckpoint, RecordRetry, Schedulers.Represents;
      if retryCounts.None? || p !in table {
        return;
      }
      if p in checkpoints && checkpoints[p] != [] {
        ApplyRestore(p, checkpoints[p][|checkpoints[p]| - 1]);
        return;
      }
      var counts := retryCounts.value;
      var retries := if p in counts then counts[p] else 0;
      if retries < table[p].budget.maxRetries {
        retryCounts := Some(counts[p := retries + 1]);
        ApplyRetry(p);
      }
    }

    // ----------------------------------------------------------------
    // Shared state and messages
    // ----------------------------------------------------------------

    method PutState(key: string, value: Value)
      requires Valid()
      modifies this, scheduler
      ensures Valid() && Model() == KernelModel.PutState(old(Model()), key, value)
    {
      hide KernelModel.EvaluateWaiting;
      if key in store && store[key] == value {
        return;
      }
      var e := if key in store then StateChanged(key, value) else StateCreated(key, value);
      store := store[key := value];
      Publish(e);
      EvaluateWaiting();
    }

    method DeleteState(key: string)
      requires Valid()
      modifies this, scheduler
      ensures Valid() && Model() == KernelModel.DeleteState(old(Model()), key)
    {
      hide KernelModel.EvaluateWaiting;
      if key !in store {
        return;
      }
      store := store - {key};
      Publish(StateDeleted(key));
      EvaluateWaiting();
    }

    method Send(to: Pid, message: Value) returns (ok: bool)
      requires Valid()
      modifies this, scheduler, mailboxes
      ensures Valid() && (Model(), ok) == KernelModel.Send(old(Model()), to, message)
    {
      hide KernelModel.EvaluateWaiting;
      ok := mailboxes.Send(to, message);
      if ok {
        Publish(MessageReceived(to));
        EvaluateWaiting();
      }
    }

    method Receive(p: Pid) returns (message: Option<Value>)
      requires Valid()
      modifies mailboxes
      ensures Valid() && Model() == KernelModel.Receive(old(Model()), p)
      ensures message == if p in old(mailboxes.boxes)
        && old(mailboxes.boxes)[p] != [] then Some(old(mailboxes.boxes)[p][0]) else None
    {
      message := mailboxes.Receive(p);
    }

    method Grant(request: string)
      requires Valid()
      modifies this, scheduler
      ensures Valid() && Model() == KernelModel.Grant(old(Model()), request)
    {
      hide KernelModel.EvaluateWaiting, KernelModel.PutState;
      PutState("approval:" + request, Number(1));
      EvaluateWaiting();
    }

    // ----------------------------------------------------------------
    // Goals, plans and tasks
    // ----------------------------------------------------------------

    method CreateGoal(g: GoalId)
      requires Valid()
      modifies `goals, `log
      ensures Valid() && Model() == KernelModel.CreateGoal(old(Model()), g)
    {
      goals := goals[g := GoalCreated];
      Publish(GoalEvent(g, GoalCreated));
    }

    method StartPlanning(g: GoalId) returns (raised: bool)
      requires Valid()
      modifies `goals, `log
      ensures Valid() && (Model(), raised) == KernelModel.StartPlanning(old(Model()), g)
    {
      if g !in goals || !GoalMayMove(goals[g], GoalPlanning) {
        return true;
      }
      goals := goals[g := GoalPlanning];
      Publish(GoalEvent(g, GoalPlanning));
      raised := false;
    }

    /** `create_plan`: the tasks first, then their dependencies by name. */
    method CreatePlan(g: GoalId, specs: seq<TaskSpec>, plan: PlanId, base: TaskId) returns (raised: bool)
      requires Valid() && CleanSpecs(specs)
      modifies this
      ensures Valid() && (Model(), raised) == KernelModel.CreatePlan(old(Model()), g, specs, plan, base)
    {
      hide KernelModel.UpdateReady, CleanSpecs, NewTask, AddPlan;
      if g !in goals {
        return true;
      }
      AddTasks(g, specs, plan, base);
      if !GoalMayMove(goals[g], GoalInProgress) {
        return true;
      }
      goals := goals[g := GoalInProgress];
      Publish(PlanEvent(plan, PlanActive));
      Publish(GoalEvent(g, GoalInProgress));
      UpdateReady(plan);
      raised := false;
    }

    method AddTasks(g: GoalId, specs: seq<TaskSpec>, plan: PlanId, base: TaskId)
      requires Valid() && CleanSpecs(specs)
      modifies `plans, `tasks, `order, `log
      ensures Valid()
      ensures Model() == old(Model()).(cog := AddPlan(old(Model()).cog, g, specs, plan, base),
        log := old(log) + CreationEvents(base, |specs|))
    {
      hide NewTask, CleanSpecs, Bare, WithDeps, CreationEvents, AddPlan;
      ghost var c := Model().cog;
      var nameToId := CreateTasks(specs, plan, base);
      LinkTasks(specs, nameToId, plan, base, c.tasks);
      var ids := NewIds(base, |specs|);
      plans := plans[plan := Plan.Plan(g, ids, PlanActive)];
      AllLinked(c, g, specs, plan, base);
    }

    /** The first loop: every task, still without dependencies. */
    method CreateTasks(specs: seq<TaskSpec>, plan: PlanId, base: TaskId) returns (nameToId: map<string, TaskId>)
      requires Valid() && CleanSpecs(specs)
      modifies `tasks, `order, `log
      ensures Valid()
      ensures tasks == Bare(old(tasks), specs, |specs|, plan, base) && order == old(order) + NewIds(base, |specs|)
      ensures log == old(log) + CreationEvents(base, |specs|)
      ensures forall i :: 0 <= i < |specs| ==> specs[i].name in nameToId && nameToId[specs[i].name] == base + i
    {
      hide NewTask, CleanSpecs, Bare, CreationEvents, NewIds, Schedulers.Represents, Schedulers.Scheduler.Model,
        Schedulers.Scheduler.Valid;
      nameToId := map[];
      var i := 0;
      NothingAdded(tasks, specs, plan, base);
      while i < |specs|
        invariant 0 <= i <= |specs| && Valid()
        invariant tasks == Bare(old(tasks), specs, i, plan, base) && order == old(order) + NewIds(base, i)
        invariant log == old(log) + CreationEvents(base, i)
        invariant forall j :: 0 <= j < i ==> specs[j].name in nameToId && nameToId[specs[j].name] == base + j
      {
        BareMore(old(tasks), specs, i, plan, base);
        CreationEventsMore(base, i);
        NewIdsMore(base, i);
        NamesStayApart(specs, i);
        tasks := tasks[base + i := Task(plan, specs[i].definition, [], specs[i].priority, TaskPending, None)];
        order := order + [base + i];
        nameToId := nameToId[specs[i].name := base + i];
        Publish(TaskEvent(base + i, TaskPending));
        i := i + 1;
      }
    }

    /** The second loop: dependencies, looked up by name. */
    method LinkTasks(specs: seq<TaskSpec>, nameToId: map<string, TaskId>, plan: PlanId, base: TaskId,
        ghost before: map<TaskId, Task>)
      requires Valid() && CleanSpecs(specs)
      requires tasks == Bare(before, specs, |specs|, plan, base)
      requires forall i :: 0 <= i < |specs| ==> specs[i].name in nameToId && nameToId[specs[i].name] == base + i
      modifies `tasks
      ensures Valid() && tasks == WithDeps(before, specs, |specs|, plan, base)
    {
      hide NewTask, CleanSpecs, Bare, WithDeps;
      BareIsUnlinked(before, specs, plan, base);
      var k := 0;
      while k < |specs|
        invariant 0 <= k <= |specs| && Valid() && tasks == WithDeps(before, specs, k, plan, base)
      {
        var deps := DependencyIds(specs, k, nameToId, base);
        WithDepsMore(before, specs, k, plan, base, deps);
        tasks := tasks[base + k := tasks[base + k].(deps := deps)];
        k := k + 1;
      }
    }

    method DependencyIds(specs: seq<TaskSpec>, k: nat, nameToId: map<string, TaskId>,
        base: TaskId) returns (deps: seq<TaskId>)
      requires k < |specs| && CleanSpecs(specs)
      requires forall i :: 0 <= i < |specs| ==> specs[i].name in nameToId && nameToId[specs[i].name] == base + i
      ensures |deps| == |specs[k].dependencies|
      ensures forall j :: 0 <= j < |deps| ==> deps[j] == base + IndexOf(specs, specs[k].dependencies[j])
    {
      hide CleanSpecs, IndexOf;
      var names := specs[k].dependencies;
      deps := [];
      while |deps| < |names|
        invariant |deps| <= |names|
        invariant forall j :: 0 <= j < |deps| ==> deps[j] == base + IndexOf(specs, names[j])
      {
        NameIsKnown(specs, k, names[|deps|]);
        deps := deps + [nameToId[names[|deps|]]];
      }
    }

    method DependenciesMet(deps: seq<TaskId>) returns (met: bool)
      requires Valid()
      ensures met <==> DepsMet(Model().cog, deps)
    {
      var i := 0;
      while i < |deps|
        invariant 0 <= i <= |deps|
        invariant forall d :: d in deps[..i] ==> d in tasks && tasks[d].state == TaskCompleted
      {
        if deps[i] !in tasks || tasks[deps[i]].state != TaskCompleted {
          return false;
        }
        i := i + 1;
      }
      assert deps[..i] == deps;
      met := true;
    }

    /** A pending task whose dependencies are met becomes ready. */
    method ReadyOne(t: TaskId)
      requires Valid()
      modifies `tasks, `log
      ensures Valid() && Model() == ReadiedOne(old(Model()), t)
    {
      hide DepsMet;
      if t in tasks && tasks[t].state == TaskPending {
        var met := DependenciesMet(tasks[t].deps);
        if met {
          tasks := tasks[t := tasks[t].(state := TaskReady)];
          Publish(TaskEvent(t, TaskReady));
        }
      }
    }

    /** `_update_ready_tasks`. */
    method UpdateReady(q: PlanId)
      requires Valid()
      modifies `tasks, `log
      ensures Valid() && Model() == KernelModel.UpdateReady(old(Model()), q)
    {
      hide ReadiedOne, Readied, ReadyEvents;
      var ids := if q in plans then plans[q].tasks else [];
      ghost var w := Model();
      NothingReadied(w);
      var i := 0;
      while i < |ids|
        invariant 0 <= i <= |ids| && Valid()
        invariant Model() == ReadiedUpTo(w, ids[..i])
      {
        ReadiedMore(w, ids, i);
        ReadyOne(ids[i]);
        i := i + 1;
      }
      assert ids[..i] == ids;
    }

    method TasksReady(ids: seq<TaskId>) returns (ready: seq<TaskId>)
      requires Valid()
      ensures ready == ReadyTasks(Model().cog, ids)
    {
      ready := [];
      var i := 0;
      while i < |ids|
        invariant 0 <= i <= |ids| && ready + ReadyTasks(Model().cog, ids[i..]) == ReadyTasks(Model().cog, ids)
      {
        assert ids[i..][0] == ids[i] && ids[i..][1..] == ids[i + 1..];
        if ids[i] in tasks && tasks[ids[i]].state == TaskReady {
          ready := ready + [ids[i]];
        }
        i := i + 1;
      }
    }

    /** `_spawn_ready_tasks`. */
    method SpawnReady(q: PlanId) returns (raised: bool)
      requires Valid()
      modifies this, scheduler, mailboxes
      ensures Valid() && (Model(), raised) == KernelModel.SpawnReady(old(Model()), q)
    {
      hide ReadyTasks, StartTask;
      if q !in plans {
        return true;
      }
      if plans[q].state != PlanActive {
        return false;
      }
      var goal := plans[q].goal;
      var ids := TasksReady(plans[q].tasks);
      ghost var start := Model();
      var i := 0;
      while i < |ids|
        invariant 0 <= i <= |ids| && Valid()
        invariant StartTasks(Model(), goal, ids[i..]) == StartTasks(start, goal, ids)
      {
        var t := ids[i];
        assert ids[i..][0] == t && ids[i..][1..] == ids[i + 1..];
        if t in tasks && tasks[t].process.None? {
          if tasks[t].definition !in registry {
            return true;
          }
          AssignProcess(t, registry[tasks[t].definition], goal);
        }
        i := i + 1;
      }
      raised := false;
    }

    method AssignProcess(t: TaskId, d: Definition, goal: GoalId)
      requires Valid() && t in tasks
      modifies this, scheduler, mailboxes
      ensures Valid() && Model() == StartTask(old(Model()), t, d, goal)
    {
      hide Enqueue, CapabilitiesFor, KernelModel.Spawn;
      var task := tasks[t];
      SpawnKeepsTasks(Model(), d, Some(goal), task.priority);
      var p := Spawn(d, Some(goal), task.priority, {});
      tasks := tasks[t := task.(process := Some(p), state := TaskRunning)];
      Publish(TaskEvent(t, TaskRunning));
    }

    method AllTasksCompleted(ids: seq<TaskId>) returns (all: bool)
      requires Valid()
      ensures all <==> AllCompleted(Model().cog, ids)
    {
      var i := 0;
      while i < |ids|
        invariant 0 <= i <= |ids|
        invariant forall t :: t in ids[..i] ==> t in tasks && tasks[t].state == TaskCompleted
      {
        if ids[i] !in tasks || tasks[ids[i]].state != TaskCompleted {
          return false;
        }
        i := i + 1;
      }
      assert ids[..i] == ids;
      all := true;
    }

    /** The plan's new state and, when it is complete, its event. */
    method MovePlan(q: PlanId, ps: PlanState)
      requires Valid() && q in plans
      modifies `plans, `log
      ensures Valid() && Model() == PlanMoved(old(Model()), q, ps)
    {
      hide Schedulers.Represents;
      plans := plans[q := plans[q].(state := ps)];
      if ps == PlanCompleted {
        Publish(PlanEvent(q, PlanCompleted));
      }
    }

    method ClosePlan(q: PlanId, ps: PlanState, gs: GoalState) returns (raised: bool)
      requires Valid() && q in plans
      modifies `plans, `goals, `log
      ensures Valid() && (Model(), raised) == KernelModel.ClosePlan(old(Model()), q, ps, gs)
    {
      hide Schedulers.Represents, PlanMayMove, GoalMayMove, KernelModel.ClosePlan, PlanMoved;
      ClosePlanCases(Model(), q, ps, gs);
      if !PlanMayMove(plans[q].state, ps) {
        return true;
      }
      MovePlan(q, ps);
      var goal := plans[q].goal;
      if goal !in goals || !GoalMayMove(goals[goal], gs) {
        return true;
      }
      goals := goals[goal := gs];
      Publish(GoalEvent(goal, gs));
      raised := false;
    }

    /** `_check_plan_completion`. */
    method CheckCompletion(q: PlanId) returns (raised: bool)
      requires Valid()
      modifies `plans, `goals, `log
      ensures Valid() && (Model(), raised) == KernelModel.CheckCompletion(old(Model()), q)
    {
      hide KernelModel.ClosePlan, AllCompleted;
      if q !in plans || plans[q].tasks == [] {
        return false;
      }
      var all := AllTasksCompleted(plans[q].tasks);
      if all {
        raised := ClosePlan(q, PlanCompleted, GoalCompleted);
      } else {
        raised := false;
      }
    }

    method FindTask(p: Pid) returns (found: Option<TaskId>)
      requires Valid()
      ensures found == TaskOf(Model().cog, Model().cog.order, p)
    {
      var i := 0;
      while i < |order|
        invariant 0 <= i <= |order| && TaskOf(Model().cog, order[i..], p) == TaskOf(Model().cog, order, p)
      {
        assert order[i..][0] == order[i] && order[i..][1..] == order[i + 1..];
        if order[i] in tasks && tasks[order[i]].process == Some(p) {
          return Some(order[i]);
        }
        i := i + 1;
      }
      found := None;
    }

    method PutTask(t: TaskId, s: TaskState)
      requires Valid() && t in tasks
      modifies `tasks, `log
      ensures Valid() && Model() == SetTask(old(Model()), t, s)
    {
      tasks := tasks[t := tasks[t].(state := s)];
      Publish(TaskEvent(t, s));
    }

    /** `on_process_completed`. */
    method TaskCompletes(p: Pid) returns (raised: bool)
      requires Valid()
      modifies this, scheduler, mailboxes
      ensures Valid() && (Model(), raised) == KernelModel.TaskCompletes(old(Model()), p)
    {
      hide KernelModel.UpdateReady, SetTask, KernelModel.SpawnReady, KernelModel.CheckCompletion, TaskOf;
      var found := FindTask(p);
      if found.None? {
        return false;
      }
      var t := found.value;
      if t !in tasks || tasks[t].state.IsFinished() {
        return false;
      }
      if !TaskMayMove(tasks[t].state, TaskCompleted) {
        return true;
      }
      var q := tasks[t].plan;
      PutTask(t, TaskCompleted);
      UpdateReady(q);
      raised := SpawnReady(q);
      if !raised {
        raised := CheckCompletion(q);
      }
    }

    /** `on_process_failed`. */
    method TaskFails(p: Pid) returns (raised: bool)
      requires Valid()
      modifies `tasks, `plans, `goals, `log
      ensures Valid() && (Model(), raised) == KernelModel.TaskFails(old(Model()), p)
    {
      hide TaskOf, KernelModel.ClosePlan;
      var found := FindTask(p);
      if found.None? {
        return false;
      }
      var t := found.value;
      if t !in tasks || !TaskMayMove(tasks[t].state, TaskFailed) {
        return true;
      }
      var q := tasks[t].plan;
      PutTask(t, TaskFailed);
      if q !in plans {
        return true;
      }
      raised := ClosePlan(q, PlanFailed, GoalFailed);
    }

    // ----------------------------------------------------------------
    // Process bodies
    // ----------------------------------------------------------------

    method Allowed(p: Pid, capability: string) returns (ok: bool)
      requires Valid()
      ensures ok <==> Permitted(Model(), p, capability)
    {
      ok := p in caps && capability in caps[p];
    }

    method StoreMemory(p: Pid, key: string, value: Value)
      requires Valid()
      modifies `memory, `log
      ensures Valid()
      ensures Model() == Emit(old(Model()).(svc :=
        old(Model()).svc.(memory := old(memory)[p := MemoryOf(old(Model()), p)[key := value]])), MemoryStored(p))
    {
      var contents := if p in memory then memory[p] else map[];
      memory := memory[p := contents[key := value]];
      Publish(MemoryStored(p));
    }

    method StartChild(p: Pid, d: string, priority: int) returns (ok: bool)
      requires Valid()
      modifies this, scheduler, mailboxes, budgets
      ensures Valid() && (Model(), ok) == KernelModel.RunOp(old(Model()), p, SpawnChild(d, priority))
    {
      hide Permitted, KernelModel.Spawn;
      ok := Allowed(p, "process.create");
      if !ok || p !in table {
        return false;
      }
      if d in registry {
        var child := Spawn(registry[d], table[p].goal, priority, {});
        RecordingCost(UsageOf(Model(), p));
        budgets.RecordExecution(p, 0, 1, 0.0);
      }
    }

    method RunOp(p: Pid, op: BodyOp) returns (ok: bool)
      requires Valid()
      modifies this, scheduler, mailboxes, budgets
      ensures Valid() && (Model(), ok) == KernelModel.RunOp(old(Model()), p, op)
    {
      hide Permitted, KernelModel.PutState, KernelModel.DeleteState, KernelModel.Send, KernelModel.Receive,
        KernelModel.Spawn, KernelModel.TakeCheckpoint, Schedulers.Represents;
      match op
      case WriteState(k, v) =>
        ok := Allowed(p, "state.write");
        if ok {
          PutState(k, v);
        }
      case EraseState(k) =>
        ok := Allowed(p, "state.write");
        if ok {
          DeleteState(k);
        }
      case SendTo(to, m) =>
        ok := Allowed(p, "message.send");
        if ok {
          ok := Send(to, m);
        }
      case TakeMessage =>
        var message := Receive(p);
        ok := true;
      case Remember(k, v) =>
        ok := Allowed(p, "memory.write");
        if ok {
          StoreMemory(p, k, v);
        }
      case UseTool(c, tokens, cost) =>
        ok := Allowed(p, c);
        if ok {
          budgets.RecordExecution(p, tokens, 1, cost);
        }
      case SpawnChild(d, priority) => ok := StartChild(p, d, priority);
      case SaveCheckpoint =>
        ok := Allowed(p, "checkpoint.create");
        if ok {
          TakeCheckpoint(p);
        }
    }

    method RunOps(p: Pid, ops: seq<BodyOp>) returns (ok: bool)
      requires Valid()
      modifies this, scheduler, mailboxes, budgets
      ensures Valid() && (Model(), ok) == KernelModel.RunOps(old(Model()), p, ops)
    {
      hide KernelModel.RunOp;
      ghost var start := Model();
      var i := 0;
      while i < |ops|
        invariant 0 <= i <= |ops| && Valid()
        invariant KernelModel.RunOps(Model(), p, ops[i..]) == KernelModel.RunOps(start, p, ops)
      {
        assert ops[i..][0] == ops[i] && ops[i..][1..] == ops[i + 1..];
        ok := RunOp(p, ops[i]);
        if !ok {
          return;
        }
        i := i + 1;
      }
      ok := true;
    }

    // ----------------------------------------------------------------
    // Dispatch
    // ----------------------------------------------------------------

    method Cleanup(p: Pid)
      requires Valid()
      modifies `caps, mailboxes, budgets
      ensures Valid() && Model() == KernelModel.Cleanup(old(Model()), p)
    {
      if p !in table || !table[p].state.IsFinished() {
        return;
      }
      caps := caps - {p};
      mailboxes.Delete(p);
      budgets.Clear(p);
    }

    /** `_fail_process`: a refused transition still publishes the event and fails the task, and
        only then escapes. */
    method FailProcess(p: Pid) returns (out: Outcome)
      requires Valid()
      modifies this, scheduler, mailboxes, budgets
      ensures Valid() && (Model(), out) == KernelModel.FailProcess(old(Model()), p)
    {
      hide MayMove, SetState, KernelModel.OnTerminal, KernelModel.Supervise, KernelModel.TaskFails, KernelModel.Cleanup;
      var legal := Transition(p, Failed);
      Publish(ProcessFailed(p));
      OnTerminal(p);
      Supervise(p);
      var raised := TaskFails(p);
      if !legal || raised {
        return RaisedOut(p);
      }
      Cleanup(p);
      out := Ran(p);
    }

    method Finish(p: Pid) returns (out: Outcome)
      requires Valid()
      modifies this, scheduler, mailboxes, budgets
      ensures Valid() && (Model(), out) == KernelModel.Finish(old(Model()), p)
    {
      hide MayMove, SetState, KernelModel.OnTerminal, KernelModel.TaskCompletes, KernelModel.FailProcess,
        KernelModel.Cleanup;
      var ok := Transition(p, Completed);
      if !ok {
        out := FailProcess(p);
        return;
      }
      Publish(ProcessCompleted(p));
      OnTerminal(p);
      var raised := TaskCompletes(p);
      if raised {
        out := FailProcess(p);
        return;
      }
      Cleanup(p);
      out := Ran(p);
    }

    method Park(p: Pid, c: Condition)
      requires Valid()
      modifies this, scheduler, budgets
      ensures Valid() && Model() == KernelModel.Park(old(Model()), p, c)
    {
      hide KernelModel.TakeCheckpoint, MarkWaiting;
      TakeCheckpoint(p);
      if p in table {
        table := table[p := table[p].(state := Waiting)];
      }
      scheduler.MarkWaiting(p, c);
      Publish(ProcessWaiting(p));
    }

    method Execute(p: Pid, body: Body) returns (out: Outcome)
      requires Valid()
      modifies this, scheduler, mailboxes, budgets
      ensures Valid() && (Model(), out) == KernelModel.Execute(old(Model()), p, body)
    {
      hide MayMove, SetState, KernelModel.RunOps, KernelModel.FailProcess, KernelModel.Finish, KernelModel.Park;
      var started := Transition(p, Running);
      if !started {
        out := FailProcess(p);
        return;
      }
      Publish(ProcessStarted(p));
      var ok := RunOps(p, body.ops);
      if !ok || body.end.Raises? {
        out := FailProcess(p);
        return;
      }
      if body.end.WaitsFor? {
        Park(p, body.end.condition);
        return Ran(p);
      }
      out := Conclude(p, body.overran);
    }

    /** A body that returned: its execution is recorded and the time limit checked. */
    method Conclude(p: Pid, overran: bool) returns (out: Outcome)
      requires Valid()
      modifies this, scheduler, mailboxes, budgets
      ensures Valid()
      ensures var w := SetUsage(old(Model()), p, UsageOf(old(Model()), p));
        (Model(), out) == if overran then KernelModel.FailProcess(w, p) else KernelModel.Finish(w, p)
    {
      hide KernelModel.FailProcess, KernelModel.Finish;
      RecordingNothing(UsageOf(Model(), p));
      budgets.RecordExecution(p, 0, 0, 0.0);
      if overran {
        out := FailProcess(p);
      } else {
        out := Finish(p);
      }
    }

    method RunNext(body: Body) returns (out: Outcome)
      requires Valid()
      modifies this, scheduler, mailboxes, budgets
      ensures Valid() && (Model(), out) == KernelModel.RunNext(old(Model()), body)
    {
      hide KernelModel.EvaluateWaiting, KernelModel.FailProcess, KernelModel.Execute, CanDispatch, Dequeue;
      EvaluateWaiting();
      var next := scheduler.Dequeue();
      if next.SchedulerEmpty? {
        return Idle;
      }
      var p := next.pid;
      if p !in table {
        return RaisedOut(p);
      }
      var ok := budgets.MayDispatch(p, table[p].budget);
      if !ok {
        out := FailProcess(p);
      } else {
        out := Execute(p, body);
      }
    }

    // ----------------------------------------------------------------
    // has_work and run
    // ----------------------------------------------------------------

    method HasWork() returns (more: bool)
      requires Valid()
      modifies this, scheduler
      ensures Valid() && (Model(), more) == KernelModel.HasWork(old(Model()))
    {
      hide KernelModel.EvaluateWaiting, Schedulers.Represents;
      var empty := scheduler.IsEmpty();
      if !empty {
        return true;
      }
      EvaluateWaiting();
      empty := scheduler.IsEmpty();
      if !empty {
        return true;
      }
      ghost var start := Model();
      var last := unused;
      var p := 0;
      while p < last
        invariant 0 <= p && Valid() && unused == last
        invariant ScanMail(Model(), p) == ScanMail(start, 0)
      {
        if p in table && table[p].state == Waiting {
          var n := mailboxes.Pending(p);
          if n > 0 {
            EvaluateWaiting();
            empty := scheduler.IsEmpty();
            if !empty {
              return true;
            }
          }
        }
        p := p + 1;
      }
      more := false;
    }

    /** `run`, given the bodies that the dispatched processes turn out to have. */
    method Run(bodies: seq<Body>) returns (dispatches: nat, end: RunEnd)
      requires Valid()
      modifies this, scheduler, mailboxes, budgets
      ensures Valid() && RunResult(Model(), dispatches, end) == KernelModel.Run(old(Model()), bodies)
    {
      hide KernelModel.HasWork, KernelModel.RunNext;
      ghost var start := Model();
      dispatches := 0;
      while true
        invariant 0 <= dispatches <= |bodies| && Valid()
        invariant var r := KernelModel.Run(Model(), bodies[dispatches..]);
          KernelModel.Run(start, bodies) == r.(dispatches := dispatches + r.dispatches)
        decreases |bodies| - dispatches
      {
        var more := HasWork();
        if !more {
          return dispatches, Drained;
        }
        if dispatches == |bodies| {
          return dispatches, OutOfBodies;
        }
        assert bodies[dispatches..][0] == bodies[dispatches] && bodies[dispatches..][1..] == bodies[dispatches + 1..];
        var out := RunNext(bodies[dispatches]);
        dispatches := dispatches + 1;
        if out.RaisedOut? {
          return dispatches, Escaped;
        }
      }
    }
  }

  // ------------------------------------------------------------------
  // Loop steps
  // ------------------------------------------------------------------

  lemma RecordingNothing(u: Usage)
    ensures u.(tokens := u.tokens + 0, tools := u.tools + 0, cost := u.cost + 0.0) == u
  {}

  lemma RecordingCost(u: Usage)
    ensures u.(tokens := u.tokens + 0, tools := u.tools + 1, cost := u.cost + 0.0) == u.(tools := u.tools + 1)
  {}

  lemma SpawnKeepsTasks(w: World, d: Definition, goal: Option<GoalId>, priority: int)
    ensures KernelModel.Spawn(w, d, goal, priority, {}).cog == w.cog
  {}

  /** The first few of a plan's tasks have been looked at. */
  ghost function ReadiedUpTo(w: World, ids: seq<TaskId>): World {
    w.(cog := Readied(w.cog, ids), log := w.log + ReadyEvents(w.cog, ids))
  }

  /** One task looked at. */
  ghost function ReadiedOne(now: World, t: TaskId): World {
    if t in now.cog.tasks && now.cog.tasks[t].state == TaskPending && DepsMet(now.cog, now.cog.tasks[t].deps)
    then Emit(now.(cog := WithState(now.cog, t, TaskReady)), TaskEvent(t, TaskReady)) else now
  }

  lemma NothingReadied(w: World)
    ensures ReadiedUpTo(w, []) == w
  {
    assert Readied(w.cog, []).tasks == w.cog.tasks;
  }

  lemma ReadiedDeps(c: Cognition, ids: seq<TaskId>, deps: seq<TaskId>)
    ensures DepsMet(Readied(c, ids), deps) <==> DepsMet(c, deps)
  {
    hide BecomesReady;
    forall d | d in c.tasks ensures Readied(c, ids).tasks[d].state == TaskCompleted <==>
      c.tasks[d].state == TaskCompleted
    {
      ReadiedState(c, ids, d);
    }
  }

  lemma ReadiedState(c: Cognition, ids: seq<TaskId>, d: TaskId)
    requires d in c.tasks
    ensures Readied(c, ids).tasks[d].state == TaskCompleted <==> c.tasks[d].state == TaskCompleted
  {}

  /** One round of `_update_ready_tasks`. */
  lemma ReadiedMore(w: World, ids: seq<TaskId>, i: nat)
    requires i < |ids|
    ensures var t := ids[i];
      var now := ReadiedUpTo(w, ids[..i]);
      ReadiedUpTo(w, ids[..i + 1]) == ReadiedOne(now, t)
  {
    hide DepsMet, Readied, ReadyEvents, BecomesReady;
    var t := ids[i];
    assert ids[..i + 1][..i] == ids[..i] && ids[..i + 1][i] == t;
    StillPending(w.cog, ids[..i], t);
    MoreEvents(w.cog, ids[..i + 1]);
    if t !in ids[..i] && BecomesReady(w.cog, t) {
      OneMoreReady(w.cog, ids[..i + 1]);
    } else {
      NoMoreReady(w.cog, ids[..i + 1]);
    }
  }

  lemma MoreEvents(c: Cognition, ids: seq<TaskId>)
    requires ids != []
    ensures var earlier, t := ids[..|ids| - 1], ids[|ids| - 1];
      ReadyEvents(c, ids) == ReadyEvents(c, earlier) + if BecomesReady(c, t)
        && t !in earlier then [TaskEvent(t, TaskReady)] else []
  {}

  /** A task looked at after others is still to become ready just when it was at first and has
      not been looked at before. */
  lemma StillPending(c: Cognition, ids: seq<TaskId>, t: TaskId)
    ensures var now := Readied(c, ids);
      t in now.tasks && now.tasks[t].state == TaskPending && DepsMet(now, now.tasks[t].deps) <==>
        t !in ids && BecomesReady(c, t)
  {
    if t in c.tasks {
      ReadiedDeps(c, ids, c.tasks[t].deps);
    }
    hide DepsMet;
  }

  lemma OneMoreReady(c: Cognition, ids: seq<TaskId>)
    requires ids != []
    requires var earlier, t := ids[..|ids| - 1], ids[|ids| - 1]; t !in earlier && BecomesReady(c, t)
    ensures var earlier, t := ids[..|ids| - 1], ids[|ids| - 1];
      t in Readied(c, earlier).tasks && Readied(c, ids) == WithState(Readied(c, earlier), t, TaskReady)
  {
    var earlier, t := ids[..|ids| - 1], ids[|ids| - 1];
    assert ids == earlier + [t];
    assert t in c.tasks;
    hide BecomesReady;
    assert Readied(c, ids).tasks == WithState(Readied(c, earlier), t, TaskReady).tasks;
  }

  lemma NoMoreReady(c: Cognition, ids: seq<TaskId>)
    requires ids != []
    requires var earlier, t := ids[..|ids| - 1], ids[|ids| - 1]; t in earlier || !BecomesReady(c, t)
    ensures Readied(c, ids) == Readied(c, ids[..|ids| - 1])
  {
    var earlier, t := ids[..|ids| - 1], ids[|ids| - 1];
    assert ids == earlier + [t];
    hide BecomesReady;
    assert Readied(c, ids).tasks == Readied(c, earlier).tasks;
  }

  /** A process that is known but not scheduled or announced yet. */
  ghost function PlanMoved(w: World, q: PlanId, ps: PlanState): (r: World)
    requires q in w.cog.plans
    ensures q in r.cog.plans && r.cog.plans[q].goal == w.cog.plans[q].goal && r.cog.goals == w.cog.goals
  {
    var w1 := w.(cog := w.cog.(plans := w.cog.plans[q := w.cog.plans[q].(state := ps)]));
    if ps == PlanCompleted then Emit(w1, PlanEvent(q, PlanCompleted)) else w1
  }

  lemma ClosePlanCases(w: World, q: PlanId, ps: PlanState, gs: GoalState)
    requires q in w.cog.plans
    ensures var goal := w.cog.plans[q].goal;
      var r := PlanMoved(w, q, ps);
      KernelModel.ClosePlan(w, q, ps, gs) ==
        if !PlanMayMove(w.cog.plans[q].state, ps) then (w, true)
        else if goal !in w.cog.goals || !GoalMayMove(w.cog.goals[goal], gs) then (r, true)
        else (Emit(r.(cog := r.cog.(goals := r.cog.goals[goal := gs])), GoalEvent(goal, gs)), false)
  {
    hide PlanMayMove, GoalMayMove;
  }

  ghost function Entered(w: World, d: Definition, goal: Option<GoalId>): World {
    var p := w.unused;
    w.(registry := if d.name in w.registry then w.registry else w.registry[d.name := d],
       svc := w.svc.(mail := if p in w.svc.mail then w.svc.mail else w.svc.mail[p := []],
                     caps := w.svc.caps[p := CapabilitiesFor(d)]),
       table := w.table[p := Process.Process(Ready, d, d.budget, goal)],
       unused := w.unused + 1)
  }

  lemma EnteredIs(w: World, d: Definition, goal: Option<GoalId>, r: World)
    requires r == w.(registry := r.registry, svc := w.svc.(mail := r.svc.mail, caps := r.svc.caps), table := r.table,
      unused := r.unused)
    requires var p := w.unused;
      && r.registry == (if d.name in w.registry then w.registry else w.registry[d.name := d])
      && r.svc.mail == (if p in w.svc.mail then w.svc.mail else w.svc.mail[p := []])
      && r.svc.caps == w.svc.caps[p := CapabilitiesFor(d)]
      && r.table == w.table[p := Process.Process(Ready, d, d.budget, goal)] && r.unused == w.unused + 1
    ensures r == Entered(w, d, goal)
  {}

  lemma SpawnIs(w: World, d: Definition, goal: Option<GoalId>, priority: int, needs: set<Pid>)
    ensures var p := w.unused;
      var w1 := Entered(w, d, goal);
      KernelModel.Spawn(w, d, goal, priority, needs) ==
      Emit(Emit(w1.(sched := Enqueue(w1.sched, p, priority, needs)), ProcessCreated(p)), ProcessReady(p))
  {
    hide Enqueue, CapabilitiesFor;
    var p := w.unused;
    assert w.log + [ProcessCreated(p), ProcessReady(p)] == w.log + [ProcessCreated(p)] + [ProcessReady(p)];
  }

  // ------------------------------------------------------------------
  // Creating a plan
  // ------------------------------------------------------------------

  ghost function CreationEvents(base: TaskId, n: nat): seq<Event> {
    seq(n, (i: nat) => TaskEvent(base + i, TaskPending))
  }

  /** The first `n` new tasks, without dependencies. */
  ghost function Bare(tasks: map<TaskId, Task>, specs: seq<TaskSpec>, n: nat, plan: PlanId,
      base: TaskId): map<TaskId, Task>
    requires n <= |specs|
  {
    tasks + map t | t in NewIds(base, n) :: NewTask(specs, t - base, base, plan).(deps := [])
  }

  /** All new tasks, the first `k` with their dependencies. */
  ghost function WithDeps(tasks: map<TaskId, Task>, specs: seq<TaskSpec>, k: nat, plan: PlanId,
      base: TaskId): map<TaskId, Task>
    requires k <= |specs|
  {
    tasks + map t | t in NewIds(base, |specs|) ::
      if t < base + k then NewTask(specs, t - base, base, plan) else NewTask(specs, t - base, base, plan).(deps := [])
  }

  lemma NothingAdded(tasks: map<TaskId, Task>, specs: seq<TaskSpec>, plan: PlanId, base: TaskId)
    ensures Bare(tasks, specs, 0, plan, base) == tasks
    ensures NewIds(base, 0) == [] && CreationEvents(base, 0) == []
  {}

  lemma BareAt(tasks: map<TaskId, Task>, specs: seq<TaskSpec>, n: nat, plan: PlanId, base: TaskId, t: TaskId)
    requires n <= |specs|
    ensures var r := Bare(tasks, specs, n, plan, base);
      && (t in r <==> t in tasks || base <= t < base + n)
      && (base <= t < base + n ==> r[t] == NewTask(specs, t - base, base, plan).(deps := []))
      && (t in tasks && !(base <= t < base + n) ==> r[t] == tasks[t])
  {
    hide NewTask;
  }

  lemma BareMore(tasks: map<TaskId, Task>, specs: seq<TaskSpec>, i: nat, plan: PlanId, base: TaskId)
    requires i < |specs|
    ensures Bare(tasks, specs, i + 1, plan, base) ==
      Bare(tasks, specs, i, plan,
        base)[base + i := Task(plan, specs[i].definition, [], specs[i].priority, TaskPending, None)]
  {
    assert NewTask(specs, i, base, plan).(deps := [])
      == Task(plan, specs[i].definition, [], specs[i].priority, TaskPending, None);
    hide Bare, NewTask;
    var more := Bare(tasks, specs, i + 1, plan, base);
    var now := Bare(tasks, specs, i, plan, base)[base + i := NewTask(specs, i, base, plan).(deps := [])];
    forall t: TaskId ensures (t in more <==> t in now) && (t in more ==> more[t] == now[t]) {
      BareNextAt(tasks, specs, i, plan, base, t);
    }
    assert more == now;
  }

  lemma BareNextAt(tasks: map<TaskId, Task>, specs: seq<TaskSpec>, i: nat, plan: PlanId, base: TaskId, t: TaskId)
    requires i < |specs|
    ensures var more := Bare(tasks, specs, i + 1, plan, base);
      var now := Bare(tasks, specs, i, plan, base)[base + i := NewTask(specs, i, base, plan).(deps := [])];
      (t in more <==> t in now) && (t in more ==> more[t] == now[t])
  {
    hide Bare, NewTask;
    BareAt(tasks, specs, i + 1, plan, base, t);
    BareAt(tasks, specs, i, plan, base, t);
  }

  lemma CreationEventsMore(base: TaskId, i: nat)
    ensures CreationEvents(base, i + 1) == CreationEvents(base, i) + [TaskEvent(base + i, TaskPending)]
  {}

  lemma NewIdsMore(base: TaskId, i: nat)
    ensures NewIds(base, i + 1) == NewIds(base, i) + [base + i]
  {}

  lemma NamesStayApart(specs: seq<TaskSpec>, i: nat)
    requires CleanSpecs(specs) && i < |specs|
    ensures forall j :: 0 <= j < i ==> specs[j].name != specs[i].name
  {}

  lemma BareIsUnlinked(tasks: map<TaskId, Task>, specs: seq<TaskSpec>, plan: PlanId, base: TaskId)
    ensures Bare(tasks, specs, |specs|, plan, base) == WithDeps(tasks, specs, 0, plan, base)
  {}

  lemma WithDepsAt(tasks: map<TaskId, Task>, specs: seq<TaskSpec>, k: nat, plan: PlanId, base: TaskId, t: TaskId)
    requires k <= |specs|
    ensures var r := WithDeps(tasks, specs, k, plan, base);
      && (t in r <==> t in tasks || base <= t < base + |specs|)
      && (base <= t < base + k ==> r[t] == NewTask(specs, t - base, base, plan))
      && (base + k <= t < base + |specs| ==> r[t] == NewTask(specs, t - base, base, plan).(deps := []))
      && (t in tasks && !(base <= t < base + |specs|) ==> r[t] == tasks[t])
  {
    hide NewTask;
  }

  lemma WithDepsMore(tasks: map<TaskId, Task>, specs: seq<TaskSpec>, k: nat, plan: PlanId, base: TaskId,
      deps: seq<TaskId>)
    requires k < |specs| && |deps| == |specs[k].dependencies|
    requires forall j :: 0 <= j < |deps| ==> deps[j] == base + IndexOf(specs, specs[k].dependencies[j])
    ensures var now := WithDeps(tasks, specs, k, plan, base);
      base + k in now && WithDeps(tasks, specs, k + 1, plan, base) == now[base + k := now[base + k].(deps := deps)]
  {
    hide NewTask, WithDeps, IndexOf;
    NewTaskDeps(specs, k, base, plan, deps);
    var now := WithDeps(tasks, specs, k, plan, base);
    WithDepsAt(tasks, specs, k, plan, base, base + k);
    var more := WithDeps(tasks, specs, k + 1, plan, base);
    var linked := now[base + k := now[base + k].(deps := deps)];
    forall t: TaskId ensures (t in more <==> t in linked) && (t in more ==> more[t] == linked[t]) {
      LinkedAt(tasks, specs, k, plan, base, deps, t);
    }
    assert more == linked;
  }

  lemma LinkedAt(tasks: map<TaskId, Task>, specs: seq<TaskSpec>, k: nat, plan: PlanId, base: TaskId, deps: seq<TaskId>,
      t: TaskId)
    requires k < |specs| && base + k in WithDeps(tasks, specs, k, plan, base)
    requires NewTask(specs, k, base, plan).(deps := deps) == NewTask(specs, k, base, plan)
    ensures var now := WithDeps(tasks, specs, k, plan, base);
      var more := WithDeps(tasks, specs, k + 1, plan, base);
      var linked := now[base + k := now[base + k].(deps := deps)];
      (t in more <==> t in linked) && (t in more ==> more[t] == linked[t])
  {
    hide NewTask, WithDeps;
    WithDepsAt(tasks, specs, k + 1, plan, base, t);
    WithDepsAt(tasks, specs, k, plan, base, t);
  }

  lemma NewTaskDeps(specs: seq<TaskSpec>, k: nat, base: TaskId, plan: PlanId, deps: seq<TaskId>)
    requires k < |specs| && |deps| == |specs[k].dependencies|
    requires forall j :: 0 <= j < |deps| ==> deps[j] == base + IndexOf(specs, specs[k].dependencies[j])
    ensures NewTask(specs, k, base, plan).(deps := deps) == NewTask(specs, k, base, plan)
  {
    hide IndexOf;
    assert NewTask(specs, k, base, plan).deps == deps;
  }

  lemma AllLinked(c: Cognition, g: GoalId, specs: seq<TaskSpec>, plan: PlanId, base: TaskId)
    ensures AddPlan(c, g, specs, plan, base) ==
      c.(plans := c.plans[plan := Plan.Plan(g, NewIds(base, |specs|), PlanActive)],
        tasks := WithDeps(c.tasks, specs, |specs|, plan, base),
         order := c.order + NewIds(base, |specs|))
  {
    hide NewTask;
    assert AddPlan(c, g, specs, plan, base).tasks == WithDeps(c.tasks, specs, |specs|, plan, base);
  }

  lemma NameIsKnown(specs: seq<TaskSpec>, k: nat, name: string)
    requires CleanSpecs(specs) && k < |specs| && name in specs[k].dependencies
    ensures IndexOf(specs, name) < |specs| && specs[IndexOf(specs, name)].name == name
  {
    PlanSafety.IndexOfFinds(specs, name);
  }
}
