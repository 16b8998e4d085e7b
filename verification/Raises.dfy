/** When `run_next` raises: exactly when the next process has used up its budget, or its body
    returns and its task's completion makes a task ready whose definition is not registered. */
module Raises {
  import opened Common
  import opened Heap
  import opened States
  import opened SchedulerModel
  import opened KernelModel
  import opened PlanSafety
  import opened History
  import opened KernelRuns
  import opened Progress
  import opened Runs

  /** Every definition is filed under its own name, as `register` does. */
  ghost predicate Named(w: World) {
    forall d :: d in w.registry ==> w.registry[d].name == d
  }

  lemma NamedStays(w: World, r: World)
    requires Named(w) && Evolves(w, r)
    ensures Named(r)
  {
    hide CogEvolves;
  }

  // ------------------------------------------------------------------
  // The condition
  // ------------------------------------------------------------------

  /** Task `u` is ready once `t` is complete. */
  predicate ReadyAfter(c: Cognition, t: TaskId, u: TaskId) {
    && t in c.tasks && u in c.tasks && u != t
    && (c.tasks[u].state == TaskReady || BecomesReady(WithState(c, t, TaskCompleted), u))
  }

  /** Completing the running task of process `p`, in an active plan, leaves a ready task whose
      definition is not registered. */
  ghost predicate Unstartable(c: Cognition, registry: map<string, Definition>, p: Pid) {
    var found := TaskOf(c, c.order, p);
    && found.Some? && found.value in c.tasks && c.tasks[found.value].state == TaskRunning
    && var q := c.tasks[found.value].plan;
       && q in c.plans && c.plans[q].state == PlanActive
       && exists u :: u in c.plans[q].tasks && ReadyAfter(c, found.value, u) && c.tasks[u].definition !in registry
  }

  /** The next body returns in time, and then its task's completion cannot start a task. */
  ghost predicate LacksDefinition(w: World, body: Body) {
    var w1 := EvaluateWaiting(w);
    && w1.sched.queue != []
    && var p := w1.sched.queue[0].pid;
       && p in w1.table && body.end.Returns? && FailureOf(TakeNext(w1), p, body).None?
       && Unstartable(w.cog, w.registry, p)
  }

  // ------------------------------------------------------------------
  // The spawn loop
  // ------------------------------------------------------------------

  predicate Undefined(c: Cognition, registry: map<string, Definition>, u: TaskId) {
    u in c.tasks && c.tasks[u].process.None? && c.tasks[u].definition !in registry
  }

  lemma StartTaskChanges(w: World, t: TaskId, d: Definition, goal: GoalId)
    requires t in w.cog.tasks && d.name in w.registry
    ensures var r := StartTask(w, t, d, goal);
      && r.registry == w.registry && r.cog.tasks.Keys == w.cog.tasks.Keys && r.cog.tasks[t].process.Some?
      && forall u :: u in w.cog.tasks && u != t ==> r.cog.tasks[u] == w.cog.tasks[u]
  {
    hide Enqueue, CapabilitiesFor;
  }

  /** The spawn loop raises if and only if one of its tasks has no process and no definition. */
  lemma {:induction false} StartTasksRaises(w: World, goal: GoalId, ids: seq<TaskId>)
    requires Named(w)
    ensures StartTasks(w, goal, ids).1 <==> exists u :: u in ids && Undefined(w.cog, w.registry, u)
    decreases ids
  {
    hide StartTask;
    if ids != [] {
      var t := ids[0];
      assert t in ids && forall u :: u in ids <==> u == t || u in ids[1..];
      if t !in w.cog.tasks || w.cog.tasks[t].process.Some? {
        StartTasksRaises(w, goal, ids[1..]);
      } else if w.cog.tasks[t].definition in w.registry {
        var d := w.registry[w.cog.tasks[t].definition];
        var w1 := StartTask(w, t, d, goal);
        StartTaskChanges(w, t, d, goal);
        StartTasksRaises(w1, goal, ids[1..]);
        forall u ensures Undefined(w1.cog, w1.registry, u) <==> Undefined(w.cog, w.registry, u) {
          assert u in w1.cog.tasks <==> u in w.cog.tasks;
        }
      }
    }
  }

  lemma {:induction false} ReadyTasksAre(c: Cognition, ids: seq<TaskId>)
    ensures forall u :: u in ReadyTasks(c, ids) <==> u in ids && u in c.tasks && c.tasks[u].state == TaskReady
  {
    if ids != [] {
      ReadyTasksAre(c, ids[1..]);
      assert forall u :: u in ids <==> u == ids[0] || u in ids[1..];
    }
  }

  // ------------------------------------------------------------------
  // Completing a process
  // ------------------------------------------------------------------

  lemma NextIsReady(c: Cognition, t: TaskId, ids: seq<TaskId>, u: TaskId)
    requires t in c.tasks && c.tasks[t].state == TaskRunning && u in ids
    ensures var c2 := Readied(WithState(c, t, TaskCompleted), ids);
      && (u in c2.tasks && c2.tasks[u].state == TaskReady <==> ReadyAfter(c, t, u))
      && (u in c.tasks ==>
            && u in c2.tasks && c2.tasks[u].definition == c.tasks[u].definition
            && c2.tasks[u].process == c.tasks[u].process)
  {
    hide DepsMet;
  }

  lemma ReadyHasNoProcess(w: World, p: Pid, t: TaskId, u: TaskId, g: Track)
    requires Inv(w, {p}, {}, g) && t in w.cog.tasks && ReadyAfter(w.cog, t, u)
    ensures w.cog.tasks[u].process.None?
  {
    InvTask(w, {p}, {}, g, u);
    hide Inv, DepsMet;
  }

  lemma SpawningRaises(w: World, w2: World, p: Pid, t: TaskId, g: Track)
    requires Inv(w, {p}, {}, g) && t in w.cog.tasks && w.cog.tasks[t].state == TaskRunning && Named(w2)
      && w2.registry == w.registry
    requires var q := w.cog.tasks[t].plan;
      q in w.cog.plans && w2.cog == Readied(WithState(w.cog, t, TaskCompleted), w.cog.plans[q].tasks)
    ensures var q := w.cog.tasks[t].plan;
      SpawnReady(w2, q).1 <==>
        && w.cog.plans[q].state == PlanActive
        && exists u :: u in w.cog.plans[q].tasks && ReadyAfter(w.cog, t, u) && w.cog.tasks[u].definition !in w.registry
  {
    var q := w.cog.tasks[t].plan;
    var ids := w.cog.plans[q].tasks;
    SamePlans(w.cog, t, ids);
    hide Inv, Readied, StartTasks, ReadyAfter, ReadyTasks, WithState;
    if w.cog.plans[q].state == PlanActive {
      var next := ReadyTasks(w2.cog, ids);
      StartTasksRaises(w2, w.cog.plans[q].goal, next);
      ReadyTasksAre(w2.cog, ids);
      forall u | u in ids ensures u in next && Undefined(w2.cog, w2.registry, u) <==>
        ReadyAfter(w.cog, t, u) && u in w.cog.tasks && w.cog.tasks[u].definition !in w.registry
      {
        NextIsReady(w.cog, t, ids, u);
        ReadyAfterIsKnown(w.cog, t, u);
        if ReadyAfter(w.cog, t, u) {
          ReadyHasNoProcess(w, p, t, u, g);
        }
      }
    }
  }

  lemma ReadyAfterIsKnown(c: Cognition, t: TaskId, u: TaskId)
    ensures ReadyAfter(c, t, u) ==> u in c.tasks
  {}

  lemma SamePlans(c: Cognition, t: TaskId, ids: seq<TaskId>)
    requires t in c.tasks
    ensures Readied(WithState(c, t, TaskCompleted), ids).plans == c.plans
  {}

  lemma TaskCompletesRaises(w: World, p: Pid, g: Track)
    requires Inv(w, {p}, {}, g) && p in w.table && w.table[p].state == Completed && Named(w)
    requires Logged(w.log, |w.log|, ProcessCompleted(p))
    ensures TaskCompletes(w, p).1 <==> Unstartable(w.cog, w.registry, p)
  {
    hide Inv, Logged, SetTask, UpdateReady, SpawnReady, CheckCompletion, TaskOf, ReadyAfter, TaskOk, PlansOk, HistOk,
      Named, Readied, Evolves, SameBusy, AllStarted, Registered;
    TaskOfFinds(w.cog, w.cog.order, p);
    if TaskOf(w.cog, w.cog.order, p).Some? {
      var t := TaskOf(w.cog, w.cog.order, p).value;
      InvTask(w, {p}, {}, g, t);
      RunningOrFinished(w.cog, w.table, p, t);
      if w.cog.tasks[t].state == TaskRunning {
        RunningTaskRaises(w, p, t, g);
      }
    }
  }

  lemma RunningTaskRaises(w: World, p: Pid, t: TaskId, g: Track)
    requires Inv(w, {p}, {}, g) && p in w.table && w.table[p].state == Completed && Named(w)
    requires Logged(w.log, |w.log|, ProcessCompleted(p))
    requires TaskOf(w.cog, w.cog.order, p) == Some(t)
    requires t in w.cog.tasks && w.cog.tasks[t].process == Some(p) && w.cog.tasks[t].state == TaskRunning
    ensures TaskCompletes(w, p).1 <==> Unstartable(w.cog, w.registry, p)
  {
    hide Inv, Logged, SetTask, UpdateReady, SpawnReady, CheckCompletion, TaskCompletes, TaskOf, ReadyAfter, Readied,
      Evolves, SameBusy, AllStarted, Registered, Named;
    var q := w.cog.tasks[t].plan;
    RunningTaskFacts(w, p, t, g);
    TaskCompletesIs(w, p, t);
    CompletingSteps(w, p, t, g);
    var w2 := UpdateReady(SetTask(w, t, TaskCompleted), q);
    CompletingRegistry(w, t, q);
    SpawningRaises(w, w2, p, t, g);
    if !SpawnReady(w2, q).1 {
      PlanRemains(w, SpawnReady(w2, q).0, q);
      CheckCompletionStep(SpawnReady(w2, q).0, q, {p}, g);
    }
  }

  lemma CompletingRegistry(w: World, t: TaskId, q: PlanId)
    ensures var w2 := UpdateReady(SetTask(w, t, TaskCompleted), q);
      w2.registry == w.registry && (Named(w) ==> Named(w2))
  {}

  lemma FinishRaises(w: World, p: Pid, g: Track)
    requires Inv(w, {p}, {}, g) && p in w.table && w.table[p].state == Running && Named(w)
    ensures Finish(w, p).1.RaisedOut? <==> Unstartable(w.cog, w.registry, p)
  {
    hide Announce, TaskCompletes, FailProcess, Inv, Logged, Evolves, Cleanup, Finish, Unstartable, Named;
    var w1 := Announce(w, p, Completed, ProcessCompleted(p));
    FinishCases(w, p);
    AnnounceStep(w, p, Completed, ProcessCompleted(p), g);
    SameRegistryNamed(w, w1);
    TaskCompletesRaises(w1, p, g);
    CompletedCannotFail(w1, p, g);
  }

  lemma SameRegistryNamed(w: World, r: World)
    requires r.registry == w.registry
    ensures Named(r) <==> Named(w)
  {}

  // ------------------------------------------------------------------
  // run_next
  // ------------------------------------------------------------------

  lemma RunOpRegistry(w: World, p: Pid, op: BodyOp)
    requires Named(w)
    ensures RunOp(w, p, op).0.registry == w.registry
  {
    hide EvaluateWaiting, Permitted, Enqueue, CapabilitiesFor;
  }

  /** A body cannot add definitions. */
  lemma {:induction false} RunOpsRegistry(w: World, p: Pid, ops: seq<BodyOp>)
    requires Named(w)
    ensures RunOps(w, p, ops).0.registry == w.registry
    decreases ops
  {
    hide RunOp;
    if ops != [] {
      RunOpRegistry(w, p, ops[0]);
      RunOpsRegistry(RunOp(w, p, ops[0]).0, p, ops[1..]);
    }
  }

  lemma ExecuteRaises(w: World, p: Pid, body: Body, g: Track)
    requires Inv(w, {p}, {}, g) && p in w.table && w.table[p].state == Ready && Named(w)
    ensures Execute(w, p, body).1.RaisedOut? <==>
      body.end.Returns? && FailureOf(w, p, body).None? && Unstartable(w.cog, w.registry, p)
  {
    hide Inv, Evolves, Begin, RunOps, FailProcess, Finish, Park, Unstartable, Named, Requeued, Retired, Revivable;
    var w0 := Begin(w, p);
    BeginStep(w, p, g);
    BeginKeepsPlans(w, p);
    BeginRegistry(w, p);
    var (w1, ok) := RunOps(w0, p, body.ops);
    RunOpsStep(w0, p, body.ops, g);
    BusyState(w0, w1, p);
    RunOpsKeepsPlans(w0, p, body.ops);
    RunOpsRegistry(w0, p, body.ops);
    SameRegistryNamed(w0, w1);
    var w2 := SetUsage(w1, p, UsageOf(w1, p));
    UsageAside(w1, p, g);
    FailStep(w1, p, g);
    FailStep(w2, p, g);
    FinishRaises(w2, p, g);
  }

  lemma BeginRegistry(w: World, p: Pid)
    ensures Begin(w, p).registry == w.registry && (Named(w) ==> Named(Begin(w, p)))
  {}

  lemma UsageAside(w: World, p: Pid, g: Track)
    requires Inv(w, {p}, {}, g) && Named(w)
    ensures var r := SetUsage(w, p, UsageOf(w, p));
      Inv(r, {p}, {}, g) && Named(r) && r.table == w.table && r.cog == w.cog && r.registry == w.registry
  {
    hide Inv;
    AsideSameCog(w, SetUsage(w, p, UsageOf(w, p)), {p}, g);
  }

  /** `run_next` raises if and only if the next process has used up its budget, or its body
      returns in time and its task's completion leaves a ready task without a definition. */
  lemma RaisesExactlyWhen(w: World, body: Body, g: Track)
    requires Inv(w, {}, {}, g) && Named(w)
    ensures RunNext(w, body).1.RaisedOut? <==> BudgetSpent(w) || LacksDefinition(w, body)
  {
    hide Inv, Evolves, EvaluateWaiting, Execute, FailProcess, Unstartable, FailureOf, Named, CanDispatch;
    var w1 := EvaluateWaiting(w);
    EvaluateStep(w, {}, g);
    if w1.sched.queue != [] {
      var p := w1.sched.queue[0].pid;
      TakeNextStep(w1, g);
      SameRegistryNamed(w, TakeNext(w1));
      assert UsageOf(TakeNext(w1), p) == UsageOf(w1, p);
      FailingCompletedRaises(TakeNext(w1), p);
      ExecuteRaises(TakeNext(w1), p, body, g);
    }
  }

  /** In every run definitions are filed under their names, so the condition above is exact. */
  lemma RaisesInEveryRun(supervised: bool, calls: seq<Call>, body: Body)
    requires Runs.Returns(Boot(supervised), calls)
    ensures var w := Runs.After(Boot(supervised), calls);
      RunNext(w, body).1.RaisedOut? <==> BudgetSpent(w) || LacksDefinition(w, body)
  {
    hide Runs.Returns, Runs.After, RunNext, BudgetSpent, LacksDefinition, Inv, Evolves;
    var k := Track(None, false);
    BootInv(supervised, k);
    BootNamed(supervised);
    EveryRunKeepsInv(Boot(supervised), calls, k);
    NamedStays(Boot(supervised), Runs.After(Boot(supervised), calls));
    RaisesExactlyWhen(Runs.After(Boot(supervised), calls), body, k);
  }

  lemma BootNamed(supervised: bool)
    ensures Named(Boot(supervised))
  {}

  // ------------------------------------------------------------------
  // A run that gets there with its budget intact
  // ------------------------------------------------------------------

  /** Task b needs task a, and its definition is not registered. */
  const TwoSpecs := [TaskSpec("a", "worker", [], 0), TaskSpec("b", "ghost", ["a"], 0)]

  const TaskA := Task(0, "worker", [], 0, TaskReady, None)
  const TaskB := Task(0, "ghost", [0], 0, TaskPending, None)

  /** A goal being planned, and one definition. */
  function GoalPlanned(): World {
    StartPlanning(CreateGoal(Register(Boot(false), Retriable).0, 0), 0).0
  }

  function TwoTasks(): World {
    CreatePlan(GoalPlanned(), 0, TwoSpecs, 0, 0).0
  }

  function TwoTasksExecuted(): World {
    SpawnReady(TwoTasks(), 0).0
  }

  lemma GoalPlannedIs()
    ensures var w := GoalPlanned();
      && w.cog == Cognition(map[0 := GoalPlanning], map[], map[], [])
      && w.table == map[] && w.sched == EmptySched && w.svc == Boot(false).svc
      && w.registry == map["worker" := Retriable] && w.unused == 0
  {}

  lemma TwoNewTasks()
    ensures NewIds(0, 2) == [0, 1]
    ensures NewTask(TwoSpecs, 0, 0, 0) == TaskA.(state := TaskPending) && NewTask(TwoSpecs, 1, 0, 0) == TaskB
  {
    assert IndexOf(TwoSpecs, "a") == 0;
    assert NewTask(TwoSpecs, 0, 0, 0).deps == [] && NewTask(TwoSpecs, 1, 0, 0).deps == [0];
  }

  lemma TwoTasksAdded(c: Cognition)
    requires c == Cognition(map[0 := GoalPlanning], map[], map[], [])
    ensures AddPlan(c, 0, TwoSpecs, 0, 0) ==
      Cognition(c.goals, map[0 := Plan(0, [0, 1], PlanActive)], map[0 := TaskA.(state := TaskPending), 1 := TaskB],
        [0, 1])
  {
    TwoNewTasks();
    hide NewTask, NewIds;
    assert AddPlan(c, 0, TwoSpecs, 0, 0).tasks == map[0 := TaskA.(state := TaskPending), 1 := TaskB];
  }

  lemma FirstIsReady(c: Cognition)
    requires c.tasks == map[0 := TaskA.(state := TaskPending), 1 := TaskB]
    ensures Readied(c, [0, 1]) == c.(tasks := map[0 := TaskA, 1 := TaskB])
  {
    assert BecomesReady(c, 0) && !BecomesReady(c, 1) by { assert 0 in c.tasks[1].deps; }
    hide BecomesReady;
    assert Readied(c, [0, 1]).tasks == map[0 := TaskA, 1 := TaskB];
  }

  lemma CreatePlanFrame(w: World, g: GoalId, specs: seq<TaskSpec>, plan: PlanId, base: TaskId)
    requires g in w.cog.goals && w.cog.goals[g] == GoalPlanning
    ensures var (r, raised) := CreatePlan(w, g, specs, plan, base); !raised && r == w.(cog := r.cog, log := r.log)
  {
    hide AddPlan, Readied, ReadyEvents;
  }

  lemma TwoTasksAre()
    ensures var w := TwoTasks();
      && w.cog == Cognition(map[0 := GoalInProgress], map[0 := Plan(0, [0, 1], PlanActive)],
           map[0 := TaskA, 1 := TaskB], [0, 1])
      && w == GoalPlanned().(cog := w.cog, log := w.log) && !CreatePlan(GoalPlanned(), 0, TwoSpecs, 0, 0).1
  {
    hide GoalPlanned, AddPlan, Readied, CreatePlan;
    var w := GoalPlanned();
    GoalPlannedIs();
    CreatePlanFrame(w, 0, TwoSpecs, 0, 0);
    TwoTasksAdded(w.cog);
    var c := AddPlan(w.cog, 0, TwoSpecs, 0, 0).(goals := map[0 := GoalInProgress]);
    FirstIsReady(c);
    assert w.cog.goals[0 := GoalInProgress] == map[0 := GoalInProgress];
    CreatedIs(w, 0, TwoSpecs, 0, 0);
  }

  lemma TwoTasksExecutedAre()
    ensures var w := TwoTasksExecuted();
      && w.cog.tasks == map[0 := TaskA.(state := TaskRunning, process := Some(0)), 1 := TaskB]
      && w.cog.plans == map[0 := Plan(0, [0, 1], PlanActive)] && w.cog.order == [0, 1]
      && w.table == map[0 := Process.Process(Ready, Retriable, Retriable.budget, Some(0))]
      && w.sched.queue == [Entry(0, 1, 0)] && w.sched.waiting == []
      && w.svc.usage == map[] && w.registry == map["worker" := Retriable] && !SpawnReady(TwoTasks(), 0).1
  {
    hide TwoTasks, GoalPlanned, StartTask, CapabilitiesFor, ReadyTasks, StartTasks;
    var w := TwoTasks();
    TwoTasksAre();
    GoalPlannedIs();
    OnlyAIsReady(w.cog);
    OneStarted(w);
    StartsOnlyA(w);
  }

  lemma OnlyAIsReady(c: Cognition)
    requires c.tasks == map[0 := TaskA, 1 := TaskB]
    ensures ReadyTasks(c, [0, 1]) == [0]
  {
    assert [0, 1][1..] == [1] && ReadyTasks(c, [1]) == [];
  }

  lemma StartsOnlyA(w: World)
    requires w.cog.tasks == map[0 := TaskA, 1 := TaskB] && w.registry == map["worker" := Retriable]
    ensures StartTasks(w, 0, [0]) == (StartTask(w, 0, Retriable, 0), false)
  {
    hide StartTask;
    assert [0][1..] == [];
  }

  lemma OneStarted(w: World)
    requires w.cog.tasks == map[0 := TaskA, 1 := TaskB] && w.table == map[] && w.sched == EmptySched
    requires w.svc.usage == map[] && w.unused == 0 && w.registry == map["worker" := Retriable]
    ensures var r := StartTask(w, 0, Retriable, 0);
      && r.cog.tasks == map[0 := TaskA.(state := TaskRunning, process := Some(0)), 1 := TaskB]
      && r.cog.plans == w.cog.plans && r.cog.order == w.cog.order
      && r.table == map[0 := Process.Process(Ready, Retriable, Retriable.budget, Some(0))]
      && r.sched.queue == [Entry(0, 1, 0)] && r.sched.waiting == [] && r.svc.usage == map[] && r.registry == w.registry
  {
    hide CapabilitiesFor;
  }

  lemma TwoTasksKeepInv()
    ensures Inv(TwoTasksExecuted(), {}, {}, Track(None, false)) && Named(TwoTasksExecuted())
  {
    TwoSpecsAreClean();
    GoalPlannedIs();
    TwoTasksAre();
    TwoTasksExecutedAre();
    hide Inv, CreatePlan, SpawnReady, CleanSpecs, Evolves;
    var k := Track(None, false);
    BootInv(false, k);
    var w1 := Register(Boot(false), Retriable).0;
    RegisterStep(Boot(false), Retriable, k);
    CreateGoalStep(w1, 0, k);
    StartPlanningStep(CreateGoal(w1, 0), 0, k);
    CreatePlanStep(GoalPlanned(), 0, TwoSpecs, 0, 0, k);
    ExecutePlanStep(TwoTasks(), 0, k);
  }

  lemma TwoSpecsAreClean()
    ensures CleanSpecs(TwoSpecs)
  {
    forall i, n | 0 <= i < |TwoSpecs| && n in TwoSpecs[i].dependencies
      ensures exists j :: 0 <= j < |TwoSpecs| && TwoSpecs[j].name == n
    {
      assert TwoSpecs[0].name == n;
    }
  }

  lemma NextCannotStart(c: Cognition, registry: map<string, Definition>)
    requires c.tasks == map[0 := TaskA.(state := TaskRunning, process := Some(0)), 1 := TaskB]
    requires c.plans == map[0 := Plan(0, [0, 1], PlanActive)] && c.order == [0, 1] && "ghost" !in registry
    ensures Unstartable(c, registry, 0)
  {
    assert TaskOf(c, [0, 1], 0) == Some(0);
    BIsReadyAfterA(c);
    hide ReadyAfter, TaskOf;
    assert 1 in c.plans[0].tasks;
  }

  lemma BIsReadyAfterA(c: Cognition)
    requires c.tasks == map[0 := TaskA.(state := TaskRunning, process := Some(0)), 1 := TaskB]
    ensures ReadyAfter(c, 0, 1)
  {
    var c1 := WithState(c, 0, TaskCompleted);
    assert c1.tasks[1].deps == [0] && c1.tasks[0].state == TaskCompleted;
  }

  lemma ReturnsAtOnce(w: World, p: Pid)
    ensures FailureOf(w, p, Body([], BodyEnd.Returns, false)) == None
  {
    hide Begin;
  }

  /** The process of task a completes within its budget, and `run_next` raises. */
  lemma UnregisteredDefinitionRaises()
    ensures var w := TwoTasksExecuted();
      !BudgetSpent(w) && RunNext(w, Body([], BodyEnd.Returns, false)).1.RaisedOut?
  {
    hide TwoTasksExecuted, Inv, Named, RunNext, Unstartable, EvaluateWaiting, FailureOf, TakeNext;
    var w := TwoTasksExecuted();
    TwoTasksKeepInv();
    TwoTasksExecutedAre();
    NextCannotStart(w.cog, w.registry);
    NothingWaits(w);
    ReturnsAtOnce(TakeNext(w), 0);
    RaisesExactlyWhen(w, Body([], BodyEnd.Returns, false), Track(None, false));
  }

  lemma NothingWaits(w: World)
    requires w.sched.waiting == []
    ensures EvaluateWaiting(w) == w
  {
    assert TrueNow(w) == {};
    NothingSatisfied([]);
  }
}
