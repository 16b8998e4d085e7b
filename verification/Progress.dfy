/** Progress of the plan executor on any kernel, idle or not: while a plan without cyclic
    dependencies is not complete, one of its tasks is running. */
module Progress {
  import opened Common
  import opened Heap
  import opened States
  import opened SchedulerModel
  import opened KernelModel
  import opened PlanSafety
  import opened History
  import opened Correspondence
  import opened Replay
  import opened KernelRuns
  import opened Graph
  import opened Runs

  ghost predicate SomeTaskRuns(c: Cognition, q: PlanId) {
    exists t :: t in TasksOf(c, q) && t in c.tasks && c.tasks[t].state == TaskRunning
  }

  /** No task of the plan depends on a cycle. */
  ghost predicate AllGrounded(c: Cognition, q: PlanId) {
    forall t :: t in TasksOf(c, q) ==> Grounded(c, t)
  }

  lemma IncompleteTask(c: Cognition, ids: seq<TaskId>) returns (t: TaskId)
    requires !AllCompleted(c, ids) && forall t :: t in ids ==> t in c.tasks
    ensures t in ids && t in c.tasks && c.tasks[t].state != TaskCompleted
  {
    t :| t in ids && !(t in c.tasks && c.tasks[t].state == TaskCompleted);
  }

  lemma CogFacts(w: World, busy: set<Pid>, k: Track)
    requires Inv(w, busy, {}, k)
    ensures forall t :: t in w.cog.tasks ==> TaskOk(w.cog, w.table, busy, t)
    ensures forall q :: q in w.cog.plans ==> PlanOk(w.cog, q, false)
  {
    assert PlansOk(w, busy, {});
    hide Inv;
  }

  /** A settled, active, non-empty plan with grounded tasks has one running. */
  lemma SettledPlanRuns(w: World, q: PlanId, busy: set<Pid>, k: Track)
    requires Inv(w, busy, {}, k) && q in w.cog.plans && w.cog.plans[q].state == PlanActive && w.cog.plans[q].tasks != []
    requires Settled(w.cog, q) && AllGrounded(w.cog, q)
    ensures SomeTaskRuns(w.cog, q)
  {
    hide Inv, TaskOk, Grounded, AllCompleted;
    CogFacts(w, busy, k);
    assert PlanOk(w.cog, q, false);
    var t := IncompleteTask(w.cog, w.cog.plans[q].tasks);
    var u := RunnableTaskOf(w, q, t, busy, k);
    TaskInPlan(w, q, u, busy, k);
    assert u in TasksOf(w.cog, q);
    hide DepsMet;
    assert !BecomesReady(w.cog, u) && w.cog.tasks[u].state != TaskReady;
    assert w.cog.tasks[u].state != TaskFailed;
  }

  lemma RunnableTaskOf(w: World, q: PlanId, t: TaskId, busy: set<Pid>, k: Track) returns (u: TaskId)
    requires Inv(w, busy, {}, k) && t in w.cog.tasks && w.cog.tasks[t].plan == q && Grounded(w.cog, t)
      && w.cog.tasks[t].state != TaskCompleted
    ensures u in w.cog.tasks && w.cog.tasks[u].plan == q && w.cog.tasks[u].state != TaskCompleted
      && DepsMet(w.cog, w.cog.tasks[u].deps)
  {
    hide Inv, GroundedWithin, DepsMet, PlanOk, TaskOk;
    DepsInPlan(w, busy, k);
    var n: nat :| GroundedWithin(w.cog, t, n);
    u := SomeTaskCanRun(w.cog, t, n);
  }

  /** Dependencies stay within the plan. */
  lemma DepsInPlan(w: World, busy: set<Pid>, k: Track)
    requires Inv(w, busy, {}, k)
    ensures forall x, d :: x in w.cog.tasks && d in w.cog.tasks[x].deps ==>
      d in w.cog.tasks && w.cog.tasks[d].plan == w.cog.tasks[x].plan
  {
    hide Inv, DepsMet, PlanOk;
    CogFacts(w, busy, k);
    forall x, d | x in w.cog.tasks && d in w.cog.tasks[x].deps
      ensures d in w.cog.tasks && w.cog.tasks[d].plan == w.cog.tasks[x].plan
    {
      assert TaskOk(w.cog, w.table, busy, x);
    }
  }

  lemma TaskInPlan(w: World, q: PlanId, u: TaskId, busy: set<Pid>, k: Track)
    requires Inv(w, busy, {}, k) && q in w.cog.plans && u in w.cog.tasks && w.cog.tasks[u].plan == q
    ensures u in w.cog.plans[q].tasks && w.cog.tasks[u].state != TaskCancelled
  {
    CogFacts(w, busy, k);
    assert TaskOk(w.cog, w.table, busy, u);
  }

  // ------------------------------------------------------------------
  // When a plan settles
  // ------------------------------------------------------------------

  /** No task is overdue: `_update_ready_tasks` would change nothing. */
  ghost predicate UpToDate(c: Cognition, q: PlanId) {
    forall t :: t in TasksOf(c, q) ==> !BecomesReady(c, t)
  }

  /** `create_plan` leaves its plan up to date. */
  lemma CreatedUpToDate(w: World, g: GoalId, specs: seq<TaskSpec>, plan: PlanId, base: TaskId)
    requires !CreatePlan(w, g, specs, plan, base).1
    ensures UpToDate(CreatePlan(w, g, specs, plan, base).0.cog, plan)
  {
    hide AddPlan, UpdateReady;
    var c := AddPlan(w.cog, g, specs, plan, base).(goals := w.cog.goals[g := GoalInProgress]);
    var r := CreatePlan(w, g, specs, plan, base).0;
    CreatedIs(w, g, specs, plan, base);
    UpdatedUpToDate(c, plan);
  }

  lemma CreatedIs(w: World, g: GoalId, specs: seq<TaskSpec>, plan: PlanId, base: TaskId)
    requires !CreatePlan(w, g, specs, plan, base).1
    ensures var c := AddPlan(w.cog, g, specs, plan, base).(goals := w.cog.goals[g := GoalInProgress]);
      CreatePlan(w, g, specs, plan, base).0.cog == Readied(c, TasksOf(c, plan))
  {
    hide Readied, ReadyEvents, NewTask, NewIds;
    assert AddPlan(w.cog, g, specs, plan, base).goals == w.cog.goals;
  }

  lemma UpdatedUpToDate(c: Cognition, q: PlanId)
    ensures UpToDate(Readied(c, TasksOf(c, q)), q)
  {
    var r := Readied(c, TasksOf(c, q));
    forall deps: seq<TaskId> ensures DepsMet(r, deps) <==> DepsMet(c, deps) {
      assert forall d :: d in c.tasks ==> (r.tasks[d].state == TaskCompleted <==> c.tasks[d].state == TaskCompleted);
    }
    hide DepsMet;
  }

  lemma StartedSettles(c: Cognition, c': Cognition, q: PlanId)
    requires q in c.plans && UpToDate(c, q) && AllStarted(c, c', ReadyTasks(c, c.plans[q].tasks))
    requires forall i, j :: 0 <= i < j < |c.plans[q].tasks| ==> c.plans[q].tasks[i] != c.plans[q].tasks[j]
    ensures Settled(c', q)
  {
    ReadyTasksFacts(c, c.plans[q].tasks);
    StartedDeps(c, c', ReadyTasks(c, c.plans[q].tasks));
    hide DepsMet, ReadyTasks;
    forall t | t in TasksOf(c', q) && t in c'.tasks ensures c'.tasks[t].state != TaskReady && !BecomesReady(c', t) {
      assert t in TasksOf(c, q) && t in c.tasks && !BecomesReady(c, t);
    }
  }

  lemma StartedDeps(c: Cognition, c': Cognition, ids: seq<TaskId>)
    requires AllStarted(c, c', ids) && forall t :: t in ids && t in c.tasks ==> c.tasks[t].state == TaskReady
    ensures forall deps: seq<TaskId> :: DepsMet(c', deps) <==> DepsMet(c, deps)
  {
    forall deps: seq<TaskId> ensures DepsMet(c', deps) <==> DepsMet(c, deps) {
      assert forall d :: d in c.tasks ==> (c'.tasks[d].state == TaskCompleted <==> c.tasks[d].state == TaskCompleted);
    }
  }

  /** After `execute_plan` returns for an active, non-empty plan without cycles, one of its tasks
      is running. */
  lemma ExecuteMakesProgress(w: World, q: PlanId, k: Track)
    requires Inv(w, {}, {}, k) && q in w.cog.plans && w.cog.plans[q].state == PlanActive && w.cog.plans[q].tasks != []
    requires UpToDate(w.cog, q) && AllGrounded(w.cog, q) && !SpawnReady(w, q).1
    ensures var r := SpawnReady(w, q).0;
      Inv(r, {}, {}, k) && q in r.cog.plans && r.cog.plans[q].state == PlanActive && SomeTaskRuns(r.cog, q)
  {
    hide Inv, SpawnReady, AllStarted, UpToDate, AllGrounded, Settled, SomeTaskRuns, CogEvolves, ReadyTasks, Evolves,
      SameBusy, Registered;
    var r := SpawnReady(w, q).0;
    SpawnReadyStep(w, q, {}, {}, k);
    EvolvesInPlans(w, r);
    DistinctPlanTasks(w, q, {}, k);
    StartedSettles(w.cog, r.cog, q);
    GroundedLater(w.cog, r.cog, q);
    StartedPlansSame(w.cog, r.cog, ReadyTasks(w.cog, w.cog.plans[q].tasks));
    SettledPlanRuns(r, q, {}, k);
  }

  lemma EvolvesInPlans(w: World, r: World)
    requires Evolves(w, r)
    ensures CogEvolves(w.cog, r.cog)
  {}

  lemma DistinctPlanTasks(w: World, q: PlanId, busy: set<Pid>, k: Track)
    requires Inv(w, busy, {}, k) && q in w.cog.plans
    ensures forall i, j :: 0 <= i < j < |w.cog.plans[q].tasks| ==> w.cog.plans[q].tasks[i] != w.cog.plans[q].tasks[j]
  {
    CogFacts(w, busy, k);
    assert PlanOk(w.cog, q, false);
    hide Inv;
  }

  lemma StartedPlansSame(c: Cognition, c': Cognition, ids: seq<TaskId>)
    requires AllStarted(c, c', ids)
    ensures c'.plans == c.plans
  {}

  lemma GroundedLater(c: Cognition, c': Cognition, q: PlanId)
    requires CogEvolves(c, c') && AllGrounded(c, q) && q in c.plans
    ensures AllGrounded(c', q)
  {
    hide Grounded;
    forall t | t in TasksOf(c', q) ensures Grounded(c', t) {
      assert t in TasksOf(c, q);
      GroundedStays(c, c', t);
    }
  }

  /** After the process of a running task completes, the task's plan, if it was active and has
      no cycles, is COMPLETED or has a task running. */
  lemma CompletionMakesProgress(w: World, p: Pid, t: TaskId, k: Track)
    requires Inv(w, {p}, {}, k) && p in w.table && w.table[p].state == Running && !Finish(w, p).1.RaisedOut?
    requires t in w.cog.tasks && w.cog.tasks[t].process == Some(p) && w.cog.tasks[t].state == TaskRunning
    requires w.cog.tasks[t].plan in w.cog.plans && w.cog.plans[w.cog.tasks[t].plan].state == PlanActive
      && AllGrounded(w.cog, w.cog.tasks[t].plan)
    ensures var q := w.cog.tasks[t].plan;
      var r := Finish(w, p).0;
      && q in r.cog.plans && t in r.cog.tasks && r.cog.tasks[t].state == TaskCompleted
      && (r.cog.plans[q].state == PlanCompleted || (r.cog.plans[q].state == PlanActive && SomeTaskRuns(r.cog, q)))
  {
    hide Inv, Finish, CompletionEffect, AllGrounded, SomeTaskRuns, CogEvolves, Settled, Evolves, Registered, PlanOk,
      TaskOk;
    var q := w.cog.tasks[t].plan;
    var r := Finish(w, p).0;
    FinishStep(w, p, k);
    EvolvesInPlans(w, r);
    CompletedIn(w.cog, r.cog, p, t);
    CogFacts(w, {p}, k);
    CogFacts(r, {}, k);
    TaskInPlan(w, q, t, {p}, k);
    PlanGoesWith(w, r, q, p, t, k);
    GroundedLater(w.cog, r.cog, q);
    if r.cog.plans[q].state == PlanActive {
      SettledPlanRuns(r, q, {}, k);
    }
  }

  lemma CompletedIn(c: Cognition, c': Cognition, p: Pid, t: TaskId)
    requires CompletionEffect(c, c', p) && t in c.tasks && c.tasks[t].process == Some(p)
      && c.tasks[t].state == TaskRunning
    ensures t in c'.tasks && c'.tasks[t].state == TaskCompleted
    ensures c.tasks[t].plan in c.plans && c.plans[c.tasks[t].plan].state == PlanActive ==> Settled(c', c.tasks[t].plan)
    ensures forall u :: u in c.tasks && u in c'.tasks ==>
      (c'.tasks[u].state == TaskFailed <==> c.tasks[u].state == TaskFailed)
    ensures c'.tasks.Keys == c.tasks.Keys
  {
    hide Settled;
  }

  lemma PlanGoesWith(w: World, r: World, q: PlanId, p: Pid, t: TaskId, k: Track)
    requires CogEvolves(w.cog, r.cog) && q in w.cog.plans && w.cog.plans[q].state == PlanActive
    requires PlanOk(w.cog, q, false) && forall x :: x in r.cog.plans ==> PlanOk(r.cog, x, false)
    requires r.cog.tasks.Keys == w.cog.tasks.Keys && t in w.cog.plans[q].tasks
    requires forall u :: u in w.cog.tasks && u in r.cog.tasks ==>
      (r.cog.tasks[u].state == TaskFailed <==> w.cog.tasks[u].state == TaskFailed)
    ensures q in r.cog.plans && r.cog.plans[q].state in {PlanActive, PlanCompleted} && r.cog.plans[q].tasks != []
  {
    hide AllCompleted;
    assert q in r.cog.plans && r.cog.plans[q].tasks == w.cog.plans[q].tasks;
    assert PlanOk(r.cog, q, false);
  }

  // ------------------------------------------------------------------
  // Whole runs
  // ------------------------------------------------------------------

  /** Plan `q` has the same tasks in the same states. */
  ghost predicate SameTasks(c: Cognition, c': Cognition, q: PlanId) {
    && TasksOf(c', q) == TasksOf(c, q)
    && forall t :: t in TasksOf(c, q) ==>
      t in c.tasks && t in c'.tasks && c'.tasks[t].state == c.tasks[t].state && c'.tasks[t].deps == c.tasks[t].deps
  }

  /** Only tasks past PENDING are ever completed. */
  ghost predicate CompletesStarted(c: Cognition, c': Cognition) {
    forall t :: t in c'.tasks && c'.tasks[t].state == TaskCompleted ==> t in c.tasks && c.tasks[t].state != TaskPending
  }

  /** What one call does to every plan that is active after it: nothing, or it starts every task
      that can run, or it creates the plan. */
  ghost predicate Advances(c: Cognition, c': Cognition) {
    && CompletesStarted(c, c')
    && forall q :: q in c'.plans && c'.plans[q].state == PlanActive ==>
      (q in c.plans && SameTasks(c, c', q)) || Settled(c', q) || (q !in c.plans && UpToDate(c', q))
  }

  ghost predicate ActiveUpToDate(c: Cognition) {
    forall q :: q in c.plans && c.plans[q].state == PlanActive ==> UpToDate(c, q)
  }

  lemma SamePlansAdvance(c: Cognition, c': Cognition)
    requires c'.plans == c.plans && c'.tasks == c.tasks && forall q :: q in c.plans ==> PlanOk(c, q, false)
    ensures Advances(c, c')
  {
    hide AllCompleted, Settled, UpToDate;
    forall q | q in c'.plans ensures SameTasks(c, c', q) {
      assert PlanOk(c, q, false);
    }
  }

  lemma UntouchedPlan(w: World, c': Cognition, q: PlanId, r: PlanId, k: Track)
    requires Inv(w, {}, {}, k) && r in w.cog.plans && r != q
    requires CogEvolves(w.cog, c') && OthersSame(w.cog, c', q)
    ensures SameTasks(w.cog, c', r)
  {
    CogFacts(w, {}, k);
    assert PlanOk(w.cog, r, false);
    hide Inv;
  }

  /** Only plan `q` is touched, and it is settled or over afterwards. */
  lemma OnePlanAdvances(w: World, c': Cognition, q: PlanId, k: Track)
    requires Inv(w, {}, {}, k) && CogEvolves(w.cog, c') && OthersSame(w.cog, c', q) && c'.plans.Keys == w.cog.plans.Keys
    requires q in c'.plans && c'.plans[q].state == PlanActive ==> Settled(c', q)
    requires CompletesStarted(w.cog, c')
    ensures Advances(w.cog, c')
  {
    hide Inv, CogEvolves, OthersSame, Settled, SameTasks, UpToDate, CompletesStarted;
    forall r | r in c'.plans && r != q ensures SameTasks(w.cog, c', r) {
      UntouchedPlan(w, c', q, r, k);
    }
  }

  lemma ExecutePlanAdvances(w: World, q: PlanId, k: Track)
    requires Inv(w, {}, {}, k) && ActiveUpToDate(w.cog) && !SpawnReady(w, q).1
    ensures Advances(w.cog, SpawnReady(w, q).0.cog)
    ensures q in w.cog.plans && w.cog.plans[q].state == PlanActive ==> Settled(SpawnReady(w, q).0.cog, q)
  {
    hide Inv, AllStarted, Settled, CogEvolves, ReadyTasks, Evolves, SameBusy, Registered, StartTasks, OthersSame,
      UpToDate, Advances;
    CogFacts(w, {}, k);
    var r := SpawnReady(w, q).0;
    SpawnReadyStep(w, q, {}, {}, k);
    if w.cog.plans[q].state == PlanActive {
      DistinctPlanTasks(w, q, {}, k);
      StartedSettles(w.cog, r.cog, q);
      StartedOthersSame(w, r.cog, q, k);
      EvolvesInPlans(w, r);
      OnePlanAdvances(w, r.cog, q, k);
    } else {
      SamePlansAdvance(w.cog, r.cog);
    }
  }

  lemma StartedOthersSame(w: World, c': Cognition, q: PlanId, k: Track)
    requires Inv(w, {}, {}, k) && q in w.cog.plans && AllStarted(w.cog, c', ReadyTasks(w.cog, w.cog.plans[q].tasks))
    ensures OthersSame(w.cog, c', q) && c'.plans == w.cog.plans && CompletesStarted(w.cog, c')
  {
    hide Inv, ReadyTasks, AllStarted, OthersSame, CompletesStarted;
    DistinctPlanTasks(w, q, {}, k);
    PlanTasksAreIts(w, q, k);
    StartedTouchesPlan(w.cog, c', q);
  }

  lemma PlanTasksAreIts(w: World, q: PlanId, k: Track)
    requires Inv(w, {}, {}, k) && q in w.cog.plans
    ensures forall t :: t in w.cog.plans[q].tasks ==> t in w.cog.tasks && w.cog.tasks[t].plan == q
  {
    hide Inv, TaskOk, AllCompleted;
    CogFacts(w, {}, k);
    assert PlanOk(w.cog, q, false);
  }

  lemma StartedTouchesPlan(c: Cognition, c': Cognition, q: PlanId)
    requires q in c.plans && forall t :: t in c.plans[q].tasks ==> t in c.tasks && c.tasks[t].plan == q
    requires forall i, j :: 0 <= i < j < |c.plans[q].tasks| ==> c.plans[q].tasks[i] != c.plans[q].tasks[j]
    requires AllStarted(c, c', ReadyTasks(c, c.plans[q].tasks))
    ensures OthersSame(c, c', q) && c'.plans == c.plans && CompletesStarted(c, c')
  {
    hide ReadyTasks;
    ReadyTasksFacts(c, c.plans[q].tasks);
  }

  lemma CreateAdvances(w: World, g: GoalId, specs: seq<TaskSpec>, plan: PlanId, base: TaskId, k: Track)
    requires Inv(w, {}, {}, k) && Clean(w, CallCreatePlan(g, specs, plan, base))
      && !CreatePlan(w, g, specs, plan, base).1
    ensures Advances(w.cog, CreatePlan(w, g, specs, plan, base).0.cog)
  {
    hide Inv, CreatePlan, Evolves, Settled, UpToDate, SameTasks, CogEvolves, CleanSpecs;
    var r := CreatePlan(w, g, specs, plan, base).0;
    CreatePlanStep(w, g, specs, plan, base, k);
    CreatedUpToDate(w, g, specs, plan, base);
    EvolvesInPlans(w, r);
    CreatedOnly(w, g, specs, plan, base, k);
    NothingCompleted(w.cog, r.cog);
    forall q | q in w.cog.plans ensures SameTasks(w.cog, r.cog, q) {
      OldPlanUntouched(w, r.cog, q, k);
    }
  }

  /** `create_plan` adds one plan and leaves every existing task alone. */
  lemma CreatedOnly(w: World, g: GoalId, specs: seq<TaskSpec>, plan: PlanId, base: TaskId, k: Track)
    requires Inv(w, {}, {}, k) && FreshIds(w.cog, plan, base, |specs|) && !CreatePlan(w, g, specs, plan, base).1
    ensures var c' := CreatePlan(w, g, specs, plan, base).0.cog;
      && c'.plans.Keys == w.cog.plans.Keys + {plan}
      && (forall t :: t in w.cog.tasks ==> t in c'.tasks && c'.tasks[t] == w.cog.tasks[t])
      && forall t :: t in c'.tasks && t !in w.cog.tasks ==> c'.tasks[t].state != TaskCompleted
  {
    hide Inv, CreatePlan, NewTask, BecomesReady;
    CreatedIs(w, g, specs, plan, base);
    var ids := NewIds(base, |specs|);
    forall i | 0 <= i < |specs| ensures NewTask(specs, i, base, plan).state == TaskPending {
      NewTaskBlank(specs, i, base, plan);
    }
    forall t | t in w.cog.tasks ensures t !in ids {
      assert t < base || t >= base + |specs|;
    }
  }

  /** Whatever is already completed was started. */
  lemma NothingCompleted(c: Cognition, c': Cognition)
    requires forall t :: t in c.tasks ==> t in c'.tasks && c'.tasks[t] == c.tasks[t]
    requires forall t :: t in c'.tasks && t !in c.tasks ==> c'.tasks[t].state != TaskCompleted
    ensures CompletesStarted(c, c')
  {}

  lemma OldPlanUntouched(w: World, c': Cognition, q: PlanId, k: Track)
    requires Inv(w, {}, {}, k) && q in w.cog.plans && CogEvolves(w.cog, c')
    requires forall t :: t in w.cog.tasks ==> t in c'.tasks && c'.tasks[t] == w.cog.tasks[t]
    ensures SameTasks(w.cog, c', q)
  {
    CogFacts(w, {}, k);
    assert PlanOk(w.cog, q, false);
    hide Inv;
  }

  lemma FailureAdvances(w: World, c': Cognition, p: Pid, k: Track)
    requires Inv(w, {}, {}, k) && FailureEffect(w.cog, c', p) && CogEvolves(w.cog, c')
    ensures Advances(w.cog, c')
  {
    hide Inv, CogEvolves, Advances, Settled, FailedCog;
    CogFacts(w, {}, k);
    if forall t :: t in w.cog.tasks ==> w.cog.tasks[t].process != Some(p) {
      SamePlansAdvance(w.cog, c');
    } else {
      var t :| t in w.cog.tasks && w.cog.tasks[t].process == Some(p) && w.cog.tasks[t].plan in w.cog.plans
        && c' == FailedCog(w.cog, t);
      FailedOnly(w.cog, t);
      OnePlanAdvances(w, c', w.cog.tasks[t].plan, k);
    }
  }

  lemma FailedOnly(c: Cognition, t: TaskId)
    requires t in c.tasks && c.tasks[t].plan in c.plans
    ensures var c' := FailedCog(c, t);
      && OthersSame(c, c', c.tasks[t].plan) && c'.plans.Keys == c.plans.Keys && CompletesStarted(c, c')
      && c'.plans[c.tasks[t].plan].state == PlanFailed
  {}

  lemma CompletionAdvances(w: World, c': Cognition, p: Pid, k: Track)
    requires Inv(w, {}, {}, k) && CompletionEffect(w.cog, c', p) && CogEvolves(w.cog, c')
    ensures Advances(w.cog, c')
  {
    hide Inv, CogEvolves, Advances, CompletionEffect, CompletesStarted, Settled, OthersSame, PlanOk, TaskOk;
    if forall t :: t in w.cog.tasks && w.cog.tasks[t].process == Some(p) ==> w.cog.tasks[t].state != TaskRunning {
      CogFacts(w, {}, k);
      NothingCompletes(w.cog, c', p);
      SamePlansAdvance(w.cog, c');
    } else {
      var t :| t in w.cog.tasks && w.cog.tasks[t].process == Some(p) && w.cog.tasks[t].state == TaskRunning;
      TaskHasPlan(w, t, k);
      CompletesOne(w.cog, c', p, t);
      StaysActive(w, c', w.cog.tasks[t].plan, k);
      OnePlanAdvances(w, c', w.cog.tasks[t].plan, k);
    }
  }

  lemma NothingCompletes(c: Cognition, c': Cognition, p: Pid)
    requires CompletionEffect(c, c', p)
    requires forall t :: t in c.tasks && c.tasks[t].process == Some(p) ==> c.tasks[t].state != TaskRunning
    ensures c' == c
  {
    hide Settled, OthersSame;
  }

  lemma CompletesOne(c: Cognition, c': Cognition, p: Pid, t: TaskId)
    requires CompletionEffect(c, c', p) && t in c.tasks && c.tasks[t].process == Some(p)
      && c.tasks[t].state == TaskRunning
    ensures OthersSame(c, c', c.tasks[t].plan) && c'.plans.Keys == c.plans.Keys && CompletesStarted(c, c')
    ensures c.tasks[t].plan in c.plans && c.plans[c.tasks[t].plan].state == PlanActive ==> Settled(c', c.tasks[t].plan)
  {
    hide Settled, OthersSame;
  }

  lemma TaskHasPlan(w: World, t: TaskId, k: Track)
    requires Inv(w, {}, {}, k) && t in w.cog.tasks
    ensures w.cog.tasks[t].plan in w.cog.plans
  {
    CogFacts(w, {}, k);
    hide Inv, PlanOk;
    assert TaskOk(w.cog, w.table, {}, t);
  }

  lemma StaysActive(w: World, c': Cognition, q: PlanId, k: Track)
    requires Inv(w, {}, {}, k) && CogEvolves(w.cog, c') && q in w.cog.plans
    ensures q in c'.plans && (c'.plans[q].state == PlanActive ==> w.cog.plans[q].state == PlanActive)
  {
    CogFacts(w, {}, k);
    assert PlanOk(w.cog, q, false);
    hide Inv;
  }

  /** Running the body of `p`, from a world with the plans of `w0`. */
  lemma DispatchAdvances(w0: World, w: World, p: Pid, body: Body, k: Track)
    requires Inv(w0, {}, {}, k) && Inv(w, {p}, {}, k) && w.cog == w0.cog
    requires p in w.table && w.table[p].state == Ready && !Execute(w, p, body).1.RaisedOut?
    ensures Advances(w0.cog, Execute(w, p, body).0.cog)
  {
    hide Inv, Evolves, Begin, RunOps, FailProcess, Finish, Park, Registered, Decide, StatesAgree, Advances,
      CompletionEffect, FailureEffect, CogEvolves, Requeued, Retired, Revivable, PlanOk;
    var b := Begin(w, p);
    BeginStep(w, p, k);
    var (w1, ok) := RunOps(b, p, body.ops);
    RunOpsStep(b, p, body.ops, k);
    BusyState(b, w1, p);
    RunOpsKeepsPlans(b, p, body.ops);
    BeginKeepsPlans(w, p);
    if !ok || body.end.Raises? {
      FailureStepAdvances(w0, w1, p, k);
    } else if body.end.WaitsFor? {
      ParkKeepsPlans(w1, p, body.end.condition);
      CogFacts(w0, {}, k);
      SamePlansAdvance(w0.cog, w0.cog);
    } else {
      var w2 := SetUsage(w1, p, UsageOf(w1, p));
      AsideSameCog(w1, w2, {p}, k);
      if body.overran {
        FailureStepAdvances(w0, w2, p, k);
      } else {
        FinishStep(w2, p, k);
        EvolvesInPlans(w2, Finish(w2, p).0);
        CompletionAdvances(w0, Finish(w2, p).0.cog, p, k);
      }
    }
  }

  lemma FailureStepAdvances(w0: World, w: World, p: Pid, k: Track)
    requires Inv(w0, {}, {}, k) && Inv(w, {p}, {}, k) && w.cog == w0.cog && p in w.table && w.table[p].state == Running
    ensures Advances(w0.cog, FailProcess(w, p).0.cog)
  {
    hide Inv, Evolves, FailProcess, StatesAgree, Advances, FailureEffect, CogEvolves, Requeued, Retired, Revivable;
    FailStep(w, p, k);
    EvolvesInPlans(w, FailProcess(w, p).0);
    FailureAdvances(w0, FailProcess(w, p).0.cog, p, k);
  }

  lemma ParkKeepsPlans(w: World, p: Pid, c: Condition)
    ensures Park(w, p, c).cog == w.cog
  {
    hide MarkWaiting;
  }

  lemma RunNextAdvances(w: World, body: Body, k: Track)
    requires Inv(w, {}, {}, k) && !RunNext(w, body).1.RaisedOut?
    ensures Advances(w.cog, RunNext(w, body).0.cog)
  {
    hide Inv, Evolves, EvaluateWaiting, Execute, FailProcess, Advances, PlanOk, TaskOk, TakeNext;
    CogFacts(w, {}, k);
    SamePlansAdvance(w.cog, w.cog);
    var w1 := EvaluateWaiting(w);
    EvaluateStep(w, {}, k);
    if w1.sched.queue != [] {
      var p := w1.sched.queue[0].pid;
      TakeNextStep(w1, k);
      FailingCompletedRaises(TakeNext(w1), p);
      if CanDispatch(UsageOf(TakeNext(w1), p), TakeNext(w1).table[p].budget) {
        DispatchAdvances(w, TakeNext(w1), p, body, k);
      }
    }
  }

  predicate TouchesPlans(c: Call) {
    c.CallRunNext? || c.CallCreateGoal? || c.CallStartPlanning? || c.CallCreatePlan? || c.CallExecutePlan?
  }

  lemma OtherCallsKeepPlans(w: World, c: Call)
    requires !TouchesPlans(c)
    ensures Do(w, c).0.cog == w.cog
  {
    hide EvaluateWaiting, Enqueue, CapabilitiesFor;
    if c.CallHasWork? && w.sched.queue == [] {
      ScanKeepsPlans(EvaluateWaiting(w), 0);
    }
  }

  lemma {:induction false} ScanKeepsPlans(w: World, p: Pid)
    ensures ScanMail(w, p).0.cog == w.cog
    decreases w.unused - p
  {
    hide EvaluateWaiting;
    if p < w.unused {
      if p in w.table && w.table[p].state == Waiting && p in w.svc.mail && w.svc.mail[p] != [] {
        var w1 := EvaluateWaiting(w);
        if w1.sched.queue == [] {
          ScanKeepsPlans(w1, p + 1);
        }
      } else {
        ScanKeepsPlans(w, p + 1);
      }
    }
  }

  /** Every sound call leaves each active plan alone, or starts every task of it that can run,
      or creates it. */
  lemma CallAdvances(w: World, c: Call, k: Track)
    requires Inv(w, {}, {}, k) && Sound(w, c) && ActiveUpToDate(w.cog)
    ensures Advances(w.cog, Do(w, c).0.cog)
    ensures c.CallExecutePlan? && !Do(w, c).1 && w.cog.plans[c.plan].state == PlanActive ==>
      Settled(Do(w, c).0.cog, c.plan)
  {
    hide Inv, Advances, PlanOk, TaskOk, ActiveUpToDate, Settled, RunNext, CreatePlan, SpawnReady, Clean;
    CogFacts(w, {}, k);
    if Do(w, c).1 || !TouchesPlans(c) {
      SameOrKept(w, c);
      SamePlansAdvance(w.cog, Do(w, c).0.cog);
    } else {
      match c {
        case CallRunNext(body) => RunNextAdvances(w, body, k);
        case CallCreatePlan(g, specs, plan, base) => CreateAdvances(w, g, specs, plan, base, k);
        case CallExecutePlan(plan) => PlanIsKnown(w, plan); ExecutePlanAdvances(w, plan, k);
        case _ => SamePlansAdvance(w.cog, Do(w, c).0.cog);
      }
    }
  }

  lemma PlanIsKnown(w: World, q: PlanId)
    ensures !SpawnReady(w, q).1 ==> q in w.cog.plans
  {}

  lemma SameOrKept(w: World, c: Call)
    requires (Do(w, c).1 ==> Do(w, c).0 == w) && (Do(w, c).1 || !TouchesPlans(c))
    ensures Do(w, c).0.cog == w.cog
  {
    hide Do;
    if !TouchesPlans(c) {
      OtherCallsKeepPlans(w, c);
    }
  }

  // ------------------------------------------------------------------
  // What every run keeps
  // ------------------------------------------------------------------

  /** A task past PENDING depends on no cycle. */
  ghost predicate StartedGrounded(c: Cognition) {
    forall t :: t in c.tasks && c.tasks[t].state != TaskPending ==> Grounded(c, t)
  }

  /** The plan is over, or every task of it that can run is running or done. */
  ghost predicate SettledOrOver(c: Cognition, q: PlanId) {
    q in c.plans && (c.plans[q].state == PlanActive ==> Settled(c, q))
  }

  lemma SameTasksKeep(w: World, c': Cognition, q: PlanId, k: Track)
    requires Inv(w, {}, {}, k) && q in w.cog.plans && SameTasks(w.cog, c', q)
    ensures UpToDate(w.cog, q) ==> UpToDate(c', q)
    ensures Settled(w.cog, q) ==> Settled(c', q)
  {
    hide Inv, BecomesReady;
    PlanIsClosed(w, q, k);
    forall t | t in TasksOf(w.cog, q) ensures BecomesReady(c', t) <==> BecomesReady(w.cog, t) {
      SameReadiness(w.cog, c', q, t);
    }
  }

  lemma SameReadiness(c: Cognition, c': Cognition, q: PlanId, t: TaskId)
    requires SameTasks(c, c', q) && t in TasksOf(c, q) && forall d :: d in c.tasks[t].deps ==> d in TasksOf(c, q)
    ensures BecomesReady(c', t) <==> BecomesReady(c, t)
  {}

  lemma PlanIsClosed(w: World, q: PlanId, k: Track)
    requires Inv(w, {}, {}, k) && q in w.cog.plans
    ensures forall t :: t in TasksOf(w.cog, q) ==> t in w.cog.tasks && forall d :: d in w.cog.tasks[t].deps ==>
      d in TasksOf(w.cog, q)
  {
    CogFacts(w, {}, k);
    hide Inv, DepsMet, AllCompleted;
    assert PlanOk(w.cog, q, false);
    forall t, d | t in TasksOf(w.cog, q) && t in w.cog.tasks && d in w.cog.tasks[t].deps
      ensures d in TasksOf(w.cog, q)
    {
      assert TaskOk(w.cog, w.table, {}, t);
      assert TaskOk(w.cog, w.table, {}, d);
    }
  }

  lemma AdvanceKeepsUpToDate(w: World, c': Cognition, k: Track)
    requires Inv(w, {}, {}, k) && CogEvolves(w.cog, c') && Advances(w.cog, c') && ActiveUpToDate(w.cog)
    ensures ActiveUpToDate(c')
  {
    hide Inv, CogEvolves, SameTasks, CompletesStarted, UpToDate, Settled;
    forall q | q in c'.plans && c'.plans[q].state == PlanActive ensures UpToDate(c', q) {
      if Settled(c', q) {
        SettledIsUpToDate(c', q);
      } else if q in w.cog.plans {
        StaysActive(w, c', q, k);
        SameTasksKeep(w, c', q, k);
      }
    }
  }

  lemma SettledIsUpToDate(c: Cognition, q: PlanId)
    requires Settled(c, q)
    ensures UpToDate(c, q)
  {
    hide DepsMet;
  }

  lemma AdvanceKeepsSettled(w: World, c': Cognition, q: PlanId, k: Track)
    requires Inv(w, {}, {}, k) && CogEvolves(w.cog, c') && Advances(w.cog, c') && SettledOrOver(w.cog, q)
    ensures SettledOrOver(c', q)
  {
    hide Inv, CogEvolves, SameTasks, CompletesStarted, UpToDate, Settled;
    StaysActive(w, c', q, k);
    if c'.plans[q].state == PlanActive && !Settled(c', q) {
      SameTasksKeep(w, c', q, k);
    }
  }

  lemma AdvanceKeepsGrounded(w: World, r: World, k: Track)
    requires Inv(r, {}, {}, k) && CogEvolves(w.cog, r.cog) && CompletesStarted(w.cog, r.cog) && StartedGrounded(w.cog)
    ensures StartedGrounded(r.cog)
  {
    hide Grounded, PlanOk;
    CogFacts(r, {}, k);
    hide Inv;
    forall t | t in r.cog.tasks && r.cog.tasks[t].state != TaskPending ensures Grounded(r.cog, t) {
      assert TaskOk(r.cog, r.table, {}, t);
      forall d | d in r.cog.tasks[t].deps ensures Grounded(r.cog, d) {
        assert r.cog.tasks[d].state == TaskCompleted;
        SameDeps(w.cog, r.cog);
        GroundedStays(w.cog, r.cog, d);
      }
      GroundedByDeps(r.cog, t);
    }
  }

  lemma SameDeps(c: Cognition, c': Cognition)
    requires CogEvolves(c, c')
    ensures forall t :: t in c.tasks ==> t in c'.tasks && c'.tasks[t].deps == c.tasks[t].deps
  {}

  /** Along every run active plans are up to date, what is settled stays settled, and nothing
      that depends on a cycle ever leaves PENDING. */
  lemma {:induction false} EveryRunAdvances(w: World, calls: seq<Call>, q: PlanId, k: Track)
    requires Inv(w, {}, {}, k) && !k.replays && Runs.Returns(w, calls) && ActiveUpToDate(w.cog)
      && StartedGrounded(w.cog)
    ensures ActiveUpToDate(Runs.After(w, calls).cog) && StartedGrounded(Runs.After(w, calls).cog)
    ensures SettledOrOver(w.cog, q) ==> SettledOrOver(Runs.After(w, calls).cog, q)
    decreases calls
  {
    hide Inv, Evolves, Do, Later, Sound, ActiveUpToDate, StartedGrounded, SettledOrOver, Advances;
    if calls != [] {
      var c := calls[0];
      var w1 := Do(w, c).0;
      CallStep(w, c, k);
      LaterIsSame(w, c, k);
      CallAdvances(w, c, k);
      StepKeeps(w, w1, q, k);
      EveryRunAdvances(w1, calls[1..], q, k);
    }
  }

  lemma StepKeeps(w: World, r: World, q: PlanId, k: Track)
    requires Inv(w, {}, {}, k) && Inv(r, {}, {}, k) && Evolves(w, r) && Advances(w.cog, r.cog)
    requires ActiveUpToDate(w.cog) && StartedGrounded(w.cog)
    ensures ActiveUpToDate(r.cog) && StartedGrounded(r.cog)
    ensures SettledOrOver(w.cog, q) ==> SettledOrOver(r.cog, q)
  {
    hide Inv, CogEvolves, ActiveUpToDate, StartedGrounded, SettledOrOver, CompletesStarted, SameTasks, Settled,
      UpToDate;
    EvolvesInPlans(w, r);
    AdvanceKeepsUpToDate(w, r.cog, k);
    AdvanceKeepsGrounded(w, r, k);
    if SettledOrOver(w.cog, q) {
      AdvanceKeepsSettled(w, r.cog, q, k);
    }
  }

  /** One of the plan's tasks runs on a process that is READY or WAITING. */
  ghost predicate SomeTaskLives(w: World, q: PlanId) {
    exists t :: t in TasksOf(w.cog, q) && t in w.cog.tasks && w.cog.tasks[t].state == TaskRunning
      && w.cog.tasks[t].process.Some?
      && w.cog.tasks[t].process.value in w.table && w.table[w.cog.tasks[t].process.value].state in {Ready, Waiting}
  }

  /** Some task of the plan depends on no cycle and is not complete. */
  ghost predicate SomethingToDo(c: Cognition, q: PlanId) {
    exists t :: t in TasksOf(c, q) && t in c.tasks && Grounded(c, t) && c.tasks[t].state != TaskCompleted
  }

  lemma RunsWhileSomethingToDo(w: World, q: PlanId, k: Track)
    requires Inv(w, {}, {}, k) && StartedGrounded(w.cog)
    requires q in w.cog.plans && w.cog.plans[q].state == PlanActive && Settled(w.cog, q)
    ensures SomeTaskLives(w, q) <==> SomethingToDo(w.cog, q)
  {
    hide Inv, Grounded, TaskOk, PlanOk, Settled;
    if SomethingToDo(w.cog, q) {
      var t :| t in TasksOf(w.cog, q) && t in w.cog.tasks && Grounded(w.cog, t)
        && w.cog.tasks[t].state != TaskCompleted;
      SettledTaskRuns(w, q, t, k);
    }
  }

  lemma SettledTaskRuns(w: World, q: PlanId, t: TaskId, k: Track)
    requires Inv(w, {}, {}, k)
    requires q in w.cog.plans && w.cog.plans[q].state == PlanActive && Settled(w.cog, q)
    requires t in TasksOf(w.cog, q) && t in w.cog.tasks && Grounded(w.cog, t) && w.cog.tasks[t].state != TaskCompleted
    ensures SomeTaskLives(w, q)
  {
    hide Inv, TaskOk, Grounded, AllCompleted, SomeTaskLives;
    CogFacts(w, {}, k);
    assert PlanOk(w.cog, q, false);
    var u := RunnableTaskOf(w, q, t, {}, k);
    TaskInPlan(w, q, u, {}, k);
    assert u in TasksOf(w.cog, q);
    hide DepsMet;
    assert !BecomesReady(w.cog, u) && w.cog.tasks[u].state == TaskRunning;
    RunningLives(w, q, u, k);
  }

  lemma RunningLives(w: World, q: PlanId, u: TaskId, k: Track)
    requires Inv(w, {}, {}, k) && u in TasksOf(w.cog, q) && u in w.cog.tasks && w.cog.tasks[u].state == TaskRunning
    ensures SomeTaskLives(w, q)
  {
    CogFacts(w, {}, k);
    assert TaskOk(w.cog, w.table, {}, u);
    var p := w.cog.tasks[u].process.value;
    assert Consistent(w, {});
    hide Inv, DepsMet, PlanOk;
    assert Placed(w.table[p], p, w.sched, w.svc.mail.Keys, w.svc.caps, {});
  }

  /** Progress, in every run: once `execute_plan` has returned for an active plan, at every later
      point the plan is over, or a task of it is running on a live process exactly while some
      task that depends on no cycle is not complete. So an active plan without cycles never
      stops. */
  lemma PlansMakeProgress(supervised: bool, before: seq<Call>, q: PlanId, later: seq<Call>)
    requires Runs.Returns(Boot(supervised), before)
    requires var w := Runs.After(Boot(supervised), before);
      && q in w.cog.plans && !SpawnReady(w, q).1 && Runs.Returns(SpawnReady(w, q).0, later)
    ensures var w := Runs.After(SpawnReady(Runs.After(Boot(supervised), before), q).0, later);
      && q in w.cog.plans && w.cog.plans[q].state in {PlanActive, PlanCompleted, PlanFailed}
      && (w.cog.plans[q].state == PlanActive ==> (SomeTaskLives(w, q) <==> SomethingToDo(w.cog, q)))
      && (w.cog.plans[q].state == PlanActive && w.cog.plans[q].tasks != [] && AllGrounded(w.cog, q) ==>
           SomeTaskLives(w, q))
  {
    hide Runs.Returns, Runs.After, Inv, Evolves, ActiveUpToDate, StartedGrounded, Settled, SomeTaskLives, SomethingToDo,
      SpawnReady, AllGrounded;
    var k := Track(None, false);
    BootInv(supervised, k);
    BootAdvances(supervised);
    EveryRunKeepsInv(Boot(supervised), before, k);
    EveryRunAdvances(Boot(supervised), before, q, k);
    var w := Runs.After(Boot(supervised), before);
    ExecutedSettles(w, q, k);
    var r := SpawnReady(w, q).0;
    EveryRunKeepsInv(r, later, k);
    EveryRunAdvances(r, later, q, k);
    PlanEnds(Runs.After(r, later), q, k);
  }

  lemma BootAdvances(supervised: bool)
    ensures ActiveUpToDate(Boot(supervised).cog) && StartedGrounded(Boot(supervised).cog)
  {}

  lemma ExecutedSettles(w: World, q: PlanId, k: Track)
    requires Inv(w, {}, {}, k) && ActiveUpToDate(w.cog) && StartedGrounded(w.cog) && q in w.cog.plans
      && !SpawnReady(w, q).1
    ensures var r := SpawnReady(w, q).0;
      Inv(r, {}, {}, k) && ActiveUpToDate(r.cog) && StartedGrounded(r.cog) && SettledOrOver(r.cog, q)
  {
    hide Inv, Evolves, CogEvolves, ActiveUpToDate, StartedGrounded, Settled, SpawnReady, Advances;
    var r := SpawnReady(w, q).0;
    ExecutePlanStep(w, q, k);
    EvolvesInPlans(w, r);
    ExecutePlanAdvances(w, q, k);
    StaysActive(w, r.cog, q, k);
    StepKeeps(w, r, q, k);
  }

  lemma PlanEnds(w: World, q: PlanId, k: Track)
    requires Inv(w, {}, {}, k) && StartedGrounded(w.cog) && SettledOrOver(w.cog, q)
    ensures q in w.cog.plans && w.cog.plans[q].state in {PlanActive, PlanCompleted, PlanFailed}
    ensures w.cog.plans[q].state == PlanActive ==> (SomeTaskLives(w, q) <==> SomethingToDo(w.cog, q))
    ensures w.cog.plans[q].state == PlanActive && w.cog.plans[q].tasks != [] && AllGrounded(w.cog, q) ==>
      SomeTaskLives(w, q)
  {
    hide Inv, StartedGrounded, Settled, SomeTaskLives, AllCompleted, Grounded, TaskOk;
    CogFacts(w, {}, k);
    assert PlanOk(w.cog, q, false);
    if w.cog.plans[q].state == PlanActive {
      RunsWhileSomethingToDo(w, q, k);
      if w.cog.plans[q].tasks != [] && AllGrounded(w.cog, q) {
        var t := IncompleteTask(w.cog, w.cog.plans[q].tasks);
        assert t in TasksOf(w.cog, q);
      }
    }
  }
}
