/** Goals, plans and tasks: what every step keeps. */
module PlanSafety {
  import opened Common
  import opened Heap
  import opened States
  import opened SchedulerModel
  import opened KernelModel

  function GoalFor(s: PlanState): GoalState {
    match s
    case PlanActive => GoalInProgress
    case PlanCompleted => GoalCompleted
    case PlanFailed => GoalFailed
    case _ => GoalCancelled
  }

  /** A task past PENDING has every dependency completed, has a process exactly from RUNNING on,
      and is running only while its process is alive (or is being retired). */
  ghost predicate TaskOk(c: Cognition, table: map<Pid, Process>, busy: set<Pid>, t: TaskId)
    requires t in c.tasks
  {
    var k := c.tasks[t];
    && k.plan in c.plans && t in c.plans[k.plan].tasks
    && (forall d :: d in k.deps ==> d in c.tasks && c.tasks[d].plan == k.plan)
    && (k.state != TaskPending ==> DepsMet(c, k.deps))
    && k.state != TaskCancelled
    && (k.process.Some? <==> k.state in {TaskRunning, TaskCompleted, TaskFailed})
    && (k.process.Some? ==> k.process.value in table)
    && (k.state == TaskRunning ==> k.process.value in busy || !table[k.process.value].state.IsFinished())
    && (k.state == TaskCompleted ==> table[k.process.value].state == Completed)
  }

  /** The plan's state is what its tasks' states say, and the goal mirrors it. While a plan is
      `closing`, its last task may be complete before the plan is. */
  ghost predicate PlanOk(c: Cognition, q: PlanId, closing: bool)
    requires q in c.plans
  {
    var plan := c.plans[q];
    && (forall i, j :: 0 <= i < j < |plan.tasks| ==> plan.tasks[i] != plan.tasks[j])
    && (forall t :: t in plan.tasks ==> t in c.tasks && c.tasks[t].plan == q)
    && plan.state in {PlanActive, PlanCompleted, PlanFailed}
    && (plan.state == PlanCompleted ==> plan.tasks != [] && AllCompleted(c, plan.tasks))
    && (!closing && plan.tasks != [] && AllCompleted(c, plan.tasks) ==> plan.state == PlanCompleted)
    && (plan.state == PlanFailed <==> exists t :: t in plan.tasks && t in c.tasks && c.tasks[t].state == TaskFailed)
    && plan.goal in c.goals && c.goals[plan.goal] == GoalFor(plan.state)
  }

  ghost predicate CogOk(c: Cognition, table: map<Pid, Process>, busy: set<Pid>, closing: set<PlanId>) {
    && (forall t :: t in c.tasks ==> TaskOk(c, table, busy, t))
    && (forall q :: q in c.plans ==> PlanOk(c, q, q in closing))
    && (forall t :: t in c.tasks <==> t in c.order)
    && (forall t, u ::
          t in c.tasks && u in c.tasks && c.tasks[t].process.Some? &&
          c.tasks[t].process == c.tasks[u].process ==>
          t == u)
    && (forall q, r :: q in c.plans && r in c.plans && c.plans[q].goal == c.plans[r].goal ==> q == r)
  }

  ghost predicate PlansOk(w: World, busy: set<Pid>, closing: set<PlanId>) {
    CogOk(w.cog, w.table, busy, closing)
  }

  // ------------------------------------------------------------------
  // What steps that leave the plans alone need
  // ------------------------------------------------------------------

  /** Completed processes stay completed; live or busy ones stay live or busy. */
  ghost predicate TableGoesOn(table: map<Pid, Process>, busy: set<Pid>, table': map<Pid, Process>, busy': set<Pid>) {
    forall p :: p in table ==>
      && p in table'
      && (table[p].state == Completed ==> table'[p].state == Completed)
      && (p in busy || !table[p].state.IsFinished() ==> p in busy' || !table'[p].state.IsFinished())
  }

  lemma CogFrame(c: Cognition, table: map<Pid, Process>, busy: set<Pid>, table': map<Pid, Process>, busy': set<Pid>,
      closing: set<PlanId>)
    requires CogOk(c, table, busy, closing) && TableGoesOn(table, busy, table', busy')
    ensures CogOk(c, table', busy', closing)
  {
    hide PlanOk, DepsMet;
    forall t | t in c.tasks ensures TaskOk(c, table', busy', t) {
      assert TaskOk(c, table, busy, t);
    }
  }

  /** A process can be let go once no task is still running on it. */
  lemma CogRetire(c: Cognition, table: map<Pid, Process>, p: Pid, closing: set<PlanId>)
    requires CogOk(c, table, {p}, closing)
    requires forall t :: t in c.tasks && c.tasks[t].process == Some(p) ==> c.tasks[t].state != TaskRunning
    ensures CogOk(c, table, {}, closing)
  {
    hide PlanOk, DepsMet;
    forall t | t in c.tasks ensures TaskOk(c, table, {}, t) {
      assert TaskOk(c, table, {p}, t);
    }
  }

  // ------------------------------------------------------------------
  // Finding a process's task
  // ------------------------------------------------------------------

  lemma {:induction false} TaskOfFinds(c: Cognition, ids: seq<TaskId>, p: Pid)
    ensures match TaskOf(c, ids, p)
      case Some(t) => t in ids && t in c.tasks && c.tasks[t].process == Some(p)
      case None => forall t :: t in ids && t in c.tasks ==> c.tasks[t].process != Some(p)
  {
    if ids != [] {
      TaskOfFinds(c, ids[1..], p);
    }
  }

  // ------------------------------------------------------------------
  // Steps
  // ------------------------------------------------------------------

  /** Tasks keep their plan and dependencies, and completed ones stay completed. */
  ghost predicate TasksGoOn(c: Cognition, c': Cognition) {
    && c'.tasks.Keys == c.tasks.Keys && c'.order == c.order && c'.plans == c.plans && c'.goals == c.goals
    && forall t :: t in c.tasks ==>
      && c'.tasks[t].plan == c.tasks[t].plan && c'.tasks[t].deps == c.tasks[t].deps
      && (c.tasks[t].state == TaskCompleted ==> c'.tasks[t].state == TaskCompleted)
  }

  ghost predicate SameEndings(c: Cognition, c': Cognition) {
    forall t :: t in c.tasks && t in c'.tasks ==>
      && (c.tasks[t].state == TaskFailed <==> c'.tasks[t].state == TaskFailed)
      && (c.tasks[t].state == TaskCompleted <==> c'.tasks[t].state == TaskCompleted)
  }

  lemma PlansStay(c: Cognition, c': Cognition, closing: set<PlanId>)
    requires forall q :: q in c.plans ==> PlanOk(c, q, q in closing)
    requires TasksGoOn(c, c') && SameEndings(c, c')
    ensures forall q :: q in c'.plans ==> PlanOk(c', q, q in closing)
  {
    forall q | q in c'.plans ensures PlanOk(c', q, q in closing) {
      assert PlanOk(c, q, q in closing);
      assert AllCompleted(c, c.plans[q].tasks) <==> AllCompleted(c', c.plans[q].tasks);
      if c.plans[q].state == PlanFailed {
        var t :| t in c.plans[q].tasks && t in c.tasks && c.tasks[t].state == TaskFailed;
        assert c'.tasks[t].state == TaskFailed;
      }
    }
  }

  lemma DepsStayMet(c: Cognition, c': Cognition, deps: seq<TaskId>)
    requires TasksGoOn(c, c') && DepsMet(c, deps)
    ensures DepsMet(c', deps)
  {}

  lemma TaskStays(c: Cognition, table: map<Pid, Process>, c': Cognition, table': map<Pid, Process>, busy: set<Pid>,
      t: TaskId)
    requires TasksGoOn(c, c') && t in c.tasks && TaskOk(c, table, busy, t) && c'.tasks[t] == c.tasks[t]
    requires forall p :: p in table ==> p in table' && table'[p] == table[p]
    ensures TaskOk(c', table', busy, t)
  {
    if c.tasks[t].state != TaskPending {
      DepsStayMet(c, c', c.tasks[t].deps);
    }
  }

  lemma ReadiedGoesOn(c: Cognition, ids: seq<TaskId>)
    ensures TasksGoOn(c, Readied(c, ids)) && SameEndings(c, Readied(c, ids))
  {}

  lemma ReadiedTasks(c: Cognition, ids: seq<TaskId>, table: map<Pid, Process>, busy: set<Pid>)
    requires forall t :: t in c.tasks ==> TaskOk(c, table, busy, t)
    ensures forall t :: t in c.tasks ==> TaskOk(Readied(c, ids), table, busy, t)
  {
    hide DepsMet;
    ReadiedGoesOn(c, ids);
    var c' := Readied(c, ids);
    forall t | t in c.tasks ensures TaskOk(c', table, busy, t) {
      if c'.tasks[t] == c.tasks[t] {
        TaskStays(c, table, c', table, busy, t);
      } else {
        DepsStayMet(c, c', c.tasks[t].deps);
      }
    }
  }

  lemma UpdateReadyKeeps(w: World, q: PlanId, busy: set<Pid>, closing: set<PlanId>)
    requires PlansOk(w, busy, closing)
    ensures PlansOk(UpdateReady(w, q), busy, closing)
  {
    hide PlanOk, TaskOk, BecomesReady;
    ReadiedTasks(w.cog, TasksOf(w.cog, q), w.table, busy);
    ReadiedGoesOn(w.cog, TasksOf(w.cog, q));
    PlansStay(w.cog, UpdateReady(w, q).cog, closing);
  }

  /** The task gets process `p`, which is new. */
  function Started(c: Cognition, t: TaskId, p: Pid): Cognition
    requires t in c.tasks
  {
    c.(tasks := c.tasks[t := c.tasks[t].(process := Some(p), state := TaskRunning)])
  }

  lemma StartedGoesOn(c: Cognition, t: TaskId, p: Pid)
    requires t in c.tasks && c.tasks[t].state == TaskReady
    ensures TasksGoOn(c, Started(c, t, p)) && SameEndings(c, Started(c, t, p))
  {}

  lemma NewProcessIsFree(c: Cognition, table: map<Pid, Process>, busy: set<Pid>, p: Pid)
    requires forall u :: u in c.tasks ==> TaskOk(c, table, busy, u)
    requires p !in table
    ensures forall u :: u in c.tasks ==> c.tasks[u].process != Some(p)
  {
    hide DepsMet;
    forall u | u in c.tasks ensures c.tasks[u].process != Some(p) {
      assert TaskOk(c, table, busy, u);
    }
  }

  lemma StartedTasks(c: Cognition, t: TaskId, p: Pid, table: map<Pid, Process>, table': map<Pid, Process>,
      busy: set<Pid>)
    requires forall u :: u in c.tasks ==> TaskOk(c, table, busy, u)
    requires t in c.tasks && c.tasks[t].state == TaskReady
    requires p !in table && p in table' && table' == table[p := table'[p]] && table'[p].state == Ready
    ensures forall u :: u in c.tasks ==> TaskOk(Started(c, t, p), table', busy, u)
  {
    hide DepsMet;
    StartedGoesOn(c, t, p);
    var c' := Started(c, t, p);
    forall u | u in c.tasks ensures TaskOk(c', table', busy, u) {
      assert TaskOk(c, table, busy, u);
      if u != t {
        TaskStays(c, table, c', table', busy, u);
      } else {
        DepsStayMet(c, c', c.tasks[t].deps);
      }
    }
  }

  lemma StartTaskKeeps(w: World, t: TaskId, d: Definition, goal: GoalId, busy: set<Pid>, closing: set<PlanId>)
    requires PlansOk(w, busy, closing) && w.unused !in w.table
    requires t in w.cog.tasks && w.cog.tasks[t].state == TaskReady
    ensures PlansOk(StartTask(w, t, d, goal), busy, closing)
    ensures StartTask(w, t, d, goal).cog == Started(w.cog, t, w.unused)
  {
    hide PlanOk, TaskOk, Enqueue, CapabilitiesFor;
    var r := StartTask(w, t, d, goal);
    assert r.cog == Started(w.cog, t, w.unused);
    StartedTasks(w.cog, t, w.unused, w.table, r.table, busy);
    StartedGoesOn(w.cog, t, w.unused);
    NewProcessIsFree(w.cog, w.table, busy, w.unused);
    PlansStay(w.cog, r.cog, closing);
  }

  lemma PlansAfterCompletion(c: Cognition, t: TaskId)
    requires forall q :: q in c.plans ==> PlanOk(c, q, false)
    requires t in c.tasks && c.tasks[t].state == TaskRunning && c.tasks[t].plan in c.plans
    ensures var c' := WithState(c, t, TaskCompleted);
      forall q :: q in c'.plans ==> PlanOk(c', q, q in {c.tasks[t].plan})
  {
    var c' := WithState(c, t, TaskCompleted);
    var mine := c.tasks[t].plan;
    forall q | q in c'.plans ensures PlanOk(c', q, q in {mine}) {
      assert PlanOk(c, q, false);
      if q != mine {
        assert t !in c.plans[q].tasks;
        assert AllCompleted(c, c.plans[q].tasks) <==> AllCompleted(c', c.plans[q].tasks);
      }
      if c.plans[q].state == PlanFailed {
        var u :| u in c.plans[q].tasks && u in c.tasks && c.tasks[u].state == TaskFailed;
        assert c'.tasks[u].state == TaskFailed;
      }
    }
  }

  /** The process's task completes; its plan may then be due for closing. */
  lemma SetCompletedKeeps(w: World, t: TaskId, busy: set<Pid>)
    requires PlansOk(w, busy, {})
    requires t in w.cog.tasks && w.cog.tasks[t].state == TaskRunning
    requires w.cog.tasks[t].process.Some? && w.cog.tasks[t].process.value in w.table
    requires w.table[w.cog.tasks[t].process.value].state == Completed
    ensures PlansOk(SetTask(w, t, TaskCompleted), busy, {w.cog.tasks[t].plan})
  {
    hide PlanOk, AllCompleted, DepsMet, TaskOk;
    assert t in w.cog.tasks ==> w.cog.tasks[t].plan in w.cog.plans by { TaskPlan(w.cog, w.table, busy, t); }
    PlansAfterCompletion(w.cog, t);
    CompletedTasks(w.cog, w.table, busy, t);
  }

  lemma TaskPlan(c: Cognition, table: map<Pid, Process>, busy: set<Pid>, t: TaskId)
    requires t in c.tasks && TaskOk(c, table, busy, t)
    ensures c.tasks[t].plan in c.plans
  {}

  lemma CompletedTasks(c: Cognition, table: map<Pid, Process>, busy: set<Pid>, t: TaskId)
    requires forall u :: u in c.tasks ==> TaskOk(c, table, busy, u)
    requires t in c.tasks && c.tasks[t].state == TaskRunning
    requires c.tasks[t].process.Some? && c.tasks[t].process.value in table
    requires table[c.tasks[t].process.value].state == Completed
    ensures forall u :: u in c.tasks ==> TaskOk(WithState(c, t, TaskCompleted), table, busy, u)
  {
    hide DepsMet;
    var c' := WithState(c, t, TaskCompleted);
    assert TasksGoOn(c, c');
    forall u | u in c.tasks ensures TaskOk(c', table, busy, u) {
      assert TaskOk(c, table, busy, u);
      if u != t {
        TaskStays(c, table, c', table, busy, u);
      } else {
        DepsStayMet(c, c', c.tasks[t].deps);
      }
    }
  }

  /** Closing a plan together with its goal. */
  function Closed(c: Cognition, q: PlanId, ps: PlanState): Cognition
    requires q in c.plans
  {
    c.(plans := c.plans[q := c.plans[q].(state := ps)], goals := c.goals[c.plans[q].goal := GoalFor(ps)])
  }

  lemma ClosedTasks(c: Cognition, table: map<Pid, Process>, busy: set<Pid>, q: PlanId, ps: PlanState)
    requires q in c.plans
    requires forall t :: t in c.tasks ==> TaskOk(c, table, busy, t)
    ensures forall t :: t in c.tasks ==> TaskOk(Closed(c, q, ps), table, busy, t)
  {
    forall t | t in c.tasks ensures TaskOk(Closed(c, q, ps), table, busy, t) {
      assert DepsMet(c, c.tasks[t].deps) <==> DepsMet(Closed(c, q, ps), c.tasks[t].deps);
    }
  }

  lemma ClosedOthers(c: Cognition, q: PlanId, ps: PlanState, r: PlanId, closing: bool)
    requires q in c.plans && r in c.plans && r != q && PlanOk(c, r, closing)
    requires c.plans[r].goal != c.plans[q].goal
    ensures PlanOk(Closed(c, q, ps), r, closing)
  {
    assert AllCompleted(c, c.plans[r].tasks) <==> AllCompleted(Closed(c, q, ps), c.plans[r].tasks);
  }

  lemma CloseCompletedPlan(c: Cognition, q: PlanId)
    requires q in c.plans && PlanOk(c, q, true)
    requires c.plans[q].tasks != [] && AllCompleted(c, c.plans[q].tasks)
    ensures c.plans[q].state in {PlanActive, PlanCompleted}
    ensures PlanOk(Closed(c, q, PlanCompleted), q, false)
  {
    assert AllCompleted(Closed(c, q, PlanCompleted), c.plans[q].tasks);
  }

  /** Everything but plan `q` is in order. */
  ghost predicate CogApart(c: Cognition, table: map<Pid, Process>, busy: set<Pid>, q: PlanId) {
    && (forall t :: t in c.tasks ==> TaskOk(c, table, busy, t))
    && (forall p :: p in c.plans && p != q ==> PlanOk(c, p, false))
    && (forall t :: t in c.tasks <==> t in c.order)
    && (forall t, u ::
          t in c.tasks && u in c.tasks && c.tasks[t].process.Some? &&
          c.tasks[t].process == c.tasks[u].process ==>
          t == u)
    && (forall p, r :: p in c.plans && r in c.plans && c.plans[p].goal == c.plans[r].goal ==> p == r)
  }

  lemma ClosedKeeps(c: Cognition, table: map<Pid, Process>, busy: set<Pid>, q: PlanId, ps: PlanState)
    requires CogApart(c, table, busy, q) && q in c.plans
    requires PlanOk(Closed(c, q, ps), q, false)
    ensures CogOk(Closed(c, q, ps), table, busy, {})
  {
    hide PlanOk, TaskOk;
    ClosedTasks(c, table, busy, q, ps);
    forall p | p in c.plans ensures PlanOk(Closed(c, q, ps), p, false) {
      if p != q {
        ClosedOthers(c, q, ps, p, false);
      }
    }
  }

  lemma CheckCompletionKeeps(w: World, q: PlanId, busy: set<Pid>)
    requires PlansOk(w, busy, {q}) && q in w.cog.plans
    ensures var (r, raised) := CheckCompletion(w, q);
      && !raised && PlansOk(r, busy, {}) && w == r.(cog := w.cog, log := w.log)
      && r.cog == if w.cog.plans[q].tasks != [] && AllCompleted(w.cog, w.cog.plans[q].tasks)
                  then Closed(w.cog, q, PlanCompleted) else w.cog
  {
    hide TaskOk, AllCompleted, PlanOk, Closed;
    var plan := w.cog.plans[q];
    assert PlanOk(w.cog, q, true);
    CheckCompletionIs(w, q);
    if plan.tasks != [] && AllCompleted(w.cog, plan.tasks) {
      CloseCompletedPlan(w.cog, q);
      ClosedKeeps(w.cog, w.table, busy, q, PlanCompleted);
    } else {
      NothingToClose(w.cog, q);
    }
  }

  lemma NothingToClose(c: Cognition, q: PlanId)
    requires q in c.plans && PlanOk(c, q, true)
    requires c.plans[q].tasks == [] || !AllCompleted(c, c.plans[q].tasks)
    ensures PlanOk(c, q, false)
  {}

  lemma CheckCompletionIs(w: World, q: PlanId)
    requires q in w.cog.plans && PlanOk(w.cog, q, true)
    ensures var (r, raised) := CheckCompletion(w, q);
      && !raised && w == r.(cog := w.cog, log := w.log)
      && r.cog == if w.cog.plans[q].tasks != [] && AllCompleted(w.cog, w.cog.plans[q].tasks)
                  then Closed(w.cog, q, PlanCompleted) else w.cog
  {
    if w.cog.plans[q].tasks != [] && AllCompleted(w.cog, w.cog.plans[q].tasks) {
      CloseCompletedPlan(w.cog, q);
    }
  }

  lemma OtherPlansAfterFailure(c: Cognition, t: TaskId, p: PlanId)
    requires t in c.tasks && p in c.plans && p != c.tasks[t].plan && PlanOk(c, p, false)
    ensures PlanOk(WithState(c, t, TaskFailed), p, false)
  {
    var c' := WithState(c, t, TaskFailed);
    assert t !in c.plans[p].tasks;
    assert AllCompleted(c, c.plans[p].tasks) <==> AllCompleted(c', c.plans[p].tasks);
    if c.plans[p].state == PlanFailed {
      var u :| u in c.plans[p].tasks && u in c.tasks && c.tasks[u].state == TaskFailed;
      assert c'.tasks[u].state == TaskFailed;
    }
  }

  /** What failing a task does: the task, its plan and the goal are FAILED. */
  function FailedCog(c: Cognition, t: TaskId): Cognition
    requires t in c.tasks && c.tasks[t].plan in c.plans
  {
    Closed(WithState(c, t, TaskFailed), c.tasks[t].plan, PlanFailed)
  }

  lemma OwnPlanAfterFailure(c: Cognition, t: TaskId)
    requires t in c.tasks && c.tasks[t].state in {TaskRunning, TaskFailed}
    requires c.tasks[t].plan in c.plans && t in c.plans[c.tasks[t].plan].tasks && PlanOk(c, c.tasks[t].plan, false)
    ensures c.plans[c.tasks[t].plan].state in {PlanActive, PlanFailed}
    ensures PlanOk(FailedCog(c, t), c.tasks[t].plan, false)
  {
    var q := c.tasks[t].plan;
    var c' := FailedCog(c, t);
    assert !AllCompleted(c, c.plans[q].tasks) && !AllCompleted(c', c.plans[q].tasks);
    assert t in c'.plans[q].tasks && c'.tasks[t].state == TaskFailed;
  }

  lemma FailedTasks(c: Cognition, table: map<Pid, Process>, busy: set<Pid>, t: TaskId)
    requires forall u :: u in c.tasks ==> TaskOk(c, table, busy, u)
    requires t in c.tasks && c.tasks[t].state in {TaskRunning, TaskFailed}
    ensures forall u :: u in c.tasks ==> TaskOk(WithState(c, t, TaskFailed), table, busy, u)
  {
    hide DepsMet;
    var c' := WithState(c, t, TaskFailed);
    assert TasksGoOn(c, c');
    forall u | u in c.tasks ensures TaskOk(c', table, busy, u) {
      assert TaskOk(c, table, busy, u);
      if u != t {
        TaskStays(c, table, c', table, busy, u);
      } else {
        DepsStayMet(c, c', c.tasks[t].deps);
      }
    }
  }

  lemma FailedApart(c: Cognition, table: map<Pid, Process>, busy: set<Pid>, t: TaskId)
    requires CogOk(c, table, busy, {}) && t in c.tasks && c.tasks[t].state in {TaskRunning, TaskFailed}
    ensures CogApart(WithState(c, t, TaskFailed), table, busy, c.tasks[t].plan)
  {
    hide TaskOk, PlanOk;
    FailedTasks(c, table, busy, t);
    forall p | p in c.plans && p != c.tasks[t].plan ensures PlanOk(WithState(c, t, TaskFailed), p, false) {
      OtherPlansAfterFailure(c, t, p);
    }
  }

  lemma FailedKeeps(c: Cognition, table: map<Pid, Process>, busy: set<Pid>, t: TaskId)
    requires CogOk(c, table, busy, {}) && t in c.tasks && c.tasks[t].state in {TaskRunning, TaskFailed}
    ensures c.tasks[t].plan in c.plans && CogOk(FailedCog(c, t), table, busy, {})
    ensures c.plans[c.tasks[t].plan].state in {PlanActive, PlanFailed}
    ensures c.plans[c.tasks[t].plan].goal in c.goals
    ensures c.goals[c.plans[c.tasks[t].plan].goal] == GoalFor(c.plans[c.tasks[t].plan].state)
  {
    hide DepsMet, AllCompleted;
    assert TaskOk(c, table, busy, t) && PlanOk(c, c.tasks[t].plan, false);
    OwnPlanAfterFailure(c, t);
    FailedApart(c, table, busy, t);
    ClosedKeeps(WithState(c, t, TaskFailed), table, busy, c.tasks[t].plan, PlanFailed);
  }

  lemma TaskFailsIs(w: World, p: Pid, t: TaskId)
    requires TaskOf(w.cog, w.cog.order, p) == Some(t)
    requires t in w.cog.tasks && w.cog.tasks[t].state in {TaskRunning, TaskFailed} && w.cog.tasks[t].plan in w.cog.plans
    requires var plan := w.cog.plans[w.cog.tasks[t].plan];
      plan.state in {PlanActive, PlanFailed} && plan.goal in w.cog.goals
        && w.cog.goals[plan.goal] == GoalFor(plan.state)
    ensures var (r, raised) := TaskFails(w, p);
      !raised && r.cog == FailedCog(w.cog, t) && w == r.(cog := w.cog, log := w.log)
  {}

  /** `on_process_failed` never raises, and no task is left running on the process. */
  lemma TaskFailsKeeps(w: World, p: Pid, busy: set<Pid>)
    requires PlansOk(w, busy, {}) && p in w.table && w.table[p].state != Completed
    ensures var (r, raised) := TaskFails(w, p);
      && !raised && PlansOk(r, busy, {}) && w == r.(cog := w.cog, log := w.log)
      && (forall t :: t in r.cog.tasks && r.cog.tasks[t].process == Some(p) ==> r.cog.tasks[t].state == TaskFailed)
  {
    hide PlanOk, DepsMet, TaskFails;
    TaskOfFinds(w.cog, w.cog.order, p);
    match TaskOf(w.cog, w.cog.order, p) {
      case None =>
        NoTaskFails(w, p);
      case Some(t) =>
        assert TaskOk(w.cog, w.table, busy, t);
        FailedKeeps(w.cog, w.table, busy, t);
        TaskFailsIs(w, p, t);
    }
  }

  lemma NoTaskFails(w: World, p: Pid)
    requires TaskOf(w.cog, w.cog.order, p) == None
    ensures TaskFails(w, p) == (w, false)
  {}

  // ------------------------------------------------------------------
  // New goals and plans
  // ------------------------------------------------------------------

  /** New ids, as uuid4 gives them. */
  ghost predicate FreshIds(c: Cognition, plan: PlanId, base: TaskId, n: nat) {
    plan !in c.plans && forall t :: t in c.tasks ==> t < base || t >= base + n
  }

  lemma {:induction false} IndexOfFinds(specs: seq<TaskSpec>, name: string)
    requires exists j :: 0 <= j < |specs| && specs[j].name == name
    ensures IndexOf(specs, name) < |specs| && specs[IndexOf(specs, name)].name == name
  {
    if specs[0].name != name {
      var j :| 0 <= j < |specs| && specs[j].name == name;
      assert specs[1..][j - 1].name == name;
      IndexOfFinds(specs[1..], name);
    }
  }

  lemma NewDepsInRange(specs: seq<TaskSpec>, i: nat, base: TaskId, plan: PlanId)
    requires CleanSpecs(specs) && i < |specs|
    ensures forall d :: d in NewTask(specs, i, base, plan).deps ==> base <= d < base + |specs|
  {
    forall d | d in NewTask(specs, i, base, plan).deps ensures base <= d < base + |specs| {
      var k :| 0 <= k < |specs[i].dependencies| && NewTask(specs, i, base, plan).deps[k] == d;
      assert specs[i].dependencies[k] in specs[i].dependencies;
      IndexOfFinds(specs, specs[i].dependencies[k]);
    }
  }

  /** The plan together with its goal in progress. */
  function PlannedCog(c: Cognition, g: GoalId, specs: seq<TaskSpec>, plan: PlanId, base: TaskId): Cognition {
    AddPlan(c, g, specs, plan, base).(goals := c.goals[g := GoalInProgress])
  }

  /** `c'` is `c` with the new plan, its tasks and its goal in progress. */
  ghost predicate Extends(c: Cognition, c': Cognition, g: GoalId, specs: seq<TaskSpec>, plan: PlanId, base: TaskId) {
    && (forall t :: t in c'.tasks <==> t in c.tasks || base <= t < base + |specs|)
    && (forall t :: t in c.tasks ==> t in c'.tasks && c'.tasks[t] == c.tasks[t])
    && (forall t :: base <= t < base + |specs| ==> t in c'.tasks && c'.tasks[t] == NewTask(specs, t - base, base, plan))
    && c'.plans == c.plans[plan := Plan(g, NewIds(base, |specs|), PlanActive)]
    && c'.order == c.order + NewIds(base, |specs|)
    && c'.goals == c.goals[g := GoalInProgress]
  }

  lemma PlannedExtends(c: Cognition, g: GoalId, specs: seq<TaskSpec>, plan: PlanId, base: TaskId)
    requires FreshIds(c, plan, base, |specs|)
    ensures Extends(c, PlannedCog(c, g, specs, plan, base), g, specs, plan, base)
  {
    hide NewTask;
  }

  lemma OldTask(c: Cognition, c': Cognition, table: map<Pid, Process>, busy: set<Pid>, t: TaskId)
    requires t in c.tasks && TaskOk(c, table, busy, t)
    requires forall u :: u in c.tasks ==> u in c'.tasks && c'.tasks[u] == c.tasks[u]
    requires forall q :: q in c.plans ==> q in c'.plans && c'.plans[q] == c.plans[q]
    ensures TaskOk(c', table, busy, t)
  {
    assert DepsMet(c, c.tasks[t].deps) ==> DepsMet(c', c.tasks[t].deps);
  }

  lemma PlannedTasks(c: Cognition, c': Cognition, table: map<Pid, Process>, busy: set<Pid>, g: GoalId,
      specs: seq<TaskSpec>, plan: PlanId, base: TaskId)
    requires CogOk(c, table, busy, {}) && CleanSpecs(specs) && FreshIds(c, plan, base, |specs|)
    requires Extends(c, c', g, specs, plan, base)
    ensures forall t :: t in c'.tasks ==> TaskOk(c', table, busy, t)
  {
    hide CleanSpecs, PlanOk, DepsMet, TaskOk, NewTask, NewIds;
    forall t | t in c'.tasks ensures TaskOk(c', table, busy, t) {
      if t in c.tasks {
        OldTask(c, c', table, busy, t);
      } else {
        FreshTask(c', table, busy, g, specs, plan, base, t - base);
      }
    }
  }

  lemma FreshTask(c: Cognition, table: map<Pid, Process>, busy: set<Pid>, g: GoalId, specs: seq<TaskSpec>, plan: PlanId,
      base: TaskId, i: nat)
    requires CleanSpecs(specs) && i < |specs|
    requires plan in c.plans && c.plans[plan] == Plan(g, NewIds(base, |specs|), PlanActive)
    requires forall t :: base <= t < base + |specs| ==>
      t in c.tasks && c.tasks[t] == NewTask(specs, t - base, base, plan)
    ensures TaskOk(c, table, busy, base + i)
  {
    NewDepsInRange(specs, i, base, plan);
    hide CleanSpecs;
    var t: TaskId := base + i;
    assert c.tasks[t] == NewTask(specs, i, base, plan);
  }

  lemma OldPlan(c: Cognition, c': Cognition, g: GoalId, specs: seq<TaskSpec>, plan: PlanId, base: TaskId, q: PlanId)
    requires Extends(c, c', g, specs, plan, base) && FreshIds(c, plan, base, |specs|)
    requires g in c.goals && c.goals[g] == GoalPlanning
    requires q in c.plans && PlanOk(c, q, false)
    ensures PlanOk(c', q, false) && c.plans[q].goal != g
  {
    hide NewTask;
    assert AllCompleted(c, c.plans[q].tasks) <==> AllCompleted(c', c.plans[q].tasks);
  }

  lemma NewPlan(c: Cognition, c': Cognition, g: GoalId, specs: seq<TaskSpec>, plan: PlanId, base: TaskId)
    requires Extends(c, c', g, specs, plan, base)
    ensures PlanOk(c', plan, false)
  {
    var ids := c'.plans[plan].tasks;
    if ids != [] {
      assert ids[0] in ids;
      assert !AllCompleted(c', ids);
    }
  }

  lemma PlannedIndexes(c: Cognition, c': Cognition, g: GoalId, specs: seq<TaskSpec>, plan: PlanId, base: TaskId)
    requires Extends(c, c', g, specs, plan, base)
    requires forall t :: t in c.tasks <==> t in c.order
    requires forall t, u ::
      t in c.tasks && u in c.tasks && c.tasks[t].process.Some? && c.tasks[t].process == c.tasks[u].process ==> t == u
    ensures forall t :: t in c'.tasks <==> t in c'.order
    ensures forall t, u ::
      t in c'.tasks && u in c'.tasks && c'.tasks[t].process.Some? &&
      c'.tasks[t].process == c'.tasks[u].process ==>
      t == u
  {
    assert forall t :: t in c'.order <==> t in c.order || t in NewIds(base, |specs|);
  }

  lemma PlannedPlans(c: Cognition, c': Cognition, g: GoalId, specs: seq<TaskSpec>, plan: PlanId, base: TaskId)
    requires Extends(c, c', g, specs, plan, base) && FreshIds(c, plan, base, |specs|)
    requires g in c.goals && c.goals[g] == GoalPlanning
    requires forall q :: q in c.plans ==> PlanOk(c, q, false)
    requires forall q, r :: q in c.plans && r in c.plans && c.plans[q].goal == c.plans[r].goal ==> q == r
    ensures forall q :: q in c'.plans ==> PlanOk(c', q, false)
    ensures forall q, r :: q in c'.plans && r in c'.plans && c'.plans[q].goal == c'.plans[r].goal ==> q == r
  {
    hide PlanOk, FreshIds, NewTask, NewIds;
    NewPlan(c, c', g, specs, plan, base);
    forall q | q in c.plans ensures PlanOk(c', q, false) && c.plans[q].goal != g {
      OldPlan(c, c', g, specs, plan, base, q);
    }
  }

  lemma PlannedKeeps(c: Cognition, table: map<Pid, Process>, busy: set<Pid>, g: GoalId, specs: seq<TaskSpec>,
      plan: PlanId, base: TaskId)
    requires CogOk(c, table, busy, {}) && CleanSpecs(specs) && FreshIds(c, plan, base, |specs|)
    requires g in c.goals && c.goals[g] == GoalPlanning
    ensures CogOk(PlannedCog(c, g, specs, plan, base), table, busy, {})
  {
    hide TaskOk, PlanOk, CleanSpecs, PlannedCog, FreshIds, Extends, NewTask, NewIds;
    var c' := PlannedCog(c, g, specs, plan, base);
    PlannedExtends(c, g, specs, plan, base);
    PlannedTasks(c, c', table, busy, g, specs, plan, base);
    PlannedIndexes(c, c', g, specs, plan, base);
    PlannedPlans(c, c', g, specs, plan, base);
  }

  lemma GoalElsewhere(c: Cognition, g: GoalId, s: GoalState, q: PlanId)
    requires q in c.plans && PlanOk(c, q, false)
    requires g !in c.goals || c.goals[g] in {GoalCreated, GoalPlanning}
    ensures PlanOk(c.(goals := c.goals[g := s]), q, false)
  {
    assert AllCompleted(c, c.plans[q].tasks) <==> AllCompleted(c.(goals := c.goals[g := s]), c.plans[q].tasks);
  }

  /** A goal without a plan may change state. */
  lemma GoalsKeep(c: Cognition, table: map<Pid, Process>, busy: set<Pid>, g: GoalId, s: GoalState)
    requires CogOk(c, table, busy, {})
    requires g !in c.goals || c.goals[g] in {GoalCreated, GoalPlanning}
    ensures CogOk(c.(goals := c.goals[g := s]), table, busy, {})
  {
    hide PlanOk, TaskOk;
    var c' := c.(goals := c.goals[g := s]);
    forall q | q in c.plans ensures PlanOk(c', q, false) {
      GoalElsewhere(c, g, s, q);
    }
    forall t | t in c.tasks ensures TaskOk(c', table, busy, t) {
      OldTask(c, c', table, busy, t);
    }
  }
}
