/** What the log says about tasks, goals and plans: in every run the last event of a task or goal
    gives its state, each event is a legal move from the one before, and a completed plan is one
    that was reported completed. */
module Chronicle {
  import opened Common
  import opened Heap
  import opened States
  import opened SchedulerModel
  import opened KernelModel
  import opened Gating
  import opened PlanSafety
  import opened KernelRuns
  import opened Runs
  import opened PlanLinks

  // ------------------------------------------------------------------
  // Reading the log
  // ------------------------------------------------------------------

  /** The state in the last event of the task. */
  function LastTask(log: seq<Event>, t: TaskId): Option<TaskState> {
    if log == [] then None
    else
      var last := log[|log| - 1];
      if last.TaskEvent? && last.task == t then Some(last.taskState) else LastTask(log[..|log| - 1], t)
  }

  /** The state in the last event of the goal. */
  function LastGoal(log: seq<Event>, g: GoalId): Option<GoalState> {
    if log == [] then None
    else
      var last := log[|log| - 1];
      if last.GoalEvent? && last.goal == g then Some(last.goalState) else LastGoal(log[..|log| - 1], g)
  }

  /** The event is a legal move from the last one of the same task or goal, or creates it. */
  ghost predicate MayFollow(log: seq<Event>, e: Event) {
    match e
    case TaskEvent(t, s) => if LastTask(log, t) == None then s == TaskPending
      else TaskMayMove(LastTask(log, t).value, s)
    case GoalEvent(g, s) => if LastGoal(log, g) == None then s == GoalCreated
      else GoalMayMove(LastGoal(log, g).value, s)
    case _ => true
  }

  ghost predicate Lives(log: seq<Event>) {
    forall i :: 0 <= i < |log| ==> MayFollow(log[..i], log[i])
  }

  lemma LivesSnoc(log: seq<Event>, e: Event)
    requires Lives(log) && MayFollow(log, e)
    ensures Lives(log + [e])
  {
    hide MayFollow;
    var more := log + [e];
    forall i | 0 <= i < |more| ensures MayFollow(more[..i], more[i]) {
      if i < |log| {
        assert more[..i] == log[..i];
      } else {
        assert more[..i] == log;
      }
    }
  }

  lemma LastSnoc(log: seq<Event>, e: Event)
    ensures forall t :: LastTask(log + [e], t) == if e.TaskEvent?
      && e.task == t then Some(e.taskState) else LastTask(log, t)
    ensures forall g :: LastGoal(log + [e], g) == if e.GoalEvent?
      && e.goal == g then Some(e.goalState) else LastGoal(log, g)
  {
    assert (log + [e])[..|log|] == log;
  }

  function TaskStateOf(c: Cognition, t: TaskId): Option<TaskState> {
    if t in c.tasks then Some(c.tasks[t].state) else None
  }

  function GoalStateOf(c: Cognition, g: GoalId): Option<GoalState> {
    if g in c.goals then Some(c.goals[g]) else None
  }

  ghost predicate PlanDone(c: Cognition, q: PlanId) {
    q in c.plans && c.plans[q].state == PlanCompleted
  }

  /** The log tells the states of all tasks and goals and which plans are complete. */
  ghost predicate Tells(log: seq<Event>, c: Cognition) {
    && Lives(log)
    && (forall t: TaskId :: LastTask(log, t) == TaskStateOf(c, t))
    && (forall g: GoalId :: LastGoal(log, g) == GoalStateOf(c, g))
    && (forall q: PlanId :: PlanEvent(q, PlanCompleted) in log <==> PlanDone(c, q))
  }

  ghost predicate Told(w: World) {
    Tells(w.log, w.cog)
  }

  // ------------------------------------------------------------------
  // One more event
  // ------------------------------------------------------------------

  predicate Aloof(e: Event) {
    !e.TaskEvent? && !e.GoalEvent? && !e.PlanEvent?
  }

  lemma TellsAloof(log: seq<Event>, c: Cognition, e: Event)
    requires Tells(log, c) && Aloof(e)
    ensures Tells(log + [e], c)
  {
    LastSnoc(log, e);
    LivesSnoc(log, e);
  }

  lemma TellsTask(log: seq<Event>, c: Cognition, c': Cognition, t: TaskId, s: TaskState)
    requires Tells(log, c) && c'.plans == c.plans && c'.goals == c.goals
    requires if t in c.tasks then TaskMayMove(c.tasks[t].state, s) else s == TaskPending
    requires forall u :: TaskStateOf(c', u) == if u == t then Some(s) else TaskStateOf(c, u)
    ensures Tells(log + [TaskEvent(t, s)], c')
  {
    LastSnoc(log, TaskEvent(t, s));
    hide Lives, LastTask, LastGoal, TaskMayMove;
    assert MayFollow(log, TaskEvent(t, s));
    LivesSnoc(log, TaskEvent(t, s));
  }

  lemma TellsGoal(log: seq<Event>, c: Cognition, g: GoalId, s: GoalState)
    requires Tells(log, c) && if g in c.goals then GoalMayMove(c.goals[g], s) else s == GoalCreated
    ensures Tells(log + [GoalEvent(g, s)], c.(goals := c.goals[g := s]))
  {
    LastSnoc(log, GoalEvent(g, s));
    hide Lives, LastTask, LastGoal, GoalMayMove;
    assert MayFollow(log, GoalEvent(g, s));
    LivesSnoc(log, GoalEvent(g, s));
  }

  /** A plan in a new state, which is reported if it is completion; reporting others says nothing. */
  lemma TellsPlan(log: seq<Event>, c: Cognition, c': Cognition, q: PlanId, reported: seq<Event>)
    requires Tells(log, c) && c'.tasks == c.tasks && c'.goals == c.goals && q in c'.plans && !PlanDone(c, q)
    requires forall p :: p != q ==> (p in c'.plans <==> p in c.plans) && (p in c.plans ==> c'.plans[p] == c.plans[p])
    requires reported == [PlanEvent(q, c'.plans[q].state)] || (reported == [] && c'.plans[q].state != PlanCompleted)
    ensures Tells(log + reported, c')
  {
    if reported == [] {
      assert log + reported == log;
    } else {
      LastSnoc(log, reported[0]);
      LivesSnoc(log, reported[0]);
    }
    hide Lives, LastTask, LastGoal;
  }

  // ------------------------------------------------------------------
  // Steps that concern no task, goal or plan
  // ------------------------------------------------------------------

  ghost predicate Quiet(w: World, r: World) {
    && r.cog == w.cog && w.log <= r.log && forall i :: |w.log| <= i < |r.log| ==> Aloof(r.log[i])
  }

  lemma {:induction false} TellsQuietly(log: seq<Event>, more: seq<Event>, c: Cognition)
    requires Tells(log, c) && forall e :: e in more ==> Aloof(e)
    ensures Tells(log + more, c)
    decreases more
  {
    hide Tells, Aloof;
    if more == [] {
      assert log + more == log;
    } else {
      TellsAloof(log, c, more[0]);
      TellsQuietly(log + [more[0]], more[1..], c);
      assert log + [more[0]] + more[1..] == log + more;
    }
  }

  lemma QuietTold(w: World, r: World)
    requires Told(w) && Quiet(w, r)
    ensures Told(r)
  {
    hide Tells, Aloof;
    var more := r.log[|w.log|..];
    assert r.log == w.log + more;
    TellsQuietly(w.log, more, w.cog);
  }

  lemma QuietTrans(a: World, b: World, c: World)
    requires Quiet(a, b) && Quiet(b, c)
    ensures Quiet(a, c)
  {
    hide Aloof;
    forall i | |a.log| <= i < |c.log| ensures Aloof(c.log[i]) {
      if i < |b.log| {
        assert c.log[i] == b.log[i];
      }
    }
  }

  lemma QuietEvaluate(w: World)
    ensures Quiet(w, EvaluateWaiting(w))
  {
    hide EvaluateWaiting;
    var more := EvaluateWaitingLog(w);
    forall i | |w.log| <= i < |w.log + more| ensures Aloof((w.log + more)[i]) {
      assert (w.log + more)[i] == more[i - |w.log|] && more[i - |w.log|] in more;
    }
  }

  lemma QuietSpawn(w: World, d: Definition, goal: Option<GoalId>, priority: int, needs: set<Pid>)
    ensures Quiet(w, Spawn(w, d, goal, priority, needs))
  {
    hide Enqueue, CapabilitiesFor;
  }

  lemma QuietPut(w: World, key: string, value: Value)
    ensures Quiet(w, PutState(w, key, value))
  {
    hide EvaluateWaiting;
    var w1 := Emit(w.(store := w.store[key := value]), StateChanged(key, value));
    var w2 := Emit(w.(store := w.store[key := value]), StateCreated(key, value));
    QuietEvaluate(w1);
    QuietEvaluate(w2);
    QuietTrans(w, w1, EvaluateWaiting(w1));
    QuietTrans(w, w2, EvaluateWaiting(w2));
  }

  lemma QuietDelete(w: World, key: string)
    ensures Quiet(w, DeleteState(w, key))
  {
    hide EvaluateWaiting;
    var w1 := Emit(w.(store := w.store - {key}), StateDeleted(key));
    QuietEvaluate(w1);
    QuietTrans(w, w1, EvaluateWaiting(w1));
  }

  lemma QuietSend(w: World, to: Pid, message: Value)
    ensures Quiet(w, Send(w, to, message).0)
  {
    hide EvaluateWaiting;
    if to in w.svc.mail {
      var w1 := w.(svc := w.svc.(mail := w.svc.mail[to := w.svc.mail[to] + [message]]));
      var w2 := Emit(w1, MessageReceived(to));
      QuietEvaluate(w2);
      QuietTrans(w, w2, EvaluateWaiting(w2));
    }
  }

  lemma QuietOp(w: World, p: Pid, op: BodyOp)
    ensures Quiet(w, RunOp(w, p, op).0)
  {
    hide EvaluateWaiting, Permitted, Spawn, PutState, DeleteState, Send, MemoryOf, UsageOf, CheckpointsOf, Quiet;
    match op {
      case WriteState(k, v) => QuietPut(w, k, v);
      case EraseState(k) => QuietDelete(w, k);
      case SendTo(to, m) => QuietSend(w, to, m);
      case SpawnChild(d, priority) => QuietChild(w, p, d, priority);
      case _ => QuietOwnOp(w, p, op);
    }
    QuietRefl(w);
  }

  lemma QuietRefl(w: World)
    ensures Quiet(w, w)
  {}

  lemma QuietOwnOp(w: World, p: Pid, op: BodyOp)
    requires op.TakeMessage? || op.Remember? || op.UseTool? || op.SaveCheckpoint?
    ensures Quiet(w, RunOp(w, p, op).0)
  {
    hide Permitted, MemoryOf, UsageOf, CheckpointsOf;
  }

  lemma QuietChild(w: World, p: Pid, d: string, priority: int)
    ensures Quiet(w, RunOp(w, p, SpawnChild(d, priority)).0)
  {
    hide Permitted, UsageOf, Spawn;
    if p in w.table && d in w.registry {
      QuietSpawn(w, w.registry[d], w.table[p].goal, priority, {});
    }
  }

  lemma {:induction false} QuietOps(w: World, p: Pid, ops: seq<BodyOp>)
    ensures Quiet(w, RunOps(w, p, ops).0)
    decreases ops
  {
    hide RunOp, Quiet;
    if ops == [] {
      QuietRefl(w);
    } else {
      var w1 := RunOp(w, p, ops[0]).0;
      QuietOp(w, p, ops[0]);
      QuietOps(w1, p, ops[1..]);
      QuietTrans(w, w1, RunOps(w1, p, ops[1..]).0);
    }
  }

  lemma QuietTerminal(w: World, p: Pid)
    ensures Quiet(w, OnTerminal(w, p))
  {
    hide EvaluateWaiting, Notify;
    QuietEvaluate(w);
  }

  lemma QuietAnnounce(w: World, p: Pid, s: ProcessState, e: Event)
    requires Aloof(e)
    ensures Quiet(w, Announce(w, p, s, e))
  {
    hide OnTerminal;
    var w1 := Emit(SetState(w, p, s), e);
    QuietTerminal(w1, p);
    QuietTrans(w, w1, OnTerminal(w1, p));
  }

  lemma QuietFailure(w: World, p: Pid)
    ensures Quiet(w, OnTerminal(Emit(w, ProcessFailed(p)), p))
  {
    hide OnTerminal;
    var w1 := Emit(w, ProcessFailed(p));
    QuietTerminal(w1, p);
    QuietTrans(w, w1, OnTerminal(w1, p));
  }

  lemma QuietSupervise(w: World, p: Pid)
    ensures Quiet(w, Supervise(w, p))
  {
    hide Enqueue, CapabilitiesFor, Decide, UsageOf, MemoryOf;
  }

  lemma QuietCleanup(w: World, p: Pid)
    ensures Quiet(w, Cleanup(w, p))
  {}

  lemma QuietPark(w: World, p: Pid, c: Condition)
    ensures Quiet(w, Park(w, p, c))
  {
    hide MarkWaiting, UsageOf, MemoryOf, CheckpointsOf;
  }

  // ------------------------------------------------------------------
  // Tasks, goals and plans
  // ------------------------------------------------------------------

  /** One READY event for each task that becomes ready. */
  lemma {:induction false} ReadyTells(log: seq<Event>, c: Cognition, ids: seq<TaskId>)
    requires Tells(log, c)
    ensures Tells(log + ReadyEvents(c, ids), Readied(c, ids))
    decreases |ids|
  {
    hide Tells, BecomesReady, TaskStateOf;
    if ids == [] {
      assert log + ReadyEvents(c, ids) == log;
      assert Readied(c, ids) == c;
    } else {
      var earlier, t := ids[..|ids| - 1], ids[|ids| - 1];
      assert ids == earlier + [t];
      ReadyTells(log, c, earlier);
      ReadiedStates(c, earlier, t);
      if BecomesReady(c, t) && t !in earlier {
        TellsTask(log + ReadyEvents(c, earlier), Readied(c, earlier), Readied(c, ids), t, TaskReady);
        assert log + ReadyEvents(c, earlier) + [TaskEvent(t, TaskReady)] == log + ReadyEvents(c, ids);
      } else {
        assert log + ReadyEvents(c, earlier) == log + ReadyEvents(c, ids);
      }
    }
  }

  lemma ReadiedStates(c: Cognition, earlier: seq<TaskId>, t: TaskId)
    ensures var c1, c2 := Readied(c, earlier), Readied(c, earlier + [t]);
      && c1.plans == c2.plans && c1.goals == c2.goals
      && if BecomesReady(c, t) && t !in earlier then
           && t in c1.tasks && TaskMayMove(c1.tasks[t].state, TaskReady)
           && forall u :: TaskStateOf(c2, u) == if u == t then Some(TaskReady) else TaskStateOf(c1, u)
         else c1 == c2
  {
    hide DepsMet;
    var c1, c2 := Readied(c, earlier), Readied(c, earlier + [t]);
    assert forall u :: u in earlier + [t] <==> u in earlier || u == t;
    if !(BecomesReady(c, t) && t !in earlier) {
      assert c1.tasks == c2.tasks;
    }
  }

  lemma UpdateTold(w: World, q: PlanId)
    requires Told(w)
    ensures Told(UpdateReady(w, q))
  {
    hide Tells, Readied, ReadyEvents;
    ReadyTells(w.log, w.cog, TasksOf(w.cog, q));
  }

  lemma SetTaskTold(w: World, t: TaskId, s: TaskState)
    requires Told(w) && t in w.cog.tasks && TaskMayMove(w.cog.tasks[t].state, s)
    ensures Told(SetTask(w, t, s))
  {
    hide Tells, TaskMayMove;
    TellsTask(w.log, w.cog, SetTask(w, t, s).cog, t, s);
  }

  lemma StartTaskTold(w: World, t: TaskId, d: Definition, goal: GoalId)
    requires Told(w) && t in w.cog.tasks && w.cog.tasks[t].state == TaskReady
    ensures Told(StartTask(w, t, d, goal))
  {
    hide Tells, Spawn, Quiet;
    var w1 := Spawn(w, d, Some(goal), w.cog.tasks[t].priority, {});
    QuietSpawn(w, d, Some(goal), w.cog.tasks[t].priority, {});
    QuietTold(w, w1);
    QuietCog(w, w1);
    TellsTask(w1.log, w1.cog, StartTask(w, t, d, goal).cog, t, TaskRunning);
  }

  lemma QuietCog(w: World, r: World)
    requires Quiet(w, r)
    ensures r.cog == w.cog
  {}

  /** Tasks that are READY or have a process already. */
  ghost predicate Startable(c: Cognition, ids: seq<TaskId>) {
    forall t :: t in ids && t in c.tasks ==> c.tasks[t].state == TaskReady || c.tasks[t].process.Some?
  }

  lemma StaysStartable(w: World, t: TaskId, d: Definition, goal: GoalId, ids: seq<TaskId>)
    requires Startable(w.cog, ids) && t in w.cog.tasks
    ensures Startable(StartTask(w, t, d, goal).cog, ids)
  {
    hide Enqueue, CapabilitiesFor;
  }

  lemma {:induction false} StartTasksTold(w: World, goal: GoalId, ids: seq<TaskId>)
    requires Told(w) && Startable(w.cog, ids)
    ensures Told(StartTasks(w, goal, ids).0)
    decreases ids
  {
    hide Tells, StartTask;
    if ids != [] {
      var t := ids[0];
      if t !in w.cog.tasks || w.cog.tasks[t].process.Some? {
        StartTasksTold(w, goal, ids[1..]);
      } else if w.cog.tasks[t].definition in w.registry {
        var d := w.registry[w.cog.tasks[t].definition];
        StartTaskTold(w, t, d, goal);
        StaysStartable(w, t, d, goal, ids[1..]);
        StartTasksTold(StartTask(w, t, d, goal), goal, ids[1..]);
      }
    }
  }

  lemma {:induction false} ReadyAreStartable(c: Cognition, ids: seq<TaskId>)
    ensures Startable(c, ReadyTasks(c, ids))
    decreases ids
  {
    if ids != [] {
      ReadyAreStartable(c, ids[1..]);
    }
  }

  lemma SpawnReadyTold(w: World, q: PlanId)
    requires Told(w)
    ensures Told(SpawnReady(w, q).0)
  {
    hide Tells, StartTasks, ReadyTasks, Startable;
    if q in w.cog.plans {
      ReadyAreStartable(w.cog, w.cog.plans[q].tasks);
      if w.cog.plans[q].state == PlanActive {
        StartTasksTold(w, w.cog.plans[q].goal, ReadyTasks(w.cog, w.cog.plans[q].tasks));
      }
    }
  }

  lemma ClosePlanTold(w: World, q: PlanId, ps: PlanState, gs: GoalState)
    requires Told(w) && q in w.cog.plans && w.cog.plans[q].state != PlanCompleted
    ensures Told(ClosePlan(w, q, ps, gs).0)
  {
    hide Tells, PlanMayMove, GoalMayMove;
    if PlanMayMove(w.cog.plans[q].state, ps) {
      var c := w.cog.(plans := w.cog.plans[q := w.cog.plans[q].(state := ps)]);
      var reported := if ps == PlanCompleted then [PlanEvent(q, PlanCompleted)] else [];
      TellsPlan(w.log, w.cog, c, q, reported);
      assert w.log + [] == w.log;
      var g := w.cog.plans[q].goal;
      if g in w.cog.goals && GoalMayMove(w.cog.goals[g], gs) {
        TellsGoal(w.log + reported, c, g, gs);
      }
    }
  }

  /** A plan that is over already. */
  lemma ClosedPlanTold(w: World, q: PlanId, ps: PlanState, gs: GoalState)
    requires Told(w) && q in w.cog.plans && w.cog.plans[q].state == PlanCompleted
      && (ps == PlanCompleted || ps == PlanFailed)
    ensures Told(ClosePlan(w, q, ps, gs).0)
  {
    hide Tells, GoalMayMove;
    if ps == PlanCompleted {
      var c := w.cog.(plans := w.cog.plans[q := w.cog.plans[q].(state := ps)]);
      assert c.plans == w.cog.plans && c == w.cog;
      ToldTwice(w.log, w.cog, q);
      var g := w.cog.plans[q].goal;
      if g in w.cog.goals && GoalMayMove(w.cog.goals[g], gs) {
        TellsGoal(w.log + [PlanEvent(q, PlanCompleted)], c, g, gs);
      }
    }
  }

  lemma ToldTwice(log: seq<Event>, c: Cognition, q: PlanId)
    requires Tells(log, c) && PlanDone(c, q)
    ensures Tells(log + [PlanEvent(q, PlanCompleted)], c)
  {
    LastSnoc(log, PlanEvent(q, PlanCompleted));
    LivesSnoc(log, PlanEvent(q, PlanCompleted));
    hide Lives, LastTask, LastGoal;
  }

  lemma CloseTold(w: World, q: PlanId, ps: PlanState, gs: GoalState)
    requires Told(w) && q in w.cog.plans && (ps == PlanCompleted || ps == PlanFailed)
    ensures Told(ClosePlan(w, q, ps, gs).0)
  {
    hide Told, ClosePlan;
    if w.cog.plans[q].state == PlanCompleted {
      ClosedPlanTold(w, q, ps, gs);
    } else {
      ClosePlanTold(w, q, ps, gs);
    }
  }

  lemma CheckTold(w: World, q: PlanId)
    requires Told(w)
    ensures Told(CheckCompletion(w, q).0)
  {
    hide Told, ClosePlan, AllCompleted;
    if q in w.cog.plans {
      CloseTold(w, q, PlanCompleted, GoalCompleted);
    }
  }

  lemma TaskCompletesTold(w: World, p: Pid)
    requires Told(w)
    ensures Told(TaskCompletes(w, p).0)
  {
    hide Told, TaskOf, SpawnReady, UpdateReady, SetTask, CheckCompletion, TaskMayMove;
    match TaskOf(w.cog, w.cog.order, p)
    case None =>
    case Some(t) =>
      if t in w.cog.tasks && TaskMayMove(w.cog.tasks[t].state, TaskCompleted) {
        var plan := w.cog.tasks[t].plan;
        var w1 := SetTask(w, t, TaskCompleted);
        SetTaskTold(w, t, TaskCompleted);
        UpdateTold(w1, plan);
        SpawnReadyTold(UpdateReady(w1, plan), plan);
        CheckTold(SpawnReady(UpdateReady(w1, plan), plan).0, plan);
      }
  }

  lemma TaskFailsTold(w: World, p: Pid)
    requires Told(w)
    ensures Told(TaskFails(w, p).0)
  {
    hide Told, TaskOf, SetTask, ClosePlan, TaskMayMove;
    match TaskOf(w.cog, w.cog.order, p)
    case None =>
    case Some(t) =>
      if t in w.cog.tasks && TaskMayMove(w.cog.tasks[t].state, TaskFailed) {
        var plan := w.cog.tasks[t].plan;
        var w1 := SetTask(w, t, TaskFailed);
        SetTaskTold(w, t, TaskFailed);
        if plan in w1.cog.plans {
          CloseTold(w1, plan, PlanFailed, GoalFailed);
        }
      }
  }

  // ------------------------------------------------------------------
  // Creating goals and plans
  // ------------------------------------------------------------------

  lemma GoalsTold(w: World, g: GoalId)
    requires Told(w)
    ensures g !in w.cog.goals ==> Told(CreateGoal(w, g))
    ensures Told(StartPlanning(w, g).0)
  {
    hide Tells, GoalMayMove;
    if g !in w.cog.goals {
      TellsGoal(w.log, w.cog, g, GoalCreated);
    } else if GoalMayMove(w.cog.goals[g], GoalPlanning) {
      TellsGoal(w.log, w.cog, g, GoalPlanning);
    }
  }

  /** The first `n` tasks of a plan and their PENDING events. */
  function Added(c: Cognition, specs: seq<TaskSpec>, plan: PlanId, base: TaskId, n: nat): Cognition
    requires n <= |specs|
  {
    c.(tasks := c.tasks + map t | t in NewIds(base, n) :: NewTask(specs, t - base, base, plan))
  }

  lemma {:induction false} NewTasksTell(log: seq<Event>, c: Cognition, specs: seq<TaskSpec>, plan: PlanId, base: TaskId,
      n: nat)
    requires Tells(log, c) && n <= |specs| && forall t :: base <= t < base + |specs| ==> t !in c.tasks
    ensures Tells(log + seq(n, (i: nat) => TaskEvent(base + i, TaskPending)), Added(c, specs, plan, base, n))
    decreases n
  {
    hide Tells, NewTask, Added;
    var events := seq(n, (i: nat) => TaskEvent(base + i, TaskPending));
    if n == 0 {
      assert log + events == log;
      NothingAdded(c, specs, plan, base);
    } else {
      var earlier := seq(n - 1, (i: nat) => TaskEvent(base + i, TaskPending));
      NewTasksTell(log, c, specs, plan, base, n - 1);
      OneMoreTask(c, specs, plan, base, n);
      TellsTask(log + earlier, Added(c, specs, plan, base, n - 1), Added(c, specs, plan, base, n), base + n - 1,
        TaskPending);
      assert log + earlier + [TaskEvent(base + n - 1, TaskPending)] == log + events;
    }
  }

  lemma NothingAdded(c: Cognition, specs: seq<TaskSpec>, plan: PlanId, base: TaskId)
    ensures Added(c, specs, plan, base, 0) == c
  {
    assert Added(c, specs, plan, base, 0).tasks == c.tasks;
  }

  lemma OneMoreTask(c: Cognition, specs: seq<TaskSpec>, plan: PlanId, base: TaskId, n: nat)
    requires 0 < n <= |specs| && base + n - 1 !in c.tasks
    ensures var c1, c2 := Added(c, specs, plan, base, n - 1), Added(c, specs, plan, base, n);
      && base + n - 1 !in c1.tasks && c1.plans == c2.plans && c1.goals == c2.goals
      && forall u :: TaskStateOf(c2, u) == if u == base + n - 1 then Some(TaskPending) else TaskStateOf(c1, u)
  {
    hide NewTask, NewIds, Added;
    var t := base + n - 1;
    NewTaskBlank(specs, t - base, base, plan);
    AddedAt(c, specs, plan, base, n - 1);
    AddedAt(c, specs, plan, base, n);
  }

  lemma AddedAt(c: Cognition, specs: seq<TaskSpec>, plan: PlanId, base: TaskId, n: nat)
    requires n <= |specs|
    ensures var r := Added(c, specs, plan, base, n);
      && r.plans == c.plans && r.goals == c.goals
      && (forall t :: t in r.tasks <==> t in c.tasks || base <= t < base + n)
      && forall t :: t in r.tasks ==>
        r.tasks[t] == if base <= t < base + n then NewTask(specs, t - base, base, plan) else c.tasks[t]
  {
    hide NewTask, NewIds;
  }

  lemma PlanTold(w: World, g: GoalId, specs: seq<TaskSpec>, plan: PlanId, base: TaskId)
    requires Told(w) && Clean(w, CallCreatePlan(g, specs, plan, base))
    ensures Told(CreatePlan(w, g, specs, plan, base).0)
  {
    hide Tells, NewTask, NewIds, Added, CleanSpecs, FreshIds, UpdateReady, CreatePlan, Planned;
    if g in w.cog.goals {
      PlannedTold(w, g, specs, plan, base);
      PlannedIs(w, g, specs, plan, base);
      UpdateTold(Planned(w, g, specs, plan, base), plan);
    } else {
      UnknownGoal(w, g, specs, plan, base);
    }
  }

  lemma UnknownGoal(w: World, g: GoalId, specs: seq<TaskSpec>, plan: PlanId, base: TaskId)
    requires g !in w.cog.goals
    ensures CreatePlan(w, g, specs, plan, base).0 == w
  {}

  lemma PlannedTold(w: World, g: GoalId, specs: seq<TaskSpec>, plan: PlanId, base: TaskId)
    requires Told(w) && Clean(w, CallCreatePlan(g, specs, plan, base)) && g in w.cog.goals
    ensures Told(Planned(w, g, specs, plan, base))
  {
    hide Tells, NewTask, NewIds, CleanSpecs;
    var n := |specs|;
    var events := seq(n, (i: nat) => TaskEvent(base + i, TaskPending));
    NewTasksTell(w.log, w.cog, specs, plan, base, n);
    var c1 := Added(w.cog, specs, plan, base, n);
    var c2 := c1.(plans := c1.plans[plan := Plan(g, NewIds(base, n), PlanActive)], order := c1.order + NewIds(base, n));
    TellsPlan(w.log + events, c1, c2, plan, [PlanEvent(plan, PlanActive)]);
    TellsGoal(w.log + events + [PlanEvent(plan, PlanActive)], c2, g, GoalInProgress);
  }

  // ------------------------------------------------------------------
  // Dispatches
  // ------------------------------------------------------------------

  lemma FailTold(w: World, p: Pid)
    requires Told(w)
    ensures Told(FailProcess(w, p).0)
  {
    hide Told, Quiet, MayMove, Announce, OnTerminal, Supervise, TaskFails, Cleanup;
    var w1 := if MayMove(w, p, Failed)
      then Announce(w, p, Failed, ProcessFailed(p)) else OnTerminal(Emit(w, ProcessFailed(p)), p);
    QuietAnnounce(w, p, Failed, ProcessFailed(p));
    QuietFailure(w, p);
    QuietSupervise(w1, p);
    QuietTrans(w, w1, Supervise(w1, p));
    QuietTold(w, Supervise(w1, p));
    TaskFailsTold(Supervise(w1, p), p);
    var w2 := TaskFails(Supervise(w1, p), p).0;
    QuietCleanup(w2, p);
    QuietTold(w2, Cleanup(w2, p));
  }

  lemma FinishTold(w: World, p: Pid)
    requires Told(w)
    ensures Told(Finish(w, p).0)
  {
    hide Told, Quiet, MayMove, Announce, TaskCompletes, Cleanup, FailProcess;
    FailTold(w, p);
    var w1 := Announce(w, p, Completed, ProcessCompleted(p));
    QuietAnnounce(w, p, Completed, ProcessCompleted(p));
    QuietTold(w, w1);
    TaskCompletesTold(w1, p);
    var w2 := TaskCompletes(w1, p).0;
    FailTold(w2, p);
    QuietCleanup(w2, p);
    QuietTold(w2, Cleanup(w2, p));
  }

  lemma QuietBegin(w: World, p: Pid)
    ensures Quiet(w, Begin(w, p))
  {}

  lemma QuietUse(w: World, p: Pid)
    ensures Quiet(w, SetUsage(w, p, UsageOf(w, p)))
  {}

  lemma ExecuteTold(w: World, p: Pid, body: Body)
    requires Told(w)
    ensures Told(Execute(w, p, body).0)
  {
    hide Told, Quiet, MayMove, Begin, RunOps, Park, Finish, FailProcess, SetUsage, UsageOf;
    FailTold(w, p);
    QuietBegin(w, p);
    QuietOps(Begin(w, p), p, body.ops);
    var w1 := RunOps(Begin(w, p), p, body.ops).0;
    QuietTrans(w, Begin(w, p), w1);
    QuietTold(w, w1);
    FailTold(w1, p);
    if body.end.WaitsFor? {
      QuietPark(w1, p, body.end.condition);
      QuietTold(w1, Park(w1, p, body.end.condition));
    }
    var w2 := SetUsage(w1, p, UsageOf(w1, p));
    QuietUse(w1, p);
    QuietTold(w1, w2);
    FailTold(w2, p);
    FinishTold(w2, p);
  }

  lemma QuietTake(w: World)
    requires w.sched.queue != []
    ensures Quiet(w, TakeNext(w)) && Quiet(w, w.(sched := Dequeue(w.sched)))
  {}

  lemma RunNextTold(w: World, body: Body)
    requires Told(w)
    ensures Told(RunNext(w, body).0)
  {
    hide Told, Quiet, EvaluateWaiting, TakeNext, Dequeue, Execute, FailProcess, UsageOf, CanDispatch;
    var w1 := EvaluateWaiting(w);
    QuietEvaluate(w);
    QuietTold(w, w1);
    if w1.sched.queue != [] {
      var p := w1.sched.queue[0].pid;
      QuietTake(w1);
      if p !in w1.table {
        QuietTold(w1, w1.(sched := Dequeue(w1.sched)));
      } else {
        QuietTold(w1, TakeNext(w1));
        FailTold(TakeNext(w1), p);
        ExecuteTold(TakeNext(w1), p, body);
      }
    }
  }

  lemma {:induction false} QuietScan(w: World, p: Pid)
    ensures Quiet(w, ScanMail(w, p).0)
    decreases w.unused - p
  {
    hide EvaluateWaiting, Quiet;
    QuietRefl(w);
    if p < w.unused {
      QuietEvaluate(w);
      QuietScan(w, p + 1);
      if p in w.table && w.table[p].state == Waiting && p in w.svc.mail && w.svc.mail[p] != [] {
        QuietScan(EvaluateWaiting(w), p + 1);
        QuietTrans(w, EvaluateWaiting(w), ScanMail(EvaluateWaiting(w), p + 1).0);
      }
    }
  }

  lemma QuietHasWork(w: World)
    ensures Quiet(w, HasWork(w).0)
  {
    hide EvaluateWaiting, Quiet, ScanMail;
    QuietRefl(w);
    QuietEvaluate(w);
    var w1 := EvaluateWaiting(w);
    QuietScan(w1, 0);
    QuietTrans(w, w1, ScanMail(w1, 0).0);
  }

  lemma QuietGrant(w: World, request: string)
    ensures Quiet(w, Grant(w, request))
  {
    hide EvaluateWaiting, Quiet, PutState;
    var w1 := PutState(w, "approval:" + request, Number(1));
    QuietPut(w, "approval:" + request, Number(1));
    QuietEvaluate(w1);
    QuietTrans(w, w1, EvaluateWaiting(w1));
  }

  lemma QuietRegister(w: World, d: Definition)
    ensures Quiet(w, Register(w, d).0)
  {}

  lemma QuietClock(w: World, now: int)
    ensures Quiet(w, w.(clock := now))
  {}

  // ------------------------------------------------------------------
  // Whole runs
  // ------------------------------------------------------------------

  lemma CallTold(w: World, c: Call)
    requires Told(w) && Clean(w, c)
    ensures Told(Do(w, c).0)
  {
    hide Told, Quiet, Register, Spawn, RunNext, HasWork, Grant, PutState, DeleteState, Send, CreateGoal, StartPlanning,
      CreatePlan, SpawnReady, CleanSpecs, FreshIds;
    match c {
      case CallRegister(d) => QuietRegister(w, d); QuietTold(w, Register(w, d).0);
      case CallSpawn(d, goal, priority, needs) =>
        QuietSpawn(w, d, goal, priority, needs);
        QuietTold(w, Spawn(w, d, goal, priority, needs));
      case CallRunNext(body) => RunNextTold(w, body);
      case CallHasWork => QuietHasWork(w); QuietTold(w, HasWork(w).0);
      case CallGrant(request) => QuietGrant(w, request); QuietTold(w, Grant(w, request));
      case CallPut(k, v) => QuietPut(w, k, v); QuietTold(w, PutState(w, k, v));
      case CallDelete(k) => QuietDelete(w, k); QuietTold(w, DeleteState(w, k));
      case CallSend(to, m) => QuietSend(w, to, m); QuietTold(w, Send(w, to, m).0);
      case CallCreateGoal(g) => GoalsTold(w, g);
      case CallStartPlanning(g) => GoalsTold(w, g);
      case CallCreatePlan(g, specs, plan, base) => PlanTold(w, g, specs, plan, base);
      case CallExecutePlan(plan) => SpawnReadyTold(w, plan);
      case ClockMoves(now) => QuietClock(w, now); QuietTold(w, w.(clock := now));
    }
  }

  lemma {:induction false} RunTold(w: World, calls: seq<Call>)
    requires Told(w) && CleanRun(w, calls)
    ensures Told(Runs.After(w, calls))
    decreases calls
  {
    hide Told, Do, Clean;
    if calls != [] {
      CallTold(w, calls[0]);
      RunTold(Do(w, calls[0]).0, calls[1..]);
    }
  }

  /** A run of clean calls, which may raise. */
  ghost predicate CleanRun(w: World, calls: seq<Call>)
    decreases calls
  {
    calls == [] || (Clean(w, calls[0]) && CleanRun(Do(w, calls[0]).0, calls[1..]))
  }

  lemma BootTold(supervised: bool)
    ensures Told(Boot(supervised))
  {}

  /** Over every run of clean calls, also when some of them raise: the last event of each task and
      goal gives its state, there is none exactly if it does not exist, and a plan is COMPLETED if
      and only if that has been reported. */
  lemma LogTellsWork(supervised: bool, calls: seq<Call>, t: TaskId, g: GoalId, q: PlanId)
    requires CleanRun(Boot(supervised), calls)
    ensures var w := Runs.After(Boot(supervised), calls);
      && LastTask(w.log, t) == (if t in w.cog.tasks then Some(w.cog.tasks[t].state) else None)
      && LastGoal(w.log, g) == (if g in w.cog.goals then Some(w.cog.goals[g]) else None)
      && (PlanEvent(q, PlanCompleted) in w.log <==> q in w.cog.plans && w.cog.plans[q].state == PlanCompleted)
  {
    hide Runs.After, CleanRun, LastTask, LastGoal, Lives;
    BootTold(supervised);
    RunTold(Boot(supervised), calls);
  }

  /** Over every such run each event of a task or a goal is a legal move from the one before; the first
      one is PENDING or CREATED. */
  lemma LivesAreLegal(supervised: bool, calls: seq<Call>, i: nat)
    requires CleanRun(Boot(supervised), calls) && i < |Runs.After(Boot(supervised), calls).log|
    ensures var log := Runs.After(Boot(supervised), calls).log;
      && (log[i].TaskEvent? ==>
            var before := LastTask(log[..i], log[i].task);
            if before.None? then log[i].taskState == TaskPending else TaskMayMove(before.value, log[i].taskState))
      && (log[i].GoalEvent? ==>
            var before := LastGoal(log[..i], log[i].goal);
            if before.None? then log[i].goalState == GoalCreated else GoalMayMove(before.value, log[i].goalState))
  {
    hide Runs.After, CleanRun, LastTask, LastGoal, TaskMayMove, GoalMayMove;
    BootTold(supervised);
    RunTold(Boot(supervised), calls);
    var log := Runs.After(Boot(supervised), calls).log;
    assert MayFollow(log[..i], log[i]);
  }
}
