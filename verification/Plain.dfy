/** Plain workloads: bodies that only change shared state and read messages. For them the two
    termination results need no assumption about the run itself. */
module PlainWorkloads {
  import opened Common
  import opened Heap
  import opened States
  import opened SchedulerModel
  import opened KernelModel
  import opened Correspondence
  import opened PlanSafety
  import opened History
  import opened KernelRuns
  import opened Graph
  import opened Raises
  import opened Runs
  import opened EndToEnd
  import opened Termination

  predicate PlainOp(op: BodyOp) {
    op.WriteState? || op.EraseState? || op.TakeMessage?
  }

  predicate Plain(body: Body) {
    !body.end.WaitsFor? && forall op :: op in body.ops ==> PlainOp(op)
  }

  predicate Roomy(b: Budget) {
    b.maxTokens > 0 && b.maxTools > 0 && b.maxCost > 0.0
  }

  predicate Unused(u: Usage) {
    u.tokens == 0 && u.tools == 0 && u.cost == 0.0
  }

  /** Nothing has used tokens, tools or money, and every budget has room for some. */
  ghost predicate Thrifty(w: World) {
    && (forall p :: p in w.svc.usage ==> Unused(w.svc.usage[p]))
    && (forall p, i :: p in w.svc.checkpoints && 0 <= i < |w.svc.checkpoints[p]| ==>
         Unused(w.svc.checkpoints[p][i].usage))
    && (forall p :: p in w.table ==> Roomy(w.table[p].budget))
    && (forall d :: d in w.registry ==> Roomy(w.registry[d].budget))
  }

  // ------------------------------------------------------------------
  // Every step of a plain run is thrifty
  // ------------------------------------------------------------------

  /** `r` has the services and the registry of `w`, and its processes in whatever states. */
  ghost predicate SameBooks(w: World, r: World) {
    && r.svc.usage == w.svc.usage && r.svc.checkpoints == w.svc.checkpoints && r.registry == w.registry
    && r.table.Keys == w.table.Keys && forall p :: p in w.table ==> r.table[p].budget == w.table[p].budget
  }

  lemma SameBooksThrifty(w: World, r: World)
    requires SameBooks(w, r) && Thrifty(w)
    ensures Thrifty(r)
  {}

  lemma EvaluateSameBooks(w: World)
    ensures SameBooks(w, EvaluateWaiting(w)) && EvaluateWaiting(w).unused == w.unused && EvaluateWaiting(w).cog == w.cog
  {
    WakeAllTable(w.(sched := Evaluate(w.sched, TrueNow(w))), Satisfied(w.sched.waiting, TrueNow(w)));
  }

  lemma PlainOpSameBooks(w: World, p: Pid, op: BodyOp)
    requires PlainOp(op)
    ensures var r := RunOp(w, p, op).0; SameBooks(w, r) && r.unused == w.unused && r.cog == w.cog
  {
    hide EvaluateWaiting, Permitted, MemoryOf;
    assert SameBooks(w, w);
    match op {
      case WriteState(k, v) =>
        EvaluateSameBooks(Emit(w.(store := w.store[k := v]), StateChanged(k, v)));
        EvaluateSameBooks(Emit(w.(store := w.store[k := v]), StateCreated(k, v)));
      case EraseState(k) => EvaluateSameBooks(Emit(w.(store := w.store - {k}), StateDeleted(k)));
      case TakeMessage =>
    }
  }

  lemma SameBooksTrans(a: World, b: World, c: World)
    requires SameBooks(a, b) && SameBooks(b, c)
    ensures SameBooks(a, c)
  {}

  lemma {:induction false} PlainOpsSameBooks(w: World, p: Pid, ops: seq<BodyOp>)
    requires forall op :: op in ops ==> PlainOp(op)
    ensures var r := RunOps(w, p, ops).0; SameBooks(w, r) && r.unused == w.unused && r.cog == w.cog
    decreases ops
  {
    hide RunOp, PlainOp;
    if ops != [] {
      var (w1, ok) := RunOp(w, p, ops[0]);
      PlainOpSameBooks(w, p, ops[0]);
      if ok {
        PlainOpsSameBooks(w1, p, ops[1..]);
        SameBooksTrans(w, w1, RunOps(w1, p, ops[1..]).0);
      }
    }
  }

  lemma StartTaskThrifty(w: World, t: TaskId, d: Definition, goal: GoalId)
    requires Thrifty(w) && t in w.cog.tasks && Roomy(d.budget)
    ensures Thrifty(StartTask(w, t, d, goal)) && StartTask(w, t, d, goal).svc.usage == w.svc.usage
  {
    hide Enqueue, CapabilitiesFor;
  }

  lemma {:induction false} StartTasksThrifty(w: World, goal: GoalId, ids: seq<TaskId>)
    requires Thrifty(w)
    ensures Thrifty(StartTasks(w, goal, ids).0) && StartTasks(w, goal, ids).0.svc.usage == w.svc.usage
    decreases ids
  {
    hide StartTask;
    if ids != [] {
      var t := ids[0];
      if t !in w.cog.tasks || w.cog.tasks[t].process.Some? {
        StartTasksThrifty(w, goal, ids[1..]);
      } else if w.cog.tasks[t].definition in w.registry {
        var d := w.registry[w.cog.tasks[t].definition];
        StartTaskThrifty(w, t, d, goal);
        StartTasksThrifty(StartTask(w, t, d, goal), goal, ids[1..]);
      }
    }
  }

  lemma SpawnReadyThrifty(w: World, q: PlanId)
    requires Thrifty(w)
    ensures Thrifty(SpawnReady(w, q).0) && SpawnReady(w, q).0.svc.usage == w.svc.usage
  {
    hide StartTasks, Thrifty, ReadyTasks;
    if q in w.cog.plans {
      StartTasksThrifty(w, w.cog.plans[q].goal, ReadyTasks(w.cog, w.cog.plans[q].tasks));
    }
  }

  lemma OnlyPlansSameBooks(w: World, r: World)
    requires r == w.(cog := r.cog, log := r.log)
    ensures SameBooks(w, r)
  {}

  lemma TaskCompletesThrifty(w: World, p: Pid)
    requires Thrifty(w)
    ensures Thrifty(TaskCompletes(w, p).0) && TaskCompletes(w, p).0.svc.usage == w.svc.usage
  {
    hide UpdateReady, SetTask, SpawnReady, ClosePlan, Thrifty, AllCompleted, TaskOf;
    match TaskOf(w.cog, w.cog.order, p) {
      case None =>
      case Some(t) =>
        if t in w.cog.tasks && !w.cog.tasks[t].state.IsFinished() && TaskMayMove(w.cog.tasks[t].state, TaskCompleted) {
          var q := w.cog.tasks[t].plan;
          var w2 := UpdateReady(SetTask(w, t, TaskCompleted), q);
          UpdateReadyOnly(w, t, TaskCompleted, q);
          OnlyPlansSameBooks(w, w2);
          SameBooksThrifty(w, w2);
          var w3 := SpawnReady(w2, q).0;
          SpawnReadyThrifty(w2, q);
          if q in w3.cog.plans {
            ClosePlanOnly(w3, q, PlanCompleted, GoalCompleted);
          }
          OnlyPlansSameBooks(w3, CheckCompletion(w3, q).0);
          SameBooksThrifty(w3, CheckCompletion(w3, q).0);
        }
    }
  }

  lemma TaskFailsThrifty(w: World, p: Pid)
    requires Thrifty(w)
    ensures Thrifty(TaskFails(w, p).0)
  {
    hide ClosePlan, Thrifty, TaskOf;
    match TaskOf(w.cog, w.cog.order, p) {
      case None =>
      case Some(t) =>
        if t in w.cog.tasks && TaskMayMove(w.cog.tasks[t].state, TaskFailed) {
          var w1 := SetTask(w, t, TaskFailed);
          if w.cog.tasks[t].plan in w1.cog.plans {
            ClosePlanOnly(w1, w.cog.tasks[t].plan, PlanFailed, GoalFailed);
          }
        }
    }
    OnlyPlansSameBooks(w, TaskFails(w, p).0);
    SameBooksThrifty(w, TaskFails(w, p).0);
  }

  lemma AnnounceSameBooks(w: World, p: Pid, s: ProcessState, e: Event)
    ensures SameBooks(w, Announce(w, p, s, e)) && Announce(w, p, s, e).cog == w.cog
      && Announce(w, p, s, e).unused == w.unused
  {
    hide EvaluateWaiting, Notify;
    EvaluateSameBooks(Emit(SetState(w, p, s), e));
  }

  lemma RestoreThrifty(w: World, p: Pid, c: Checkpoint)
    requires Thrifty(w) && Unused(c.usage)
    ensures Thrifty(RestoreCheckpoint(w, p, c))
  {}

  lemma ResumeThrifty(w: World, p: Pid)
    requires Thrifty(w)
    ensures Thrifty(PrepareForResume(w, p))
  {
    hide CapabilitiesFor, Enqueue;
  }

  lemma RetryThrifty(w: World, p: Pid)
    requires Thrifty(w)
    ensures Thrifty(RecordRetry(w, p))
  {}

  lemma SuperviseThrifty(w: World, p: Pid)
    requires Thrifty(w)
    ensures Thrifty(Supervise(w, p))
  {
    match Decide(w, p) {
      case NoSupervisor =>
      case Terminate =>
      case Restore(c) =>
        assert Unused(c.usage);
        hide Thrifty, RestoreCheckpoint, PrepareForResume, RecordRetry, Decide;
        RestoreThrifty(w, p, c);
        ResumeThrifty(RestoreCheckpoint(w, p, c), p);
        RetryThrifty(PrepareForResume(RestoreCheckpoint(w, p, c), p), p);
      case Retry(n) =>
        var w1 := w.(svc := w.svc.(supervisor := Some(w.svc.supervisor.value[p := n])));
        assert Thrifty(w1);
        hide Thrifty, PrepareForResume, RecordRetry, Decide;
        ResumeThrifty(w1, p);
        RetryThrifty(PrepareForResume(w1, p), p);
    }
  }

  lemma FailThrifty(w: World, p: Pid)
    requires Thrifty(w) && !FailProcess(w, p).1.RaisedOut?
    ensures Thrifty(FailProcess(w, p).0)
  {
    FailIs(w, p);
    hide Announce, Supervise, TaskFails, Thrifty, FailProcess;
    var w1 := Announce(w, p, Failed, ProcessFailed(p));
    AnnounceSameBooks(w, p, Failed, ProcessFailed(p));
    SameBooksThrifty(w, w1);
    SuperviseThrifty(w1, p);
    TaskFailsThrifty(Supervise(w1, p), p);
    CleanupThrifty(TaskFails(Supervise(w1, p), p).0, p);
  }

  lemma CleanupThrifty(w: World, p: Pid)
    requires Thrifty(w)
    ensures Thrifty(Cleanup(w, p))
  {}

  lemma FinishThrifty(w: World, p: Pid)
    requires Thrifty(w) && !Finish(w, p).1.RaisedOut?
    ensures Thrifty(Finish(w, p).0)
  {
    hide Announce, TaskCompletes, FailProcess, Thrifty, Cleanup;
    if !MayMove(w, p, Completed) {
      FailThrifty(w, p);
    } else {
      var w1 := Announce(w, p, Completed, ProcessCompleted(p));
      AnnounceSameBooks(w, p, Completed, ProcessCompleted(p));
      SameBooksThrifty(w, w1);
      TaskCompletesThrifty(w1, p);
      if TaskCompletes(w1, p).1 {
        FailThrifty(TaskCompletes(w1, p).0, p);
      } else {
        CleanupThrifty(TaskCompletes(w1, p).0, p);
      }
    }
  }

  lemma TouchThrifty(w: World, p: Pid)
    requires Thrifty(w)
    ensures Thrifty(SetUsage(w, p, UsageOf(w, p)))
  {}

  lemma ExecuteThrifty(w: World, p: Pid, body: Body)
    requires Thrifty(w) && Plain(body) && !Execute(w, p, body).1.RaisedOut?
    ensures Thrifty(Execute(w, p, body).0)
  {
    hide FailProcess, Finish, RunOps, Thrifty, PlainOp;
    if !MayMove(w, p, Running) {
      FailThrifty(w, p);
    } else {
      SameBooksThrifty(w, Begin(w, p));
      var (w1, ok) := RunOps(Begin(w, p), p, body.ops);
      PlainOpsSameBooks(Begin(w, p), p, body.ops);
      SameBooksThrifty(Begin(w, p), w1);
      if !ok || body.end.Raises? {
        FailThrifty(w1, p);
      } else {
        TouchThrifty(w1, p);
        if body.overran {
          FailThrifty(SetUsage(w1, p, UsageOf(w1, p)), p);
        } else {
          FinishThrifty(SetUsage(w1, p, UsageOf(w1, p)), p);
        }
      }
    }
  }

  lemma RunNextThrifty(w: World, body: Body)
    requires Thrifty(w) && Plain(body) && !RunNext(w, body).1.RaisedOut?
    ensures Thrifty(RunNext(w, body).0)
  {
    hide EvaluateWaiting, Execute, FailProcess, Thrifty, CanDispatch, Plain;
    var w1 := EvaluateWaiting(w);
    EvaluateSameBooks(w);
    SameBooksThrifty(w, w1);
    if w1.sched.queue != [] && w1.sched.queue[0].pid in w1.table {
      var p := w1.sched.queue[0].pid;
      var w2 := w1.(sched := Dequeue(w1.sched));
      SameBooksThrifty(w1, w2);
      TouchThrifty(w2, p);
      if CanDispatch(UsageOf(TakeNext(w1), p), w1.table[p].budget) {
        ExecuteThrifty(TakeNext(w1), p, body);
      } else {
        FailThrifty(TakeNext(w1), p);
      }
    }
  }

  // ------------------------------------------------------------------
  // A supervised fleet
  // ------------------------------------------------------------------

  /** Nothing is planned, and nothing new will be started. */
  ghost predicate NoTasks(w: World) {
    w.cog.order == []
  }

  lemma NoTaskSteps(w: World, p: Pid)
    requires NoTasks(w)
    ensures TaskCompletes(w, p) == (w, false) && TaskFails(w, p) == (w, false)
  {}

  lemma FailStartsNothing(w: World, p: Pid)
    requires NoTasks(w)
    ensures NoTasks(FailProcess(w, p).0) && FailProcess(w, p).0.unused == w.unused
  {
    hide Announce, OnTerminal, Supervise, TaskFails, EvaluateWaiting, Notify;
    AnnounceSameBooks(w, p, Failed, ProcessFailed(p));
    var w1 := if MayMove(w, p, Failed) then Announce(w, p, Failed, ProcessFailed(p))
      else OnTerminal(Emit(w, ProcessFailed(p)), p);
    TerminalStartsNothing(Emit(w, ProcessFailed(p)), p);
    SuperviseStartsNothing(w1, p);
    NoTaskSteps(Supervise(w1, p), p);
  }

  lemma TerminalStartsNothing(w: World, p: Pid)
    ensures OnTerminal(w, p).cog == w.cog && OnTerminal(w, p).unused == w.unused
  {
    hide EvaluateWaiting, Notify;
  }

  lemma SuperviseStartsNothing(w: World, p: Pid)
    ensures Supervise(w, p).cog == w.cog && Supervise(w, p).unused == w.unused
  {
    hide CapabilitiesFor, Enqueue;
  }

  lemma FinishStartsNothing(w: World, p: Pid)
    requires NoTasks(w)
    ensures NoTasks(Finish(w, p).0) && Finish(w, p).0.unused == w.unused
  {
    hide Announce, TaskCompletes, FailProcess;
    FailStartsNothing(w, p);
    AnnounceSameBooks(w, p, Completed, ProcessCompleted(p));
    NoTaskSteps(Announce(w, p, Completed, ProcessCompleted(p)), p);
  }

  lemma RunNextStartsNothing(w: World, body: Body)
    requires NoTasks(w) && Plain(body)
    ensures NoTasks(RunNext(w, body).0) && RunNext(w, body).0.unused == w.unused
  {
    hide EvaluateWaiting, FailProcess, Finish, RunOps, CanDispatch, PlainOp;
    EvaluateSameBooks(w);
    var w1 := EvaluateWaiting(w);
    if w1.sched.queue != [] && w1.sched.queue[0].pid in w1.table {
      var p := w1.sched.queue[0].pid;
      var w2 := TakeNext(w1);
      FailStartsNothing(w2, p);
      var w3 := RunOps(Begin(w2, p), p, body.ops).0;
      PlainOpsSameBooks(Begin(w2, p), p, body.ops);
      FailStartsNothing(w3, p);
      FailStartsNothing(SetUsage(w3, p, UsageOf(w3, p)), p);
      FinishStartsNothing(SetUsage(w3, p, UsageOf(w3, p)), p);
    }
  }

  lemma PlainIsAffordable(w: World, body: Body, k: Track)
    requires Working(w, k) && Thrifty(w) && w.sched.queue != [] && Plain(body)
    ensures Affordable(w, body)
  {
    NextIsKnown(w, k);
    hide Inv, Working;
  }

  lemma {:induction false} PlainRunIsAffordable(w: World, bodies: seq<Body>, k: Track)
    requires Working(w, k) && Thrifty(w) && NoTasks(w) && forall b :: b in bodies ==> Plain(b)
    ensures AllAffordable(w, bodies) && Run(w, bodies).world.unused == w.unused
    decreases bodies
  {
    hide Working, Thrifty, NoTasks, Plain, Affordable, RunNext, HasWork;
    WorkingHasWork(w, k);
    if w.sched.queue != [] && bodies != [] {
      PlainIsAffordable(w, bodies[0], k);
      WorkingStep(w, bodies[0], k);
      RunNextThrifty(w, bodies[0]);
      RunNextStartsNothing(w, bodies[0]);
      PlainRunIsAffordable(RunNext(w, bodies[0]).0, bodies[1..], k);
    }
  }

  lemma {:induction false} FleetIsThrifty(w: World, ds: seq<Definition>)
    requires Thrifty(w) && NoTasks(w) && forall d :: d in ds ==> Roomy(d.budget)
    ensures Thrifty(SpawnAll(w, ds)) && NoTasks(SpawnAll(w, ds))
    decreases ds
  {
    if ds != [] {
      SpawnThrifty(w, ds[0]);
      hide Thrifty, Spawn, Roomy;
      FleetIsThrifty(Spawn(w, ds[0], None, 0, {}), ds[1..]);
    }
  }

  lemma SpawnThrifty(w: World, d: Definition)
    requires Thrifty(w) && Roomy(d.budget)
    ensures Thrifty(Spawn(w, d, None, 0, {})) && Spawn(w, d, None, 0, {}).cog == w.cog
  {
    hide CapabilitiesFor, Enqueue;
  }

  lemma BootIsThrifty(supervised: bool)
    ensures Thrifty(Boot(supervised)) && NoTasks(Boot(supervised))
  {}

  lemma BootIds(supervised: bool)
    ensures Boot(supervised).unused == 0
  {}

  /** Any set of processes whose budgets allow anything at all, whose bodies change shared state,
      read messages and then return, raise or overrun in any mixture: supervised or not, `run`
      drains within the sum of `max_retries + 1` dispatches, and every process has finished. */
  lemma PlainFleetHalts(supervised: bool, ds: seq<Definition>, bodies: seq<Body>)
    requires (forall d :: d in ds ==> Roomy(d.budget)) && (forall b :: b in bodies ==> Plain(b))
    requires |bodies| >= TotalAttempts(ds)
    ensures var r := Run(SpawnAll(Boot(supervised), ds), bodies);
      && r.end == Drained && r.dispatches <= TotalAttempts(ds)
      && forall p :: p in r.world.table ==> r.world.table[p].state.IsFinished()
  {
    hide *;
    var k := Track(None, false);
    BootWorks(supervised, k);
    BootIds(supervised);
    BootIsThrifty(supervised);
    FleetWorks(Boot(supervised), ds, k);
    FleetIsThrifty(Boot(supervised), ds);
    PlainRunIsAffordable(SpawnAll(Boot(supervised), ds), bodies, k);
    FleetHalts(supervised, ds, bodies);
  }

  // ------------------------------------------------------------------
  // A plan of plain tasks
  // ------------------------------------------------------------------

  ghost predicate NeverRetried(w: World) {
    forall p :: p in w.svc.usage ==> w.svc.usage[p].retries == 0
  }

  lemma StateMayBeWritten(w: World, p: Pid, k: Track)
    requires Inv(w, {p}, {}, k)
    ensures Permitted(w, p, "state.write")
  {
    assert Placed(w.table[p], p, w.sched, w.svc.mail.Keys, w.svc.caps, {p});
  }

  lemma PlainOpSucceeds(w: World, p: Pid, op: BodyOp, k: Track)
    requires Inv(w, {p}, {}, k) && PlainOp(op)
    ensures RunOp(w, p, op).1
  {
    StateMayBeWritten(w, p, k);
    hide Inv, Permitted, PutState, DeleteState;
  }

  lemma {:induction false} PlainOpsSucceed(w: World, p: Pid, ops: seq<BodyOp>, k: Track)
    requires Inv(w, {p}, {}, k) && forall op :: op in ops ==> PlainOp(op)
    ensures RunOps(w, p, ops).1
    decreases ops
  {
    hide Inv, RunOp, PlainOp, Evolves, SameBusy;
    if ops != [] {
      PlainOpSucceeds(w, p, ops[0], k);
      RunOpStep(w, p, ops[0], k);
      PlainOpsSucceed(RunOp(w, p, ops[0]).0, p, ops[1..], k);
    }
  }

  lemma PlainReturns(w: World, q: PlanId, body: Body, k: Track)
    requires Driving(w, q, k) && w.sched.queue != [] && Plain(body) && body.end.Returns? && !body.overran
    requires Thrifty(w) && NeverRetried(w)
    ensures ReturnsInTime(w, body)
  {
    DrivingInv(w, q, k);
    hide Driving, Inv, RunOps, Begin, PlainOp;
    var p := w.sched.queue[0].pid;
    TakeNextStep(w, k);
    BeginStep(TakeNext(w), p, k);
    PlainOpsSucceed(Begin(TakeNext(w), p), p, body.ops, k);
    assert forall op :: op in body.ops ==> !op.SpawnChild? by { PlainIsNoSpawn(body); }
    MayDispatchNext(w, p);
  }

  lemma PlainIsNoSpawn(body: Body)
    requires Plain(body)
    ensures forall op :: op in body.ops ==> !op.SpawnChild?
  {}

  lemma MayDispatchNext(w: World, p: Pid)
    requires Thrifty(w) && NeverRetried(w) && p in w.table
    ensures CanDispatch(UsageOf(w, p), w.table[p].budget)
  {}

  lemma FinishIs(w: World, p: Pid, k: Track)
    requires Inv(w, {p}, {}, k) && p in w.table && w.table[p].state == Running && !Finish(w, p).1.RaisedOut?
    ensures Finish(w, p).0 == Cleanup(TaskCompletes(Announce(w, p, Completed, ProcessCompleted(p)), p).0, p)
  {
    hide Announce, TaskCompletes, FailProcess, Inv, Logged, Evolves, Cleanup, Finish;
    FinishCases(w, p);
    AnnounceStep(w, p, Completed, ProcessCompleted(p), k);
    CompletedCannotFail(Announce(w, p, Completed, ProcessCompleted(p)), p, k);
  }

  lemma CleanupNeverRetried(w: World, r: World, p: Pid)
    requires NeverRetried(w) && r.svc.usage == w.svc.usage
    ensures NeverRetried(r) && NeverRetried(Cleanup(r, p))
  {}

  lemma FinishNeverRetries(w: World, p: Pid, k: Track)
    requires Inv(w, {p}, {}, k) && p in w.table && w.table[p].state == Running
    requires NeverRetried(w) && Thrifty(w) && !Finish(w, p).1.RaisedOut?
    ensures NeverRetried(Finish(w, p).0)
  {
    hide Announce, TaskCompletes, Thrifty, Inv, Cleanup, Finish, NeverRetried;
    var w1 := Announce(w, p, Completed, ProcessCompleted(p));
    FinishIs(w, p, k);
    AnnounceSameBooks(w, p, Completed, ProcessCompleted(p));
    SameBooksThrifty(w, w1);
    TaskCompletesThrifty(w1, p);
    CleanupNeverRetried(w, TaskCompletes(w1, p).0, p);
  }

  lemma PlainStep(w: World, q: PlanId, body: Body, k: Track)
    requires Driving(w, q, k) && w.sched.queue != [] && Plain(body) && ReturnsInTime(w, body)
    requires Thrifty(w) && NeverRetried(w)
    ensures var r := RunNext(w, body).0; Driving(r, q, k) && Thrifty(r) && NeverRetried(r)
  {
    hide *;
    DrivingStep(w, q, body, k);
    NotRaised(RunNext(w, body).1);
    RunNextThrifty(w, body);
    PlainStepCounts(w, q, body, k);
  }

  lemma NotRaised(out: Outcome)
    requires out.Ran?
    ensures !out.RaisedOut?
  {}

  lemma PlainStepCounts(w: World, q: PlanId, body: Body, k: Track)
    requires Driving(w, q, k) && w.sched.queue != [] && Plain(body) && ReturnsInTime(w, body)
    requires Thrifty(w) && NeverRetried(w) && RunNext(w, body).1.Ran?
    ensures NeverRetried(RunNext(w, body).0)
  {
    hide Driving, ReturnsInTime, RunNext, Finish, Thrifty, Inv, BodyDone, Plain, NobodyWaits, Evolves, NeverRetried;
    DispatchCast(w, q, body, k);
    var p := w.sched.queue[0].pid;
    BodyDoneBooks(w, p, body);
    FinishNeverRetries(BodyDone(w, p, body), p, k);
  }

  lemma BodyDoneBooks(w: World, p: Pid, body: Body)
    requires Plain(body) && NeverRetried(w) && Thrifty(w) && w.sched.queue != []
    ensures NeverRetried(BodyDone(w, p, body)) && Thrifty(BodyDone(w, p, body))
  {
    hide RunOps, CanDispatch;
    PlainOpsSameBooks(Begin(TakeNext(w), p), p, body.ops);
  }

  lemma {:induction false} PlainPlanReturns(w: World, q: PlanId, bodies: seq<Body>, k: Track)
    requires Driving(w, q, k) && Thrifty(w) && NeverRetried(w)
    requires forall b :: b in bodies ==> Plain(b) && b.end.Returns? && !b.overran
    ensures AllReturnInTime(w, bodies)
    decreases bodies
  {
    hide Driving, Thrifty, NeverRetried, Plain, ReturnsInTime, RunNext, HasWork;
    DrivingHasWork(w, q, k);
    if w.sched.queue != [] && bodies != [] {
      PlainReturns(w, q, bodies[0], k);
      PlainStep(w, q, bodies[0], k);
      PlainPlanReturns(RunNext(w, bodies[0]).0, q, bodies[1..], k);
    }
  }

  lemma LaunchBooks(w: World, g: GoalId, specs: seq<TaskSpec>, plan: PlanId, base: TaskId)
    requires Thrifty(w) && NeverRetried(w) && g in w.cog.goals && w.cog.goals[g] == GoalPlanning
    ensures Thrifty(Launch(w, g, specs, plan, base).0) && NeverRetried(Launch(w, g, specs, plan, base).0)
  {
    PlannedIs(w, g, specs, plan, base);
    hide Thrifty, PlannedCog, Readied, ReadyEvents, SpawnReady, CreatePlan;
    var w1 := UpdateReady(Planned(w, g, specs, plan, base), plan);
    OnlyPlansSameBooks(w, w1);
    SameBooksThrifty(w, w1);
    SpawnReadyThrifty(w1, plan);
  }

  /** On an idle kernel, any non-empty plan without cyclic dependencies whose tasks are plain and
      return is completed by exactly one dispatch per task. */
  lemma PlainPlanCompletes(w: World, g: GoalId, specs: seq<TaskSpec>, plan: PlanId, base: TaskId, bodies: seq<Body>,
      k: Track)
    requires MayLaunch(w, g, specs, plan, base, k) && specs != [] && Thrifty(w) && NeverRetried(w)
    requires forall t :: base <= t < base + |specs| ==> !DependsOnCycle(PlannedCog(w.cog, g, specs, plan, base), t)
    requires |bodies| >= |specs| && forall b :: b in bodies ==> Plain(b) && b.end.Returns? && !b.overran
    ensures var r := Run(Launch(w, g, specs, plan, base).0, bodies);
      && r.end == Drained && r.dispatches == |specs|
      && (forall t :: base <= t < base + |specs| ==>
           t in r.world.cog.tasks && r.world.cog.tasks[t].state == TaskCompleted)
      && plan in r.world.cog.plans && r.world.cog.plans[plan].state == PlanCompleted
      && g in r.world.cog.goals && r.world.cog.goals[g] == GoalCompleted
  {
    hide *;
    MayLaunchGoal(w, g, specs, plan, base, k);
    LaunchDrives(w, g, specs, plan, base, k);
    LaunchBooks(w, g, specs, plan, base);
    PlainPlanReturns(Launch(w, g, specs, plan, base).0, plan, bodies, k);
    AcyclicPlanCompletes(w, g, specs, plan, base, bodies, k);
  }

  lemma PlainPlanDrives(w: World, g: GoalId, specs: seq<TaskSpec>, plan: PlanId, base: TaskId, bodies: seq<Body>,
      k: Track)
    requires MayLaunch(w, g, specs, plan, base, k) && Thrifty(w) && NeverRetried(w)
    requires |bodies| >= |specs| && forall b :: b in bodies ==> Plain(b) && b.end.Returns? && !b.overran
    ensures Driving(Run(Launch(w, g, specs, plan, base).0, bodies).world, plan, k)
  {
    hide *;
    MayLaunchGoal(w, g, specs, plan, base, k);
    LaunchDrives(w, g, specs, plan, base, k);
    LaunchBooks(w, g, specs, plan, base);
    var w1 := Launch(w, g, specs, plan, base).0;
    PlainPlanReturns(w1, plan, bodies, k);
    LeftAtLaunch(PlannedCog(w.cog, g, specs, plan, base), w1.cog, NewIds(base, |specs|));
    RunnableAtMost(PlannedCog(w.cog, g, specs, plan, base), NewIds(base, |specs|));
    RunDrains(w1, plan, bodies, k);
  }

  /** The task has its own process, which was started only after the processes of all its
      dependencies had completed. */
  ghost predicate InItsTurn(w: World, t: TaskId) {
    && t in w.cog.tasks && w.cog.tasks[t].process.Some?
    && forall i :: 0 <= i < |w.log| && w.log[i] == ProcessStarted(w.cog.tasks[t].process.value) ==>
         DepsDone(w.cog, w.cog.tasks[t].deps, w.log, i)
  }

  lemma StartedInTurn(w: World, q: PlanId, t: TaskId, k: Track)
    requires Driving(w, q, k) && t in w.cog.tasks && w.cog.tasks[t].state == TaskCompleted
    ensures InItsTurn(w, t)
  {
    hide Settled, Grounded, DepsDone, Logged, PlanOk, DepsMet;
    assert PlansOk(w, {}, {}) && HistOk(w);
    assert TaskOk(w.cog, w.table, {}, t);
  }

  lemma MayLaunchGoal(w: World, g: GoalId, specs: seq<TaskSpec>, plan: PlanId, base: TaskId, k: Track)
    requires MayLaunch(w, g, specs, plan, base, k)
    ensures g in w.cog.goals && w.cog.goals[g] == GoalPlanning
  {}

  // ------------------------------------------------------------------
  // From a fresh kernel
  // ------------------------------------------------------------------

  function RegisterAll(w: World, ds: seq<Definition>): World
    decreases ds
  {
    if ds == [] then w else RegisterAll(Register(w, ds[0]).0, ds[1..])
  }

  /** A fresh kernel with definitions and one goal that is being planned. */
  function Prepared(supervised: bool, ds: seq<Definition>): World {
    StartPlanning(CreateGoal(RegisterAll(Boot(supervised), ds), 0), 0).0
  }

  lemma {:induction false} RegisterAllFacts(w: World, ds: seq<Definition>, k: Track)
    requires Inv(w, {}, {}, k) && Thrifty(w) && forall d :: d in ds ==> Roomy(d.budget)
    ensures var r := RegisterAll(w, ds);
      && Inv(r, {}, {}, k) && Thrifty(r) && r == w.(registry := r.registry)
      && w.registry.Keys <= r.registry.Keys && forall d :: d in ds ==> d.name in r.registry
    decreases ds
  {
    hide Inv, Thrifty, Roomy, Evolves;
    if ds != [] {
      RegisterStep(w, ds[0], k);
      var w1 := Register(w, ds[0]).0;
      RegisterThrifty(w, ds[0]);
      RegisterAllFacts(w1, ds[1..], k);
      assert forall d :: d in ds ==> d == ds[0] || d in ds[1..];
    }
  }

  lemma RegisterThrifty(w: World, d: Definition)
    requires Thrifty(w) && Roomy(d.budget)
    ensures Thrifty(Register(w, d).0)
  {}

  /** Every task's definition is among those registered. */
  ghost predicate Defined(specs: seq<TaskSpec>, ds: seq<Definition>) {
    forall i :: 0 <= i < |specs| ==> exists d :: d in ds && d.name == specs[i].definition
  }

  lemma RegisteredKernel(supervised: bool, ds: seq<Definition>, k: Track)
    requires k == Track(None, false) && forall d :: d in ds ==> Roomy(d.budget)
    ensures var w := RegisterAll(Boot(supervised), ds);
      && Inv(w, {}, {}, k) && Thrifty(w) && w == Boot(supervised).(registry := w.registry)
      && forall d :: d in ds ==> d.name in w.registry
  {
    hide Inv, Thrifty, Roomy, Boot;
    BootInv(supervised, k);
    BootIsThrifty(supervised);
    RegisterAllFacts(Boot(supervised), ds, k);
  }

  lemma PreparedIs(w: World)
    requires w.cog == Cognition(map[], map[], map[], [])
    ensures var r := StartPlanning(CreateGoal(w, 0), 0);
      && !r.1 && r.0.cog == w.cog.(goals := map[0 := GoalPlanning]) && r.0 == w.(cog := r.0.cog, log := r.0.log)
  {}

  lemma PreparedInv(supervised: bool, ds: seq<Definition>, k: Track)
    requires k == Track(None, false) && forall d :: d in ds ==> Roomy(d.budget)
    ensures var w := Prepared(supervised, ds);
      && Inv(w, {}, {}, k) && Thrifty(w) && NeverRetried(w) && IdleKernel(w)
      && w.cog == Cognition(map[0 := GoalPlanning], map[], map[], [])
      && forall d :: d in ds ==> d.name in w.registry
  {
    hide Inv, Thrifty, Roomy, RegisterAll, CreateGoal, StartPlanning;
    RegisteredKernel(supervised, ds, k);
    var w0 := RegisterAll(Boot(supervised), ds);
    PreparedIs(w0);
    NoGoalYet(supervised);
    CreateGoalStep(w0, 0, k);
    StartPlanningStep(CreateGoal(w0, 0), 0, k);
    var w := Prepared(supervised, ds);
    OnlyPlansSameBooks(w0, w);
    SameBooksThrifty(w0, w);
  }

  lemma NoGoalYet(supervised: bool)
    ensures 0 !in Boot(supervised).cog.goals && Boot(supervised).table == map[] && Boot(supervised).svc.usage == map[]
    ensures Boot(supervised).cog == Cognition(map[], map[], map[], [])
  {}

  lemma PreparedFacts(supervised: bool, ds: seq<Definition>, specs: seq<TaskSpec>, k: Track)
    requires k == Track(None, false) && (forall d :: d in ds ==> Roomy(d.budget)) && CleanSpecs(specs)
      && Defined(specs, ds)
    ensures MayLaunch(Prepared(supervised, ds), 0, specs, 0, 0, k) && Thrifty(Prepared(supervised, ds))
      && NeverRetried(Prepared(supervised, ds))
  {
    hide Inv, Thrifty, NeverRetried, Roomy, Prepared, CleanSpecs, IdleKernel;
    PreparedInv(supervised, ds, k);
    var w := Prepared(supervised, ds);
    assert FreshIds(w.cog, 0, 0, |specs|) && Registered(w);
  }

  /** A fresh kernel, definitions with room in their budgets, and a non-empty plan of uniquely
      named, known, acyclic dependencies: with plain bodies that return, `run` completes every
      task, the plan and the goal in exactly one dispatch per task. */
  lemma FreshPlanCompletes(supervised: bool, ds: seq<Definition>, specs: seq<TaskSpec>, bodies: seq<Body>)
    requires (forall d :: d in ds ==> Roomy(d.budget)) && specs != []
    requires CleanSpecs(specs) && Defined(specs, ds)
    requires forall t: TaskId :: t < |specs| ==>
      !DependsOnCycle(PlannedCog(Prepared(supervised, ds).cog, 0, specs, 0, 0), t)
    requires |bodies| >= |specs| && forall b :: b in bodies ==> Plain(b) && b.end.Returns? && !b.overran
    ensures var w := Launch(Prepared(supervised, ds), 0, specs, 0, 0).0;
      var r := Run(w, bodies);
      && r.end == Drained && r.dispatches == |specs|
      && (forall t: TaskId :: t < |specs| ==> t in r.world.cog.tasks && r.world.cog.tasks[t].state == TaskCompleted)
      && 0 in r.world.cog.plans && r.world.cog.plans[0].state == PlanCompleted
      && 0 in r.world.cog.goals && r.world.cog.goals[0] == GoalCompleted
      && (forall t: TaskId :: t < |specs| ==> InItsTurn(r.world, t))
  {
    hide *;
    var k := Track(None, false);
    PreparedFacts(supervised, ds, specs, k);
    PlainPlanCompletes(Prepared(supervised, ds), 0, specs, 0, 0, bodies, k);
    var r := Run(Launch(Prepared(supervised, ds), 0, specs, 0, 0).0, bodies).world;
    PlainPlanDrives(Prepared(supervised, ds), 0, specs, 0, 0, bodies, k);
    forall t: TaskId | t < |specs| ensures InItsTurn(r, t) {
      StartedInTurn(r, 0, t, k);
    }
  }
}
