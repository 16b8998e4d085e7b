/** Whole runs: any sequence of calls into the kernel, with arbitrary process bodies. */
module Runs {
  import opened Common
  import opened Heap
  import opened States
  import opened SchedulerModel
  import opened KernelModel
  import opened Correspondence
  import opened Replay
  import opened Gating
  import opened PlanSafety
  import opened History
  import opened KernelRuns

  /** One call into the kernel, or one move of the clock. */
  datatype Call =
    | CallRegister(definition: Definition)
    | CallSpawn(definition: Definition, workload: Option<GoalId>, priority: int, needs: set<Pid>)
    | CallRunNext(body: Body)
    | CallHasWork
    | CallGrant(request: string)
    | CallPut(key: string, value: Value)
    | CallDelete(key: string)
    | CallSend(to: Pid, message: Value)
    | CallCreateGoal(goal: GoalId)
    | CallStartPlanning(goal: GoalId)
    | CallCreatePlan(goal: GoalId, specs: seq<TaskSpec>, plan: PlanId, base: TaskId)
    | CallExecutePlan(plan: PlanId)
    | ClockMoves(now: int)

  /** The call, and whether it raised. */
  function Do(w: World, c: Call): (World, bool) {
    match c
    case CallRegister(d) => Register(w, d)
    case CallSpawn(d, goal, priority, needs) => (Spawn(w, d, goal, priority, needs), false)
    case CallRunNext(body) => var (r, out) := RunNext(w, body); (r, out.RaisedOut?)
    case CallHasWork => (HasWork(w).0, false)
    case CallGrant(request) => (Grant(w, request), false)
    case CallPut(k, v) => (PutState(w, k, v), false)
    case CallDelete(k) => (DeleteState(w, k), false)
    case CallSend(to, m) => var (r, ok) := Send(w, to, m); (r, !ok)
    case CallCreateGoal(g) => (CreateGoal(w, g), false)
    case CallStartPlanning(g) => StartPlanning(w, g)
    case CallCreatePlan(g, specs, plan, base) => CreatePlan(w, g, specs, plan, base)
    case CallExecutePlan(plan) => SpawnReady(w, plan)
    case ClockMoves(now) => (w.(clock := now), false)
  }

  /** New ids are new, task names are unique and known, and a goal gets one plan. */
  ghost predicate Clean(w: World, c: Call) {
    match c
    case CallCreateGoal(g) => g !in w.cog.goals
    case CallCreatePlan(g, specs, plan, base) =>
      CleanSpecs(specs) && FreshIds(w.cog, plan, base, |specs|) && (g in w.cog.goals ==> w.cog.goals[g] == GoalPlanning)
    case _ => true
  }

  /** The call is clean and either returns or is refused before it changes anything. */
  ghost predicate Sound(w: World, c: Call) {
    Clean(w, c) && (Do(w, c).1 ==> Do(w, c).0 == w)
  }

  /** A run of such calls. */
  ghost predicate Returns(w: World, calls: seq<Call>)
    decreases calls
  {
    calls == [] || (Sound(w, calls[0]) && Returns(Do(w, calls[0]).0, calls[1..]))
  }

  function After(w: World, calls: seq<Call>): World
    decreases calls
  {
    if calls == [] then w else After(Do(w, calls[0]).0, calls[1..])
  }

  // ------------------------------------------------------------------
  // One call
  // ------------------------------------------------------------------

  lemma GoalAside(w: World, g: GoalId, s: GoalState)
    ensures var r := Emit(w.(cog := w.cog.(goals := w.cog.goals[g := s])), GoalEvent(g, s));
      Aside(w, r) && CogEvolves(w.cog, r.cog) && ProcessesGoOn(w.cog, r.cog, w.unused)
  {}

  lemma CreateGoalStep(w: World, g: GoalId, k: Track)
    requires Inv(w, {}, {}, k) && g !in w.cog.goals
    ensures Inv(CreateGoal(w, g), {}, {}, k) && Evolves(w, CreateGoal(w, g))
  {
    hide Inv, CogOk, Aside, CogEvolves, ProcessesGoOn;
    InvPlans(w, {}, {}, k);
    GoalAside(w, g, GoalCreated);
    GoalsKeep(w.cog, w.table, {}, g, GoalCreated);
    CogStepCompletesNothing(w, CreateGoal(w, g), {}, {}, {}, k);
  }

  lemma StartPlanningStep(w: World, g: GoalId, k: Track)
    requires Inv(w, {}, {}, k)
    ensures var (r, raised) := StartPlanning(w, g);
      if raised then r == w else Inv(r, {}, {}, k) && Evolves(w, r)
  {
    hide Inv, CogOk, Aside, CogEvolves, ProcessesGoOn;
    InvPlans(w, {}, {}, k);
    var (r, raised) := StartPlanning(w, g);
    if !raised {
      GoalAside(w, g, GoalPlanning);
      GoalsKeep(w.cog, w.table, {}, g, GoalPlanning);
      CogStepCompletesNothing(w, r, {}, {}, {}, k);
    }
  }

  /** `create_plan` before the first look at what is ready. */
  function Planned(w: World, g: GoalId, specs: seq<TaskSpec>, plan: PlanId, base: TaskId): World {
    w.(cog := PlannedCog(w.cog, g, specs, plan, base),
       log := w.log + seq(|specs|, (i: nat) => TaskEvent(base + i, TaskPending)) + [PlanEvent(plan, PlanActive)]
         + [GoalEvent(g, GoalInProgress)])
  }

  lemma PlannedIs(w: World, g: GoalId, specs: seq<TaskSpec>, plan: PlanId, base: TaskId)
    requires g in w.cog.goals && w.cog.goals[g] == GoalPlanning
    ensures CreatePlan(w, g, specs, plan, base) == (UpdateReady(Planned(w, g, specs, plan, base), plan), false)
  {
    hide UpdateReady, NewIds, NewTask;
  }

  lemma PlannedAside(w: World, g: GoalId, specs: seq<TaskSpec>, plan: PlanId, base: TaskId)
    ensures Aside(w, Planned(w, g, specs, plan, base))
  {
    hide PlannedCog;
  }

  lemma PlannedEvolves(c: Cognition, g: GoalId, specs: seq<TaskSpec>, plan: PlanId, base: TaskId, unused: Pid)
    requires FreshIds(c, plan, base, |specs|)
    ensures var c' := PlannedCog(c, g, specs, plan, base);
      && CogEvolves(c, c') && ProcessesGoOn(c, c', unused)
      && forall t :: t in c'.tasks && c'.tasks[t].state == TaskCompleted ==>
        t in c.tasks && c.tasks[t].state == TaskCompleted && c.tasks[t].process == c'.tasks[t].process
  {
    hide PlannedCog, CogEvolves, ProcessesGoOn, NewTask, NewIds;
    var c' := PlannedCog(c, g, specs, plan, base);
    PlannedExtends(c, g, specs, plan, base);
    forall t | t in c'.tasks && t !in c.tasks ensures c'.tasks[t].state == TaskPending && c'.tasks[t].process == None {
      NewTaskBlank(specs, t - base, base, plan);
    }
    NewTasksEvolve(c, c', unused);
  }

  lemma NewTaskBlank(specs: seq<TaskSpec>, i: nat, base: TaskId, plan: PlanId)
    requires i < |specs|
    ensures NewTask(specs, i, base, plan).state == TaskPending && NewTask(specs, i, base, plan).process == None
  {}

  lemma NewTasksEvolve(c: Cognition, c': Cognition, unused: Pid)
    requires forall t :: t in c.tasks ==> t in c'.tasks && c'.tasks[t] == c.tasks[t]
    requires forall t :: t in c'.tasks && t !in c.tasks ==>
      c'.tasks[t].state == TaskPending && c'.tasks[t].process == None
    requires forall q :: q in c.plans ==> q in c'.plans && c'.plans[q] == c.plans[q]
    ensures CogEvolves(c, c') && ProcessesGoOn(c, c', unused)
  {}

  lemma CreatePlanStep(w: World, g: GoalId, specs: seq<TaskSpec>, plan: PlanId, base: TaskId, k: Track)
    requires Inv(w, {}, {}, k) && Clean(w, CallCreatePlan(g, specs, plan, base))
    ensures var (r, raised) := CreatePlan(w, g, specs, plan, base);
      if raised then r == w && g !in w.cog.goals else Inv(r, {}, {}, k) && Evolves(w, r)
  {
    if g in w.cog.goals {
      var w1 := Planned(w, g, specs, plan, base);
      PlannedIs(w, g, specs, plan, base);
      PlannedAside(w, g, specs, plan, base);
      PlannedEvolves(w.cog, g, specs, plan, base, w.unused);
      assert CogOk(w.cog, w.table, {}, {});
      PlannedKeeps(w.cog, w.table, {}, g, specs, plan, base);
      hide Inv, CogOk, PlannedCog, CogEvolves, ProcessesGoOn, Aside, UpdateReady, Evolves, CreatePlan, FreshIds,
        CleanSpecs;
      CogStepCompletesNothing(w, w1, {}, {}, {}, k);
      UpdateReadyStep(w1, plan, {}, {}, k);
      EvolvesTrans(w, w1, UpdateReady(w1, plan));
    }
  }

  /** What a call leaves of the claim that the log replays: a revived process ends it. */
  function Later(w: World, c: Call, k: Track): Track {
    if c.CallRunNext? && RevivesNext(w, c.body) then k.(replays := false) else k
  }

  /** Every sound call keeps the invariant. */
  lemma CallStep(w: World, c: Call, k: Track)
    requires Inv(w, {}, {}, k) && Sound(w, c)
    ensures Inv(Do(w, c).0, {}, {}, Later(w, c, k)) && Evolves(w, Do(w, c).0)
  {
    hide Inv, Evolves, Do, RevivesNext, Clean;
    if Do(w, c).1 {
      EvolvesRefl(w);
      Forgets(w, c, k);
    } else {
      ReturningCallStep(w, c, k);
    }
  }

  lemma Forgets(w: World, c: Call, k: Track)
    requires Inv(w, {}, {}, k)
    ensures Inv(w, {}, {}, Later(w, c, k))
  {
    hide RevivesNext;
    Forget(w, {}, k);
    hide Inv;
  }

  lemma ReturningCallStep(w: World, c: Call, k: Track)
    requires Inv(w, {}, {}, k) && Clean(w, c) && !Do(w, c).1
    ensures Inv(Do(w, c).0, {}, {}, Later(w, c, k)) && Evolves(w, Do(w, c).0)
  {
    hide Inv, Evolves, Register, Spawn, RunNext, HasWork, PutState, DeleteState, Send, CreateGoal, StartPlanning,
      CreatePlan, SpawnReady, EvaluateWaiting, RevivesNext, Registered, BudgetSpent;
    EvolvesRefl(w);
    match c {
      case CallRegister(d) => RegisterStep(w, d, k);
      case CallSpawn(d, goal, priority, needs) => SpawnStep(w, d, goal, priority, needs, {}, {}, k);
      case CallRunNext(body) => RunNextStep(w, body, k);
      case CallHasWork => HasWorkStep(w, k);
      case CallGrant(request) =>
        var w1 := PutState(w, "approval:" + request, Number(1));
        PutStateStep(w, "approval:" + request, Number(1), {}, k);
        EvaluateStep(w1, {}, k);
        EvolvesTrans(w, w1, EvaluateWaiting(w1));
      case CallPut(key, v) => PutStateStep(w, key, v, {}, k);
      case CallDelete(key) => DeleteStateStep(w, key, {}, k);
      case CallSend(to, m) => SendStep(w, to, m, {}, k);
      case CallCreateGoal(g) => CreateGoalStep(w, g, k);
      case CallStartPlanning(g) => StartPlanningStep(w, g, k);
      case CallCreatePlan(g, specs, plan, base) => CreatePlanStep(w, g, specs, plan, base, k);
      case CallExecutePlan(plan) => ExecutePlanStep(w, plan, k);
      case ClockMoves(now) => ClockStep(w, now, k);
    }
  }

  lemma ExecutePlanStep(w: World, plan: PlanId, k: Track)
    requires Inv(w, {}, {}, k) && !SpawnReady(w, plan).1
    ensures Inv(SpawnReady(w, plan).0, {}, {}, k) && Evolves(w, SpawnReady(w, plan).0)
  {
    hide Inv, Evolves, StartTasks;
    SpawnReadyStep(w, plan, {}, {}, k);
  }

  lemma RegisterStep(w: World, d: Definition, k: Track)
    requires Inv(w, {}, {}, k)
    ensures Inv(Register(w, d).0, {}, {}, k) && Evolves(w, Register(w, d).0)
  {
    hide Consistent, HistOk, CogOk, StatesAgree, StoreAgrees, GateOk, CogEvolves, Fold;
    var r := Register(w, d).0;
    EvolvesRefl(w);
    SamePlaces(w, r, {});
    HistSameTasks(w, r);
    SameFold(w, r);
    if k.gate.Some? {
      GateStaysCalm(w, r, [], k.gate.value);
    }
  }

  lemma SameFold(w: World, r: World)
    requires r.log == w.log && r.table == w.table && r.store == w.store
    ensures (StatesAgree(w) ==> StatesAgree(r)) && (StoreAgrees(w) ==> StoreAgrees(r))
  {
    hide Fold;
  }

  lemma ClockStep(w: World, now: int, k: Track)
    requires Inv(w, {}, {}, k)
    ensures Inv(w.(clock := now), {}, {}, k) && Evolves(w, w.(clock := now))
  {
    var r := w.(clock := now);
    assert Aside(w, r);
    hide Inv;
    AsideSameCog(w, r, {}, k);
  }

  // ------------------------------------------------------------------
  // All runs
  // ------------------------------------------------------------------

  lemma NothingRevives(w: World, body: Body)
    requires w.svc.supervisor.None?
    ensures !RevivesNext(w, body)
  {
    hide CapabilitiesFor, Enqueue;
    var w1 := EvaluateWaiting(w);
    if w1.sched.queue != [] {
      var p := w1.sched.queue[0].pid;
      RunOpsKeepsSupervisor(Begin(TakeNext(w1), p), p, body.ops);
    }
  }

  lemma RunOpKeepsSupervisor(w: World, p: Pid, op: BodyOp)
    ensures RunOp(w, p, op).0.svc.supervisor == w.svc.supervisor
  {
    hide EvaluateWaiting, Permitted, Enqueue, CapabilitiesFor;
  }

  lemma {:induction false} RunOpsKeepsSupervisor(w: World, p: Pid, ops: seq<BodyOp>)
    ensures RunOps(w, p, ops).0.svc.supervisor == w.svc.supervisor
    decreases ops
  {
    hide RunOp;
    if ops != [] {
      RunOpKeepsSupervisor(w, p, ops[0]);
      RunOpsKeepsSupervisor(RunOp(w, p, ops[0]).0, p, ops[1..]);
    }
  }

  /** The invariant holds after every run that returns normally. Without a supervisor the log
      keeps replaying to the process table. */
  lemma {:induction false} EveryRunKeepsInv(w: World, calls: seq<Call>, k: Track)
    requires Inv(w, {}, {}, k) && (k.replays ==> w.svc.supervisor.None?) && Returns(w, calls)
    ensures Inv(After(w, calls), {}, {}, k) && Evolves(w, After(w, calls))
    decreases calls
  {
    hide Inv, Evolves, Do, Later, RevivesNext, Sound;
    EvolvesRefl(w);
    if calls != [] {
      var c := calls[0];
      var w1 := Do(w, c).0;
      CallStep(w, c, k);
      LaterIsSame(w, c, k);
      SameSupervision(w, w1);
      EveryRunKeepsInv(w1, calls[1..], k);
      EvolvesTrans(w, w1, After(w1, calls[1..]));
    }
  }

  lemma LaterIsSame(w: World, c: Call, k: Track)
    requires k.replays ==> w.svc.supervisor.None?
    ensures Later(w, c, k) == k
  {
    hide RevivesNext;
    if c.CallRunNext? && k.replays {
      NothingRevives(w, c.body);
    }
  }

  lemma SameSupervision(w: World, r: World)
    requires Evolves(w, r)
    ensures w.svc.supervisor.None? <==> r.svc.supervisor.None?
  {}

  lemma BootInv(supervised: bool, k: Track)
    requires k.gate.None? && (k.replays ==> !supervised)
    ensures Inv(Boot(supervised), {}, {}, k)
  {}

  // ------------------------------------------------------------------
  // What it means
  // ------------------------------------------------------------------

  /** Between calls, with or without a supervisor: nothing is RUNNING, WAITING is exactly being
      registered as waiting, READY is exactly being queued or held back by dependencies, and a
      finished process is nowhere, with no mailbox and no capabilities. */
  lemma ProcessesMatchServices(supervised: bool, calls: seq<Call>, p: Pid)
    requires Returns(Boot(supervised), calls) && p in After(Boot(supervised), calls).table
    ensures var w := After(Boot(supervised), calls);
      var s := w.table[p].state;
      && s in {Ready, Waiting, Completed, Failed}
      && (s == Waiting <==> Waits(w.sched, p))
      && (s == Ready <==> Queued(w.sched, p) || Depends(w.sched, p))
      && !(Queued(w.sched, p) && Waits(w.sched, p)) && !(Queued(w.sched, p) && Depends(w.sched, p))
      && !(Waits(w.sched, p) && Depends(w.sched, p))
      && (s.IsFinished() <==> p !in w.svc.mail) && (s.IsFinished() <==> p !in w.svc.caps)
      && (!s.IsFinished() ==> w.svc.caps[p] == CapabilitiesFor(w.table[p].definition))
  {
    var k := Track(None, false);
    BootInv(supervised, k);
    EveryRunKeepsInv(Boot(supervised), calls, k);
    hide Returns, After;
    var w := After(Boot(supervised), calls);
    assert Consistent(w, {});
    assert Placed(w.table[p], p, w.sched, w.svc.mail.Keys, w.svc.caps, {});
  }

  /** Whole-run replay: without a supervisor, folding the log gives the process table's states
      and the shared store as replay can see it. The store part needs no such condition. */
  lemma LogReplays(supervised: bool, calls: seq<Call>)
    requires Returns(Boot(supervised), calls)
    ensures var w := After(Boot(supervised), calls);
      && Fold(w.log).store == Visible(w.store)
      && (!supervised ==> Fold(w.log).states == StatesOf(w.table))
  {
    var k := Track(None, !supervised);
    BootInv(supervised, k);
    EveryRunKeepsInv(Boot(supervised), calls, k);
  }

  /** With a supervisor, one call keeps a replaying log replaying exactly when it revives no
      process. */
  lemma ReplaysUnlessRevived(w: World, body: Body, g: Option<Gate>)
    requires Inv(w, {}, {}, Track(g, true)) && !RunNext(w, body).1.RaisedOut?
    ensures StatesAgree(RunNext(w, body).0) <==> !RevivesNext(w, body)
  {
    hide RunNext, RevivesNext, Registered, BudgetSpent;
    RunNextStep(w, body, Track(g, true));
  }

  /** Dependency gating: a process spawned with dependencies at any point of a run is, at every
      later point, held back exactly while something it needs has not ended since; and its
      STARTED events come after a terminal event of everything it needs. */
  lemma DependenciesGate(supervised: bool, before: seq<Call>, d: Definition, goal: Option<GoalId>, priority: int,
      needs: set<Pid>, later: seq<Call>)
    requires Returns(Boot(supervised), before) && needs != {}
    requires Returns(Spawn(After(Boot(supervised), before), d, goal, priority, needs), later)
    ensures var w0 := After(Boot(supervised), before);
      var g := Gate(w0.unused, needs, |w0.log|);
      var w := After(Spawn(w0, d, goal, priority, needs), later);
      && (Depends(w.sched, g.pid) <==> StillNeeded(w.log, g) != {})
      && (Depends(w.sched, g.pid) ==> Dependent(g.pid, StillNeeded(w.log, g)) in w.sched.pending)
      && StartsLate(w.log, g)
  {
    var k := Track(None, false);
    BootInv(supervised, k);
    EveryRunKeepsInv(Boot(supervised), before, k);
    hide After, Returns, StillNeeded, StartsLate, Spawn, Depends;
    var w0 := After(Boot(supervised), before);
    var w1 := Spawn(w0, d, goal, priority, needs);
    var g := Gate(w0.unused, needs, |w0.log|);
    SpawnedGate(w0, d, goal, priority, needs, k);
    EveryRunKeepsInv(w1, later, Track(Some(g), false));
    var w := After(w1, later);
    HeldExactlyWhileNeeded(w, g);
  }

  lemma NeedsOnlyShrink(log: seq<Event>, log': seq<Event>, g: Gate)
    requires log <= log' && StillNeeded(log, g) == {}
    ensures StillNeeded(log', g) == {}
  {
    forall q | q in g.needs ensures Ended(log', g.start, |log'|, q) {
      assert q !in StillNeeded(log, g);
      var i :| g.start <= i < |log| && Ends(log[i], q);
      assert log'[i] == log[i];
    }
  }

  /** Once a process is no longer held back it never is again: it goes through the dependency
      table once. */
  lemma GateOpensOnce(supervised: bool, before: seq<Call>, d: Definition, goal: Option<GoalId>, priority: int,
      needs: set<Pid>, later: seq<Call>, more: seq<Call>)
    requires Returns(Boot(supervised), before) && needs != {}
    requires Returns(Spawn(After(Boot(supervised), before), d, goal, priority, needs), later)
    requires Returns(After(Spawn(After(Boot(supervised), before), d, goal, priority, needs), later), more)
    requires !Depends(After(Spawn(After(Boot(supervised), before), d, goal, priority, needs), later).sched,
      After(Boot(supervised), before).unused)
    ensures !Depends(After(After(Spawn(After(Boot(supervised), before), d, goal, priority, needs), later), more).sched,
      After(Boot(supervised), before).unused)
  {
    hide After, Returns, StillNeeded, StartsLate, Spawn, Depends, Inv, Evolves;
    var k := Track(None, false);
    BootInv(supervised, k);
    EveryRunKeepsInv(Boot(supervised), before, k);
    var w0 := After(Boot(supervised), before);
    var w1 := Spawn(w0, d, goal, priority, needs);
    var g := Gate(w0.unused, needs, |w0.log|);
    SpawnedGate(w0, d, goal, priority, needs, k);
    EveryRunKeepsInv(w1, later, Track(Some(g), false));
    var w2 := After(w1, later);
    EveryRunKeepsInv(w2, more, Track(Some(g), false));
    var w3 := After(w2, more);
    HeldByGate(w2, g);
    HeldByGate(w3, g);
    LogGrew(w2, w3);
    NeedsOnlyShrink(w2.log, w3.log, g);
  }

  lemma SpawnedGate(w: World, d: Definition, goal: Option<GoalId>, priority: int, needs: set<Pid>, k: Track)
    requires Inv(w, {}, {}, k) && k == Track(None, false) && needs != {}
    ensures Inv(Spawn(w, d, goal, priority, needs), {}, {}, Track(Some(Gate(w.unused, needs, |w.log|)), false))
  {
    hide StillNeeded, StartsLate;
    SpawnStep(w, d, goal, priority, needs, {}, {}, k);
    UnusedIsFree(w, k);
    GateOpens(w, d, goal, priority, needs);
    hide Spawn, Depends;
  }

  lemma HeldByGate(w: World, g: Gate)
    requires Inv(w, {}, {}, Track(Some(g), false))
    ensures Depends(w.sched, g.pid) <==> StillNeeded(w.log, g) != {}
  {
    hide StillNeeded, StartsLate;
    HeldExactlyWhileNeeded(w, g);
  }

  lemma LogGrew(w: World, r: World)
    requires Evolves(w, r)
    ensures w.log <= r.log
  {}

  /** In any state of a run: a process held back for `needs` enters the queue at the terminal
      event that leaves nothing to wait for, and at no other. */
  lemma EntersWhenLastDependencyEnds(w: World, p: Pid, needs: set<Pid>, done: Pid, busy: set<Pid>, k: Track)
    requires Inv(w, busy, {}, k) && Dependent(p, needs) in w.sched.pending
    ensures !Queued(w.sched, p)
    ensures var r := OnTerminal(w, done);
      if needs - {done} == {} then Queued(r.sched, p) && !Depends(r.sched, p)
      else !Queued(r.sched, p) && Dependent(p, needs - {done}) in r.sched.pending
  {
    HeldIsNotQueued(w, p, needs, busy, k);
    hide Inv, Queued, Waits, Depends, SchedOk, Evaluate, Notify, EvaluateWaiting, Satisfied;
    WaitingEvaluates(w);
    EvaluatePlaces(w.sched, TrueNow(w));
    NotifyReleases(EvaluateWaiting(w).sched, p, needs, done);
  }

  lemma HeldIsNotQueued(w: World, p: Pid, needs: set<Pid>, busy: set<Pid>, k: Track)
    requires Inv(w, busy, {}, k) && Dependent(p, needs) in w.sched.pending
    ensures SchedOk(w.sched) && !Queued(w.sched, p) && !Waits(w.sched, p)
  {
    assert Consistent(w, busy);
    hide Inv, SchedOk;
    assert Depends(w.sched, p);
  }

  lemma UnusedIsFree(w: World, k: Track)
    requires Inv(w, {}, {}, k)
    ensures SchedOk(w.sched) && !Waits(w.sched, w.unused)
  {}

  /** In every run a plan is COMPLETED exactly when it has tasks and all are COMPLETED, FAILED
      exactly when some task is, and its goal mirrors it; no other plan has that goal. */
  lemma PlansFollowTasks(supervised: bool, calls: seq<Call>, q: PlanId)
    requires Returns(Boot(supervised), calls) && q in After(Boot(supervised), calls).cog.plans
    ensures var c := After(Boot(supervised), calls).cog;
      var plan := c.plans[q];
      && (plan.state == PlanCompleted <==> plan.tasks != [] && AllCompleted(c, plan.tasks))
      && (plan.state == PlanFailed <==> exists t :: t in plan.tasks && t in c.tasks && c.tasks[t].state == TaskFailed)
      && plan.state in {PlanActive, PlanCompleted, PlanFailed}
      && plan.goal in c.goals && c.goals[plan.goal] == GoalFor(plan.state)
      && (forall r :: r in c.plans && c.plans[r].goal == plan.goal ==> r == q)
  {
    var k := Track(None, false);
    BootInv(supervised, k);
    EveryRunKeepsInv(Boot(supervised), calls, k);
    hide Returns, After, TaskOk, AllCompleted;
    var w := After(Boot(supervised), calls);
    assert PlansOk(w, {}, {});
    assert PlanOk(w.cog, q, false);
  }

  /** In every run a task past PENDING has all its dependencies COMPLETED, has its own process
      exactly from RUNNING on, and that process's STARTED events come after the COMPLETED
      events of the processes of all its dependencies. */
  lemma TasksStartAfterDependencies(supervised: bool, calls: seq<Call>, t: TaskId)
    requires Returns(Boot(supervised), calls) && t in After(Boot(supervised), calls).cog.tasks
    ensures var w := After(Boot(supervised), calls);
      var task := w.cog.tasks[t];
      && (task.state != TaskPending ==> DepsMet(w.cog, task.deps))
      && (task.process.Some? <==> task.state in {TaskRunning, TaskCompleted, TaskFailed})
      && (task.process.Some? ==> forall u :: u in w.cog.tasks && w.cog.tasks[u].process == task.process ==> u == t)
      && (task.process.Some? ==> forall i :: 0 <= i < |w.log| && w.log[i] == ProcessStarted(task.process.value) ==>
           DepsDone(w.cog, task.deps, w.log, i))
  {
    var k := Track(None, false);
    BootInv(supervised, k);
    EveryRunKeepsInv(Boot(supervised), calls, k);
    hide Returns, After, DepsMet, DepsDone, Logged, PlanOk;
    var w := After(Boot(supervised), calls);
    assert PlansOk(w, {}, {}) && HistOk(w);
    assert TaskOk(w.cog, w.table, {}, t);
  }

  /** What is settled stays settled for the rest of the run: a plan that is over stays so and
      none of its tasks ever gets a process any more, even when a failed process is revived;
      a task keeps the one process it got. */
  lemma SettledForGood(supervised: bool, calls: seq<Call>, later: seq<Call>)
    requires Returns(Boot(supervised), calls) && Returns(After(Boot(supervised), calls), later)
    ensures CogEvolves(After(Boot(supervised), calls).cog, After(After(Boot(supervised), calls), later).cog)
  {
    var k := Track(None, false);
    BootInv(supervised, k);
    EveryRunKeepsInv(Boot(supervised), calls, k);
    hide Returns, Inv, CogEvolves;
    EveryRunKeepsInv(After(Boot(supervised), calls), later, k);
  }

  // ------------------------------------------------------------------
  // Where the promises stop
  // ------------------------------------------------------------------

  /** A definition whose budget lets it run, and be retried once. */
  const Retriable := Definition("worker", {}, Budget(1, 1, 1.0, 1))

  /** A supervised process that raises once: the log then says FAILED and the table READY. */
  lemma RevivalBreaksReplay()
    ensures var w := Spawn(Boot(true), Retriable, None, 0, {});
      var (r, out) := RunNext(w, Body([], Raises, false));
      !out.RaisedOut? && !StatesAgree(r)
  {
    hide Inv, RunNext, RevivesNext, BudgetSpent, EvaluateWaiting, Registered, StatesAgree, Evolves, SameBusy, Spawn;
    var k := Track(None, true);
    var w := Spawn(Boot(true), Retriable, None, 0, {});
    SupervisedBootInv(k);
    SpawnStep(Boot(true), Retriable, None, 0, {}, {}, {}, k);
    FirstDispatch(Retriable, true);
    NoTasksYet(Retriable);
    RunNextStep(w, Body([], Raises, false), k);
  }

  lemma SupervisedBootInv(k: Track)
    requires k.gate.None?
    ensures Inv(Boot(true), {}, {}, k)
  {}

  lemma NoTasksYet(d: Definition)
    ensures Registered(Spawn(Boot(true), d, None, 0, {}))
  {
    hide Enqueue, CapabilitiesFor;
  }

  /** A process with no token budget is never dispatched: `run_next` raises. */
  lemma EmptyBudgetRaises()
    ensures RunNext(Spawn(Boot(false), Definition("idle", {}, Budget(0, 1, 1.0, 1)), None, 0, {}),
      Body([], BodyEnd.Returns, false)).1.RaisedOut?
  {
    var k := Track(None, false);
    var d := Definition("idle", {}, Budget(0, 1, 1.0, 1));
    BootInv(false, k);
    SpawnStep(Boot(false), d, None, 0, {}, {}, {}, k);
    hide Inv;
    FirstDispatch(d, false);
    hide RunNext;
    RunNextStep(Spawn(Boot(false), d, None, 0, {}), Body([], BodyEnd.Returns, false), k);
  }

  lemma FirstDispatch(d: Definition, supervised: bool)
    ensures var w := Spawn(Boot(supervised), d, None, 0, {});
      && EvaluateWaiting(w) == w && w.sched.queue == [Entry(0, 1, 0)]
      && (BudgetSpent(w) <==> !CanDispatch(NoUsage, d.budget))
      && (RevivesNext(w, Body([], Raises, false)) <==> supervised && d.budget.maxRetries > 0)
  {
    var w := Spawn(Boot(supervised), d, None, 0, {});
    assert TrueNow(w) == {};
    NothingSatisfied(w.sched.waiting);
    assert w.sched.queue == [Entry(0, 1, 0)];
  }
}
