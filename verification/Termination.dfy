/** A supervised run halts: however often bodies raise, every dispatch uses up one of the
    `max_retries + 1` attempts of its process. */
module Termination {
  import opened Common
  import opened Heap
  import opened States
  import opened SchedulerModel
  import opened KernelModel
  import opened Correspondence
  import opened PlanSafety
  import opened History
  import opened KernelRuns

  function RetryCounts(w: World): map<Pid, nat> {
    if w.svc.supervisor.Some? then w.svc.supervisor.value else map[]
  }

  /** How many of its attempts a process has used: its retries while it lives, all when it has
      finished. */
  function Spent(w: World, p: Pid): nat {
    if p !in w.table then 0
    else if w.table[p].state.IsFinished() then w.table[p].budget.maxRetries + 1
    else RetryCount(RetryCounts(w), p)
  }

  /** The attempts that the processes below `n` have used. */
  function Attempts(w: World, n: Pid): nat {
    if n == 0 then 0 else Attempts(w, n - 1) + Spent(w, n - 1)
  }

  /** The attempts that the processes below `n` have in all. */
  function Allowance(w: World, n: Pid): nat {
    if n == 0 then 0 else Allowance(w, n - 1) + if n - 1 in w.table then w.table[n - 1].budget.maxRetries + 1 else 0
  }

  /** The supervisor's count and the budget tracker's agree, and there is no checkpoint. */
  ghost predicate Counted(w: World, p: Pid)
    requires p in w.table
  {
    && CheckpointsOf(w, p) == []
    && UsageOf(w, p).retries == RetryCount(RetryCounts(w), p) <= w.table[p].budget.maxRetries
  }

  /** Nothing is recorded under an id that is still to be given out. */
  ghost predicate NothingAhead(w: World) {
    forall p :: p in w.svc.usage || p in RetryCounts(w) || p in w.svc.checkpoints || p in w.table ==> p < w.unused
  }

  /** A workload in which nobody waits or has a checkpoint. */
  ghost predicate Working(w: World, k: Track) {
    && Inv(w, {}, {}, k) && !k.replays && Registered(w) && w.sched.waiting == [] && NothingAhead(w)
    && forall p :: p in w.table && !w.table[p].state.IsFinished() ==> Counted(w, p)
  }

  /** The next body neither waits nor takes a checkpoint, and no token, tool or cost limit has
      been hit. It may raise, overrun, and start processes. */
  ghost predicate Affordable(w: World, body: Body)
    requires w.sched.queue != []
  {
    var p := w.sched.queue[0].pid;
    && p in w.table
    && UsageOf(w, p).tokens < w.table[p].budget.maxTokens
    && UsageOf(w, p).tools < w.table[p].budget.maxTools
    && UsageOf(w, p).cost < w.table[p].budget.maxCost
    && !body.end.WaitsFor? && forall op :: op in body.ops ==> !op.SaveCheckpoint?
  }

  ghost predicate AllAffordable(w: World, bodies: seq<Body>)
    decreases bodies
  {
    var (w1, more) := HasWork(w);
    more && bodies != [] ==>
      w1.sched.queue != [] && Affordable(w1, bodies[0]) && AllAffordable(RunNext(w1, bodies[0]).0, bodies[1..])
  }

  // ------------------------------------------------------------------
  // What the parts of a dispatch leave alone
  // ------------------------------------------------------------------

  /** The same tasks with the same definitions, and no definition is forgotten. */
  ghost predicate SameNeeds(w: World, r: World) {
    && r.cog.tasks.Keys == w.cog.tasks.Keys
    && (forall t :: t in w.cog.tasks ==> r.cog.tasks[t].definition == w.cog.tasks[t].definition)
    && w.registry.Keys <= r.registry.Keys
  }

  lemma SameNeedsRegistered(w: World, r: World)
    requires SameNeeds(w, r) && Registered(w)
    ensures Registered(r)
  {}

  /** Supervision, checkpoints and retry usage are as before, nobody waits, old processes are
      as before but for the state of `p`, and new ones are READY. */
  ghost predicate Steady(w: World, r: World, p: Pid) {
    && SameNeeds(w, r) && (w.sched.pending == [] ==> r.sched.pending == [])
    && r.svc.supervisor == w.svc.supervisor && r.svc.checkpoints == w.svc.checkpoints
    && (forall q :: q != p ==> (q in r.svc.usage <==> q in w.svc.usage) && UsageOf(r, q) == UsageOf(w, q))
    && UsageOf(r, p).retries == UsageOf(w, p).retries
    && r.sched.waiting == []
    && w.unused <= r.unused
    && (forall q :: q in w.table ==> q in r.table && r.table[q] == w.table[q].(state := r.table[q].state))
    && (forall q :: q in w.table && q != p ==> r.table[q].state == w.table[q].state)
    && (forall q :: q in r.table && q !in w.table ==> w.unused <= q < r.unused && r.table[q].state == Ready)
  }

  /** The same, and `p` keeps its state. */
  ghost predicate Still(w: World, r: World, p: Pid) {
    Steady(w, r, p) && (p in w.table ==> r.table[p].state == w.table[p].state)
  }

  ghost predicate IdsBelow(w: World) {
    forall q :: q in w.table ==> q < w.unused
  }

  lemma SteadyTrans(a: World, b: World, c: World, p: Pid)
    requires Steady(a, b, p) && Steady(b, c, p) && IdsBelow(a) && p in a.table
    ensures Steady(a, c, p)
  {}

  lemma StillTrans(a: World, b: World, c: World, p: Pid)
    requires Still(a, b, p) && Still(b, c, p) && IdsBelow(a) && p in a.table
    ensures Still(a, c, p)
  {}

  lemma StillRefl(w: World, p: Pid)
    requires w.sched.waiting == []
    ensures Still(w, w, p)
  {}

  lemma StillIsSteady(w: World, r: World, p: Pid)
    requires Still(w, r, p)
    ensures Steady(w, r, p) && r.sched.waiting == [] && (p in w.table ==> p in r.table && r.table[p] == w.table[p])
  {}

  lemma BelowStays(w: World, r: World, p: Pid)
    requires Steady(w, r, p) && IdsBelow(w)
    ensures IdsBelow(r)
  {}

  lemma NobodyToWake(w: World)
    requires w.sched.waiting == []
    ensures EvaluateWaiting(w) == w
  {
    assert TrueNow(w) == {};
    NothingSatisfied([]);
  }

  lemma SpawnStill(w: World, d: Definition, goal: Option<GoalId>, priority: int, p: Pid)
    requires w.sched.waiting == [] && IdsBelow(w)
    ensures Still(w, Spawn(w, d, goal, priority, {}), p)
  {
    hide CapabilitiesFor, SameNeeds, Enqueue;
    SpawnSched(w, d, goal, priority);
    assert w.unused !in w.table;
  }

  lemma SpawnSched(w: World, d: Definition, goal: Option<GoalId>, priority: int)
    ensures var r := Spawn(w, d, goal, priority, {});
      r.sched.waiting == w.sched.waiting && r.sched.pending == w.sched.pending && SameNeeds(w, r)
  {
    hide CapabilitiesFor;
  }

  /** Steps that start nothing and touch no other process's usage. */
  ghost predicate Stays(w: World, r: World, p: Pid) {
    && r.table == w.table && r.unused == w.unused && r.sched == w.sched && SameNeeds(w, r)
    && r.svc.supervisor == w.svc.supervisor && r.svc.checkpoints == w.svc.checkpoints
    && (r.svc.usage == w.svc.usage
        || exists u :: r.svc.usage == w.svc.usage[p := u] && u.retries == UsageOf(w, p).retries)
  }

  lemma StaysStill(w: World, r: World, p: Pid)
    requires Stays(w, r, p) && w.sched.waiting == []
    ensures Still(w, r, p)
  {}

  lemma QuietOpStays(w: World, p: Pid, op: BodyOp)
    requires Quiet(op) && !op.SaveCheckpoint?
    ensures Stays(w, RunOp(w, p, op).0, p)
  {
    hide Permitted, UsageOf, RunOp;
    QuietOpFrame(w, p, op);
    if op.UseTool? {
      ToolUsage(w, p, op);
      var u := UsageOf(w, p);
      var u' := u.(tokens := u.tokens + op.tokens, tools := u.tools + 1, cost := u.cost + op.cost);
      assert RunOp(w, p, op).0.svc.usage == w.svc.usage || RunOp(w, p, op).0.svc.usage == w.svc.usage[p := u'];
    }
  }

  lemma ToolUsage(w: World, p: Pid, op: BodyOp)
    requires op.UseTool?
    ensures var u := UsageOf(w, p);
      var u' := u.(tokens := u.tokens + op.tokens, tools := u.tools + 1, cost := u.cost + op.cost);
      RunOp(w, p, op).0.svc.usage == if Permitted(w, p, op.capability) then w.svc.usage[p := u'] else w.svc.usage
  {
    hide Permitted, UsageOf;
  }

  lemma QuietOpFrame(w: World, p: Pid, op: BodyOp)
    requires Quiet(op) && !op.SaveCheckpoint?
    ensures var r := RunOp(w, p, op).0;
      && r.table == w.table && r.unused == w.unused && r.sched == w.sched && SameNeeds(w, r)
      && r.svc.supervisor == w.svc.supervisor && r.svc.checkpoints == w.svc.checkpoints
      && (!op.UseTool? ==> r.svc.usage == w.svc.usage)
  {
    hide Permitted, UsageOf, MemoryOf;
  }

  lemma SharedOpStays(w: World, p: Pid, op: BodyOp)
    requires w.sched.waiting == [] && (op.WriteState? || op.EraseState? || op.SendTo?)
    ensures Stays(w, RunOp(w, p, op).0, p)
  {
    hide Permitted, EvaluateWaiting;
    match op {
      case WriteState(key, v) =>
        NobodyToWake(Emit(w.(store := w.store[key := v]), StateChanged(key, v)));
        NobodyToWake(Emit(w.(store := w.store[key := v]), StateCreated(key, v)));
      case EraseState(key) => NobodyToWake(Emit(w.(store := w.store - {key}), StateDeleted(key)));
      case SendTo(to, m) => if to in w.svc.mail { NobodyToWake(Delivered(w, to, m)); }
      case _ =>
    }
  }

  lemma ChildStill(w: World, p: Pid, d: string, priority: int)
    requires w.sched.waiting == [] && IdsBelow(w) && p in w.table
    ensures Still(w, RunOp(w, p, SpawnChild(d, priority)).0, p)
  {
    hide Permitted, Spawn, Still, Stays;
    StillRefl(w, p);
    if Permitted(w, p, "process.create") && d in w.registry {
      var w1 := Spawn(w, w.registry[d], w.table[p].goal, priority, {});
      SpawnStill(w, w.registry[d], w.table[p].goal, priority, p);
      StillIsSteady(w, w1, p);
      var u := UsageOf(w1, p);
      UsageStays(w1, p, u.(tools := u.tools + 1));
      StaysStill(w1, RunOp(w, p, SpawnChild(d, priority)).0, p);
      StillTrans(w, w1, RunOp(w, p, SpawnChild(d, priority)).0, p);
    }
  }

  lemma UsageStays(w: World, p: Pid, u: Usage)
    requires u.retries == UsageOf(w, p).retries
    ensures Stays(w, SetUsage(w, p, u), p)
  {}

  lemma RunOpStill(w: World, p: Pid, op: BodyOp)
    requires w.sched.waiting == [] && IdsBelow(w) && p in w.table && !op.SaveCheckpoint?
    ensures Still(w, RunOp(w, p, op).0, p)
  {
    hide RunOp, Still, Stays;
    if Quiet(op) {
      QuietOpStays(w, p, op);
      StaysStill(w, RunOp(w, p, op).0, p);
    } else if op.SpawnChild? {
      ChildStill(w, p, op.definition, op.priority);
    } else {
      SharedOpStays(w, p, op);
      StaysStill(w, RunOp(w, p, op).0, p);
    }
  }

  lemma {:induction false} RunOpsStill(w: World, p: Pid, ops: seq<BodyOp>)
    requires w.sched.waiting == [] && IdsBelow(w) && p in w.table && forall op :: op in ops ==> !op.SaveCheckpoint?
    ensures Still(w, RunOps(w, p, ops).0, p)
    decreases ops
  {
    hide RunOp, Still, Steady, IdsBelow;
    StillRefl(w, p);
    if ops != [] {
      var (w1, ok) := RunOp(w, p, ops[0]);
      RunOpStill(w, p, ops[0]);
      if ok {
        StillIsSteady(w, w1, p);
        BelowStays(w, w1, p);
        RunOpsStill(w1, p, ops[1..]);
        StillTrans(w, w1, RunOps(w1, p, ops[1..]).0, p);
      }
    }
  }

  lemma StartTaskStill(w: World, t: TaskId, d: Definition, goal: GoalId, p: Pid)
    requires w.sched.waiting == [] && IdsBelow(w) && t in w.cog.tasks
    ensures Still(w, StartTask(w, t, d, goal), p)
  {
    hide Spawn;
    SpawnStill(w, d, Some(goal), w.cog.tasks[t].priority, p);
  }

  lemma {:induction false} StartTasksStill(w: World, goal: GoalId, ids: seq<TaskId>, p: Pid)
    requires w.sched.waiting == [] && IdsBelow(w) && p in w.table
    ensures Still(w, StartTasks(w, goal, ids).0, p)
    decreases ids
  {
    hide StartTask, Still, Steady, IdsBelow;
    StillRefl(w, p);
    if ids != [] {
      var t := ids[0];
      if t !in w.cog.tasks || w.cog.tasks[t].process.Some? {
        StartTasksStill(w, goal, ids[1..], p);
      } else if w.cog.tasks[t].definition in w.registry {
        var w1 := StartTask(w, t, w.registry[w.cog.tasks[t].definition], goal);
        StartTaskStill(w, t, w.registry[w.cog.tasks[t].definition], goal, p);
        StillIsSteady(w, w1, p);
        BelowStays(w, w1, p);
        StartTasksStill(w1, goal, ids[1..], p);
        StillTrans(w, w1, StartTasks(w1, goal, ids[1..]).0, p);
      }
    }
  }

  /** Plans and events do not matter here. */
  lemma OnlyPlansStill(w: World, r: World, p: Pid)
    requires r == w.(cog := r.cog, log := r.log) && w.sched.waiting == [] && SameNeeds(w, r)
    ensures Still(w, r, p)
    ensures IdsBelow(w) ==> IdsBelow(r)
  {}

  lemma ClosePlanOnly(w: World, q: PlanId, ps: PlanState, gs: GoalState)
    requires q in w.cog.plans
    ensures var r := ClosePlan(w, q, ps, gs).0; r == w.(cog := r.cog, log := r.log) && SameNeeds(w, r)
  {}

  lemma UpdateReadyOnly(w: World, t: TaskId, s: TaskState, q: PlanId)
    ensures var r := UpdateReady(SetTask(w, t, s), q); r == w.(cog := r.cog, log := r.log) && SameNeeds(w, r)
  {
    hide BecomesReady;
  }

  lemma TaskCompletesStill(w: World, p: Pid)
    requires w.sched.waiting == [] && IdsBelow(w) && p in w.table
    ensures Still(w, TaskCompletes(w, p).0, p)
  {
    hide UpdateReady, SetTask, StartTasks, ClosePlan, Still, IdsBelow, ReadyTasks, AllCompleted;
    StillRefl(w, p);
    match TaskOf(w.cog, w.cog.order, p) {
      case None =>
      case Some(t) =>
        if t in w.cog.tasks && !w.cog.tasks[t].state.IsFinished() && TaskMayMove(w.cog.tasks[t].state, TaskCompleted) {
          var q := w.cog.tasks[t].plan;
          var w2 := UpdateReady(SetTask(w, t, TaskCompleted), q);
          UpdateReadyOnly(w, t, TaskCompleted, q);
          OnlyPlansStill(w, w2, p);
          var w3 := SpawnReady(w2, q).0;
          SpawnReadyStill(w2, q, p);
          StillTrans(w, w2, w3, p);
          StillIsSteady(w, w3, p);
          if q in w3.cog.plans {
            ClosePlanOnly(w3, q, PlanCompleted, GoalCompleted);
          }
          var r := CheckCompletion(w3, q).0;
          OnlyPlansStill(w3, r, p);
          StillTrans(w, w3, r, p);
        }
    }
  }

  lemma SpawnReadyStill(w: World, q: PlanId, p: Pid)
    requires w.sched.waiting == [] && IdsBelow(w) && p in w.table
    ensures Still(w, SpawnReady(w, q).0, p)
  {
    hide StartTasks, Still, IdsBelow, ReadyTasks;
    StillRefl(w, p);
    if q in w.cog.plans {
      StartTasksStill(w, w.cog.plans[q].goal, ReadyTasks(w.cog, w.cog.plans[q].tasks), p);
    }
  }

  lemma TaskFailsStill(w: World, p: Pid)
    requires w.sched.waiting == []
    ensures Still(w, TaskFails(w, p).0, p)
  {
    hide Still, ClosePlan, IdsBelow, TaskOf;
    StillRefl(w, p);
    match TaskOf(w.cog, w.cog.order, p) {
      case None =>
      case Some(t) =>
        if t in w.cog.tasks && TaskMayMove(w.cog.tasks[t].state, TaskFailed) {
          var w1 := SetTask(w, t, TaskFailed);
          if w.cog.tasks[t].plan in w1.cog.plans {
            ClosePlanOnly(w1, w.cog.tasks[t].plan, PlanFailed, GoalFailed);
          }
        }
    }
    OnlyPlansStill(w, TaskFails(w, p).0, p);
  }

  lemma AnnounceSteady(w: World, p: Pid, s: ProcessState, e: Event)
    requires w.sched.waiting == [] && p in w.table
    ensures Steady(w, Announce(w, p, s, e), p) && Announce(w, p, s, e).table[p].state == s
  {
    NobodyToWake(Emit(SetState(w, p, s), e));
    hide EvaluateWaiting;
    NotifyKeepsWaiting(w.sched, p);
  }

  lemma NotifyKeepsWaiting(s: Sched, p: Pid)
    ensures Notify(s, p).waiting == s.waiting && (s.pending == [] ==> Notify(s, p).pending == [])
  {
    AddAllKeepsWaiting(s.(pending := Shrunk(s.pending, p)), Freed(s.pending, p));
  }

  lemma {:induction false} AddAllKeepsWaiting(s: Sched, ps: seq<Pid>)
    ensures AddAll(s, ps).waiting == s.waiting && AddAll(s, ps).pending == s.pending
    decreases ps
  {
    if ps != [] {
      AddAllKeepsWaiting(Add(s, ps[0], PriorityOf(s, ps[0])), ps[1..]);
    }
  }

  // ------------------------------------------------------------------
  // A dispatch uses an attempt
  // ------------------------------------------------------------------

  /** What a dispatch of `p` from `w` to `r` does to the attempts: `p` has used at least one
      more, the others and the newcomers none. */
  ghost predicate UsesAttempt(w: World, r: World, p: Pid) {
    && w.unused <= r.unused && NothingAhead(r) && r.sched.waiting == [] && SameNeeds(w, r)
    && p in w.table && p in r.table && Spent(r, p) > Spent(w, p)
    && SameBudgets(w, r)
    && (forall q :: q in w.table && q != p ==> r.table[q].state == w.table[q].state && Spent(r, q) == Spent(w, q))
    && (forall q :: q in r.table && !r.table[q].state.IsFinished() ==> Counted(r, q))
  }

  /** Old processes keep their budgets, and nothing is held back that was not. */
  ghost predicate SameBudgets(w: World, r: World) {
    (w.sched.pending == [] ==> r.sched.pending == []) &&
    forall q :: q in w.table ==> q in r.table && r.table[q].budget == w.table[q].budget
  }

  ghost predicate AllCounted(w: World) {
    forall p :: p in w.table && !w.table[p].state.IsFinished() ==> Counted(w, p)
  }

  /** `p` ends for good. */
  lemma EndingUses(w: World, r1: World, r: World, p: Pid)
    requires AllCounted(w) && NothingAhead(w) && p in w.table && !w.table[p].state.IsFinished()
    requires Steady(w, r1, p) && (p in r1.svc.usage ==> p < r1.unused) && r1.table[p].state in {Completed, Failed}
    requires r == Cleanup(r1, p)
    ensures UsesAttempt(w, r, p)
  {
    hide Counted, SameNeeds;
    EndedIsSpent(w, r1, r, p);
    EndedLeavesCounted(w, r1, r, p);
  }

  lemma EndedIsSpent(w: World, r1: World, r: World, p: Pid)
    requires AllCounted(w) && NothingAhead(w) && p in w.table && !w.table[p].state.IsFinished()
    requires Steady(w, r1, p) && (p in r1.svc.usage ==> p < r1.unused) && r1.table[p].state in {Completed, Failed}
    requires r == Cleanup(r1, p)
    ensures NothingAhead(r) && Spent(r, p) > Spent(w, p) && SameNeeds(w, r)
    ensures forall q :: q in w.table && q != p ==> r.table[q].state == w.table[q].state && Spent(r, q) == Spent(w, q)
  {
    hide SameNeeds;
    assert Counted(w, p);
    EndedNeeds(w, r1, p);
  }

  lemma EndedNeeds(w: World, r1: World, p: Pid)
    requires SameNeeds(w, r1)
    ensures SameNeeds(w, Cleanup(r1, p))
  {}

  lemma EndedLeavesCounted(w: World, r1: World, r: World, p: Pid)
    requires AllCounted(w) && NothingAhead(w) && p in w.table
    requires Steady(w, r1, p) && r1.table[p].state in {Completed, Failed} && r == Cleanup(r1, p)
    ensures forall q :: q in r.table && !r.table[q].state.IsFinished() ==> Counted(r, q)
  {
    hide SameNeeds;
    forall q | q in r.table && !r.table[q].state.IsFinished() ensures Counted(r, q) {
      assert q != p && UsageOf(r, q) == UsageOf(r1, q);
      if q in w.table {
        assert Counted(w, q);
      }
    }
  }

  /** The supervisor takes `p` back: one more retry on both counts, and READY. */
  ghost predicate TakenBack(w: World, r: World, p: Pid) {
    && r.svc.supervisor.Some? && w.svc.supervisor.Some?
    && RetryCounts(r) == RetryCounts(w)[p := RetryCount(RetryCounts(w), p) + 1]
    && r.svc.checkpoints == w.svc.checkpoints
    && r.svc.usage == w.svc.usage[p := UsageOf(w, p).(retries := UsageOf(w, p).retries + 1)]
    && r.sched.waiting == w.sched.waiting && r.sched.pending == w.sched.pending && r.unused == w.unused
    && SameNeeds(w, r)
    && p in w.table && RetryCount(RetryCounts(w), p) < w.table[p].budget.maxRetries
    && r.table == w.table[p := w.table[p].(state := Ready)]
  }

  lemma RetryTakesBack(w: World, p: Pid)
    requires Decide(w, p).Retry?
    ensures TakenBack(w, Supervise(w, p), p)
  {
    hide CapabilitiesFor, Enqueue;
    EnqueueKeepsWaiting(w.sched, p);
  }

  lemma EnqueueKeepsWaiting(s: Sched, p: Pid)
    ensures Enqueue(s, p, 0, {}).waiting == s.waiting && Enqueue(s, p, 0, {}).pending == s.pending
  {}

  /** The three counts of any process after `p` was taken back. */
  lemma CountsAfterRetry(w: World, r1: World, r2: World, r: World, p: Pid, q: Pid)
    requires Steady(w, r1, p) && TakenBack(r1, r2, p) && r.svc == r2.svc
    ensures CheckpointsOf(r, q) == CheckpointsOf(w, q)
    ensures UsageOf(r, q).retries == UsageOf(w, q).retries + if q == p then 1 else 0
    ensures RetryCount(RetryCounts(r), q) == RetryCount(RetryCounts(w), q) + if q == p then 1 else 0
  {
    hide SameNeeds;
  }

  lemma CastAfterRetry(w: World, r1: World, r2: World, r: World, p: Pid)
    requires p in w.table && Steady(w, r1, p) && TakenBack(r1, r2, p) && Still(r2, r, p)
    ensures p in r.table && r.table[p].state == Ready && r.sched.waiting == [] && w.unused <= r.unused
    ensures RetryCount(RetryCounts(w), p) < w.table[p].budget.maxRetries
    ensures forall q :: q in w.table ==> q in r.table && r.table[q].budget == w.table[q].budget
    ensures forall q :: q in w.table && q != p ==> r.table[q].state == w.table[q].state
    ensures forall q :: q in r.table && q !in w.table ==> w.unused <= q < r.unused
  {
    hide SameNeeds, UsageOf;
    assert forall q :: q in r2.table <==> q in r1.table;
  }

  lemma RetryUses(w: World, r1: World, r2: World, r: World, p: Pid)
    requires AllCounted(w) && NothingAhead(w) && p in w.table && !w.table[p].state.IsFinished()
    requires Steady(w, r1, p) && TakenBack(r1, r2, p) && Still(r2, r, p)
    requires r.svc == r2.svc && p < r.unused
    ensures UsesAttempt(w, r, p)
  {
    hide AllCounted, UsesAttempt, Steady, TakenBack, Still, NothingAhead, RetryCounts, UsageOf, CheckpointsOf,
      SameNeeds, SameBudgets;
    CastAfterRetry(w, r1, r2, r, p);
    forall q | q in r.table && !r.table[q].state.IsFinished() ensures Counted(r, q) {
      CountsAfterRetry(w, r1, r2, r, p, q);
      if q in w.table {
        UnfinishedCounted(w, q);
      } else {
        NewcomerCounts(w, q);
      }
    }
    forall q ensures Spent(r, q) >= Spent(w, q) && (q != p && q in w.table ==> Spent(r, q) == Spent(w, q))
      && (q == p ==> Spent(r, q) > Spent(w, q))
    {
      CountsAfterRetry(w, r1, r2, r, p, q);
    }
    NothingAheadAfterRetry(w, r1, r2, r, p);
    NeedsAlong(w, r1, r2, r, p);
    BudgetsAlong(w, r1, r2, r, p);
    UsesAttemptIs(w, r, p);
  }

  lemma NewcomerCounts(w: World, q: Pid)
    requires NothingAhead(w) && w.unused <= q
    ensures CheckpointsOf(w, q) == [] && UsageOf(w, q).retries == 0 == RetryCount(RetryCounts(w), q)
  {}

  lemma NothingAheadAfterRetry(w: World, r1: World, r2: World, r: World, p: Pid)
    requires NothingAhead(w) && p in w.table
    requires Steady(w, r1, p) && TakenBack(r1, r2, p) && Still(r2, r, p)
    requires r.svc == r2.svc && p < r.unused
    ensures NothingAhead(r)
  {
    hide SameNeeds, UsageOf;
  }

  lemma NeedsAlong(w: World, r1: World, r2: World, r: World, p: Pid)
    requires Steady(w, r1, p) && TakenBack(r1, r2, p) && Still(r2, r, p)
    ensures SameNeeds(w, r)
  {
    hide UsageOf;
    SameNeedsTrans(w, r1, r2);
    SameNeedsTrans(w, r2, r);
  }

  lemma BudgetsAlong(w: World, r1: World, r2: World, r: World, p: Pid)
    requires Steady(w, r1, p) && TakenBack(r1, r2, p) && Still(r2, r, p)
    ensures SameBudgets(w, r)
  {
    hide SameNeeds, UsageOf;
  }

  lemma SameNeedsTrans(a: World, b: World, c: World)
    requires SameNeeds(a, b) && SameNeeds(b, c)
    ensures SameNeeds(a, c)
  {}

  lemma UsesAttemptIs(w: World, r: World, p: Pid)
    requires w.unused <= r.unused && NothingAhead(r) && r.sched.waiting == [] && SameNeeds(w, r)
    requires p in w.table && p in r.table && Spent(r, p) > Spent(w, p)
    requires SameBudgets(w, r)
    requires forall q :: q in w.table && q != p ==> r.table[q].state == w.table[q].state && Spent(r, q) == Spent(w, q)
    requires forall q :: q in r.table && !r.table[q].state.IsFinished() ==> Counted(r, q)
    ensures UsesAttempt(w, r, p)
  {}

  lemma UnfinishedCounted(w: World, q: Pid)
    requires AllCounted(w) && q in w.table && !w.table[q].state.IsFinished()
    ensures Counted(w, q)
  {}

  /** A process that fails uses an attempt, whether it is retried or not. */
  lemma FailUses(w0: World, w: World, p: Pid)
    requires AllCounted(w0) && NothingAhead(w0) && p in w0.table && !w0.table[p].state.IsFinished()
    requires Steady(w0, w, p) && p < w.unused && !FailProcess(w, p).1.RaisedOut?
    ensures UsesAttempt(w0, FailProcess(w, p).0, p)
  {
    var w1 := Announce(w, p, Failed, ProcessFailed(p));
    BelowAhead(w0);
    NoCheckpoint(w0, w, p);
    FailIs(w, p);
    hide Announce, TaskFails, Counted, AllCounted, NothingAhead, UsesAttempt, Spent, FailProcess, Cleanup, Decide,
      TakenBack, IdsBelow;
    assert w.sched.waiting == [] && p in w.table;
    AnnounceSteady(w, p, Failed, ProcessFailed(p));
    AnnounceUsage(w, p, Failed, ProcessFailed(p));
    SteadyTrans(w0, w, w1, p);
    hide Steady, Still;
    SuperviseCases(w1, p);
    var w2 := Supervise(w1, p);
    TaskFailsStill(w2, p);
    var w3 := TaskFails(w2, p).0;
    TaskFailsUsage(w2, p);
    StillIsSteady(w2, w3, p);
    if Decide(w1, p).Retry? {
      CleanupOfLiveIsNothing(w3, p);
      RetryUses(w0, w1, w2, w3, p);
    } else {
      SteadyTrans(w0, w1, w3, p);
      EndingUses(w0, w3, Cleanup(w3, p), p);
    }
  }

  lemma NoCheckpoint(w0: World, w: World, p: Pid)
    requires AllCounted(w0) && p in w0.table && !w0.table[p].state.IsFinished() && Steady(w0, w, p)
    ensures CheckpointsOf(w, p) == [] && w.sched.waiting == [] && w0.unused <= w.unused
  {
    assert Counted(w0, p);
  }

  lemma SuperviseCases(w: World, p: Pid)
    requires CheckpointsOf(w, p) == [] && p in w.table && w.sched.waiting == []
    ensures var r := Supervise(w, p);
      && r.sched.waiting == [] && r.unused == w.unused && p in r.table
      && if Decide(w, p).Retry? then TakenBack(w, r, p) && r.table[p].state == Ready else r == w
  {
    hide CapabilitiesFor, Enqueue, TakenBack;
    if Decide(w, p).Retry? {
      RetryTakesBack(w, p);
      EnqueueKeepsWaiting(w.sched, p);
    }
  }

  /** What `_fail_process` does when it returns. */
  lemma FailIs(w: World, p: Pid)
    requires !FailProcess(w, p).1.RaisedOut?
    ensures FailProcess(w, p).0 == Cleanup(TaskFails(Supervise(Announce(w, p, Failed, ProcessFailed(p)), p), p).0, p)
  {
    hide Announce, Supervise, TaskFails, Cleanup;
  }

  lemma BelowAhead(w: World)
    requires NothingAhead(w)
    ensures IdsBelow(w)
  {}

  lemma AnnounceUsage(w: World, p: Pid, s: ProcessState, e: Event)
    ensures Announce(w, p, s, e).svc == w.svc && Announce(w, p, s, e).unused == w.unused
  {
    hide Evaluate, Notify, WakeAll;
  }

  lemma TaskFailsUsage(w: World, p: Pid)
    ensures TaskFails(w, p).0.svc == w.svc && TaskFails(w, p).0.unused == w.unused
  {}

  /** A process that completes uses up its attempts. */
  lemma FinishUses(w0: World, w: World, p: Pid)
    requires AllCounted(w0) && NothingAhead(w0) && p in w0.table && !w0.table[p].state.IsFinished()
    requires Steady(w0, w, p) && p < w.unused && w.table[p].state == Running && !Finish(w, p).1.RaisedOut?
    ensures UsesAttempt(w0, Finish(w, p).0, p)
  {
    hide Announce, TaskCompletes, Counted, AllCounted, NothingAhead, UsesAttempt, Spent, FailProcess, Cleanup, IdsBelow,
      Still, Finish, SameNeeds;
    FinishCases(w, p);
    assert w.sched.waiting == [] && p in w.table;
    var w1 := Announce(w, p, Completed, ProcessCompleted(p));
    BelowAhead(w0);
    AnnounceSteady(w, p, Completed, ProcessCompleted(p));
    AnnounceUsage(w, p, Completed, ProcessCompleted(p));
    SteadyTrans(w0, w, w1, p);
    NobodyWaitsIn(w0, w1, p);
    hide Steady;
    BelowStays(w0, w1, p);
    TaskCompletesStill(w1, p);
    var (w2, raised) := TaskCompletes(w1, p);
    StillIsSteady(w1, w2, p);
    SteadyTrans(w0, w1, w2, p);
    if raised {
      FailingCompletedRaises(w2, p);
    } else {
      SteadyGrows(w1, w2, p);
      EndingUses(w0, w2, Cleanup(w2, p), p);
    }
  }

  lemma NobodyWaitsIn(w: World, r: World, p: Pid)
    requires Steady(w, r, p)
    ensures r.sched.waiting == [] && (p in w.table ==> p in r.table)
  {}

  lemma SteadyGrows(w: World, r: World, p: Pid)
    requires Steady(w, r, p)
    ensures w.unused <= r.unused
  {}

  lemma BeginSteady(w: World, p: Pid)
    requires w.sched.waiting == [] && p in w.table
    ensures Steady(w, Begin(w, p), p) && Begin(w, p).table[p].state == Running
  {}

  lemma IdBelow(w: World, p: Pid)
    requires IdsBelow(w) && p in w.table
    ensures p < w.unused
  {}

  lemma ExecuteUses(w: World, p: Pid, body: Body)
    requires AllCounted(w) && NothingAhead(w) && p in w.table && w.table[p].state == Ready && w.sched.waiting == []
    requires !body.end.WaitsFor? && forall op :: op in body.ops ==> !op.SaveCheckpoint?
    requires !Execute(w, p, body).1.RaisedOut?
    ensures UsesAttempt(w, Execute(w, p, body).0, p)
  {
    hide RunOps, Begin, FailProcess, Finish, Steady, Still, Counted, AllCounted, NothingAhead, UsesAttempt, IdsBelow;
    BelowAhead(w);
    IdBelow(w, p);
    var w0 := Begin(w, p);
    BeginSteady(w, p);
    BelowStays(w, w0, p);
    NobodyWaitsIn(w, w0, p);
    var (w1, ok) := RunOps(w0, p, body.ops);
    RunOpsStill(w0, p, body.ops);
    StillIsSteady(w0, w1, p);
    SteadyTrans(w, w0, w1, p);
    SteadyGrows(w, w1, p);
    if !ok || body.end.Raises? {
      FailUses(w, w1, p);
    } else {
      var w2 := SetUsage(w1, p, UsageOf(w1, p));
      UsageStays(w1, p, UsageOf(w1, p));
      StaysStill(w1, w2, p);
      StillIsSteady(w1, w2, p);
      SteadyTrans(w, w1, w2, p);
      if body.overran {
        FailUses(w, w2, p);
      } else {
        FinishUses(w, w2, p);
      }
    }
  }

  // ------------------------------------------------------------------
  // The whole run
  // ------------------------------------------------------------------

  /** A process in the queue still has its retry budget, so it may be dispatched. */
  lemma NextMayRun(w: World, body: Body, k: Track)
    requires Working(w, k) && w.sched.queue != [] && Affordable(w, body)
    ensures var p := w.sched.queue[0].pid;
      && EvaluateWaiting(w) == w && !BudgetSpent(w) && p in w.table && w.table[p].state == Ready
      && RunNext(w, body) == Execute(TakeNext(w), p, body)
  {
    hide EvaluateWaiting, Execute, Registered, NothingAhead, Inv, FailProcess, CanDispatch, Counted, RunNext;
    NobodyToWake(w);
    TakeNextStep(w, k);
    NextIsCounted(w, body, k);
    DispatchedNext(w, body);
  }

  lemma NextIsCounted(w: World, body: Body, k: Track)
    requires Working(w, k) && w.sched.queue != [] && Affordable(w, body)
    requires w.sched.queue[0].pid in w.table && w.table[w.sched.queue[0].pid].state == Ready
    ensures var p := w.sched.queue[0].pid; CanDispatch(UsageOf(w, p), w.table[p].budget)
  {
    hide Inv, Registered, NothingAhead;
    assert Counted(w, w.sched.queue[0].pid);
  }

  lemma DispatchedNext(w: World, body: Body)
    requires EvaluateWaiting(w) == w && w.sched.queue != [] && w.sched.queue[0].pid in w.table
    requires var p := w.sched.queue[0].pid; CanDispatch(UsageOf(w, p), w.table[p].budget)
    ensures RunNext(w, body) == Execute(TakeNext(w), w.sched.queue[0].pid, body)
  {
    hide EvaluateWaiting, Execute, FailProcess, CanDispatch;
    assert UsageOf(TakeNext(w), w.sched.queue[0].pid) == UsageOf(w, w.sched.queue[0].pid);
  }

  lemma TakeNextSame(w: World, k: Track)
    requires Working(w, k) && w.sched.queue != []
    ensures var r := TakeNext(w);
      && AllCounted(r) && NothingAhead(r) && r.sched.waiting == [] && r.table == w.table && SameNeeds(w, r)
      && r.sched.pending == w.sched.pending
      && r.unused == w.unused && forall q :: Spent(r, q) == Spent(w, q)
  {
    hide Inv, Registered, CheckpointsOf, RetryCount, CanDispatch;
    NextIsKnown(w, k);
    TakeNextCounts(w, k);
    TakeNextAhead(w);
  }

  lemma TakeNextAhead(w: World)
    requires NothingAhead(w) && w.sched.queue != [] && w.sched.queue[0].pid < w.unused
    ensures NothingAhead(TakeNext(w))
  {}

  lemma TakeNextCounts(w: World, k: Track)
    requires Working(w, k) && w.sched.queue != []
    ensures AllCounted(TakeNext(w))
  {
    hide Inv, Registered, NothingAhead;
    var r := TakeNext(w);
    forall q | q in r.table && !r.table[q].state.IsFinished() ensures Counted(r, q) {
      assert Counted(w, q);
      assert UsageOf(r, q) == UsageOf(w, q);
    }
  }

  lemma NextIsKnown(w: World, k: Track)
    requires Inv(w, {}, {}, k) && w.sched.queue != []
    ensures w.sched.queue[0].pid in w.table && w.sched.queue[0].pid < w.unused
  {
    TakeNextKeeps(w);
  }

  lemma {:induction false} AttemptsGrow(w: World, r: World, p: Pid, n: Pid)
    requires UsesAttempt(w, r, p) && n <= w.unused
    ensures Attempts(r, n) >= Attempts(w, n) + if p < n then 1 else 0
  {
    hide UsesAttempt, Spent;
    if n > 0 {
      AttemptsGrow(w, r, p, n - 1);
      SpentGrows(w, r, p, n - 1);
    }
  }

  lemma SpentGrows(w: World, r: World, p: Pid, q: Pid)
    requires UsesAttempt(w, r, p)
    ensures Spent(r, q) >= Spent(w, q) + if p == q then 1 else 0
  {}

  lemma {:induction false} AttemptsMore(w: World, n: Pid, m: Pid)
    requires n <= m
    ensures Attempts(w, n) <= Attempts(w, m)
    decreases m
  {
    hide Spent;
    if n < m {
      AttemptsMore(w, n, m - 1);
    }
  }

  /** One dispatch returns, keeps the workload as it is and uses at least one attempt. */
  lemma WorkingStep(w: World, body: Body, k: Track)
    requires Working(w, k) && w.sched.queue != [] && Affordable(w, body)
    ensures var (r, out) := RunNext(w, body);
      && out.Ran? && Working(r, k) && Attempts(r, r.unused) > Attempts(w, w.unused) && SameBudgets(w, r)
  {
    hide Working, Affordable, BudgetSpent, RevivesNext, Execute, UsesAttempt, Spent, TakeNext, AllCounted, SameNeeds,
      SameBudgets, EvaluateWaiting, RunNext, Attempts, NothingAhead, Inv, Registered;
    NextMayRun(w, body, k);
    WorkingHas(w, k);
    AffordableBody(w, body);
    RunNextStep(w, body, k);
    TakeNextSame(w, k);
    var p := w.sched.queue[0].pid;
    var r := RunNext(w, body).0;
    ExecuteUses(TakeNext(w), p, body);
    UsedAgain(TakeNext(w), r, p);
    AttemptsGrow(TakeNext(w), r, p, w.unused);
    AttemptsSame(w, TakeNext(w), w.unused);
    AttemptsMore(r, w.unused, r.unused);
    SameNeedsRegistered(w, TakeNext(w));
    SameNeedsRegistered(TakeNext(w), r);
    RanNotIdle(TakeNext(w), p, body);
    WorkingAgain(r, k);
    SameTableBudgets(w, TakeNext(w), r);
  }

  lemma WorkingHas(w: World, k: Track)
    requires Working(w, k)
    ensures Inv(w, {}, {}, k) && Registered(w) && !k.replays
  {}

  lemma AffordableBody(w: World, body: Body)
    requires w.sched.queue != [] && Affordable(w, body)
    ensures !body.end.WaitsFor? && forall op :: op in body.ops ==> !op.SaveCheckpoint?
  {}

  lemma SameTableBudgets(w: World, w1: World, r: World)
    requires w1.table == w.table && w1.sched.pending == w.sched.pending && SameBudgets(w1, r)
    ensures SameBudgets(w, r)
  {}

  lemma RanNotIdle(w: World, p: Pid, body: Body)
    ensures !Execute(w, p, body).1.Idle?
  {
    hide RunOps, Begin, Announce, OnTerminal, Supervise, TaskFails, TaskCompletes, Park;
  }

  lemma WorkingAgain(r: World, k: Track)
    requires Inv(r, {}, {}, k) && !k.replays && Registered(r) && r.sched.waiting == [] && NothingAhead(r)
      && AllCounted(r)
    ensures Working(r, k)
  {}

  lemma UsedAgain(w: World, r: World, p: Pid)
    requires UsesAttempt(w, r, p) && NothingAhead(w)
    ensures AllCounted(r) && NothingAhead(r) && r.sched.waiting == [] && SameNeeds(w, r) && w.unused <= r.unused
      && p < w.unused
    ensures SameBudgets(w, r)
  {}

  lemma {:induction false} AttemptsSame(w: World, r: World, n: Pid)
    requires forall q :: Spent(r, q) == Spent(w, q)
    ensures Attempts(r, n) == Attempts(w, n)
  {
    hide Spent;
    if n > 0 {
      AttemptsSame(w, r, n - 1);
    }
  }

  lemma WorkingHasWork(w: World, k: Track)
    requires Working(w, k)
    ensures HasWork(w) == (w, w.sched.queue != [])
  {
    NobodyToWake(w);
    assert Inv(w, {}, {}, k);
    hide Working, Inv, EvaluateWaiting, HasWork;
    HasWorkStep(w, k);
  }

  /** The attempts used never exceed the attempts there are, and a queued process has one left. */
  lemma {:induction false} AttemptsBound(w: World, n: Pid, k: Track)
    requires Working(w, k)
    ensures Attempts(w, n) <= Allowance(w, n)
    ensures forall p :: p in w.table && !w.table[p].state.IsFinished() && p < n ==> Attempts(w, n) < Allowance(w, n)
  {
    hide Inv, Registered, NothingAhead, CheckpointsOf, UsageOf;
    if n > 0 {
      AttemptsBound(w, n - 1, k);
      if n - 1 in w.table && !w.table[n - 1].state.IsFinished() {
        assert Counted(w, n - 1);
      }
    }
  }

  /** Along a run that takes no checkpoints, waits for nothing and stays within its token, tool
      and cost limits, `run_next` never raises, and there are at most as many dispatches as
      attempts are used. */
  lemma {:induction false} DispatchesUseAttempts(w: World, bodies: seq<Body>, k: Track)
    requires Working(w, k) && AllAffordable(w, bodies)
    ensures var r := Run(w, bodies);
      && r.end != Escaped && Working(r.world, k)
      && r.dispatches + Attempts(w, w.unused) <= Attempts(r.world, r.world.unused)
      && (r.end == Drained ==> r.world.sched.queue == [])
      && (r.end == OutOfBodies ==> r.dispatches == |bodies| && r.world.sched.queue != [])
      && SameBudgets(w, r.world)
    decreases bodies
  {
    hide Working, RunNext, HasWork, Attempts, Affordable;
    WorkingHasWork(w, k);
    if w.sched.queue != [] && bodies != [] {
      WorkingStep(w, bodies[0], k);
      DispatchesUseAttempts(RunNext(w, bodies[0]).0, bodies[1..], k);
    }
  }

  lemma QueuedIsLeft(w: World, k: Track)
    requires Working(w, k) && w.sched.queue != []
    ensures Attempts(w, w.unused) < Allowance(w, w.unused)
  {
    NextIsKnown(w, k);
    TakeNextKeeps(w);
    hide Inv, Attempts, Allowance;
    AttemptsBound(w, w.unused, k);
  }

  /** Termination under supervision: however often bodies raise or overrun, `run` dispatches at
      most the attempts that were left, `max_retries + 1` for each process it ever starts; given
      that many bodies it drains the queue. */
  lemma SupervisedRunHalts(w: World, bodies: seq<Body>, k: Track)
    requires Working(w, k) && AllAffordable(w, bodies)
    ensures var r := Run(w, bodies);
      var bound := Allowance(r.world, r.world.unused) - Attempts(w, w.unused);
      && r.end != Escaped && r.dispatches <= bound
      && (r.end == Drained <==> r.world.sched.queue == [])
      && (|bodies| >= bound ==> r.end == Drained)
      && (r.end == Drained ==> forall p :: p in r.world.table ==>
           r.world.table[p].state.IsFinished() || Depends(r.world.sched, p))
  {
    hide Working, Run, Attempts, Allowance, AllAffordable;
    DispatchesUseAttempts(w, bodies, k);
    var r := Run(w, bodies);
    AttemptsBound(r.world, r.world.unused, k);
    if r.end == OutOfBodies {
      QueuedIsLeft(r.world, k);
    } else {
      DrainedIsDone(r.world, k);
    }
  }

  lemma DrainedIsDone(w: World, k: Track)
    requires Working(w, k) && w.sched.queue == []
    ensures forall p :: p in w.table ==> w.table[p].state.IsFinished() || Depends(w.sched, p)
  {
    hide Registered, NothingAhead;
    forall p | p in w.table ensures w.table[p].state.IsFinished() || Depends(w.sched, p) {
      assert Placed(w.table[p], p, w.sched, w.svc.mail.Keys, w.svc.caps, {});
    }
  }

  // ------------------------------------------------------------------
  // A fleet of processes
  // ------------------------------------------------------------------

  function SpawnAll(w: World, ds: seq<Definition>): World
    decreases ds
  {
    if ds == [] then w else SpawnAll(Spawn(w, ds[0], None, 0, {}), ds[1..])
  }

  /** `max_retries + 1`, summed. */
  function TotalAttempts(ds: seq<Definition>): nat {
    if ds == [] then 0 else ds[0].budget.maxRetries + 1 + TotalAttempts(ds[1..])
  }

  lemma BootWorks(supervised: bool, k: Track)
    requires k == Track(None, false)
    ensures Working(Boot(supervised), k) && Attempts(Boot(supervised), 0) == 0 == Allowance(Boot(supervised), 0)
    ensures Boot(supervised).unused == 0 && Boot(supervised).sched.pending == []
  {}

  lemma BootTable(supervised: bool)
    ensures forall p: Pid :: p in Boot(supervised).table <==> p < Boot(supervised).unused
  {
    var w := Boot(supervised);
    assert w.table == map[] && w.unused == 0;
  }

  lemma SpawnWorks(w: World, d: Definition, k: Track)
    requires Working(w, k)
    ensures var r := Spawn(w, d, None, 0, {});
      && Working(r, k) && r.unused == w.unused + 1
      && w.unused in r.table && r.table[w.unused].budget == d.budget && SameBudgets(w, r)
      && (forall p :: Spent(r, p) == Spent(w, p)) && forall p :: p in r.table <==> p in w.table || p == w.unused
  {
    hide Inv, Registered, SameNeeds, Still, Spawn, Counted, Spent, SameBudgets;
    var r := Spawn(w, d, None, 0, {});
    SpawnStep(w, d, None, 0, {}, {}, {}, k);
    BelowAhead(w);
    SpawnStill(w, d, None, 0, w.unused);
    StillIsSteady(w, r, w.unused);
    NobodyWaitsIn(w, r, w.unused);
    SameNeedsRegistered(w, r) by { SpawnNeeds(w, d); }
    SpawnCounts(w, d);
    WorkingAgain(r, k);
  }

  lemma SpawnNeeds(w: World, d: Definition)
    ensures SameNeeds(w, Spawn(w, d, None, 0, {}))
  {
    hide CapabilitiesFor, Enqueue;
  }

  lemma SpawnCounts(w: World, d: Definition)
    requires NothingAhead(w) && AllCounted(w)
    ensures var r := Spawn(w, d, None, 0, {});
      && r.unused == w.unused + 1 && NothingAhead(r) && AllCounted(r)
      && w.unused in r.table && r.table[w.unused].budget == d.budget && SameBudgets(w, r)
      && (forall p :: Spent(r, p) == Spent(w, p)) && forall p :: p in r.table <==> p in w.table || p == w.unused
  {
    EnqueueKeepsWaiting(w.sched, w.unused);
    hide CapabilitiesFor, Enqueue;
    var r := Spawn(w, d, None, 0, {});
    forall q | q in r.table && !r.table[q].state.IsFinished() ensures Counted(r, q) {
      if q in w.table {
        assert Counted(w, q);
      }
    }
  }

  lemma {:induction false} AllowanceSame(w: World, r: World, n: Pid)
    requires SameBudgets(w, r) && forall p :: p in r.table && p < n ==> p in w.table
    ensures Allowance(r, n) == Allowance(w, n)
  {
    if n > 0 {
      AllowanceSame(w, r, n - 1);
    }
  }

  lemma {:induction false} FleetWorks(w: World, ds: seq<Definition>, k: Track)
    requires Working(w, k)
    ensures var r := SpawnAll(w, ds);
      && Working(r, k) && r.unused == w.unused + |ds|
      && Allowance(r, r.unused) == Allowance(w, w.unused) + TotalAttempts(ds)
      && Attempts(r, r.unused) == Attempts(w, w.unused)
      && (w.sched.pending == [] ==> r.sched.pending == [])
    decreases ds
  {
    hide Working, Spawn, Spent;
    if ds != [] {
      var w1 := Spawn(w, ds[0], None, 0, {});
      SpawnWorks(w, ds[0], k);
      AllowanceSame(w, w1, w.unused);
      assert w.sched.pending == [] ==> w1.sched.pending == [];
      AttemptsSame(w, w1, w.unused);
      NothingSpentAhead(w, k);
      assert Attempts(w1, w1.unused) == Attempts(w1, w.unused) + Spent(w1, w.unused);
      FleetWorks(w1, ds[1..], k);
    }
  }

  lemma NothingSpentAhead(w: World, k: Track)
    requires Working(w, k)
    ensures Spent(w, w.unused) == 0
    ensures forall p :: p in w.table ==> p < w.unused
  {
    hide Inv, Registered;
  }

  /** A fixed set of processes has the attempts it has at the start. */
  lemma FixedSetHalts(w: World, bodies: seq<Body>, k: Track)
    requires Working(w, k) && AllAffordable(w, bodies)
    requires Run(w, bodies).world.unused == w.unused && forall p: Pid :: p < w.unused ==> p in w.table
    ensures var bound := Allowance(w, w.unused) - Attempts(w, w.unused);
      && Run(w, bodies).dispatches <= bound
      && (|bodies| >= bound ==> Run(w, bodies).end == Drained)
  {
    hide Working, Run, Attempts, Allowance, AllAffordable, SameBudgets;
    DispatchesUseAttempts(w, bodies, k);
    SupervisedRunHalts(w, bodies, k);
    AllowanceSame(w, Run(w, bodies).world, w.unused);
  }

  lemma NothingHeldBack(w: World, bodies: seq<Body>, k: Track)
    requires Working(w, k) && AllAffordable(w, bodies) && w.sched.pending == []
    ensures forall p :: !Depends(Run(w, bodies).world.sched, p)
  {
    hide Working, Run, Attempts, AllAffordable;
    DispatchesUseAttempts(w, bodies, k);
  }

  /** A freshly booted kernel with any set of processes: whatever the bodies do within their
      limits, as long as they start no others, `run` drains after at most the sum of
      `max_retries + 1` dispatches, and then every process has finished. */
  lemma FleetHalts(supervised: bool, ds: seq<Definition>, bodies: seq<Body>)
    requires AllAffordable(SpawnAll(Boot(supervised), ds), bodies) && |bodies| >= TotalAttempts(ds)
    requires Run(SpawnAll(Boot(supervised), ds), bodies).world.unused == |ds|
    ensures var r := Run(SpawnAll(Boot(supervised), ds), bodies);
      && r.end == Drained && r.dispatches <= TotalAttempts(ds)
      && forall p :: p in r.world.table ==> r.world.table[p].state.IsFinished()
  {
    var k := Track(None, false);
    var w0 := Boot(supervised);
    hide *;
    BootWorks(supervised, k);
    BootTable(supervised);
    SpawnedAreBelow(w0, ds);
    FleetWorks(w0, ds, k);
    FixedSetHalts(SpawnAll(w0, ds), bodies, k);
    NothingHeldBack(SpawnAll(w0, ds), bodies, k);
    SupervisedRunHalts(SpawnAll(w0, ds), bodies, k);
  }

  lemma {:induction false} SpawnedAreBelow(w: World, ds: seq<Definition>)
    requires forall p: Pid :: p in w.table <==> p < w.unused
    ensures forall p: Pid :: p in SpawnAll(w, ds).table <==> p < w.unused + |ds|
    decreases ds
  {
    hide CapabilitiesFor, Enqueue;
    if ds != [] {
      SpawnedAreBelow(Spawn(w, ds[0], None, 0, {}), ds[1..]);
    }
  }
}
