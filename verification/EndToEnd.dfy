/** A plan driven to its end: on an otherwise idle kernel `run` dispatches every task that can
    run exactly once, in dependency order, and then stops. */
module EndToEnd {
  import opened Common
  import opened Heap
  import opened States
  import opened SchedulerModel
  import opened KernelModel
  import opened Correspondence
  import opened Replay
  import opened Gating
  import opened PlanSafety
  import opened History
  import opened KernelRuns
  import opened Graph
  import opened Runs
  import Progress

  ghost predicate Owned(c: Cognition, q: PlanId, p: Pid) {
    exists t :: t in TasksOf(c, q) && t in c.tasks && c.tasks[t].process == Some(p)
  }

  /** Every live process is READY and belongs to a task of plan `q`. */
  ghost predicate LiveAreOwned(table: map<Pid, Process>, c: Cognition, q: PlanId) {
    forall p :: p in table && !table[p].state.IsFinished() ==> table[p].state == Ready && Owned(c, q, p)
  }

  /** Plan `q` is being executed, nothing has failed, and nothing else is alive. */
  ghost predicate Driving(w: World, q: PlanId, k: Track) {
    && Inv(w, {}, {}, k) && Registered(w) && w.sched.pending == []
    && q in w.cog.plans && w.cog.plans[q].state in {PlanActive, PlanCompleted}
    && (w.cog.plans[q].state == PlanActive ==> Settled(w.cog, q))
    && LiveAreOwned(w.table, w.cog, q)
    && (forall t :: t in w.cog.plans[q].tasks && t in w.cog.tasks && w.cog.tasks[t].state != TaskPending ==>
         Grounded(w.cog, t))
  }

  /** How many tasks that can run are not complete yet. */
  ghost function Left(c: Cognition, ids: seq<TaskId>): nat {
    if ids == [] then 0
    else
      var first := if ids[0] in c.tasks && Grounded(c, ids[0]) && c.tasks[ids[0]].state != TaskCompleted then 1 else 0;
      first + Left(c, ids[1..])
  }

  /** The body of the next process spawns nothing, may be dispatched, and returns in time. */
  ghost predicate ReturnsInTime(w: World, body: Body)
    requires w.sched.queue != []
  {
    var p := w.sched.queue[0].pid;
    && p in w.table && CanDispatch(UsageOf(w, p), w.table[p].budget)
    && (forall op :: op in body.ops ==> !op.SpawnChild?)
    && RunOps(Begin(TakeNext(w), p), p, body.ops).1
    && body.end.Returns? && !body.overran
  }

  /** The same for every body that `run` gets to dispatch. */
  ghost predicate AllReturnInTime(w: World, bodies: seq<Body>)
    decreases bodies
  {
    var (w1, more) := HasWork(w);
    more && bodies != [] ==>
      w1.sched.queue != [] && ReturnsInTime(w1, bodies[0]) && AllReturnInTime(RunNext(w1, bodies[0]).0, bodies[1..])
  }

  // ------------------------------------------------------------------
  // What a quiet step leaves alone
  // ------------------------------------------------------------------

  ghost predicate NobodyWaits(table: map<Pid, Process>) {
    forall p :: p in table ==> table[p].state !in {Waiting, Blocked}
  }

  /** Same processes; nothing held back if nothing was; plans, registry and ids untouched. */
  ghost predicate SameCast(w: World, r: World) {
    && r.table == w.table && r.cog == w.cog && r.registry == w.registry && r.unused == w.unused
    && (w.sched.pending == [] ==> r.sched.pending == [])
  }

  lemma EvaluateSameCast(w: World)
    requires NobodyWaits(w.table)
    ensures SameCast(w, EvaluateWaiting(w))
  {
    var holds := TrueNow(w);
    WakeAllTable(w.(sched := Evaluate(w.sched, holds)), Satisfied(w.sched.waiting, holds));
    assert EvaluateWaiting(w).table == w.table;
  }

  lemma RunOpSameCast(w: World, p: Pid, op: BodyOp)
    requires NobodyWaits(w.table) && !op.SpawnChild?
    ensures SameCast(w, RunOp(w, p, op).0)
  {
    hide EvaluateWaiting, Permitted, NobodyWaits;
    match op {
      case WriteState(k, v) =>
        EvaluateSameCast(Emit(w.(store := w.store[k := v]), StateChanged(k, v)));
        EvaluateSameCast(Emit(w.(store := w.store[k := v]), StateCreated(k, v)));
      case EraseState(k) =>
        EvaluateSameCast(Emit(w.(store := w.store - {k}), StateDeleted(k)));
      case SendTo(to, m) =>
        if to in w.svc.mail {
          EvaluateSameCast(Delivered(w, to, m));
        }
      case _ =>
    }
  }

  lemma {:induction false} RunOpsSameCast(w: World, p: Pid, ops: seq<BodyOp>)
    requires NobodyWaits(w.table) && forall op :: op in ops ==> !op.SpawnChild?
    ensures SameCast(w, RunOps(w, p, ops).0)
    decreases ops
  {
    hide RunOp, NobodyWaits;
    if ops != [] {
      RunOpSameCast(w, p, ops[0]);
      RunOpsSameCast(RunOp(w, p, ops[0]).0, p, ops[1..]);
    }
  }

  lemma AnnounceCast(w: World, p: Pid)
    requires NobodyWaits(w.table) && p in w.table
    ensures var r := Announce(w, p, Completed, ProcessCompleted(p));
      && r.table == w.table[p := w.table[p].(state := Completed)] && r.cog == w.cog && r.registry == w.registry
      && r.unused == w.unused
      && (w.sched.pending == [] ==> r.sched.pending == [])
  {
    hide EvaluateWaiting;
    EvaluateSameCast(Emit(SetState(w, p, Completed), ProcessCompleted(p)));
  }

  // ------------------------------------------------------------------
  // Starting tasks
  // ------------------------------------------------------------------

  /** `r` is `w` plus READY processes that tasks in `ids` own. */
  ghost predicate AddsOwned(w: World, r: World, ids: seq<TaskId>) {
    && (w.sched.pending == [] ==> r.sched.pending == [])
    && (forall p :: p in w.table ==> p in r.table && r.table[p] == w.table[p])
    && (forall p :: p in r.table && p !in w.table ==>
          r.table[p].state == Ready && exists t :: t in ids && t in r.cog.tasks && r.cog.tasks[t].process == Some(p))
  }

  lemma StartTaskAdds(w: World, t: TaskId, d: Definition, goal: GoalId)
    requires t in w.cog.tasks && w.unused !in w.table
    ensures var r := StartTask(w, t, d, goal);
      && r.table == w.table[w.unused := r.table[w.unused]] && w.unused in r.table && r.table[w.unused].state == Ready
      && t in r.cog.tasks && r.cog.tasks[t].process == Some(w.unused) && r.unused == w.unused + 1
      && (w.sched.pending == [] ==> r.sched.pending == [])
  {
    hide CapabilitiesFor;
  }

  lemma {:induction false} StartTasksAdds(w: World, q: PlanId, goal: GoalId, ids: seq<TaskId>, busy: set<Pid>,
      closing: set<PlanId>, k: Track)
    requires Inv(w, busy, closing, k) && ReadyIds(w.cog, q, ids) && !StartTasks(w, goal, ids).1
    ensures AddsOwned(w, StartTasks(w, goal, ids).0, ids)
    decreases ids
  {
    if ids != [] {
      var t := ids[0];
      InvTask(w, busy, closing, k, t);
      assert w.cog.tasks[t].process == None;
      InvUnused(w, busy, closing, k);
      hide Inv, StartTask, PlansOk, HistOk, TaskOk;
      var d := w.registry[w.cog.tasks[t].definition];
      var w1 := StartTask(w, t, d, goal);
      StartTaskStep(w, t, d, goal, busy, closing, k);
      StartTaskAdds(w, t, d, goal);
      StartedLeavesReady(w.cog, q, ids, w.unused);
      StartTasksAdds(w1, q, goal, ids[1..], busy, closing, k);
      StartTasksStep(w1, q, goal, ids[1..], busy, closing, k);
      KeepsProcess(w1, StartTasks(w1, goal, ids[1..]).0, t);
      AddsOwnedCons(w, w1, StartTasks(w1, goal, ids[1..]).0, ids);
    }
  }

  lemma InvUnused(w: World, busy: set<Pid>, closing: set<PlanId>, k: Track)
    requires Inv(w, busy, closing, k)
    ensures w.unused !in w.table
  {}

  lemma KeepsProcess(w: World, r: World, t: TaskId)
    requires Evolves(w, r) && t in w.cog.tasks && w.cog.tasks[t].process.Some?
    ensures t in r.cog.tasks && r.cog.tasks[t].process == w.cog.tasks[t].process
  {}

  lemma AddsOwnedCons(w: World, w1: World, r: World, ids: seq<TaskId>)
    requires ids != [] && AddsOwned(w1, r, ids[1..])
    requires w.unused !in w.table && w.unused in w1.table && w1.table == w.table[w.unused := w1.table[w.unused]]
      && w1.table[w.unused].state == Ready
    requires ids[0] in r.cog.tasks && r.cog.tasks[ids[0]].process == Some(w.unused)
    requires w.sched.pending == [] ==> w1.sched.pending == []
    ensures AddsOwned(w, r, ids)
  {
    forall p | p in r.table && p !in w.table
      ensures r.table[p].state == Ready && exists t :: t in ids && t in r.cog.tasks && r.cog.tasks[t].process == Some(p)
    {
      if p == w.unused {
        assert ids[0] in ids;
      } else {
        var t :| t in ids[1..] && t in r.cog.tasks && r.cog.tasks[t].process == Some(p);
        assert t in ids;
      }
    }
  }

  // ------------------------------------------------------------------
  // Completing a task
  // ------------------------------------------------------------------

  lemma AddsOwnedSame(w: World, w1: World, r1: World, r: World, ids: seq<TaskId>)
    requires AddsOwned(w1, r1, ids) && w1.table == w.table && w1.sched == w.sched
    requires r.table == r1.table && r.sched == r1.sched && r.cog.tasks == r1.cog.tasks
    ensures AddsOwned(w, r, ids)
  {}

  lemma CheckCompletionSame(w: World, q: PlanId)
    ensures CheckCompletion(w, q).0.table == w.table && CheckCompletion(w, q).0.sched == w.sched
  {}

  lemma UpdateReadySame(w: World, t: TaskId, q: PlanId)
    ensures var r := UpdateReady(SetTask(w, t, TaskCompleted), q);
      r.table == w.table && r.sched == w.sched && r.registry == w.registry
  {}

  lemma MyTask(w: World, p: Pid, t: TaskId, k: Track)
    requires Inv(w, {p}, {}, k) && t in w.cog.tasks && w.cog.tasks[t].process == Some(p)
    ensures TaskOf(w.cog, w.cog.order, p) == Some(t)
    ensures w.cog.tasks[t].plan in w.cog.plans && t in w.cog.plans[w.cog.tasks[t].plan].tasks
  {
    InvTask(w, {p}, {}, k, t);
    TaskOfFinds(w.cog, w.cog.order, p);
    OneTaskPerProcess(w, p, t, k);
    assert t in w.cog.order;
  }

  lemma TaskCompletesAdds(w: World, p: Pid, t: TaskId, k: Track)
    requires Inv(w, {p}, {}, k) && p in w.table && w.table[p].state == Completed
    requires Logged(w.log, |w.log|, ProcessCompleted(p))
    requires t in w.cog.tasks && w.cog.tasks[t].process == Some(p) && w.cog.tasks[t].state == TaskRunning
    requires !TaskCompletes(w, p).1
    ensures AddsOwned(w, TaskCompletes(w, p).0, TasksOf(w.cog, w.cog.tasks[t].plan))
  {
    MyTask(w, p, t, k);
    hide Inv, SetTask, UpdateReady, SpawnReady, CheckCompletion, TaskCompletes, Logged, AddsOwned, Readied, AllStarted,
      TaskOf, Evolves, SameBusy, Registered;
    var q := w.cog.tasks[t].plan;
    TaskCompletesIs(w, p, t);
    CompletingSteps(w, p, t, k);
    var w2 := UpdateReady(SetTask(w, t, TaskCompleted), q);
    var (w3, raised) := SpawnReady(w2, q);
    UpdateReadySame(w, t, q);
    CompletingInv(w, p, t, k);
    SpawnReadyAdds(w2, q, {p}, {q}, k);
    assert TasksOf(w2.cog, q) == TasksOf(w.cog, q);
    PlanStillThere(w, w3, q);
    CheckCompletionStep(w3, q, {p}, k);
    CheckCompletionSame(w3, q);
    AddsOwnedSame(w, w2, w3, CheckCompletion(w3, q).0, TasksOf(w.cog, q));
  }

  lemma PlanStillThere(w: World, r: World, q: PlanId)
    requires Evolves(w, r) && q in w.cog.plans
    ensures q in r.cog.plans
  {}

  lemma CompletingInv(w: World, p: Pid, t: TaskId, k: Track)
    requires Inv(w, {p}, {}, k) && p in w.table && w.table[p].state == Completed
    requires Logged(w.log, |w.log|, ProcessCompleted(p))
    requires t in w.cog.tasks && w.cog.tasks[t].process == Some(p) && w.cog.tasks[t].state == TaskRunning
    ensures var q := w.cog.tasks[t].plan;
      var w2 := UpdateReady(SetTask(w, t, TaskCompleted), q);
      Inv(w2, {p}, {q}, k) && (q in w.cog.plans ==> q in w2.cog.plans)
  {
    hide Inv, Logged, SetTask, UpdateReady, Evolves;
    var q := w.cog.tasks[t].plan;
    var w1 := SetTask(w, t, TaskCompleted);
    SetCompletedStep(w, t, p, k);
    UpdateReadyStep(w1, q, {p}, {q}, k);
    EvolvesTrans(w, w1, UpdateReady(w1, q));
    if q in w.cog.plans {
      PlanStillThere(w, UpdateReady(w1, q), q);
    }
  }

  lemma SpawnReadyAdds(w: World, q: PlanId, busy: set<Pid>, closing: set<PlanId>, k: Track)
    requires Inv(w, busy, closing, k) && q in w.cog.plans && !SpawnReady(w, q).1
    ensures AddsOwned(w, SpawnReady(w, q).0, TasksOf(w.cog, q))
  {
    if w.cog.plans[q].state == PlanActive {
      assert PlansOk(w, busy, closing);
      PlanReadyIds(w, q, busy, closing);
      assert PlanOk(w.cog, q, q in closing);
      ReadyTasksFacts(w.cog, w.cog.plans[q].tasks);
      hide Inv, StartTasks, ReadyTasks;
      StartTasksAdds(w, q, w.cog.plans[q].goal, ReadyTasks(w.cog, w.cog.plans[q].tasks), busy, closing, k);
    }
  }

  // ------------------------------------------------------------------
  // One dispatch
  // ------------------------------------------------------------------

  ghost predicate SameDeps(c: Cognition, c': Cognition) {
    c'.tasks.Keys == c.tasks.Keys && forall t :: t in c.tasks ==> c'.tasks[t].deps == c.tasks[t].deps
  }

  lemma GroundedSame(c: Cognition, c': Cognition, t: TaskId)
    requires SameDeps(c, c')
    ensures Grounded(c', t) <==> Grounded(c, t)
  {
    if Grounded(c, t) {
      GroundedStays(c, c', t);
    }
    if Grounded(c', t) {
      GroundedStays(c', c, t);
    }
  }

  /** Only `done` became complete. */
  ghost predicate OneMore(c: Cognition, c': Cognition, done: TaskId) {
    && SameDeps(c, c') && done in c.tasks && c.tasks[done].state != TaskCompleted
    && forall t :: t in c.tasks ==>
         (c'.tasks[t].state == TaskCompleted <==> t == done || c.tasks[t].state == TaskCompleted)
  }

  lemma {:induction false} LeftDrops(c: Cognition, c': Cognition, ids: seq<TaskId>, done: TaskId)
    requires OneMore(c, c', done) && Grounded(c, done)
    requires forall i, j :: 0 <= i < j < |ids| ==> ids[i] != ids[j]
    ensures Left(c', ids) == Left(c, ids) - (if done in ids then 1 else 0)
  {
    if ids != [] {
      LeftDrops(c, c', ids[1..], done);
      GroundedSame(c, c', ids[0]);
      assert ids == [ids[0]] + ids[1..];
      assert ids[0] !in ids[1..];
    }
  }

  /** What leaves PENDING has its dependencies complete, hence grounded, hence is grounded. */
  lemma StillGrounded(c: Cognition, c': Cognition, done: TaskId, t: TaskId)
    requires OneMore(c, c', done) && t in c.tasks && DepsMet(c', c'.tasks[t].deps)
    requires c.tasks[done].state != TaskPending
    requires forall d :: d in c.tasks[t].deps && d in c.tasks && c.tasks[d].state != TaskPending ==> Grounded(c, d)
    ensures Grounded(c', t)
  {
    forall d | d in c.tasks[t].deps ensures Grounded(c, d) {
      assert d in c'.tasks && c'.tasks[d].state == TaskCompleted;
    }
    GroundedByDeps(c, t);
    GroundedSame(c, c', t);
  }

  lemma QuietKernelEvaluates(w: World, q: PlanId, k: Track)
    requires Driving(w, q, k)
    ensures NobodyWaits(w.table) && EvaluateWaiting(w) == w
  {
    hide Inv, Settled;
    assert w.sched.waiting == [] by {
      if w.sched.waiting != [] {
        WaiterIsWaiting(w, w.sched.waiting[0], k);
      }
    }
    assert TrueNow(w) == {};
    NothingSatisfied([]);
  }

  lemma WaiterIsWaiting(w: World, x: Waiter, k: Track)
    requires Inv(w, {}, {}, k) && x in w.sched.waiting
    ensures x.pid in w.table && w.table[x.pid].state == Waiting
  {
    assert Waits(w.sched, x.pid);
    assert Placed(w.table[x.pid], x.pid, w.sched, w.svc.mail.Keys, w.svc.caps, {});
  }

  /** The processes after one dispatch of `p`: it is COMPLETED, the others are as before, and
      the new ones are READY and owned. */
  ghost predicate CastAfter(w: World, r: World, p: Pid, ids: seq<TaskId>) {
    && p in w.table && p in r.table && r.table[p].state == Completed
    && (forall x :: x in w.table && x != p ==> x in r.table && r.table[x] == w.table[x])
    && (forall x :: x in r.table && x !in w.table ==>
          r.table[x].state == Ready && exists t :: t in ids && t in r.cog.tasks && r.cog.tasks[t].process == Some(x))
    && r.sched.pending == []
  }

  lemma FinishCast(w: World, p: Pid, t: TaskId, k: Track)
    requires Inv(w, {p}, {}, k) && p in w.table && w.table[p].state == Running && Registered(w)
    requires NobodyWaits(w.table) && w.sched.pending == []
    requires t in w.cog.tasks && w.cog.tasks[t].process == Some(p) && w.cog.tasks[t].state == TaskRunning
    ensures CastAfter(w, Finish(w, p).0, p, TasksOf(w.cog, w.cog.tasks[t].plan))
    ensures Registered(Finish(w, p).0)
  {
    hide Inv, Finish, Announce, TaskCompletes, Cleanup, FailProcess, NobodyWaits, Logged, CompletionEffect, Evolves,
      SameBusy, TasksOf, CastAfter, AddsOwned, Registered, Released;
    var w1 := Announce(w, p, Completed, ProcessCompleted(p));
    FinishCases(w, p);
    AnnounceCast(w, p);
    AnnounceStep(w, p, Completed, ProcessCompleted(p), k);
    TaskCompletesStep(w1, p, k);
    RegisteredSame(w, w1);
    TaskCompletesAdds(w1, p, t, k);
    RegisteredAfter(w1, p, k);
    CastAssembles(w, w1, TaskCompletes(w1, p).0, p, TasksOf(w.cog, w.cog.tasks[t].plan));
  }

  lemma CastAssembles(w: World, w1: World, w2: World, p: Pid, ids: seq<TaskId>)
    requires p in w.table && w1.table == w.table[p := w.table[p].(state := Completed)] && w1.sched.pending == []
    requires AddsOwned(w1, w2, ids)
    ensures CastAfter(w, Cleanup(w2, p), p, ids) && (Registered(w2) ==> Registered(Cleanup(w2, p)))
  {}

  lemma RegisteredAfter(w: World, p: Pid, k: Track)
    requires Inv(w, {p}, {}, k) && p in w.table && w.table[p].state == Completed && Registered(w)
    requires Logged(w.log, |w.log|, ProcessCompleted(p))
    ensures Registered(TaskCompletes(w, p).0)
  {
    TaskCompletesStep(w, p, k);
    hide Inv, TaskCompletes, Logged;
  }

  /** The world in which the dispatched body has returned. */
  function BodyDone(w: World, p: Pid, body: Body): World {
    var w1 := RunOps(Begin(TakeNextOf(w), p), p, body.ops).0;
    SetUsage(w1, p, UsageOf(w1, p))
  }

  function TakeNextOf(w: World): World {
    if w.sched.queue == [] then w else TakeNext(w)
  }

  lemma DispatchIs(w: World, body: Body)
    requires EvaluateWaiting(w) == w && w.sched.queue != [] && ReturnsInTime(w, body)
    requires w.table[w.sched.queue[0].pid].state == Ready
    ensures RunNext(w, body) == Finish(BodyDone(w, w.sched.queue[0].pid, body), w.sched.queue[0].pid)
  {
    hide EvaluateWaiting, RunOps, Finish;
    var p := w.sched.queue[0].pid;
    assert UsageOf(TakeNext(w), p) == UsageOf(w, p);
  }

  lemma BodyDoneFrame(w: World, p: Pid, body: Body)
    requires w.sched.queue != [] && p in w.table && NobodyWaits(w.table)
    requires forall op :: op in body.ops ==> !op.SpawnChild?
    ensures var r := BodyDone(w, p, body);
      && r.table == w.table[p := w.table[p].(state := Running)] && r.cog == w.cog && r.registry == w.registry
      && (w.sched.pending == [] ==> r.sched.pending == []) && NobodyWaits(r.table)
  {
    hide RunOps;
    RunOpsSameCast(Begin(TakeNext(w), p), p, body.ops);
  }

  /** The start of a dispatch up to the end of its body. */
  lemma DispatchCast(w: World, q: PlanId, body: Body, k: Track)
    requires Driving(w, q, k) && w.sched.queue != [] && ReturnsInTime(w, body)
    ensures var p := w.sched.queue[0].pid;
      var r := BodyDone(w, p, body);
      && p in w.table && w.table[p].state == Ready
      && r.table == w.table[p := w.table[p].(state := Running)] && r.cog == w.cog && r.registry == w.registry
      && r.sched.pending == [] && NobodyWaits(r.table)
      && Inv(r, {p}, {}, k) && Evolves(w, r)
      && RunNext(w, body) == Finish(r, p)
  {
    QuietKernelEvaluates(w, q, k);
    DrivingInv(w, q, k);
    var p := w.sched.queue[0].pid;
    hide Inv, Driving, EvaluateWaiting, RunOps, Finish, Evolves, Begin, BodyDone, NobodyWaits, RunNext;
    TakeNextStep(w, k);
    DispatchIs(w, body);
    BodyDoneFrame(w, p, body);
    BodyDoneStep(w, p, body, k);
  }

  lemma DrivingInv(w: World, q: PlanId, k: Track)
    requires Driving(w, q, k)
    ensures Inv(w, {}, {}, k) && w.sched.pending == []
  {}

  lemma BodyDoneStep(w: World, p: Pid, body: Body, k: Track)
    requires Inv(w, {}, {}, k) && w.sched.queue != [] && p == w.sched.queue[0].pid
    ensures Inv(BodyDone(w, p, body), {p}, {}, k) && Evolves(w, BodyDone(w, p, body))
  {
    hide Inv, RunOps, Evolves, Begin;
    TakeNextStep(w, k);
    var w0 := Begin(TakeNext(w), p);
    BeginStep(TakeNext(w), p, k);
    RunOpsStep(w0, p, body.ops, k);
    var w1 := RunOps(w0, p, body.ops).0;
    AsideSameCog(w1, BodyDone(w, p, body), {p}, k);
    EvolvesTrans(w, TakeNext(w), w0);
    EvolvesTrans(w, w0, w1);
    EvolvesTrans(w, w1, BodyDone(w, p, body));
  }

  /** The task the dispatched process works for. */
  lemma ItsTask(w: World, q: PlanId, p: Pid, k: Track) returns (t: TaskId)
    requires Driving(w, q, k) && p in w.table && w.table[p].state == Ready
    ensures t in w.cog.plans[q].tasks && t in w.cog.tasks && w.cog.tasks[t].plan == q
    ensures w.cog.tasks[t].process == Some(p) && w.cog.tasks[t].state == TaskRunning && Grounded(w.cog, t)
  {
    hide Inv, Driving, Grounded, TaskOk, PlanOk, Registered;
    DrivingFacts(w, q, k);
    t := OwnTask(w, q, p);
    Progress.PlanTasksAreIts(w, q, k);
    StartedTaskRuns(w, t, p, k);
  }

  lemma OwnTask(w: World, q: PlanId, p: Pid) returns (t: TaskId)
    requires LiveAreOwned(w.table, w.cog, q) && p in w.table && w.table[p].state == Ready && q in w.cog.plans
    ensures t in w.cog.plans[q].tasks && t in w.cog.tasks && w.cog.tasks[t].process == Some(p)
  {
    assert Owned(w.cog, q, p);
    t :| t in TasksOf(w.cog, q) && t in w.cog.tasks && w.cog.tasks[t].process == Some(p);
  }

  lemma StartedTaskRuns(w: World, t: TaskId, p: Pid, k: Track)
    requires Inv(w, {}, {}, k) && p in w.table && w.table[p].state == Ready
    requires t in w.cog.tasks && w.cog.tasks[t].process == Some(p)
    ensures w.cog.tasks[t].plan in w.cog.plans
    ensures w.cog.plans[w.cog.tasks[t].plan].state in {PlanActive, PlanCompleted} ==>
      w.cog.tasks[t].state == TaskRunning
  {
    hide Inv, DepsMet, AllCompleted;
    Progress.CogFacts(w, {}, k);
    Progress.TaskInPlan(w, w.cog.tasks[t].plan, t, {}, k);
    assert TaskOk(w.cog, w.table, {}, t) && PlanOk(w.cog, w.cog.tasks[t].plan, false);
  }

  lemma OwnedStays(c: Cognition, c': Cognition, q: PlanId, p: Pid)
    requires Owned(c, q, p) && CogEvolves(c, c')
    ensures Owned(c', q, p)
  {
    var t :| t in TasksOf(c, q) && t in c.tasks && c.tasks[t].process == Some(p);
    assert t in TasksOf(c', q) && c'.tasks[t].process == Some(p);
  }

  lemma LiveStayOwned(w: World, r1: World, r: World, q: PlanId, p: Pid)
    requires LiveAreOwned(w.table, w.cog, q) && CogEvolves(w.cog, r.cog) && q in w.cog.plans
    requires p in w.table && r1.table == w.table[p := w.table[p].(state := Running)]
    requires CastAfter(r1, r, p, TasksOf(w.cog, q))
    ensures LiveAreOwned(r.table, r.cog, q)
  {
    forall x | x in r.table && !r.table[x].state.IsFinished() ensures r.table[x].state == Ready && Owned(r.cog, q, x) {
      if x in w.table {
        OwnedStays(w.cog, r.cog, q, x);
      } else {
        var t :| t in TasksOf(w.cog, q) && t in r.cog.tasks && r.cog.tasks[t].process == Some(x);
        assert t in TasksOf(r.cog, q);
      }
    }
  }

  lemma EffectIsOneMore(c: Cognition, c': Cognition, p: Pid, t: TaskId)
    requires CompletionEffect(c, c', p) && CogEvolves(c, c')
    requires t in c.tasks && c.tasks[t].process == Some(p) && c.tasks[t].state == TaskRunning
    requires forall u :: u in c.tasks && c.tasks[u].process == Some(p) ==> u == t
    ensures OneMore(c, c', t)
  {
    hide Settled;
  }

  lemma PlanGoesOn(w: World, r: World, q: PlanId, p: Pid, k: Track)
    requires Inv(w, {}, {}, k) && Inv(r, {}, {}, k) && CogEvolves(w.cog, r.cog)
    requires q in w.cog.plans && w.cog.plans[q].state in {PlanActive, PlanCompleted}
    requires forall t :: t in w.cog.tasks && t in r.cog.tasks ==>
      (r.cog.tasks[t].state == TaskFailed <==> w.cog.tasks[t].state == TaskFailed)
    ensures q in r.cog.plans && r.cog.plans[q].state in {PlanActive, PlanCompleted}
    ensures r.cog.plans[q].state == PlanActive ==> w.cog.plans[q].state == PlanActive
    ensures r.cog.plans[q].tasks == w.cog.plans[q].tasks && r.cog.plans[q].goal == w.cog.plans[q].goal
  {
    assert PlansOk(w, {}, {}) && PlansOk(r, {}, {});
    assert PlanOk(w.cog, q, false) && PlanOk(r.cog, q, false);
  }

  lemma AllStillGrounded(w: World, r: World, q: PlanId, done: TaskId, k: Track)
    requires Inv(w, {}, {}, k) && Inv(r, {}, {}, k) && OneMore(w.cog, r.cog, done)
      && w.cog.tasks[done].state != TaskPending
    requires q in w.cog.plans && q in r.cog.plans && r.cog.plans[q].tasks == w.cog.plans[q].tasks
    requires forall t :: t in w.cog.plans[q].tasks && t in w.cog.tasks && w.cog.tasks[t].state != TaskPending ==>
      Grounded(w.cog, t)
    ensures forall t :: t in r.cog.plans[q].tasks && t in r.cog.tasks && r.cog.tasks[t].state != TaskPending ==>
      Grounded(r.cog, t)
  {
    assert PlansOk(w, {}, {}) && PlansOk(r, {}, {});
    hide Inv, Grounded, PlansOk, DepsMet;
    forall t | t in r.cog.plans[q].tasks && t in r.cog.tasks && r.cog.tasks[t].state != TaskPending
      ensures Grounded(r.cog, t)
    {
      DepsInPlan(w, q, t);
      DepsCompleteIn(r, t);
      StillGrounded(w.cog, r.cog, done, t);
    }
  }

  lemma DepsInPlan(w: World, q: PlanId, t: TaskId)
    requires PlansOk(w, {}, {}) && q in w.cog.plans && t in w.cog.plans[q].tasks && t in w.cog.tasks
    ensures w.cog.tasks[t].plan == q
    ensures forall d :: d in w.cog.tasks[t].deps ==> d in w.cog.tasks && d in w.cog.plans[q].tasks
  {
    assert PlanOk(w.cog, q, false) && TaskOk(w.cog, w.table, {}, t);
    forall d | d in w.cog.tasks[t].deps ensures d in w.cog.tasks && d in w.cog.plans[q].tasks {
      assert TaskOk(w.cog, w.table, {}, d);
    }
  }

  lemma DepsCompleteIn(w: World, t: TaskId)
    requires PlansOk(w, {}, {}) && t in w.cog.tasks && w.cog.tasks[t].state != TaskPending
    ensures DepsMet(w.cog, w.cog.tasks[t].deps)
  {
    assert TaskOk(w.cog, w.table, {}, t);
  }

  lemma DistinctTasks(w: World, q: PlanId)
    requires PlansOk(w, {}, {}) && q in w.cog.plans
    ensures forall i, j :: 0 <= i < j < |w.cog.plans[q].tasks| ==> w.cog.plans[q].tasks[i] != w.cog.plans[q].tasks[j]
    ensures forall t :: t in w.cog.plans[q].tasks ==> t in w.cog.tasks
  {
    assert PlanOk(w.cog, q, false);
  }

  /** One dispatch completes exactly one task that could run. */
  lemma DrivingStep(w: World, q: PlanId, body: Body, k: Track)
    requires Driving(w, q, k) && w.sched.queue != [] && ReturnsInTime(w, body)
    ensures var (r, out) := RunNext(w, body);
      && out.Ran? && Driving(r, q, k)
      && r.cog.plans[q].tasks == w.cog.plans[q].tasks && r.cog.plans[q].goal == w.cog.plans[q].goal
      && Left(r.cog, r.cog.plans[q].tasks) == Left(w.cog, w.cog.plans[q].tasks) - 1
  {
    hide Inv, Driving, Finish, BodyDone, RunNext, ReturnsInTime, CompletionEffect, Settled, Grounded, CogEvolves,
      Registered, CastAfter, NobodyWaits, LiveAreOwned, PlansOk;
    DispatchCast(w, q, body, k);
    var p := w.sched.queue[0].pid;
    var t := ItsTask(w, q, p, k);
    var r1 := BodyDone(w, p, body);
    var r := Finish(r1, p).0;
    DrivingFacts(w, q, k);
    OneTaskPerProcess(r1, p, t, k);
    RegisteredSame(w, r1);
    FinishStep(r1, p, k);
    FinishCast(r1, p, t, k);
    EvolvesCog(w, r1, r);
    LiveStayOwned(w, r1, r, q, p);
    EffectIsOneMore(w.cog, r.cog, p, t);
    EffectOnFailures(w.cog, r.cog, p);
    PlanGoesOn(w, r, q, p, k);
    AllStillGrounded(w, r, q, t, k);
    DistinctTasks(w, q);
    LeftDrops(w.cog, r.cog, w.cog.plans[q].tasks, t);
    EffectSettles(w.cog, r.cog, p, t);
    DrivingAgain(w, r1, r, q, p, k);
  }

  lemma DrivingFacts(w: World, q: PlanId, k: Track)
    requires Driving(w, q, k)
    ensures PlansOk(w, {}, {}) && Registered(w) && LiveAreOwned(w.table, w.cog, q) && Inv(w, {}, {}, k)
    ensures q in w.cog.plans && w.cog.plans[q].state in {PlanActive, PlanCompleted}
    ensures forall t :: t in w.cog.plans[q].tasks && t in w.cog.tasks && w.cog.tasks[t].state != TaskPending ==>
      Grounded(w.cog, t)
  {}

  lemma EvolvesCog(w: World, w1: World, r: World)
    requires Evolves(w, w1) && Evolves(w1, r)
    ensures CogEvolves(w.cog, r.cog)
  {
    CogEvolvesTrans(w.cog, w1.cog, r.cog);
  }

  lemma EffectOnFailures(c: Cognition, c': Cognition, p: Pid)
    requires CompletionEffect(c, c', p)
    ensures forall t :: t in c.tasks && t in c'.tasks ==>
      (c'.tasks[t].state == TaskFailed <==> c.tasks[t].state == TaskFailed)
  {
    hide Settled;
  }

  lemma EffectSettles(c: Cognition, c': Cognition, p: Pid, t: TaskId)
    requires CompletionEffect(c, c', p) && t in c.tasks && c.tasks[t].process == Some(p)
      && c.tasks[t].state == TaskRunning
    ensures c.tasks[t].plan in c.plans && c.plans[c.tasks[t].plan].state == PlanActive ==> Settled(c', c.tasks[t].plan)
  {
    hide Settled;
  }

  lemma DrivingAgain(w: World, r1: World, r: World, q: PlanId, p: Pid, k: Track)
    requires Inv(r, {}, {}, k) && Registered(r) && CastAfter(r1, r, p, TasksOf(w.cog, q))
    requires q in r.cog.plans && r.cog.plans[q].state in {PlanActive, PlanCompleted}
    requires r.cog.plans[q].state == PlanActive ==> Settled(r.cog, q)
    requires LiveAreOwned(r.table, r.cog, q)
    requires forall t :: t in r.cog.plans[q].tasks && t in r.cog.tasks && r.cog.tasks[t].state != TaskPending ==>
      Grounded(r.cog, t)
    ensures Driving(r, q, k)
  {}

  // ------------------------------------------------------------------
  // The whole run
  // ------------------------------------------------------------------

  lemma {:induction false} LeftIsZero(c: Cognition, ids: seq<TaskId>)
    ensures Left(c, ids) == 0 <==>
      forall t :: t in ids && t in c.tasks && Grounded(c, t) ==> c.tasks[t].state == TaskCompleted
  {
    hide Grounded;
    if ids != [] {
      LeftIsZero(c, ids[1..]);
      assert forall t :: t in ids <==> t == ids[0] || t in ids[1..];
    }
  }

  /** Progress: while a task that can run is not complete, some process is queued. */
  lemma SomethingIsQueued(w: World, q: PlanId, k: Track)
    requires Driving(w, q, k)
    ensures w.sched.queue != [] <==> Left(w.cog, w.cog.plans[q].tasks) > 0
  {
    LeftIsZero(w.cog, w.cog.plans[q].tasks);
    DrivingFacts(w, q, k);
    hide Inv, Driving, Grounded, Registered, PlansOk;
    if w.sched.queue != [] {
      TakeNextStep(w, k);
      var t := ItsTask(w, q, w.sched.queue[0].pid, k);
    }
    if t :|
      t in w.cog.plans[q].tasks && t in w.cog.tasks && Grounded(w.cog, t) && w.cog.tasks[t].state != TaskCompleted
    {
      var u := RunnableTask(w, q, t, k);
      RunnableIsRunning(w, q, u, k);
    }
  }

  lemma RunnableTask(w: World, q: PlanId, t: TaskId, k: Track) returns (u: TaskId)
    requires Driving(w, q, k) && t in w.cog.plans[q].tasks && t in w.cog.tasks
    requires Grounded(w.cog, t) && w.cog.tasks[t].state != TaskCompleted
    ensures u in w.cog.plans[q].tasks && u in w.cog.tasks && w.cog.tasks[u].state != TaskCompleted
      && DepsMet(w.cog, w.cog.tasks[u].deps)
  {
    hide Driving, Inv, Grounded, DepsMet, TaskOk, PlanOk;
    DrivingFacts(w, q, k);
    Progress.PlanTasksAreIts(w, q, k);
    u := Progress.RunnableTaskOf(w, q, t, {}, k);
    Progress.TaskInPlan(w, q, u, {}, k);
  }

  lemma RunnableIsRunning(w: World, q: PlanId, u: TaskId, k: Track)
    requires Driving(w, q, k) && u in w.cog.plans[q].tasks && u in w.cog.tasks
    requires w.cog.tasks[u].state != TaskCompleted && DepsMet(w.cog, w.cog.tasks[u].deps)
    ensures w.cog.tasks[u].state == TaskRunning && w.sched.queue != []
  {
    hide Grounded, DepsMet, Registered;
    assert PlansOk(w, {}, {}) && Consistent(w, {});
    assert PlanOk(w.cog, q, false) && TaskOk(w.cog, w.table, {}, u);
    assert w.cog.plans[q].state == PlanActive;
    assert u in TasksOf(w.cog, q);
    var p := w.cog.tasks[u].process.value;
    assert w.table[p].state == Ready;
    assert Placed(w.table[p], p, w.sched, w.svc.mail.Keys, w.svc.caps, {});
    assert Queued(w.sched, p);
  }

  lemma DrivingHasWork(w: World, q: PlanId, k: Track)
    requires Driving(w, q, k)
    ensures HasWork(w) == (w, w.sched.queue != [])
  {
    QuietKernelEvaluates(w, q, k);
    DrivingInv(w, q, k);
    hide Driving, Inv, EvaluateWaiting, HasWork;
    HasWorkStep(w, k);
  }

  /** `run` dispatches every task that can run exactly once and then stops. */
  lemma {:induction false} RunDrains(w: World, q: PlanId, bodies: seq<Body>, k: Track)
    requires Driving(w, q, k) && AllReturnInTime(w, bodies)
    requires |bodies| >= Left(w.cog, w.cog.plans[q].tasks)
    ensures var r := Run(w, bodies);
      && r.end == Drained && r.dispatches == Left(w.cog, w.cog.plans[q].tasks)
      && Driving(r.world, q, k)
      && r.world.cog.plans[q].tasks == w.cog.plans[q].tasks && r.world.cog.plans[q].goal == w.cog.plans[q].goal
      && Left(r.world.cog, r.world.cog.plans[q].tasks) == 0
    decreases bodies
  {
    hide Driving, RunNext, HasWork, ReturnsInTime;
    DrivingHasWork(w, q, k);
    SomethingIsQueued(w, q, k);
    if w.sched.queue != [] {
      DrivingStep(w, q, bodies[0], k);
      RunDrains(RunNext(w, bodies[0]).0, q, bodies[1..], k);
    }
  }

  /** What the end of such a run means for the plan. */
  lemma DrainedPlan(w: World, q: PlanId, k: Track)
    requires Driving(w, q, k) && Left(w.cog, w.cog.plans[q].tasks) == 0
    ensures var plan := w.cog.plans[q];
      && (forall t :: t in plan.tasks ==>
           t in w.cog.tasks && w.cog.tasks[t].state == if Grounded(w.cog, t) then TaskCompleted else TaskPending)
      && (plan.tasks != [] && (forall t :: t in plan.tasks ==> Grounded(w.cog, t)) ==>
           plan.state == PlanCompleted && plan.goal in w.cog.goals && w.cog.goals[plan.goal] == GoalCompleted)
      && ((exists t :: t in plan.tasks && !Grounded(w.cog, t)) ==> plan.state == PlanActive)
  {
    hide Driving, Grounded, Inv, Registered, PlansOk;
    DrivingFacts(w, q, k);
    LeftIsZero(w.cog, w.cog.plans[q].tasks);
    ThisPlan(w, q);
  }

  lemma ThisPlan(w: World, q: PlanId)
    requires PlansOk(w, {}, {}) && q in w.cog.plans
    ensures PlanOk(w.cog, q, false)
  {}

  // ------------------------------------------------------------------
  // From an idle kernel
  // ------------------------------------------------------------------

  ghost predicate IdleKernel(w: World) {
    forall p :: p in w.table ==> w.table[p].state.IsFinished()
  }

  lemma IdleHoldsNothingBack(w: World, k: Track)
    requires Inv(w, {}, {}, k) && IdleKernel(w)
    ensures w.sched.pending == []
  {
    hide Inv;
    if w.sched.pending != [] {
      DependentIsReady(w, w.sched.pending[0], k);
    }
  }

  lemma DependentIsReady(w: World, x: Dependent, k: Track)
    requires Inv(w, {}, {}, k) && x in w.sched.pending
    ensures x.pid in w.table && w.table[x.pid].state == Ready
  {
    assert Depends(w.sched, x.pid);
    assert Placed(w.table[x.pid], x.pid, w.sched, w.svc.mail.Keys, w.svc.caps, {});
  }

  /** A new plan and its first processes. */
  function Launch(w: World, g: GoalId, specs: seq<TaskSpec>, plan: PlanId, base: TaskId): (World, bool) {
    var (w1, raised) := CreatePlan(w, g, specs, plan, base);
    if raised then (w1, true) else SpawnReady(w1, plan)
  }

  ghost predicate MayLaunch(w: World, g: GoalId, specs: seq<TaskSpec>, plan: PlanId, base: TaskId, k: Track) {
    && Inv(w, {}, {}, k) && IdleKernel(w) && Registered(w)
    && g in w.cog.goals && w.cog.goals[g] == GoalPlanning
    && CleanSpecs(specs) && FreshIds(w.cog, plan, base, |specs|)
    && forall i :: 0 <= i < |specs| ==> specs[i].definition in w.registry
  }

  lemma PlannedRegistered(w: World, g: GoalId, specs: seq<TaskSpec>, plan: PlanId, base: TaskId, k: Track)
    requires MayLaunch(w, g, specs, plan, base, k)
    ensures Registered(UpdateReady(Planned(w, g, specs, plan, base), plan))
  {
    hide Inv, BecomesReady, PlannedCog, CleanSpecs, FreshIds, NewTask, NewIds;
    assert FreshIds(w.cog, plan, base, |specs|);
    PlannedExtends(w.cog, g, specs, plan, base);
    var c := PlannedCog(w.cog, g, specs, plan, base);
    forall t | t in c.tasks ensures c.tasks[t].definition in w.registry {
      if base <= t < base + |specs| {
        NewTaskDefinition(specs, t - base, base, plan);
      } else {
        assert t in w.cog.tasks;
      }
    }
    hide MayLaunch, Registered, Extends;
    RegisteredReadied(Planned(w, g, specs, plan, base), plan);
  }

  lemma NewTaskDefinition(specs: seq<TaskSpec>, i: nat, base: TaskId, plan: PlanId)
    requires i < |specs|
    ensures NewTask(specs, i, base, plan).definition == specs[i].definition
  {}

  lemma RegisteredReadied(w: World, q: PlanId)
    requires forall t :: t in w.cog.tasks ==> w.cog.tasks[t].definition in w.registry
    ensures Registered(UpdateReady(w, q))
  {
    hide BecomesReady;
  }

  /** The plans right after `create_plan`. */
  lemma PlannedShape(w: World, g: GoalId, specs: seq<TaskSpec>, plan: PlanId, base: TaskId, k: Track)
    requires MayLaunch(w, g, specs, plan, base, k)
    ensures var c := PlannedCog(w.cog, g, specs, plan, base);
      && UpdateReady(Planned(w, g, specs, plan, base), plan).cog == Readied(c, NewIds(base, |specs|))
      && plan in c.plans && c.plans[plan] == Plan(g, NewIds(base, |specs|), PlanActive)
      && (forall t :: t in NewIds(base, |specs|) ==> t in c.tasks && c.tasks[t].state == TaskPending)
      && (forall t, d :: t in NewIds(base, |specs|) && d in c.tasks[t].deps ==> d in NewIds(base, |specs|))
  {
    hide Inv, MayLaunch, PlannedCog, Readied, CleanSpecs, FreshIds, NewTask;
    assert FreshIds(w.cog, plan, base, |specs|) && CleanSpecs(specs) by { LaunchClean(w, g, specs, plan, base, k); }
    PlannedExtends(w.cog, g, specs, plan, base);
    var c := PlannedCog(w.cog, g, specs, plan, base);
    forall t | t in NewIds(base, |specs|)
      ensures t in c.tasks && c.tasks[t].state == TaskPending && forall d :: d in c.tasks[t].deps ==>
      d in NewIds(base, |specs|)
    {
      NewDepsInRange(specs, t - base, base, plan);
      NewTaskIsPending(specs, t - base, base, plan);
    }
  }

  lemma LaunchClean(w: World, g: GoalId, specs: seq<TaskSpec>, plan: PlanId, base: TaskId, k: Track)
    requires MayLaunch(w, g, specs, plan, base, k)
    ensures FreshIds(w.cog, plan, base, |specs|) && CleanSpecs(specs)
  {}

  lemma NewTaskIsPending(specs: seq<TaskSpec>, i: nat, base: TaskId, plan: PlanId)
    requires i < |specs|
    ensures NewTask(specs, i, base, plan).state == TaskPending
  {}

  lemma LaunchSettles(c: Cognition, c': Cognition, q: PlanId)
    requires q in c.plans && c.plans[q].state == PlanActive
    requires forall i, j :: 0 <= i < j < |c.plans[q].tasks| ==> c.plans[q].tasks[i] != c.plans[q].tasks[j]
    requires forall t :: t in c.plans[q].tasks ==> t in c.tasks && c.tasks[t].state == TaskPending
    requires forall t, d :: t in c.plans[q].tasks && d in c.tasks[t].deps ==> d in c.plans[q].tasks
    requires AllStarted(Readied(c, c.plans[q].tasks), c', ReadyTasks(Readied(c, c.plans[q].tasks), c.plans[q].tasks))
    ensures Settled(c', q) && SameDeps(c, c')
    ensures forall t :: t in c.plans[q].tasks ==> c'.tasks[t].state != TaskCompleted
    ensures forall t :: t in c.plans[q].tasks && c'.tasks[t].state != TaskPending ==> Grounded(c', t)
  {
    hide Settled, Grounded, ReadyTasks, DepsMet;
    var ids := c.plans[q].tasks;
    ReadyAndStartedSettles(c, c', q);
    ReadyTasksFacts(Readied(c, ids), ids);
    forall t | t in ids && c'.tasks[t].state != TaskPending ensures Grounded(c', t) {
      assert BecomesReady(c, t);
      NothingNeeded(c, c.tasks[t].deps);
      GroundedByDeps(c', t);
    }
  }

  lemma NothingNeeded(c: Cognition, deps: seq<TaskId>)
    requires DepsMet(c, deps) && forall d :: d in deps ==> d in c.tasks && c.tasks[d].state == TaskPending
    ensures forall d :: d !in deps
  {}

  lemma LaunchDrives(w: World, g: GoalId, specs: seq<TaskSpec>, plan: PlanId, base: TaskId, k: Track)
    requires MayLaunch(w, g, specs, plan, base, k)
    ensures var (r, raised) := Launch(w, g, specs, plan, base);
      && !raised && Driving(r, plan, k)
      && r.cog.plans[plan].tasks == NewIds(base, |specs|) && r.cog.plans[plan].goal == g
      && SameDeps(PlannedCog(w.cog, g, specs, plan, base), r.cog)
      && (forall t :: t in NewIds(base, |specs|) ==> t in r.cog.tasks && r.cog.tasks[t].state != TaskCompleted)
  {
    PlannedIs(w, g, specs, plan, base);
    CreatePlanStep(w, g, specs, plan, base, k);
    PlannedRegistered(w, g, specs, plan, base, k);
    PlannedShape(w, g, specs, plan, base, k);
    IdleHoldsNothingBack(w, k);
    var w1 := UpdateReady(Planned(w, g, specs, plan, base), plan);
    assert w1.table == w.table && w1.sched == w.sched;
    var c := PlannedCog(w.cog, g, specs, plan, base);
    hide Inv, MayLaunch, PlannedCog, Planned, CreatePlan, UpdateReady, SpawnReady, Readied, Registered, Settled,
      Grounded, CogEvolves, CleanSpecs, FreshIds;
    SpawnReadyStep(w1, plan, {}, {}, k);
    var r := SpawnReady(w1, plan).0;
    SpawnReadyAdds(w1, plan, {}, {}, k);
    NewIdsDistinct(base, |specs|);
    ReadiedPlans(c, NewIds(base, |specs|));
    StartedPlans(w1, r, k, if w1.cog.plans[plan].state == PlanActive then ReadyTasks(w1.cog, w1.cog.plans[plan].tasks)
      else []);
    LaunchSettles(c, r.cog, plan);
    LaunchedAreOwned(w, w1, r, plan);
  }

  lemma ReadiedPlans(c: Cognition, ids: seq<TaskId>)
    ensures Readied(c, ids).plans == c.plans
  {}

  lemma StartedPlans(w: World, r: World, k: Track, ids: seq<TaskId>)
    requires AllStarted(w.cog, r.cog, ids) && Evolves(w, r) && Registered(w)
    ensures r.cog.plans == w.cog.plans && Registered(r)
  {
    hide CogEvolves;
  }

  lemma LaunchedAreOwned(w: World, w1: World, r: World, q: PlanId)
    requires IdleKernel(w) && w1.table == w.table && AddsOwned(w1, r, TasksOf(w1.cog, q)) && r.cog.plans == w1.cog.plans
    ensures LiveAreOwned(r.table, r.cog, q)
  {
    forall p | p in r.table && !r.table[p].state.IsFinished() ensures r.table[p].state == Ready && Owned(r.cog, q, p) {
      assert p !in w1.table;
      var t :| t in TasksOf(w1.cog, q) && t in r.cog.tasks && r.cog.tasks[t].process == Some(p);
      assert t in TasksOf(r.cog, q);
    }
  }

  lemma NewIdsDistinct(base: TaskId, n: nat)
    ensures forall i, j :: 0 <= i < j < n ==> NewIds(base, n)[i] != NewIds(base, n)[j]
  {}

  lemma {:induction false} LeftIsAll(c: Cognition, ids: seq<TaskId>)
    requires forall t :: t in ids ==> t in c.tasks && Grounded(c, t) && c.tasks[t].state != TaskCompleted
    ensures Left(c, ids) == |ids|
  {
    hide Grounded;
    if ids != [] {
      LeftIsAll(c, ids[1..]);
    }
  }

  /** The number of a plan's tasks that can ever run. */
  ghost function Runnable(c: Cognition, ids: seq<TaskId>): nat {
    if ids == [] then 0 else (if Grounded(c, ids[0]) then 1 else 0) + Runnable(c, ids[1..])
  }

  lemma {:induction false} LeftAtLaunch(c0: Cognition, c: Cognition, ids: seq<TaskId>)
    requires SameDeps(c0, c)
    requires forall t :: t in ids ==> t in c.tasks && c.tasks[t].state != TaskCompleted
    ensures Left(c, ids) == Runnable(c0, ids)
  {
    hide Grounded;
    if ids != [] {
      LeftAtLaunch(c0, c, ids[1..]);
      GroundedSame(c0, c, ids[0]);
    }
  }

  /** For any plan, cyclic or not, on an otherwise idle kernel: if every dispatched body returns
      within its budget, `run` stops after exactly as many dispatches as there are tasks that do
      not transitively depend on a cycle; exactly those are COMPLETED, the others never leave
      PENDING. */
  lemma PlanRunsAsFarAsItCan(w: World, g: GoalId, specs: seq<TaskSpec>, plan: PlanId, base: TaskId, bodies: seq<Body>,
      k: Track)
    requires MayLaunch(w, g, specs, plan, base, k)
    requires |bodies| >= |specs| && AllReturnInTime(Launch(w, g, specs, plan, base).0, bodies)
    ensures var c := PlannedCog(w.cog, g, specs, plan, base);
      var ids := NewIds(base, |specs|);
      var r := Run(Launch(w, g, specs, plan, base).0, bodies);
      && !Launch(w, g, specs, plan, base).1
      && r.end == Drained && r.dispatches == Runnable(c, ids)
      && (forall t :: t in ids ==>
            && t in r.world.cog.tasks && t in c.tasks
            && r.world.cog.tasks[t].state == if DependsOnCycle(c, t) then TaskPending else TaskCompleted)
  {
    hide Driving, MayLaunch, Launch, PlannedCog, AllReturnInTime, Run, Grounded, DependsOnCycle, DepsKnown, NewIds,
      Runnable, Left;
    LaunchDrives(w, g, specs, plan, base, k);
    var w1 := Launch(w, g, specs, plan, base).0;
    var ids := NewIds(base, |specs|);
    var c := PlannedCog(w.cog, g, specs, plan, base);
    LeftAtLaunch(c, w1.cog, ids);
    RunnableAtMost(c, ids);
    PlannedDepsKnown(w, g, specs, plan, base, k);
    RunDrains(w1, plan, bodies, k);
    var r := Run(w1, bodies);
    DrainedPlan(r.world, plan, k);
    DrivenGraph(w1, bodies, plan, k);
    forall t | t in ids ensures t in r.world.cog.tasks && t in c.tasks
      && r.world.cog.tasks[t].state == if DependsOnCycle(c, t) then TaskPending else TaskCompleted
    {
      GroundedIffNoCycle(c, t);
      GroundedSame(c, w1.cog, t);
      GroundedSame(w1.cog, r.world.cog, t);
    }
  }

  lemma {:induction false} RunnableAtMost(c: Cognition, ids: seq<TaskId>)
    ensures Runnable(c, ids) <= |ids|
  {
    hide Grounded;
    if ids != [] {
      RunnableAtMost(c, ids[1..]);
    }
  }

  lemma PlannedDepsKnown(w: World, g: GoalId, specs: seq<TaskSpec>, plan: PlanId, base: TaskId, k: Track)
    requires MayLaunch(w, g, specs, plan, base, k)
    ensures DepsKnown(PlannedCog(w.cog, g, specs, plan, base))
  {
    PlannedExtends(w.cog, g, specs, plan, base);
    assert PlansOk(w, {}, {});
    hide Inv;
    var c := PlannedCog(w.cog, g, specs, plan, base);
    forall t, d | t in c.tasks && d in c.tasks[t].deps ensures d in c.tasks {
      if t in w.cog.tasks {
        assert TaskOk(w.cog, w.table, {}, t);
      } else {
        NewDepsInRange(specs, t - base, base, plan);
      }
    }
  }

  /** Driving a plan never changes the dependency graph. */
  lemma {:induction false} DrivenGraph(w: World, bodies: seq<Body>, q: PlanId, k: Track)
    requires Driving(w, q, k) && AllReturnInTime(w, bodies)
    ensures SameDeps(w.cog, Run(w, bodies).world.cog)
    decreases bodies
  {
    hide Driving, RunNext, HasWork, ReturnsInTime;
    DrivingHasWork(w, q, k);
    if w.sched.queue != [] && bodies != [] {
      DrivingStep(w, q, bodies[0], k);
      DrivingStepGraph(w, q, bodies[0], k);
      DrivenGraph(RunNext(w, bodies[0]).0, bodies[1..], q, k);
    }
  }

  lemma DrivingStepGraph(w: World, q: PlanId, body: Body, k: Track)
    requires Driving(w, q, k) && w.sched.queue != [] && ReturnsInTime(w, body)
    ensures SameDeps(w.cog, RunNext(w, body).0.cog)
  {
    DispatchCast(w, q, body, k);
    var p := w.sched.queue[0].pid;
    var t := ItsTask(w, q, p, k);
    var r1 := BodyDone(w, p, body);
    DrivingFacts(w, q, k);
    hide Inv, Driving, Finish, BodyDone, RunNext, ReturnsInTime, CompletionEffect, Settled, Grounded, CogEvolves,
      Registered, PlansOk;
    OneTaskPerProcess(r1, p, t, k);
    RegisteredSame(w, r1);
    FinishStep(r1, p, k);
    EvolvesCog(w, r1, Finish(r1, p).0);
    EffectIsOneMore(w.cog, Finish(r1, p).0.cog, p, t);
  }

  /** End to end: a non-empty plan without cyclic dependencies is driven to completion by
      exactly one dispatch per task. */
  lemma AcyclicPlanCompletes(w: World, g: GoalId, specs: seq<TaskSpec>, plan: PlanId, base: TaskId, bodies: seq<Body>,
      k: Track)
    requires MayLaunch(w, g, specs, plan, base, k) && specs != []
    requires forall t :: base <= t < base + |specs| ==> !DependsOnCycle(PlannedCog(w.cog, g, specs, plan, base), t)
    requires |bodies| >= |specs| && AllReturnInTime(Launch(w, g, specs, plan, base).0, bodies)
    ensures var r := Run(Launch(w, g, specs, plan, base).0, bodies);
      && r.end == Drained && r.dispatches == |specs|
      && (forall t :: base <= t < base + |specs| ==>
           t in r.world.cog.tasks && r.world.cog.tasks[t].state == TaskCompleted)
      && plan in r.world.cog.plans && r.world.cog.plans[plan].state == PlanCompleted
      && g in r.world.cog.goals && r.world.cog.goals[g] == GoalCompleted
      && IdleKernel(r.world)
  {
    hide MayLaunch, Driving, Launch, PlannedCog, AllReturnInTime, Run, Grounded, DependsOnCycle, DepsKnown, SameDeps,
      Readied, UpdateReady, Planned, IdleKernel;
    LaunchDrives(w, g, specs, plan, base, k);
    PlanRunsAsFarAsItCan(w, g, specs, plan, base, bodies, k);
    AllRunnable(w, g, specs, plan, base, k);
    var c := PlannedCog(w.cog, g, specs, plan, base);
    LeftAtLaunch(c, Launch(w, g, specs, plan, base).0.cog, NewIds(base, |specs|));
    LaunchedPlanFinishes(Launch(w, g, specs, plan, base).0, specs, plan, base, bodies, k);
  }

  lemma AllRunnable(w: World, g: GoalId, specs: seq<TaskSpec>, plan: PlanId, base: TaskId, k: Track)
    requires MayLaunch(w, g, specs, plan, base, k)
    requires forall t :: base <= t < base + |specs| ==> !DependsOnCycle(PlannedCog(w.cog, g, specs, plan, base), t)
    ensures Runnable(PlannedCog(w.cog, g, specs, plan, base), NewIds(base, |specs|)) == |specs|
  {
    PlannedDepsKnown(w, g, specs, plan, base, k);
    PlannedShape(w, g, specs, plan, base, k);
    hide MayLaunch, PlannedCog, Grounded, DependsOnCycle, DepsKnown, Readied, UpdateReady, Planned;
    var c := PlannedCog(w.cog, g, specs, plan, base);
    var ids := NewIds(base, |specs|);
    forall t | t in ids ensures Grounded(c, t) {
      GroundedIffNoCycle(c, t);
    }
    RunnableIsAll(c, ids);
  }

  lemma LaunchedPlanFinishes(w: World, specs: seq<TaskSpec>, plan: PlanId, base: TaskId, bodies: seq<Body>, k: Track)
    requires Driving(w, plan, k) && AllReturnInTime(w, bodies) && specs != []
    requires w.cog.plans[plan].tasks == NewIds(base, |specs|)
      && |bodies| >= |specs| >= Left(w.cog, NewIds(base, |specs|))
    requires var r := Run(w, bodies).world;
      forall t :: t in NewIds(base, |specs|) ==> t in r.cog.tasks && r.cog.tasks[t].state == TaskCompleted
    ensures var r := Run(w, bodies).world;
      && plan in r.cog.plans && r.cog.plans[plan].state == PlanCompleted
      && r.cog.plans[plan].goal == w.cog.plans[plan].goal
      && r.cog.plans[plan].goal in r.cog.goals && r.cog.goals[r.cog.plans[plan].goal] == GoalCompleted && IdleKernel(r)
  {
    hide Driving, AllReturnInTime, Run, Grounded, IdleKernel;
    RunDrains(w, plan, bodies, k);
    var r := Run(w, bodies).world;
    DrivingFacts(r, plan, k);
    FinishedPlan(r, plan, k);
  }

  lemma FinishedPlan(w: World, q: PlanId, k: Track)
    requires Driving(w, q, k) && w.cog.plans[q].tasks != []
    requires forall t :: t in w.cog.plans[q].tasks ==> t in w.cog.tasks && w.cog.tasks[t].state == TaskCompleted
    ensures w.cog.plans[q].state == PlanCompleted && IdleKernel(w)
    ensures w.cog.plans[q].goal in w.cog.goals && w.cog.goals[w.cog.plans[q].goal] == GoalCompleted
  {
    DrivingFacts(w, q, k);
    assert PlanOk(w.cog, q, false);
    hide Driving, Inv, PlansOk, Registered;
    forall p | p in w.table ensures w.table[p].state.IsFinished() {
      if !w.table[p].state.IsFinished() {
        var t := ItsTask(w, q, p, k);
      }
    }
  }

  lemma {:induction false} RunnableIsAll(c: Cognition, ids: seq<TaskId>)
    requires forall t :: t in ids ==> Grounded(c, t)
    ensures Runnable(c, ids) == |ids|
  {
    hide Grounded;
    if ids != [] {
      RunnableIsAll(c, ids[1..]);
    }
  }
}
