/** What a dispatch is: which budget limits allow it, what its body uses up, and where each ending
    of the body leaves the process. */
module Dispatching {
  import opened Common
  import opened Heap
  import opened States
  import opened SchedulerModel
  import opened KernelModel
  import opened Correspondence
  import opened Replay
  import opened Gating
  import opened History
  import opened KernelRuns
  import opened Runs
  import opened Isolation

  // ------------------------------------------------------------------
  // Budgets
  // ------------------------------------------------------------------

  lemma UnstartedTrans(a: seq<Event>, b: seq<Event>, c: seq<Event>, p: Pid)
    requires a <= b <= c && Unstarted(b, |a|, p) && Unstarted(c, |b|, p)
    ensures Unstarted(c, |a|, p)
  {
    forall i | |a| <= i < |c| ensures c[i] != ProcessStarted(p) {
      if i < |b| {
        assert c[i] == b[i];
      }
    }
  }

  lemma UnstartedMore(log: seq<Event>, e: Event, p: Pid)
    requires e != ProcessStarted(p)
    ensures Unstarted(log + [e], |log|, p) && Unstarted(log, |log|, p)
  {}

  lemma FootUnstarted(w: World, r: World, p: Pid)
    requires Foot(w, r, Observed(p, TimeReached(0), ""), false)
    ensures w.log <= r.log && Unstarted(r.log, |w.log|, p)
  {}

  lemma SuperviseLog(w: World, p: Pid)
    ensures var log := Supervise(w, p).log; w.log <= log && Unstarted(log, |w.log|, p)
  {
    hide Enqueue, CapabilitiesFor, Decide;
    UnstartedMore(w.log, CheckpointRestored(p), p);
  }

  lemma CleanupLog(w: World, p: Pid)
    ensures Cleanup(w, p).log == w.log
  {}

  /** Refusing or failing a process does not start it. */
  lemma FailingStartsNothing(w: World, p: Pid)
    requires !MayMove(w, p, Failed)
    ensures var log := FailProcess(w, p).0.log; w.log <= log && Unstarted(log, |w.log|, p)
  {
    hide MayMove, OnTerminal, Announce, Supervise, TaskFails, Cleanup, Foot;
    var o := Observed(p, TimeReached(0), "");
    var w0 := Emit(w, ProcessFailed(p));
    var w1 := OnTerminal(w0, p);
    var w2 := Supervise(w1, p);
    UnstartedMore(w.log, ProcessFailed(p), p);
    OnTerminalFoot(w0, p, o, false);
    FootUnstarted(w0, w1, p);
    SuperviseLog(w1, p);
    TaskFailsFoot(w2, p, o, false);
    FootUnstarted(w2, TaskFails(w2, p).0, p);
    UnstartedTrans(w.log, w0.log, w1.log, p);
    UnstartedTrans(w.log, w1.log, w2.log, p);
    UnstartedTrans(w.log, w2.log, TaskFails(w2, p).0.log, p);
  }

  /** The process at the head of the queue is started if and only if its tokens, tool calls and
      cost are below their limits and its retries not above theirs; otherwise `run_next` raises. */
  lemma StartsExactlyWithinBudget(w: World, body: Body, p: Pid, k: Track)
    requires Inv(w, {}, {}, k) && IsNext(w, p)
    ensures p in w.table && w.log <= RunNext(w, body).0.log
    ensures var b := w.table[p].budget;
      var u := if p in w.svc.usage then w.svc.usage[p] else Usage(0, 0, 0.0, 0);
      var within := u.tokens < b.maxTokens && u.tools < b.maxTools && u.cost < b.maxCost && u.retries <= b.maxRetries;
      var (r, out) := RunNext(w, body);
      && (within <==> exists i :: |w.log| <= i < |r.log| && r.log[i] == ProcessStarted(p))
      && (!within ==> out == RaisedOut(p))
  {
    hide Inv, Evolves, Execute, FailProcess, EvaluateWaiting, TakeNext, RunNext, Foot;
    var w2 := Taken(w);
    NextDispatch(w, p, k);
    NextRecord(w, p, k);
    NextIs(w, body, p);
    TakenLog(w, p);
    LogGrew(w, w2);
    FailingCompletedRaises(w2, p);
    if CanDispatch(UsageOf(w2, p), w2.table[p].budget) {
      ExecuteLogsStart(w2, p, body);
      assert Execute(w2, p, body).0.log[|w2.log|] == ProcessStarted(p);
    } else {
      FailingStartsNothing(w2, p);
      UnstartedTrans(w.log, w2.log, FailProcess(w2, p).0.log, p);
    }
  }

  /** Taking the process off the queue changes neither its budget nor its usage. */
  lemma NextRecord(w: World, p: Pid, k: Track)
    requires Inv(w, {}, {}, k) && IsNext(w, p)
    ensures var w2 := Taken(w);
      && p in w.table && p in w2.table && w2.table[p].budget == w.table[p].budget
      && w2.table[p].definition == w.table[p].definition && w2.table[p].goal == w.table[p].goal
      && UsageOf(w2, p) == UsageOf(w, p) && MemoryOf(w2, p) == MemoryOf(w, p)
      && CheckpointsOf(w2, p) == CheckpointsOf(w, p)
      && w2.svc.caps == w.svc.caps && w2.svc.supervisor == w.svc.supervisor
  {
    hide Inv, EvaluateWaiting, Dequeue, Consistent, Evolves, SameBusy;
    EvaluateParts(w);
    EvaluateSame(w);
    var w1 := EvaluateWaiting(w);
    EvaluateStep(w, {}, k);
    InvPlaced(w1, k);
    HeadIsKnown(w1, p);
    TakenFrame(w1, p);
  }

  lemma InvPlaced(w: World, k: Track)
    requires Inv(w, {}, {}, k)
    ensures Consistent(w, {})
  {
    hide Consistent;
  }

  lemma TakenFrame(w: World, p: Pid)
    requires w.sched.queue != [] && w.sched.queue[0].pid == p
    ensures var r := TakeNext(w);
      && r.table == w.table && r.svc == w.svc.(usage := r.svc.usage) && UsageOf(r, p) == UsageOf(w, p)
      && MemoryOf(r, p) == MemoryOf(w, p) && CheckpointsOf(r, p) == CheckpointsOf(w, p)
  {
    hide Dequeue;
  }

  lemma HeadIsKnown(w: World, p: Pid)
    requires Consistent(w, {}) && w.sched.queue != [] && w.sched.queue[0].pid == p
    ensures p in w.table
  {
    assert w.sched.queue[0] in w.sched.queue && Queued(w.sched, p);
  }

  lemma EvaluateSame(w: World)
    ensures EvaluateWaiting(w).svc == w.svc && EvaluateWaiting(w).table.Keys == w.table.Keys
  {
    WakeAllTable(w.(sched := Evaluate(w.sched, TrueNow(w))), Satisfied(w.sched.waiting, TrueNow(w)));
  }

  lemma TakenLog(w: World, p: Pid)
    requires IsNext(w, p)
    ensures w.log <= Taken(w).log && Unstarted(Taken(w).log, |w.log|, p)
  {
    hide EvaluateWaiting;
    var more := EvaluateWaitingLog(w);
    forall i | |w.log| <= i < |w.log + more| ensures (w.log + more)[i] != ProcessStarted(p) {
      assert (w.log + more)[i] == more[i - |w.log|] && more[i - |w.log|] in more;
    }
  }

  // ------------------------------------------------------------------
  // What a body uses up
  // ------------------------------------------------------------------

  function TokensOf(ops: seq<BodyOp>): nat {
    if ops == [] then 0 else (if ops[0].UseTool? then ops[0].tokens else 0) + TokensOf(ops[1..])
  }

  function CostOf(ops: seq<BodyOp>): real {
    if ops == [] then 0.0 else (if ops[0].UseTool? then ops[0].cost else 0.0) + CostOf(ops[1..])
  }

  /** Tool calls, and children whose definition is known. */
  function ToolsOf(ops: seq<BodyOp>, registry: map<string, Definition>): nat {
    if ops == [] then 0
    else
      var counts := ops[0].UseTool? || (ops[0].SpawnChild? && ops[0].definition in registry);
      (if counts then 1 else 0) + ToolsOf(ops[1..], registry)
  }

  lemma OpUses(w: World, p: Pid, op: BodyOp)
    requires RunOp(w, p, op).1 && forall d :: d in w.registry ==> w.registry[d].name == d
    ensures var r := RunOp(w, p, op).0;
      var u := UsageOf(w, p);
      && r.registry == w.registry
      && UsageOf(r, p).tokens == u.tokens + (if op.UseTool? then op.tokens else 0)
      && UsageOf(r, p).cost == u.cost + (if op.UseTool? then op.cost else 0.0)
      && UsageOf(r, p).tools
           == u.tools + (if op.UseTool? || (op.SpawnChild? && op.definition in w.registry) then 1 else 0)
      && UsageOf(r, p).retries == u.retries
  {
    hide EvaluateWaiting, Permitted, Enqueue, CapabilitiesFor;
  }

  /** Accounting: a body that gets through its operations has used up exactly what they cost. */
  lemma {:induction false} BodyUses(w: World, p: Pid, ops: seq<BodyOp>)
    requires RunOps(w, p, ops).1 && forall d :: d in w.registry ==> w.registry[d].name == d
    ensures var r := RunOps(w, p, ops).0;
      UsageOf(r, p) == Usage(UsageOf(w, p).tokens + TokensOf(ops), UsageOf(w, p).tools + ToolsOf(ops, w.registry),
        UsageOf(w, p).cost + CostOf(ops), UsageOf(w, p).retries)
    decreases ops
  {
    hide RunOp, UsageOf;
    if ops != [] {
      OpUses(w, p, ops[0]);
      BodyUses(RunOp(w, p, ops[0]).0, p, ops[1..]);
    }
  }

  /** Cleaning up after a finished process takes away its capabilities, mailbox and usage counters and
      nothing else; a process that is not finished keeps them. */
  lemma CleanupForgets(w: World, p: Pid)
    ensures var r := Cleanup(w, p);
      && r == w.(svc := w.svc.(caps := r.svc.caps, mail := r.svc.mail, usage := r.svc.usage))
      && if p in w.table && w.table[p].state in {Completed, Failed, Cancelled} then
           && p !in r.svc.caps && p !in r.svc.mail && p !in r.svc.usage
           && (forall q :: q != p && q in w.svc.caps ==> q in r.svc.caps && r.svc.caps[q] == w.svc.caps[q])
           && (forall q :: q != p && q in w.svc.mail ==> q in r.svc.mail && r.svc.mail[q] == w.svc.mail[q])
           && (forall q :: q != p && q in w.svc.usage ==> q in r.svc.usage && r.svc.usage[q] == w.svc.usage[q])
         else r == w
  {}

  // ------------------------------------------------------------------
  // Where each ending leaves the process
  // ------------------------------------------------------------------

  /** The world after the operations of the next body, and whether all of them went through. */
  function BodyEnds(w: World, p: Pid, body: Body): (World, bool)
    requires IsNext(w, p)
  {
    RunOps(Begin(Taken(w), p), p, body.ops)
  }

  lemma NextBody(w: World, p: Pid, body: Body, k: Track)
    requires Inv(w, {}, {}, k) && IsNext(w, p) && !RunNext(w, body).1.RaisedOut?
    ensures var w1 := BodyEnds(w, p, body).0;
      && Inv(w1, {p}, {}, k) && Evolves(w, w1) && w1.cog == w.cog
      && p in Taken(w).table && Taken(w).table[p].state == Ready
      && p in w1.table && w1.table[p] == Taken(w).table[p].(state := Running)
      && RunNext(w, body) == Execute(Taken(w), p, body)
  {
    hide Inv, Evolves, Execute, FailProcess, EvaluateWaiting, TakeNext, RunNext, RunOps, Foot, CanDispatch;
    NextDispatch(w, p, k);
    NextIs(w, body, p);
    FailingCompletedRaises(Taken(w), p);
    BodyRuns(Taken(w), p, body.ops, k);
    EvolvesTrans(w, Taken(w), BodyEnds(w, p, body).0);
  }

  /** A body that returns in time leaves its process COMPLETED and nowhere else. */
  lemma ReturnCompletes(w: World, p: Pid, body: Body, k: Track)
    requires Inv(w, {}, {}, k) && IsNext(w, p) && !RunNext(w, body).1.RaisedOut?
    requires BodyEnds(w, p, body).1 && body.end.Returns? && !body.overran
    ensures Retired(RunNext(w, body).0, p, Completed)
  {
    hide Inv, Evolves, Finish, FailProcess, IsNext, Taken, RunNext, BodyEnds, Retired, Park, SetUsage, UsageOf;
    var w1 := BodyEnds(w, p, body).0;
    NextBody(w, p, body, k);
    UsedStep(w1, p, k);
    ExecuteReturns(w, p, body);
    FinishCompletes(SetUsage(w1, p, UsageOf(w1, p)), p, k);
  }

  lemma ExecuteReturns(w: World, p: Pid, body: Body)
    requires IsNext(w, p) && BodyEnds(w, p, body).1 && body.end.Returns? && !body.overran
    requires p in Taken(w).table && Taken(w).table[p].state == Ready
    ensures var w1 := BodyEnds(w, p, body).0; Execute(Taken(w), p, body) == Finish(SetUsage(w1, p, UsageOf(w1, p)), p)
  {
    hide IsNext, Taken, RunOps, Begin, Finish, SetUsage, UsageOf;
  }

  lemma FinishCompletes(w: World, p: Pid, k: Track)
    requires Inv(w, {p}, {}, k) && p in w.table && w.table[p].state == Running && !Finish(w, p).1.RaisedOut?
    ensures Retired(Finish(w, p).0, p, Completed)
  {
    hide Inv, Evolves, Finish, FailProcess, Announce, TaskCompletes, Cleanup, Retired, Logged, CompletionEffect,
      Registered;
    var w1 := Announce(w, p, Completed, ProcessCompleted(p));
    FinishCases(w, p);
    AnnounceStep(w, p, Completed, ProcessCompleted(p), k);
    CompletedCannotFail(w1, p, k);
    InvBound(w1, p, k);
    TaskCompletesKeepsProcess(w1, p);
    CleanupTable(TaskCompletes(w1, p).0, p);
    FinishStep(w, p, k);
    FinishedIsRetired(Finish(w, p).0, p, k);
  }

  /** A body that waits leaves its process WAITING, registered for the condition, with a checkpoint
      of its memory and usage as they then are. */
  lemma WaitParks(w: World, p: Pid, body: Body, k: Track)
    requires Inv(w, {}, {}, k) && IsNext(w, p) && !RunNext(w, body).1.RaisedOut?
    requires BodyEnds(w, p, body).1 && body.end.WaitsFor?
    ensures var w1 := BodyEnds(w, p, body).0;
      var r := RunNext(w, body).0;
      && p in r.table && r.table[p].state == Waiting && Waiter(p, body.end.condition) in r.sched.waiting
      && CheckpointsOf(r, p) == CheckpointsOf(w1, p) + [Checkpoint(MemoryOf(w1, p), UsageOf(w1, p))]
      && MemoryOf(r, p) == MemoryOf(w1, p) && UsageOf(r, p) == UsageOf(w1, p)
  {
    hide Inv, Evolves, FailProcess, IsNext, Taken, RunNext, BodyEnds, Park;
    var w1 := BodyEnds(w, p, body).0;
    NextBody(w, p, body, k);
    ExecuteWaits(w, p, body);
    ParkedWaits(w1, p, body.end.condition, k);
  }

  lemma ExecuteWaits(w: World, p: Pid, body: Body)
    requires IsNext(w, p) && BodyEnds(w, p, body).1 && body.end.WaitsFor?
    requires p in Taken(w).table && Taken(w).table[p].state == Ready
    ensures Execute(Taken(w), p, body) == (Park(BodyEnds(w, p, body).0, p, body.end.condition), Ran(p))
  {
    hide IsNext, Taken, RunOps, Begin, Park;
  }

  lemma ParkedWaits(w: World, p: Pid, c: Condition, k: Track)
    requires Inv(w, {p}, {}, k) && p in w.table && w.table[p].state == Running
    ensures var r := Park(w, p, c);
      && p in r.table && r.table[p].state == Waiting && Waiter(p, c) in r.sched.waiting
      && CheckpointsOf(r, p) == CheckpointsOf(w, p) + [Checkpoint(MemoryOf(w, p), UsageOf(w, p))]
      && MemoryOf(r, p) == MemoryOf(w, p) && UsageOf(r, p) == UsageOf(w, p)
  {
    assert Consistent(w, {p}) && SchedOk(w.sched);
    hide Inv;
    ParkFacts(w, p, c);
    MarkWaitingFacts(w.sched, p, c);
    CheckpointTaken(w, p);
    ParkedServices(w, p, c);
    hide Park, MarkWaiting;
  }

  lemma CheckpointTaken(w: World, p: Pid)
    ensures var r := TakeCheckpoint(w, p);
      && CheckpointsOf(r, p) == CheckpointsOf(w, p) + [Checkpoint(MemoryOf(w, p), UsageOf(w, p))]
      && MemoryOf(r, p) == MemoryOf(w, p) && UsageOf(r, p) == UsageOf(w, p)
  {}

  lemma ParkedServices(w: World, p: Pid, c: Condition)
    ensures var r := Park(w, p, c);
      var t := TakeCheckpoint(w, p);
      CheckpointsOf(r, p) == CheckpointsOf(t, p) && MemoryOf(r, p) == MemoryOf(t, p) && UsageOf(r, p) == UsageOf(t, p)
  {
    hide MarkWaiting, TakeCheckpoint;
  }

  /** Any other body - one with an operation that is refused, one that raises, one that overruns -
      leaves its process FAILED and nowhere else, unless a supervisor takes it back: if it has a
      checkpoint, or was retried fewer times than its budget allows, it is READY and queued. */
  lemma OtherwiseFails(w: World, p: Pid, body: Body, k: Track)
    requires Inv(w, {}, {}, k) && IsNext(w, p) && !RunNext(w, body).1.RaisedOut?
    requires !BodyEnds(w, p, body).1 || body.end.Raises? || (body.end.Returns? && body.overran)
    ensures var w1 := BodyEnds(w, p, body).0;
      var r := RunNext(w, body).0;
      p in w1.table &&
      if w1.svc.supervisor.Some? && (CheckpointsOf(w1, p) != [] || Retries(w1, p) < w1.table[p].budget.maxRetries)
      then Requeued(r, p) else Retired(r, p, Failed)
  {
    hide Inv, Evolves, FailProcess, IsNext, Taken, RunNext, BodyEnds, Requeued, Retired, SetUsage, UsageOf,
      CheckpointsOf, FailureEffect;
    var w1 := BodyEnds(w, p, body).0;
    NextBody(w, p, body, k);
    var w2 := SetUsage(w1, p, UsageOf(w1, p));
    UsedStep(w1, p, k);
    ExecuteFails(w, p, body);
    FailStep(w1, p, k);
    FailStep(w2, p, k);
    RevivedWhen(w1, p);
    SameDecision(w1, p, UsageOf(w1, p));
  }

  lemma ExecuteFails(w: World, p: Pid, body: Body)
    requires IsNext(w, p) && p in Taken(w).table && Taken(w).table[p].state == Ready
    requires !BodyEnds(w, p, body).1 || body.end.Raises? || (body.end.Returns? && body.overran)
    ensures var w1 := BodyEnds(w, p, body).0;
      Execute(Taken(w), p, body) == FailProcess(w1, p)
      || Execute(Taken(w), p, body) == FailProcess(SetUsage(w1, p, UsageOf(w1, p)), p)
  {
    hide IsNext, Taken, RunOps, Begin, Park, SetUsage, FailProcess, UsageOf;
  }

  lemma RevivedWhen(w: World, p: Pid)
    requires p in w.table
    ensures Revivable(w, p) <==>
      w.svc.supervisor.Some? && (CheckpointsOf(w, p) != [] || Retries(w, p) < w.table[p].budget.maxRetries)
  {
    hide CheckpointsOf;
  }

  lemma SameDecision(w: World, p: Pid, u: Usage)
    requires p in w.table
    ensures Revivable(SetUsage(w, p, u), p) <==> Revivable(w, p)
  {}
}
