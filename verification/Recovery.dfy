/** What recovery gives back: the latest checkpoint if there is one, else a retry while the budget
    lasts, each at its exact count, and the priority a recovered process runs with. */
module Recovery {
  import opened Common
  import opened Heap
  import opened States
  import opened SchedulerModel
  import opened KernelModel
  import opened Correspondence
  import opened Replay
  import opened Gating
  import opened History
  import opened KernelRuns
  import opened Runs
  import opened Isolation
  import opened Dispatching

  // ------------------------------------------------------------------
  // One failure
  // ------------------------------------------------------------------

  /** Restoring `c`: its keys have their values again, all other keys are as they were, and the
      usage is that of the checkpoint with one more retry. */
  ghost predicate RestoredTo(w: World, r: World, p: Pid, c: Checkpoint) {
    && (forall key :: key in c.memory ==> key in MemoryOf(r, p) && MemoryOf(r, p)[key] == c.memory[key])
    && (forall key :: key !in c.memory ==> (key in MemoryOf(r, p) <==> key in MemoryOf(w, p)))
    && (forall key :: key !in c.memory && key in MemoryOf(w, p) ==> MemoryOf(r, p)[key] == MemoryOf(w, p)[key])
    && UsageOf(r, p) == Usage(c.usage.tokens, c.usage.tools, c.usage.cost, c.usage.retries + 1)
    && CheckpointsOf(r, p) == CheckpointsOf(w, p) && Retries(r, p) == Retries(w, p)
  }

  /** Nothing recorded for another process has changed. */
  ghost predicate OthersKept(w: World, r: World, p: Pid) {
    forall q :: q != p ==>
      MemoryOf(r, q) == MemoryOf(w, q) && CheckpointsOf(r, q) == CheckpointsOf(w, q) && UsageOf(r, q) == UsageOf(w, q)
  }

  /** With a checkpoint the supervisor restores the latest. */
  lemma SuperviseRestoresLatest(w: World, p: Pid, earlier: seq<Checkpoint>, c: Checkpoint)
    requires w.svc.supervisor.Some? && p in w.table && CheckpointsOf(w, p) == earlier + [c]
    ensures var r := Supervise(w, p);
      RestoredTo(w, r, p, c) && OthersKept(w, r, p) && p in r.table && r.table[p].state == Ready
  {
    hide PrepareForResume, RecordRetry, RestoreCheckpoint, UsageOf, MemoryOf, CheckpointsOf, Retries;
    assert Decide(w, p) == Restore(c);
    var w1 := RestoreCheckpoint(w, p, c);
    RestoreGives(w, p, c);
    ResumeGives(w1, p);
  }

  lemma RestoreGives(w: World, p: Pid, c: Checkpoint)
    ensures var r := RestoreCheckpoint(w, p, c);
      && r.table == w.table && UsageOf(r, p) == c.usage && OthersKept(w, r, p)
      && (forall key :: key in c.memory ==> key in MemoryOf(r, p) && MemoryOf(r, p)[key] == c.memory[key])
      && (forall key :: key !in c.memory ==> (key in MemoryOf(r, p) <==> key in MemoryOf(w, p)))
      && (forall key :: key !in c.memory && key in MemoryOf(w, p) ==> MemoryOf(r, p)[key] == MemoryOf(w, p)[key])
      && CheckpointsOf(r, p) == CheckpointsOf(w, p) && Retries(r, p) == Retries(w, p)
  {}

  /** Resuming touches nothing that is recorded but the retries of the process itself. */
  lemma ResumeGives(w: World, p: Pid)
    requires p in w.table
    ensures var r := RecordRetry(PrepareForResume(w, p), p);
      && p in r.table && r.table[p].state == Ready && OthersKept(w, r, p)
      && MemoryOf(r, p) == MemoryOf(w, p) && CheckpointsOf(r, p) == CheckpointsOf(w, p)
      && Retries(r, p) == Retries(w, p)
      && UsageOf(r, p) == UsageOf(w, p).(retries := UsageOf(w, p).retries + 1)
  {
    hide Enqueue, CapabilitiesFor;
  }

  /** Without one it retries while the process was retried fewer times than its budget allows, and
      otherwise leaves everything as it is. */
  lemma SuperviseRetriesWithinBudget(w: World, p: Pid)
    requires w.svc.supervisor.Some? && p in w.table && CheckpointsOf(w, p) == []
    ensures var r := Supervise(w, p);
      if Retries(w, p) < w.table[p].budget.maxRetries then
        && Retries(r, p) == Retries(w, p) + 1 && p in r.table && r.table[p].state == Ready
        && MemoryOf(r, p) == MemoryOf(w, p) && CheckpointsOf(r, p) == []
        && UsageOf(r, p) == UsageOf(w, p).(retries := UsageOf(w, p).retries + 1) && OthersKept(w, r, p)
      else r == w
  {
    hide PrepareForResume, RecordRetry, UsageOf, MemoryOf;
    if Retries(w, p) < w.table[p].budget.maxRetries {
      var w1 := w.(svc := w.svc.(supervisor := Some(w.svc.supervisor.value[p := Retries(w, p) + 1])));
      CountingKeeps(w, w1);
      ResumeGives(w1, p);
    }
  }

  lemma CountingKeeps(w: World, r: World)
    requires r == w.(svc := w.svc.(supervisor := r.svc.supervisor))
    ensures forall q: Pid ::
      MemoryOf(r, q) == MemoryOf(w, q) && CheckpointsOf(r, q) == CheckpointsOf(w, q) && UsageOf(r, q) == UsageOf(w, q)
  {}

  lemma RestoredLater(w: World, w1: World, r: World, r1: World, p: Pid, c: Checkpoint)
    requires RestoredTo(w1, r, p, c)
    requires MemoryOf(w1, p) == MemoryOf(w, p) && CheckpointsOf(w1, p) == CheckpointsOf(w, p)
      && Retries(w1, p) == Retries(w, p)
    requires MemoryOf(r1, p) == MemoryOf(r, p) && CheckpointsOf(r1, p) == CheckpointsOf(r, p)
      && Retries(r1, p) == Retries(r, p)
    requires UsageOf(r1, p) == UsageOf(r, p)
    ensures RestoredTo(w, r1, p, c)
  {
    hide MemoryOf, CheckpointsOf, Retries, UsageOf;
  }

  lemma SameService(w: World, r: World, p: Pid)
    requires r.svc == w.svc
    ensures MemoryOf(r, p) == MemoryOf(w, p) && CheckpointsOf(r, p) == CheckpointsOf(w, p)
    ensures UsageOf(r, p) == UsageOf(w, p) && Retries(r, p) == Retries(w, p)
  {}

  /** A failing process that has a checkpoint is READY again with the latest one restored. */
  lemma FailureRestores(w: World, p: Pid, earlier: seq<Checkpoint>, c: Checkpoint, k: Track)
    requires Inv(w, {p}, {}, k) && p in w.table && w.table[p].state == Running
    requires w.svc.supervisor.Some? && CheckpointsOf(w, p) == earlier + [c]
    ensures var r := FailProcess(w, p).0; RestoredTo(w, r, p, c) && Requeued(r, p)
  {
    hide Inv, Evolves, Announce, Supervise, TaskFails, Cleanup, RestoredTo, Requeued, Retired, FailureEffect,
      CheckpointsOf, MemoryOf, Retries, UsageOf, FailProcess;
    FailStep(w, p, k);
    RevivedWhen(w, p);
    var w1 := Announce(w, p, Failed, ProcessFailed(p));
    AnnounceStep(w, p, Failed, ProcessFailed(p), k);
    SameService(w, w1, p);
    var w2 := Supervise(w1, p);
    SuperviseRestoresLatest(w1, p, earlier, c);
    var w3 := TaskFails(w2, p).0;
    FailingIs(w, p);
    TaskFailsServices(w2, p);
    SameService(w2, w3, p);
    CleanupOfLive(w3, p);
    RestoredLater(w, w1, w2, w3, p, c);
  }

  lemma FailingIs(w: World, p: Pid)
    requires MayMove(w, p, Failed)
    ensures var w3 := TaskFails(Supervise(Announce(w, p, Failed, ProcessFailed(p)), p), p).0;
      FailProcess(w, p).0 == w3 || FailProcess(w, p).0 == Cleanup(w3, p)
  {
    hide Announce, Supervise, TaskFails, Cleanup, MayMove;
  }

  lemma TaskFailsServices(w: World, p: Pid)
    ensures TaskFails(w, p).0.svc == w.svc && TaskFails(w, p).0.table == w.table
  {}

  lemma CleanupOfLive(w: World, p: Pid)
    ensures p in w.table && w.table[p].state == Ready ==> Cleanup(w, p) == w
  {}

  // ------------------------------------------------------------------
  // Checkpoints along a body
  // ------------------------------------------------------------------

  lemma OpCheckpoints(w: World, p: Pid, op: BodyOp)
    ensures var r := RunOp(w, p, op).0;
      CheckpointsOf(w, p) <= CheckpointsOf(r, p) && (!op.SaveCheckpoint? ==> CheckpointsOf(r, p) == CheckpointsOf(w, p))
  {
    hide EvaluateWaiting, Permitted, Enqueue, CapabilitiesFor;
  }

  lemma {:induction false} OpsCheckpoints(w: World, p: Pid, ops: seq<BodyOp>)
    ensures var r := RunOps(w, p, ops).0;
      && CheckpointsOf(w, p) <= CheckpointsOf(r, p)
      && ((forall op :: op in ops ==> !op.SaveCheckpoint?) ==> CheckpointsOf(r, p) == CheckpointsOf(w, p))
    decreases ops
  {
    hide RunOp, CheckpointsOf;
    if ops != [] {
      OpCheckpoints(w, p, ops[0]);
      OpsCheckpoints(RunOp(w, p, ops[0]).0, p, ops[1..]);
    }
  }

  /** What the body has done when it fails. */
  lemma FailingBody(w: World, p: Pid, body: Body, k: Track)
    requires Inv(w, {}, {}, k) && IsNext(w, p) && !RunNext(w, body).1.RaisedOut? && FailureOf(Taken(w), p, body).Some?
    ensures var w1 := FailureOf(Taken(w), p, body).value;
      && Inv(w1, {p}, {}, k) && p in w1.table && w1.table[p].state == Running
      && RunNext(w, body) == FailProcess(w1, p)
      && Foot(w, w1, Observed(p, TimeReached(0), ""), true)
      && (w1.svc.supervisor.Some? <==> w.svc.supervisor.Some?)
      && p in w.table && w1.table[p].budget == w.table[p].budget
      && CheckpointsOf(w, p) <= CheckpointsOf(w1, p)
      && ((forall op :: op in body.ops ==> !op.SaveCheckpoint?) ==> CheckpointsOf(w1, p) == CheckpointsOf(w, p))
  {
    hide Inv, Evolves, FailProcess, Execute, EvaluateWaiting, TakeNext, Taken, RunNext, RunOps, Foot, SetUsage, UsageOf,
      CheckpointsOf, FailureOf, MemoryOf, BodyEnds;
    var o := Observed(p, TimeReached(0), "");
    var w2 := Taken(w);
    NextDispatch(w, p, k);
    NextRecord(w, p, k);
    NextBody(w, p, body, k);
    ExecuteFailure(w2, p, body);
    FailureRuns(w2, p, body, k);
    TakenFoot(w, o);
    OwnFailureFoot(w2, p, body, o);
    FootTrans(w, w2, FailureOf(w2, p, body).value, o, true);
    FootSupervisor(w, FailureOf(w2, p, body).value, o, k);
  }

  lemma FailureRuns(w: World, p: Pid, body: Body, k: Track)
    requires Inv(w, {p}, {}, k) && p in w.table && w.table[p].state == Ready && FailureOf(w, p, body).Some?
    ensures var w1 := FailureOf(w, p, body).value;
      && Inv(w1, {p}, {}, k) && p in w1.table && w1.table[p].state == Running
      && CheckpointsOf(w, p) <= CheckpointsOf(w1, p)
      && ((forall op :: op in body.ops ==> !op.SaveCheckpoint?) ==> CheckpointsOf(w1, p) == CheckpointsOf(w, p))
  {
    hide Inv, Evolves, RunOps, Begin, SetUsage, UsageOf, CheckpointsOf;
    var w1 := RunOps(Begin(w, p), p, body.ops).0;
    BodyRuns(w, p, body.ops, k);
    UsedStep(w1, p, k);
    BeginCheckpoints(w, p);
    OpsCheckpoints(Begin(w, p), p, body.ops);
    UsedCheckpoints(w1, p);
  }

  lemma FootSupervisor(w: World, r: World, o: Observed, k: Track)
    requires Foot(w, r, o, true) && o.pid in w.table && Inv(w, {}, {}, k)
    ensures (r.svc.supervisor.Some? <==> w.svc.supervisor.Some?) && o.pid in r.table
      && r.table[o.pid].budget == w.table[o.pid].budget
    ensures Retries(r, o.pid) == Retries(w, o.pid) && w.log <= r.log
  {
    KnownIsOld(w, o.pid, k);
    hide Inv, EntryOk, PriorityOf;
  }

  lemma ExecuteFailure(w: World, p: Pid, body: Body)
    requires FailureOf(w, p, body).Some? && MayMove(w, p, Running)
    ensures Execute(w, p, body) == FailProcess(FailureOf(w, p, body).value, p)
  {
    hide Begin, RunOps, FailProcess, SetUsage, UsageOf, Park, Finish, MayMove;
  }

  lemma BeginCheckpoints(w: World, p: Pid)
    ensures CheckpointsOf(Begin(w, p), p) == CheckpointsOf(w, p) && MemoryOf(Begin(w, p), p) == MemoryOf(w, p)
  {}

  lemma UsedCheckpoints(w: World, p: Pid)
    ensures CheckpointsOf(SetUsage(w, p, UsageOf(w, p)), p) == CheckpointsOf(w, p)
  {}

  // ------------------------------------------------------------------
  // Waiting, then failing
  // ------------------------------------------------------------------

  /** What is recorded for a process that has begun to wait and was not started since. */
  lemma WaitingIsRecorded(w: World, p: Pid, waits: Body, later: seq<Call>, k: Track)
    requires Inv(w, {}, {}, k) && !k.replays
    requires IsNext(w, p) && !RunNext(w, waits).1.RaisedOut? && BodyEnds(w, p, waits).1 && waits.end.WaitsFor?
    requires var w1 := RunNext(w, waits).0;
      Runs.Returns(w1, later) && Unstarted(Runs.After(w1, later).log, |w1.log|, p)
    ensures var w1 := RunNext(w, waits).0;
      var w2 := Runs.After(w1, later);
      && Inv(w2, {}, {}, k) && Evolves(w, w2)
      && exists earlier :: CheckpointsOf(w2, p) == earlier + [Checkpoint(MemoryOf(w1, p), UsageOf(w1, p))]
  {
    hide Runs.After, Runs.Returns, Inv, Evolves, RunNext, IsNext, BodyEnds, Unstarted, Foot, MemoryOf, UsageOf,
      CheckpointsOf;
    var w1 := RunNext(w, waits).0;
    DispatchStep(w, waits, k);
    WaitParks(w, p, waits, k);
    EveryRunKeepsInv(w1, later, k);
    EvolvesTrans(w, w1, Runs.After(w1, later));
    RunIsolates(w1, later, Observed(p, TimeReached(0), ""), k);
    BooksKept(w1, Runs.After(w1, later), p);
  }

  /** In every supervised run: a process waits, and, when it is next dispatched, fails without having
      taken another checkpoint. Then it is READY again with every key of its memory as it was when
      it began to wait, and with the usage of that time and one more retry, whatever happened
      in between and whatever the failing body wrote. */
  lemma FailureAfterWaitRestores(before: seq<Call>, p: Pid, waits: Body, later: seq<Call>, fails: Body)
    requires Runs.Returns(Boot(true), before)
    requires var w := Runs.After(Boot(true), before);
      && IsNext(w, p) && !RunNext(w, waits).1.RaisedOut? && BodyEnds(w, p, waits).1 && waits.end.WaitsFor?
      && var w1 := RunNext(w, waits).0;
         && Runs.Returns(w1, later) && Unstarted(Runs.After(w1, later).log, |w1.log|, p)
         && var w2 := Runs.After(w1, later);
            && IsNext(w2, p) && !RunNext(w2, fails).1.RaisedOut? && FailureOf(Taken(w2), p, fails).Some?
    requires forall op :: op in fails.ops ==> !op.SaveCheckpoint?
    ensures var w1 := RunNext(Runs.After(Boot(true), before), waits).0;
      var r := RunNext(Runs.After(w1, later), fails).0;
      && Requeued(r, p)
      && (forall key :: key in MemoryOf(w1, p) ==> key in MemoryOf(r, p) && MemoryOf(r, p)[key] == MemoryOf(w1, p)[key])
      && UsageOf(r, p) == UsageOf(w1, p).(retries := UsageOf(w1, p).retries + 1)
  {
    hide Runs.After, Runs.Returns, Inv, Evolves, RunNext, EvaluateWaiting, Taken, BodyEnds, FailureOf, Unstarted, Foot,
      MemoryOf, UsageOf, CheckpointsOf, Requeued, RestoredTo;
    var k := Track(None, false);
    BootInv(true, k);
    EveryRunKeepsInv(Boot(true), before, k);
    var w := Runs.After(Boot(true), before);
    var w1 := RunNext(w, waits).0;
    var w2 := Runs.After(w1, later);
    WaitingIsRecorded(w, p, waits, later, k);
    EvolvesTrans(Boot(true), w, w2);
    StillSupervised(Boot(true), w2);
    var c := Checkpoint(MemoryOf(w1, p), UsageOf(w1, p));
    var earlier :| CheckpointsOf(w2, p) == earlier + [c];
    NextFailureRestores(w2, p, fails, earlier, c, k);
    RestoredMeans(RunNext(w2, fails).0, p, c);
  }

  /** The memory and usage of a process that was restored. */
  ghost predicate HasAgain(r: World, p: Pid, c: Checkpoint) {
    && (forall key :: key in c.memory ==> key in MemoryOf(r, p) && MemoryOf(r, p)[key] == c.memory[key])
    && UsageOf(r, p) == c.usage.(retries := c.usage.retries + 1)
  }

  lemma RestoredMeans(r: World, p: Pid, c: Checkpoint)
    requires HasAgain(r, p, c)
    ensures forall key :: key in c.memory ==> key in MemoryOf(r, p) && MemoryOf(r, p)[key] == c.memory[key]
    ensures UsageOf(r, p) == c.usage.(retries := c.usage.retries + 1)
  {}

  lemma NextFailureRestores(w: World, p: Pid, fails: Body, earlier: seq<Checkpoint>, c: Checkpoint, k: Track)
    requires Inv(w, {}, {}, k) && w.svc.supervisor.Some? && CheckpointsOf(w, p) == earlier + [c]
    requires IsNext(w, p) && !RunNext(w, fails).1.RaisedOut? && FailureOf(Taken(w), p, fails).Some?
    requires forall op :: op in fails.ops ==> !op.SaveCheckpoint?
    ensures var r := RunNext(w, fails).0; Requeued(r, p) && HasAgain(r, p, c)
  {
    hide Inv, RunNext, EvaluateWaiting, Taken, FailureOf, Foot, MemoryOf, UsageOf, CheckpointsOf, Requeued, FailProcess;
    FailingBody(w, p, fails, k);
    var w1 := FailureOf(Taken(w), p, fails).value;
    FailureRestores(w1, p, earlier, c, k);
  }

  lemma StillSupervised(w: World, r: World)
    requires Evolves(w, r)
    ensures w.svc.supervisor.Some? <==> r.svc.supervisor.Some?
  {}

  lemma BooksKept(w: World, r: World, p: Pid)
    requires Foot(w, r, Observed(p, TimeReached(0), ""), false)
    ensures MemoryOf(r, p) == MemoryOf(w, p) && CheckpointsOf(r, p) == CheckpointsOf(w, p)
      && UsageOf(r, p) == UsageOf(w, p)
    ensures Retries(r, p) == Retries(w, p)
  {}

  /** A dispatch that returns keeps the invariant. */
  lemma DispatchStep(w: World, body: Body, k: Track)
    requires Inv(w, {}, {}, k) && !k.replays && !RunNext(w, body).1.RaisedOut?
    ensures Inv(RunNext(w, body).0, {}, {}, k) && Evolves(w, RunNext(w, body).0)
  {
    hide Inv, Evolves, RunNext, RevivesNext, BudgetSpent, Registered;
    RunNextStep(w, body, k);
    assert k.(replays := false) == k;
  }

  // ------------------------------------------------------------------
  // Failures, retries and priority along a run
  // ------------------------------------------------------------------

  /** How often the process has failed. */
  function FailCount(log: seq<Event>, p: Pid): nat {
    if log == [] then 0
    else FailCount(log[..|log| - 1], p) + if log[|log| - 1] == ProcessFailed(p) then 1 else 0
  }

  lemma {:induction false} FailCountSame(log: seq<Event>, log': seq<Event>, p: Pid, own: bool)
    requires LogFoot(log, log', p, own)
    ensures FailCount(log', p) == FailCount(log, p)
    decreases |log'|
  {
    if |log'| > |log| {
      FailCountSame(log, log'[..|log'| - 1], p, own);
    } else {
      assert log' == log;
    }
  }

  lemma OneMoreFailure(log: seq<Event>, p: Pid)
    ensures FailCount(log + [ProcessFailed(p)], p) == FailCount(log, p) + 1
  {
    assert (log + [ProcessFailed(p)])[..|log|] == log;
  }

  ghost predicate IsFailed(w: World, p: Pid) {
    p in w.table && w.table[p].state == Failed
  }

  /** The priority of a process: its own until it first fails, and 0 from then on. */
  ghost predicate Ranked(w: World, p: Pid, priority: int) {
    && EntryOk(w.sched, p)
    && (FailCount(w.log, p) == 0 ==> PriorityOf(w.sched, p) == priority)
    && (FailCount(w.log, p) > 0 ==> PriorityOf(w.sched, p) == 0 || IsFailed(w, p))
  }

  /** Its failures: every one retried, until there are more than its budget allows. */
  ghost predicate Tallied(w: World, p: Pid, max: nat) {
    && (CheckpointsOf(w, p) != [] ==> !IsFailed(w, p))
    && (CheckpointsOf(w, p) == [] ==>
          && Retries(w, p) <= max && FailCount(w.log, p) == Retries(w, p) + (if IsFailed(w, p) then 1 else 0)
          && (IsFailed(w, p) ==> Retries(w, p) == max))
  }

  /** What a process was spawned with. */
  datatype Origin = Origin(definition: Definition, goal: Option<GoalId>, priority: int)

  /** The process has the definition and goal it was spawned with, and the budget of the definition. */
  ghost predicate Recorded(w: World, p: Pid, origin: Origin) {
    && p in w.table && w.table[p].definition == origin.definition && w.table[p].goal == origin.goal
    && w.table[p].budget == origin.definition.budget
  }

  ghost predicate Traced(w: World, p: Pid, origin: Origin) {
    && Recorded(w, p, origin) && Ranked(w, p, origin.priority)
    && (w.svc.supervisor.Some? ==> Tallied(w, p, origin.definition.budget.maxRetries))
  }

  lemma TracedElsewhere(w: World, r: World, p: Pid, origin: Origin, k: Track)
    requires Inv(w, {}, {}, k) && Traced(w, p, origin) && Foot(w, r, Observed(p, TimeReached(0), ""), false)
    ensures Traced(r, p, origin)
  {
    KnownIsOld(w, p, k);
    FailCountSame(w.log, r.log, p, false);
    hide Inv, EntryOk, PriorityOf, FailCount, CheckpointsOf, MemoryOf, UsageOf, Retries;
  }

  /** The dispatched process was READY or waiting, not FAILED. */
  lemma NextIsAlive(w: World, p: Pid, k: Track)
    requires Inv(w, {}, {}, k) && IsNext(w, p)
    ensures p in w.table && !IsFailed(w, p)
  {
    hide Inv, EvaluateWaiting, TakeNext, MemoryOf, UsageOf, CheckpointsOf, Evolves, SameBusy;
    NextRecord(w, p, k);
    EvaluateParts(w);
    EvaluateStep(w, {}, k);
    TakeNextStep(EvaluateWaiting(w), k);
    assert SameState(w, EvaluateWaiting(w), p);
  }

  /** The dispatch does not fail. */
  lemma TracedWhenFine(w: World, body: Body, p: Pid, origin: Origin, k: Track)
    requires Inv(w, {}, {}, k) && Traced(w, p, origin) && IsNext(w, p) && !RunNext(w, body).1.RaisedOut?
    requires FailureOf(Taken(w), p, body).None?
    ensures Traced(RunNext(w, body).0, p, origin)
  {
    hide Inv, RunNext, EvaluateWaiting, FailureOf, Taken, Foot, Traced, Execute, FailProcess, Evolves, BodyEnds;
    var o := Observed(p, TimeReached(0), "");
    var r := RunNext(w, body).0;
    NextIsAlive(w, p, k);
    NextBody(w, p, body, k);
    NextDispatch(w, p, k);
    TakenFoot(w, o);
    OwnReturnFoot(Taken(w), p, body, o, k);
    FootTrans(w, Taken(w), r, o, true);
    FineEnding(w, p, body, k);
    TracedOnward(w, r, p, origin, k);
  }

  lemma FineEnding(w: World, p: Pid, body: Body, k: Track)
    requires Inv(w, {}, {}, k) && IsNext(w, p) && !RunNext(w, body).1.RaisedOut? && FailureOf(Taken(w), p, body).None?
    ensures !IsFailed(RunNext(w, body).0, p)
  {
    hide Inv, RunNext, EvaluateWaiting, Taken, RunOps, Begin, SetUsage, UsageOf, MemoryOf, CheckpointsOf;
    if body.end.WaitsFor? {
      WaitParks(w, p, body, k);
    } else {
      ReturnCompletes(w, p, body, k);
    }
  }

  lemma TracedOnward(w: World, r: World, p: Pid, origin: Origin, k: Track)
    requires Inv(w, {}, {}, k) && Traced(w, p, origin) && Foot(w, r, Observed(p, TimeReached(0), ""), true)
    requires !IsFailed(w, p) && !IsFailed(r, p)
    ensures Traced(r, p, origin)
  {
    KnownIsOld(w, p, k);
    FailCountSame(w.log, r.log, p, true);
    hide Inv, EntryOk, PriorityOf, FailCount, MemoryOf, UsageOf, Retries;
  }

  lemma SuperviseSched(w: World, p: Pid)
    requires p in w.table
    ensures Supervise(w, p).sched == if Revivable(w, p) then Enqueue(w.sched, p, 0, {}) else w.sched
    ensures !Revivable(w, p) ==> Supervise(w, p) == w
  {
    hide Enqueue, CapabilitiesFor, RecordRetry, UsageOf;
    SchedUntouched(w, p);
  }

  lemma SchedUntouched(w: World, p: Pid)
    ensures forall r: World :: RecordRetry(r, p).sched == r.sched
  {}

  /** Taken back, a process is queued with the default priority. */
  lemma DefaultPriority(s: Sched, p: Pid)
    requires !Queued(s, p) && !Waits(s, p)
    ensures var r := Enqueue(s, p, 0, {}); PriorityOf(r, p) == 0 && EntryOk(r, p)
  {
    var s1 := s.(priorities := s.priorities[p := 0]);
    assert EntryOk(s1, p);
    hide EntryOk, Queued, Waits;
    AddEntries(s1, p, 0, p);
  }

  lemma BusyIsNowhere(w: World, p: Pid, k: Track)
    requires Inv(w, {p}, {}, k) && p in w.table
    ensures !Queued(w.sched, p) && !Waits(w.sched, p)
  {
    assert Consistent(w, {p});
    hide Inv;
    assert Placed(w.table[p], p, w.sched, w.svc.mail.Keys, w.svc.caps, {p});
  }

  /** The announcement of a failure counts it and changes nothing else of this. */
  lemma AnnounceCounts(w: World, p: Pid)
    requires p in w.table && p < w.unused
    ensures var r := Announce(w, p, Failed, ProcessFailed(p));
      && FailCount(r.log, p) == FailCount(w.log, p) + 1
      && PriorityOf(r.sched, p) == PriorityOf(w.sched, p) && (EntryOk(w.sched, p) ==> EntryOk(r.sched, p))
  {
    hide Foot, OnTerminal, SetState, EntryOk, PriorityOf, FailCount;
    var o := Observed(p, TimeReached(0), "");
    var w0 := Emit(SetState(w, p, Failed), ProcessFailed(p));
    SetKeepsSched(w, p);
    OneMoreFailure(w.log, p);
    OnTerminalFoot(w0, p, o, false);
    FootGives(w0, OnTerminal(w0, p), o);
  }

  lemma SetKeepsSched(w: World, p: Pid)
    ensures var r := SetState(w, p, Failed); r.sched == w.sched && r.log == w.log && r.unused == w.unused
  {}

  lemma FootGives(w: World, r: World, o: Observed)
    requires Foot(w, r, o, false)
    ensures FailCount(r.log, o.pid) == FailCount(w.log, o.pid)
    ensures o.pid < w.unused ==>
      PriorityOf(r.sched, o.pid) == PriorityOf(w.sched, o.pid) && (EntryOk(w.sched, o.pid) ==> EntryOk(r.sched, o.pid))
  {
    FailCountSame(w.log, r.log, o.pid, false);
    hide EntryOk, PriorityOf, FailCount, MemoryOf, CheckpointsOf, UsageOf, Retries, Parked;
  }

  lemma SuperviseCounts(w: World, p: Pid)
    ensures FailCount(Supervise(w, p).log, p) == FailCount(w.log, p)
  {
    hide Enqueue, CapabilitiesFor, Decide, UsageOf, MemoryOf;
    var more := [CheckpointRestored(p)];
    LogMore(w.log, more, p, false);
    LogSame(w.log, p, false);
    FailCountSame(w.log, w.log + more, p, false);
  }

  lemma TaskFailsTouches(w: World, p: Pid)
    ensures var r := TaskFails(w, p).0;
      r.sched == w.sched && r.svc == w.svc && r.table == w.table && FailCount(r.log, p) == FailCount(w.log, p)
  {
    hide TaskFails, Foot;
    var o := Observed(p, TimeReached(0), "");
    TaskFailsSched(w, p);
    TaskFailsServices(w, p);
    TaskFailsFoot(w, p, o, false);
    FootGives(w, TaskFails(w, p).0, o);
  }

  lemma CleanupTouches(w: World, p: Pid)
    ensures var r := Cleanup(w, p);
      && r.sched == w.sched && r.table == w.table && r.log == w.log
      && CheckpointsOf(r, p) == CheckpointsOf(w, p) && Retries(r, p) == Retries(w, p)
      && r.svc.supervisor == w.svc.supervisor
  {}

  /** The part of a failure after its announcement. */
  lemma RecoveryTraces(w: World, p: Pid, origin: Origin, k: Track)
    requires Inv(w, {p}, {}, k) && p in w.table && w.table[p].state == Failed && Recorded(w, p, origin)
    requires EntryOk(w.sched, p) && FailCount(w.log, p) > 0
    requires w.svc.supervisor.Some? ==>
      Retries(w, p) <= origin.definition.budget.maxRetries || CheckpointsOf(w, p) != []
    requires w.svc.supervisor.Some? && CheckpointsOf(w, p) == [] ==> FailCount(w.log, p) == Retries(w, p) + 1
    ensures Traced(Supervise(w, p), p, origin)
  {
    hide Inv, EntryOk, PriorityOf, FailCount, CheckpointsOf, Retries, Supervise, Enqueue, Queued, Waits, Revivable;
    BusyIsNowhere(w, p, k);
    var r := Supervise(w, p);
    SuperviseCounts(w, p);
    SuperviseSched(w, p);
    DefaultPriority(w.sched, p);
    RevivedWhen(w, p);
    SuperviseRecords(w, p);
  }

  /** What the supervisor changes in table and counts. */
  lemma SuperviseRecords(w: World, p: Pid)
    requires p in w.table
    ensures var r := Supervise(w, p);
      && p in r.table && r.table[p] == w.table[p].(state := if Revivable(w, p) then Ready else w.table[p].state)
      && CheckpointsOf(r, p) == CheckpointsOf(w, p) && (r.svc.supervisor.Some? <==> w.svc.supervisor.Some?)
      && Retries(r, p) == Retries(w, p) + (if Revivable(w, p) && CheckpointsOf(w, p) == [] then 1 else 0)
  {
    hide Enqueue, CapabilitiesFor, MemoryOf, UsageOf;
    RevivedWhen(w, p);
  }

  lemma FailureTraces(w: World, p: Pid, origin: Origin, k: Track)
    requires Inv(w, {p}, {}, k) && p in w.table && w.table[p].state == Running && Traced(w, p, origin)
    ensures Traced(FailProcess(w, p).0, p, origin)
  {
    hide Inv, Evolves, Announce, Supervise, TaskFails, Cleanup, FailProcess, EntryOk, PriorityOf, FailCount,
      CheckpointsOf, Retries, Logged;
    var w1 := Announce(w, p, Failed, ProcessFailed(p));
    InvBound(w, p, k);
    AnnounceStep(w, p, Failed, ProcessFailed(p), k);
    AnnounceCounts(w, p);
    SameService(w, w1, p);
    RecoveryTraces(w1, p, origin, k);
    var w2 := Supervise(w1, p);
    var w3 := TaskFails(w2, p).0;
    TaskFailsTouches(w2, p);
    SameService(w2, w3, p);
    CleanupTouches(w3, p);
    FailingIs(w, p);
    SameTrace(w2, w3, p, origin);
    SameTrace(w3, Cleanup(w3, p), p, origin);
  }

  lemma SameTrace(w: World, r: World, p: Pid, origin: Origin)
    requires Traced(w, p, origin) && r.sched == w.sched && r.table == w.table
      && FailCount(r.log, p) == FailCount(w.log, p)
    requires CheckpointsOf(r, p) == CheckpointsOf(w, p) && Retries(r, p) == Retries(w, p)
      && r.svc.supervisor == w.svc.supervisor
    ensures Traced(r, p, origin)
  {
    hide FailCount, CheckpointsOf, Retries, EntryOk, PriorityOf;
  }

  lemma TracedWhenFailing(w: World, body: Body, p: Pid, origin: Origin, k: Track)
    requires Inv(w, {}, {}, k) && Traced(w, p, origin) && IsNext(w, p) && !RunNext(w, body).1.RaisedOut?
    requires FailureOf(Taken(w), p, body).Some?
    ensures Traced(RunNext(w, body).0, p, origin)
  {
    hide Inv, RunNext, EvaluateWaiting, Taken, FailureOf, Foot, FailProcess, Traced, CheckpointsOf;
    NextIsAlive(w, p, k);
    FailingBody(w, p, body, k);
    var w1 := FailureOf(Taken(w), p, body).value;
    TracedOnward(w, w1, p, origin, k);
    FailureTraces(w1, p, origin, k);
  }

  lemma CallTraces(w: World, c: Call, p: Pid, origin: Origin, k: Track)
    requires Inv(w, {}, {}, k) && Sound(w, c) && Traced(w, p, origin)
    ensures Traced(Do(w, c).0, p, origin)
  {
    hide Inv, RunNext, EvaluateWaiting, Taken, FailureOf, Foot, Traced, Clean;
    if Do(w, c).1 {
    } else if c.CallRunNext? && IsNext(w, p) {
      if FailureOf(Taken(w), p, c.body).Some? {
        TracedWhenFailing(w, c.body, p, origin, k);
      } else {
        TracedWhenFine(w, c.body, p, origin, k);
      }
    } else {
      CallFoot(w, c, Observed(p, TimeReached(0), ""));
      TracedElsewhere(w, Do(w, c).0, p, origin, k);
    }
  }

  lemma {:induction false} RunTraces(w: World, calls: seq<Call>, p: Pid, origin: Origin, k: Track)
    requires Inv(w, {}, {}, k) && !k.replays && Runs.Returns(w, calls) && Traced(w, p, origin)
    ensures Traced(Runs.After(w, calls), p, origin)
    decreases calls
  {
    hide Inv, Evolves, Do, Sound, Later, Traced;
    if calls != [] {
      CallStep(w, calls[0], k);
      LaterIsSame(w, calls[0], k);
      CallTraces(w, calls[0], p, origin, k);
      RunTraces(Do(w, calls[0]).0, calls[1..], p, origin, k);
    }
  }

  // ------------------------------------------------------------------
  // From the spawn on
  // ------------------------------------------------------------------

  /** In every run nothing is recorded for an id that is still to be given out. */
  lemma UnusedIsBlank(supervised: bool, calls: seq<Call>, p: Pid)
    requires Runs.Returns(Boot(supervised), calls) && p >= Runs.After(Boot(supervised), calls).unused
    ensures var w := Runs.After(Boot(supervised), calls);
      && MemoryOf(w, p) == map[] && CheckpointsOf(w, p) == [] && UsageOf(w, p) == Usage(0, 0, 0.0, 0)
      && Retries(w, p) == 0
      && FailCount(w.log, p) == 0
  {
    hide Runs.After, Runs.Returns, Inv, Evolves, Foot, MemoryOf, UsageOf, CheckpointsOf, Retries, FailCount;
    var k := Track(None, false);
    BootInv(supervised, k);
    EveryRunKeepsInv(Boot(supervised), calls, k);
    var w := Runs.After(Boot(supervised), calls);
    NeverStarted(w, p, k);
    BootIsBlank(supervised, p);
    RunIsolates(Boot(supervised), calls, Observed(p, TimeReached(0), ""), k);
    BooksKept(Boot(supervised), w, p);
    FootGives(Boot(supervised), w, Observed(p, TimeReached(0), ""));
  }

  lemma BootIsBlank(supervised: bool, p: Pid)
    ensures var w := Boot(supervised);
      && MemoryOf(w, p) == map[] && CheckpointsOf(w, p) == [] && UsageOf(w, p) == Usage(0, 0, 0.0, 0)
      && Retries(w, p) == 0
      && FailCount(w.log, p) == 0 && w.log == []
  {}

  lemma NeverStarted(w: World, p: Pid, k: Track)
    requires Inv(w, {}, {}, k) && p >= w.unused
    ensures Unstarted(w.log, 0, p)
  {}

  lemma SpawnedIsTraced(w: World, d: Definition, goal: Option<GoalId>, priority: int, needs: set<Pid>, k: Track)
    requires Inv(w, {}, {}, k)
    requires CheckpointsOf(w, w.unused) == [] && Retries(w, w.unused) == 0 && FailCount(w.log, w.unused) == 0
    ensures Traced(Spawn(w, d, goal, priority, needs), w.unused, Origin(d, goal, priority))
  {
    hide Inv, FailCount, Enqueue, CapabilitiesFor, EntryOk, PriorityOf;
    var p := w.unused;
    var r := Spawn(w, d, goal, priority, needs);
    var more := [ProcessCreated(p), ProcessReady(p)];
    LogMore(w.log, more, p, false);
    FailCountSame(w.log, w.log + more, p, false);
    NewIsNowhere(w, k);
    FirstPriority(w.sched, p, priority, needs);
    assert r.table[p].state == Ready;
  }

  lemma NewIsNowhere(w: World, k: Track)
    requires Inv(w, {}, {}, k)
    ensures !Queued(w.sched, w.unused) && !Waits(w.sched, w.unused)
  {}

  lemma FirstPriority(s: Sched, p: Pid, priority: int, needs: set<Pid>)
    requires !Queued(s, p) && !Waits(s, p)
    ensures var r := Enqueue(s, p, priority, needs); PriorityOf(r, p) == priority && EntryOk(r, p)
  {
    var s1 := s.(priorities := s.priorities[p := priority]);
    assert EntryOk(s1, p);
    hide EntryOk, Queued, Waits;
    if needs == {} {
      AddEntries(s1, p, priority, p);
    } else {
      SameEntries(s1, s1.(pending := PutDependent(s1.pending, p, needs)), p);
    }
  }

  lemma SpawnTraces(supervised: bool, before: seq<Call>, d: Definition, goal: Option<GoalId>, priority: int,
      needs: set<Pid>, later: seq<Call>)
    requires Runs.Returns(Boot(supervised), before)
    requires Runs.Returns(Spawn(Runs.After(Boot(supervised), before), d, goal, priority, needs), later)
    ensures var w := Runs.After(Boot(supervised), before);
      var r := Runs.After(Spawn(w, d, goal, priority, needs), later);
      && Traced(r, w.unused, Origin(d, goal, priority)) && Inv(r, {}, {}, Track(None, false))
      && (r.svc.supervisor.Some? <==> supervised)
  {
    hide Runs.After, Runs.Returns, Inv, Evolves, Spawn, Traced, MemoryOf, UsageOf, CheckpointsOf, Retries, FailCount;
    var k := Track(None, false);
    BootInv(supervised, k);
    EveryRunKeepsInv(Boot(supervised), before, k);
    var w := Runs.After(Boot(supervised), before);
    var w1 := Spawn(w, d, goal, priority, needs);
    UnusedIsBlank(supervised, before, w.unused);
    SpawnedIsTraced(w, d, goal, priority, needs, k);
    SpawnStep(w, d, goal, priority, needs, {}, {}, k);
    RunTraces(w1, later, w.unused, Origin(d, goal, priority), k);
    EveryRunKeepsInv(w1, later, k);
    StillSupervised(Boot(supervised), w);
    StillSupervised(w, w1);
    StillSupervised(w1, Runs.After(w1, later));
  }

  /** In every run a process keeps the definition and goal it was spawned with, and the budget of the
      definition. */
  lemma RecordIsKept(supervised: bool, before: seq<Call>, d: Definition, goal: Option<GoalId>, priority: int,
      needs: set<Pid>, later: seq<Call>)
    requires Runs.Returns(Boot(supervised), before)
    requires Runs.Returns(Spawn(Runs.After(Boot(supervised), before), d, goal, priority, needs), later)
    ensures var p := Runs.After(Boot(supervised), before).unused;
      var r := Runs.After(Spawn(Runs.After(Boot(supervised), before), d, goal, priority, needs), later);
      p in r.table && r.table[p].definition == d && r.table[p].budget == d.budget && r.table[p].goal == goal
  {
    hide Runs.After, Runs.Returns, Inv, Spawn, Ranked, Tallied;
    SpawnTraces(supervised, before, d, goal, priority, needs, later);
  }

  /** In every run a queued process has the priority it was spawned with until it first fails, also
      after waits and dependencies; taken back by the supervisor it has priority 0. */
  lemma QueuedWithSpawnPriority(supervised: bool, before: seq<Call>, d: Definition, goal: Option<GoalId>, priority: int,
      needs: set<Pid>, later: seq<Call>, e: Entry)
    requires Runs.Returns(Boot(supervised), before)
    requires Runs.Returns(Spawn(Runs.After(Boot(supervised), before), d, goal, priority, needs), later)
    requires var w := Runs.After(Boot(supervised), before);
      e in Runs.After(Spawn(w, d, goal, priority, needs), later).sched.queue && e.pid == w.unused
    ensures var w := Runs.After(Boot(supervised), before);
      var r := Runs.After(Spawn(w, d, goal, priority, needs), later);
      e.priority == if ProcessFailed(e.pid) in r.log then 0 else priority
  {
    hide Runs.After, Runs.Returns, Inv, Spawn, PriorityOf, FailCount, Tallied;
    SpawnTraces(supervised, before, d, goal, priority, needs, later);
    var w := Runs.After(Boot(supervised), before);
    var r := Runs.After(Spawn(w, d, goal, priority, needs), later);
    FailuresAreLogged(r.log, e.pid);
    QueuedIsAlive(r, e, Track(None, false));
  }

  lemma QueuedIsAlive(w: World, e: Entry, k: Track)
    requires Inv(w, {}, {}, k) && e in w.sched.queue
    ensures !IsFailed(w, e.pid)
  {
    assert Consistent(w, {}) && Queued(w.sched, e.pid);
    hide Inv;
    assert e.pid in w.table ==> Placed(w.table[e.pid], e.pid, w.sched, w.svc.mail.Keys, w.svc.caps, {});
  }

  lemma {:induction false} FailuresAreLogged(log: seq<Event>, p: Pid)
    ensures FailCount(log, p) > 0 <==> ProcessFailed(p) in log
  {
    if log != [] {
      FailuresAreLogged(log[..|log| - 1], p);
      assert log == log[..|log| - 1] + [log[|log| - 1]];
    }
  }

  /** In every supervised run a process is FAILED if and only if it has no checkpoint and has failed
      `max_retries + 1` times; with a checkpoint it is always taken back. */
  lemma FailedExactlyWhen(before: seq<Call>, d: Definition, goal: Option<GoalId>, priority: int, needs: set<Pid>,
      later: seq<Call>)
    requires Runs.Returns(Boot(true), before)
    requires Runs.Returns(Spawn(Runs.After(Boot(true), before), d, goal, priority, needs), later)
    ensures var w := Runs.After(Boot(true), before);
      var r := Runs.After(Spawn(w, d, goal, priority, needs), later);
      var p := w.unused;
      && p in r.table
      && (r.table[p].state == Failed <==> CheckpointsOf(r, p) == [] && FailCount(r.log, p) == d.budget.maxRetries + 1)
      && (CheckpointsOf(r, p) == [] ==> FailCount(r.log, p) <= d.budget.maxRetries + 1)
  {
    hide Runs.After, Runs.Returns, Inv, Spawn, PriorityOf, FailCount, Ranked, Retries, CheckpointsOf;
    SpawnTraces(true, before, d, goal, priority, needs, later);
  }

  /** The process that `run_next` dispatches has at least the priority of every queued one. */
  lemma NextHasHighestPriority(w: World, p: Pid, e: Entry, k: Track)
    requires Inv(w, {}, {}, k) && IsNext(w, p) && e in EvaluateWaiting(w).sched.queue
    ensures var first := EvaluateWaiting(w).sched.queue[0];
      first.pid == p && first.priority >= e.priority && (first.priority == e.priority ==> first.order <= e.order)
  {
    EvaluateStep(w, {}, k);
    SchedIsSorted(EvaluateWaiting(w), k);
    hide Inv, EvaluateWaiting;
    var q := EvaluateWaiting(w).sched.queue;
    var i :| 0 <= i < |q| && q[i] == e;
    assert i > 0 ==> Before(q[0], q[i]);
  }

  lemma SchedIsSorted(w: World, k: Track)
    requires Inv(w, {}, {}, k)
    ensures Sorted(w.sched.queue)
  {}
}
