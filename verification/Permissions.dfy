/** What a process may do: the capabilities it gets, what each operation demands, and that a process
    without the permission to remember never has any memory. */
module Permissions {
  import opened Common
  import opened Heap
  import opened States
  import opened SchedulerModel
  import opened KernelModel
  import opened Correspondence
  import opened History
  import opened KernelRuns
  import opened Runs
  import opened Isolation
  import opened Dispatching
  import opened Recovery

  /** Every process may use shared state, events and messages. */
  predicate EveryoneMay(c: string) {
    c == "state.read" || c == "state.write" || c == "event.publish" || c == "event.subscribe" || c == "message.send"
  }

  /** What else there is to ask for. */
  predicate CanBeAskedFor(c: string) {
    || c == "memory.read" || c == "memory.write" || c == "process.create" || c == "process.terminate"
    || c == "process.inspect" || c == "filesystem.read" || c == "filesystem.write" || c == "artifact.read"
    || c == "artifact.write" || c == "tool.python" || c == "tool.shell" || c == "tool.browser" || c == "tool.llm"
    || c == "tool.database" || c == "kernel.admin" || c == "checkpoint.create" || c == "checkpoint.restore"
  }

  /** A live process of any run has exactly what everyone may do and what its definition asks for, of
      the capabilities there are; an unknown permission gives nothing. */
  lemma GrantedExactly(supervised: bool, calls: seq<Call>, p: Pid, c: string)
    requires Runs.Returns(Boot(supervised), calls)
    requires p in Runs.After(Boot(supervised), calls).table
      && !Runs.After(Boot(supervised), calls).table[p].state.IsFinished()
    ensures var w := Runs.After(Boot(supervised), calls);
      && p in w.svc.caps
      && (c in w.svc.caps[p] <==> EveryoneMay(c) || (CanBeAskedFor(c) && c in w.table[p].definition.permissions))
  {
    hide Runs.After, Runs.Returns;
    ProcessesMatchServices(supervised, calls, p);
    CapabilitiesMean(Runs.After(Boot(supervised), calls).table[p].definition, c);
  }

  lemma CapabilitiesMean(d: Definition, c: string)
    ensures c in CapabilitiesFor(d) <==> EveryoneMay(c) || (CanBeAskedFor(c) && c in d.permissions)
  {}

  predicate Has(w: World, p: Pid, c: string) {
    p in w.svc.caps && c in w.svc.caps[p]
  }

  /** An operation goes through if and only if the process has the capability it demands, and there is
      a mailbox to send to; a refused one changes nothing. */
  lemma OperationAllowedExactlyWhen(w: World, p: Pid, op: BodyOp)
    requires p in w.table
    ensures RunOp(w, p, op).1 <==>
      match op
      case WriteState(_, _) => Has(w, p, "state.write")
      case EraseState(_) => Has(w, p, "state.write")
      case SendTo(to, _) => Has(w, p, "message.send") && to in w.svc.mail
      case TakeMessage => true
      case Remember(_, _) => Has(w, p, "memory.write")
      case UseTool(c, _, _) => Has(w, p, c)
      case SpawnChild(_, _) => Has(w, p, "process.create")
      case SaveCheckpoint => Has(w, p, "checkpoint.create")
    ensures !RunOp(w, p, op).1 ==> RunOp(w, p, op).0 == w
  {
    hide EvaluateWaiting, PutState, DeleteState, Spawn, TakeCheckpoint;
  }

  // ------------------------------------------------------------------
  // A process that may not remember
  // ------------------------------------------------------------------

  /** It has no memory, and neither has any of its checkpoints. */
  ghost predicate Blank(w: World, p: Pid) {
    && p in w.table && "memory.write" !in w.table[p].definition.permissions
    && MemoryOf(w, p) == map[] && forall c :: c in CheckpointsOf(w, p) ==> c.memory == map[]
  }

  lemma SameBlank(w: World, r: World, p: Pid)
    requires Blank(w, p) && p in r.table && r.table[p].definition == w.table[p].definition
    requires MemoryOf(r, p) == MemoryOf(w, p) && CheckpointsOf(r, p) == CheckpointsOf(w, p)
    ensures Blank(r, p)
  {
    hide MemoryOf, CheckpointsOf;
  }

  /** The same, while it runs. */
  ghost predicate BlankAndBound(w: World, p: Pid) {
    Blank(w, p) && p < w.unused && !Has(w, p, "memory.write")
  }

  lemma TakingIsBlank(w: World, p: Pid)
    requires Blank(w, p)
    ensures Blank(TakeCheckpoint(w, p), p)
  {}

  lemma OpKeepsBlank(w: World, p: Pid, op: BodyOp)
    requires BlankAndBound(w, p)
    ensures BlankAndBound(RunOp(w, p, op).0, p)
  {
    hide MemoryOf, CheckpointsOf;
    var r := RunOp(w, p, op).0;
    OpRecords(w, p, op);
    OpCaps(w, p, op);
    OpKeepsMemory(w, p, op);
    if op.SaveCheckpoint? {
      TakingIsBlank(w, p);
    } else {
      SameBlank(w, r, p);
    }
  }

  lemma OpRecords(w: World, p: Pid, op: BodyOp)
    requires p in w.table && p < w.unused
    ensures var r := RunOp(w, p, op).0; p in r.table && r.table[p].definition == w.table[p].definition && p < r.unused
  {
    hide Foot;
    RunOpFoot(w, p, op, Observed(p, TimeReached(0), ""));
    FootRecord(w, RunOp(w, p, op).0, Observed(p, TimeReached(0), ""), true);
  }

  lemma FootRecord(w: World, r: World, o: Observed, own: bool)
    requires Foot(w, r, o, own) && o.pid in w.table && o.pid < w.unused
    ensures o.pid in r.table && r.table[o.pid].definition == w.table[o.pid].definition && o.pid < r.unused
    ensures !own ==> MemoryOf(r, o.pid) == MemoryOf(w, o.pid) && CheckpointsOf(r, o.pid) == CheckpointsOf(w, o.pid)
  {
    hide MemoryOf, CheckpointsOf, UsageOf, PriorityOf, EntryOk, Parked, Retries, LogFoot;
  }

  lemma OpCaps(w: World, p: Pid, op: BodyOp)
    requires p < w.unused
    ensures var r := RunOp(w, p, op).0;
      (p in r.svc.caps <==> p in w.svc.caps) && (p in w.svc.caps ==> r.svc.caps[p] == w.svc.caps[p])
  {
    hide EvaluateWaiting, Permitted, Enqueue, CapabilitiesFor;
  }

  /** Only remembering changes memory. */
  lemma OpKeepsMemory(w: World, p: Pid, op: BodyOp)
    ensures var r := RunOp(w, p, op).0;
      && (op.Remember? && !Has(w, p, "memory.write") ==> r == w)
      && (!op.Remember? ==> MemoryOf(r, p) == MemoryOf(w, p))
      && (!op.SaveCheckpoint? ==> CheckpointsOf(r, p) == CheckpointsOf(w, p))
  {
    hide EvaluateWaiting, Enqueue, CapabilitiesFor;
    OpCheckpoints(w, p, op);
  }

  lemma {:induction false} OpsKeepBlank(w: World, p: Pid, ops: seq<BodyOp>)
    requires BlankAndBound(w, p)
    ensures BlankAndBound(RunOps(w, p, ops).0, p)
    decreases ops
  {
    hide RunOp, BlankAndBound;
    if ops != [] {
      OpKeepsBlank(w, p, ops[0]);
      OpsKeepBlank(RunOp(w, p, ops[0]).0, p, ops[1..]);
    }
  }

  /** Bound by its capabilities, since those are what its definition asks for. */
  lemma RunningIsBound(w: World, p: Pid, k: Track)
    requires Inv(w, {p}, {}, k) && Blank(w, p)
    ensures BlankAndBound(w, p)
  {
    assert Consistent(w, {p});
    assert Placed(w.table[p], p, w.sched, w.svc.mail.Keys, w.svc.caps, {p});
    InvBound(w, p, k);
    CapabilitiesMean(w.table[p].definition, "memory.write");
    hide Inv, CapabilitiesFor, Blank;
  }

  lemma BeginBlank(w: World, p: Pid)
    requires Blank(w, p)
    ensures Blank(Begin(w, p), p)
  {}

  lemma UsedBlank(w: World, p: Pid, u: Usage)
    requires Blank(w, p)
    ensures Blank(SetUsage(w, p, u), p)
  {}

  lemma BodyKeepsBlank(w: World, p: Pid, ops: seq<BodyOp>, k: Track)
    requires Inv(w, {p}, {}, k) && p in w.table && w.table[p].state == Ready && Blank(w, p)
    ensures Blank(RunOps(Begin(w, p), p, ops).0, p)
  {
    hide Inv, Evolves, Begin, RunOps, Blank;
    BeginStep(w, p, k);
    BeginBlank(w, p);
    RunningIsBound(Begin(w, p), p, k);
    OpsKeepBlank(Begin(w, p), p, ops);
  }

  lemma ParkBlank(w: World, p: Pid, c: Condition)
    requires Blank(w, p)
    ensures Blank(Park(w, p, c), p)
  {
    hide MarkWaiting, TakeCheckpoint, MemoryOf, CheckpointsOf;
    TakingIsBlank(w, p);
    ParkedServices(w, p, c);
    var t := TakeCheckpoint(w, p);
    assert Park(w, p, c).table == t.table[p := t.table[p].(state := Waiting)];
    SameBlank(t, Park(w, p, c), p);
  }

  lemma AnnounceBlank(w: World, p: Pid, s: ProcessState, e: Event, k: Track)
    requires Inv(w, {p}, {}, k) && p in w.table && w.table[p].state == Running && Blank(w, p)
    requires (s == Completed && e == ProcessCompleted(p)) || (s == Failed && e == ProcessFailed(p))
    ensures Blank(Announce(w, p, s, e), p)
  {
    hide Inv, Evolves, Announce, Logged, MemoryOf, CheckpointsOf;
    AnnounceStep(w, p, s, e, k);
    SameService(w, Announce(w, p, s, e), p);
    SameBlank(w, Announce(w, p, s, e), p);
  }

  lemma CleanupBlank(w: World, p: Pid)
    requires Blank(w, p)
    ensures Blank(Cleanup(w, p), p)
  {}

  lemma FinishBlank(w: World, p: Pid, k: Track)
    requires Inv(w, {p}, {}, k) && p in w.table && w.table[p].state == Running && Blank(w, p)
      && !Finish(w, p).1.RaisedOut?
    ensures Blank(Finish(w, p).0, p)
  {
    hide Inv, Evolves, Announce, TaskCompletes, Cleanup, FailProcess, Finish, Blank, Foot, Logged;
    var o := Observed(p, TimeReached(0), "");
    var w1 := Announce(w, p, Completed, ProcessCompleted(p));
    FinishCases(w, p);
    AnnounceStep(w, p, Completed, ProcessCompleted(p), k);
    AnnounceBlank(w, p, Completed, ProcessCompleted(p), k);
    CompletedCannotFail(w1, p, k);
    InvBound(w1, p, k);
    var w2 := TaskCompletes(w1, p).0;
    TaskCompletesFoot(w1, p, o, false);
    FootBlank(w1, w2, o);
    CleanupBlank(w2, p);
  }

  lemma FootBlank(w: World, r: World, o: Observed)
    requires Foot(w, r, o, false) && o.pid < w.unused && Blank(w, o.pid)
    ensures Blank(r, o.pid)
  {
    hide Foot, MemoryOf, CheckpointsOf;
    FootRecord(w, r, o, false);
    SameBlank(w, r, o.pid);
  }

  lemma SuperviseBlank(w: World, p: Pid)
    requires Blank(w, p)
    ensures Blank(Supervise(w, p), p)
  {
    if w.svc.supervisor.Some? {
      if CheckpointsOf(w, p) == [] {
        SuperviseRetriesWithinBudget(w, p);
      } else {
        var cs := CheckpointsOf(w, p);
        assert cs == cs[..|cs| - 1] + [cs[|cs| - 1]] && cs[|cs| - 1] in cs;
        SuperviseRestoresLatest(w, p, cs[..|cs| - 1], cs[|cs| - 1]);
        NothingRestored(MemoryOf(Supervise(w, p), p), MemoryOf(w, p), cs[|cs| - 1].memory);
      }
      SuperviseDefinition(w, p);
    }
    hide Supervise, MemoryOf, CheckpointsOf, Retries, UsageOf;
  }

  lemma NothingRestored(after: map<string, Value>, before: map<string, Value>, saved: map<string, Value>)
    requires before == map[] && saved == map[]
    requires forall key :: key !in saved ==> (key in after <==> key in before)
    ensures after == map[]
  {}

  lemma SuperviseDefinition(w: World, p: Pid)
    requires p in w.table
    ensures p in Supervise(w, p).table && Supervise(w, p).table[p].definition == w.table[p].definition
  {
    hide Enqueue, CapabilitiesFor;
  }

  lemma FailureBlank(w: World, p: Pid, k: Track)
    requires Inv(w, {p}, {}, k) && p in w.table && w.table[p].state == Running && Blank(w, p)
    ensures Blank(FailProcess(w, p).0, p)
  {
    hide Inv, Evolves, Announce, Supervise, TaskFails, Cleanup, FailProcess, Blank, Logged;
    var w1 := Announce(w, p, Failed, ProcessFailed(p));
    AnnounceBlank(w, p, Failed, ProcessFailed(p), k);
    SuperviseBlank(w1, p);
    var w2 := Supervise(w1, p);
    var w3 := TaskFails(w2, p).0;
    TaskFailsServices(w2, p);
    SameServiceBlank(w2, w3, p);
    CleanupBlank(w3, p);
    FailingIs(w, p);
  }

  lemma SameServiceBlank(w: World, r: World, p: Pid)
    requires Blank(w, p) && r.svc == w.svc && r.table == w.table
    ensures Blank(r, p)
  {}

  lemma FailureOfBlank(w: World, p: Pid, body: Body, k: Track)
    requires Inv(w, {p}, {}, k) && p in w.table && w.table[p].state == Ready && Blank(w, p)
      && FailureOf(w, p, body).Some?
    ensures Blank(FailureOf(w, p, body).value, p)
  {
    hide Inv, RunOps, Begin, Blank, SetUsage, UsageOf;
    BodyKeepsBlank(w, p, body.ops, k);
    var w1 := RunOps(Begin(w, p), p, body.ops).0;
    UsedBlank(w1, p, UsageOf(w1, p));
  }

  lemma DispatchKeepsBlank(w: World, body: Body, p: Pid, k: Track)
    requires Inv(w, {}, {}, k) && IsNext(w, p) && !RunNext(w, body).1.RaisedOut? && Blank(w, p)
    ensures Blank(RunNext(w, body).0, p)
  {
    hide Inv, Evolves, RunNext, EvaluateWaiting, Taken, FailureOf, Foot, Blank, Execute, FailProcess, RunOps, Begin;
    TakenBlank(w, p, k);
    NextDispatch(w, p, k);
    if FailureOf(Taken(w), p, body).Some? {
      FailingBody(w, p, body, k);
      FailureOfBlank(Taken(w), p, body, k);
      FailureBlank(FailureOf(Taken(w), p, body).value, p, k);
    } else {
      NextBody(w, p, body, k);
      FineBlank(Taken(w), p, body, k);
    }
  }

  lemma TakenBlank(w: World, p: Pid, k: Track)
    requires Inv(w, {}, {}, k) && IsNext(w, p) && Blank(w, p)
    ensures Blank(Taken(w), p)
  {
    hide Inv, EvaluateWaiting, TakeNext, MemoryOf, CheckpointsOf, UsageOf;
    NextRecord(w, p, k);
    SameBlank(w, Taken(w), p);
  }

  lemma FineBlank(w: World, p: Pid, body: Body, k: Track)
    requires Inv(w, {p}, {}, k) && p in w.table && w.table[p].state == Ready && Blank(w, p)
    requires FailureOf(w, p, body).None? && !Execute(w, p, body).1.RaisedOut?
    ensures Blank(Execute(w, p, body).0, p)
  {
    hide Inv, Evolves, Begin, RunOps, Park, Finish, FailProcess, SetUsage, UsageOf, Blank;
    var w1 := RunOps(Begin(w, p), p, body.ops).0;
    BodyKeepsBlank(w, p, body.ops, k);
    if body.end.WaitsFor? {
      ParkBlank(w1, p, body.end.condition);
    } else {
      BodyRuns(w, p, body.ops, k);
      UsedStep(w1, p, k);
      UsedBlank(w1, p, UsageOf(w1, p));
      FinishBlank(SetUsage(w1, p, UsageOf(w1, p)), p, k);
    }
  }

  lemma CallKeepsBlank(w: World, c: Call, p: Pid, k: Track)
    requires Inv(w, {}, {}, k) && Sound(w, c) && Blank(w, p)
    ensures Blank(Do(w, c).0, p)
  {
    hide Inv, RunNext, EvaluateWaiting, Foot, Blank, Clean;
    if !Do(w, c).1 {
      if c.CallRunNext? && IsNext(w, p) {
        DispatchKeepsBlank(w, c.body, p, k);
      } else {
        CallFoot(w, c, Observed(p, TimeReached(0), ""));
        BlankIsKnown(w, p);
        KnownIsOld(w, p, k);
        FootBlank(w, Do(w, c).0, Observed(p, TimeReached(0), ""));
      }
    }
  }

  lemma BlankIsKnown(w: World, p: Pid)
    requires Blank(w, p)
    ensures p in w.table
  {}

  lemma {:induction false} RunKeepsBlank(w: World, calls: seq<Call>, p: Pid, k: Track)
    requires Inv(w, {}, {}, k) && !k.replays && Runs.Returns(w, calls) && Blank(w, p)
    ensures Blank(Runs.After(w, calls), p)
    decreases calls
  {
    hide Inv, Evolves, Do, Sound, Later, Blank;
    if calls != [] {
      CallStep(w, calls[0], k);
      LaterIsSame(w, calls[0], k);
      CallKeepsBlank(w, calls[0], p, k);
      RunKeepsBlank(Do(w, calls[0]).0, calls[1..], p, k);
    }
  }

  lemma SpawnedIsBlank(w: World, d: Definition, goal: Option<GoalId>, priority: int, needs: set<Pid>)
    requires "memory.write" !in d.permissions && MemoryOf(w, w.unused) == map[] && CheckpointsOf(w, w.unused) == []
    ensures Blank(Spawn(w, d, goal, priority, needs), w.unused)
  {
    hide Enqueue, CapabilitiesFor;
  }

  /** In every run, supervised or not, a process whose definition does not ask for "memory.write" never
      has any memory, whatever its bodies try. */
  lemma NeverRemembers(supervised: bool, before: seq<Call>, d: Definition, goal: Option<GoalId>, priority: int,
      needs: set<Pid>,
      later: seq<Call>)
    requires "memory.write" !in d.permissions && Runs.Returns(Boot(supervised), before)
    requires Runs.Returns(Spawn(Runs.After(Boot(supervised), before), d, goal, priority, needs), later)
    ensures var w := Runs.After(Boot(supervised), before);
      MemoryOf(Runs.After(Spawn(w, d, goal, priority, needs), later), w.unused) == map[]
  {
    hide Runs.After, Runs.Returns, Inv, Evolves, Spawn, MemoryOf, UsageOf, CheckpointsOf, Retries, FailCount;
    var k := Track(None, false);
    BootInv(supervised, k);
    EveryRunKeepsInv(Boot(supervised), before, k);
    var w := Runs.After(Boot(supervised), before);
    UnusedIsBlank(supervised, before, w.unused);
    SpawnedIsBlank(w, d, goal, priority, needs);
    SpawnStep(w, d, goal, priority, needs, {}, {}, k);
    RunKeepsBlank(Spawn(w, d, goal, priority, needs), later, w.unused, k);
  }
}
