/** Who may change what: a process's memory, checkpoints, usage, capabilities and priority change
    only while it is being dispatched, and a process parked on a state key stays parked until
    the key is created. */
module Isolation {
  import opened Common
  import opened Heap
  import opened States
  import opened SchedulerModel
  import opened KernelModel
  import opened Correspondence
  import opened Replay
  import opened Gating
  import opened History
  import opened KernelRuns
  import opened PlanSafety
  import opened Runs

  /** A process that is watched, and a condition on a state key it may be parked on. */
  datatype Observed = Observed(pid: Pid, condition: Condition, key: string)

  /** The condition is that the key, or the approval recorded under it, exists. */
  predicate AwaitsKey(c: Condition, key: string) {
    c == KeyExists(key) || (c.Approved? && "approval:" + c.request == key)
  }

  ghost predicate KeyCreated(log: seq<Event>, from: nat, to: nat, key: string) {
    exists i :: from <= i < to <= |log| && log[i].StateCreated? && log[i].key == key
  }

  /** Every entry of the process has the priority of the scheduler's table. */
  ghost predicate EntryOk(s: Sched, p: Pid) {
    forall e :: e in s.queue && e.pid == p ==> e.priority == PriorityOf(s, p)
  }

  ghost predicate Parked(w: World, o: Observed) {
    AwaitsKey(o.condition, o.key) && Waiter(o.pid, o.condition) in w.sched.waiting && o.key !in w.store
  }

  /** How often the supervisor has retried the process. */
  function Retries(w: World, p: Pid): nat {
    if w.svc.supervisor.Some? then RetryCount(w.svc.supervisor.value, p) else 0
  }

  /** The process has its state still, or has been woken. */
  ghost predicate SameState(w: World, r: World, p: Pid) {
    p in w.table ==>
      && p in r.table
      && (r.table[p].state == w.table[p].state || (w.table[p].state in {Waiting, Blocked} && r.table[p].state == Ready))
  }

  /** What no step changes about a process, in its own dispatch or elsewhere. */
  ghost predicate SameRecord(w: World, r: World, p: Pid) {
    && PriorityOf(r.sched, p) == PriorityOf(w.sched, p) && (EntryOk(w.sched, p) ==> EntryOk(r.sched, p))
    && (p in w.table ==>
          && p in r.table && r.table[p].definition == w.table[p].definition
          && r.table[p].budget == w.table[p].budget && r.table[p].goal == w.table[p].goal)
  }

  /** What only the process's own dispatch changes. */
  ghost predicate SameOwn(w: World, r: World, p: Pid) {
    && SameState(w, r, p)
    && (p in r.svc.caps <==> p in w.svc.caps) && (p in w.svc.caps ==> r.svc.caps[p] == w.svc.caps[p])
  }

  /** What is recorded for the process, or for an id that is still to be given out. */
  ghost predicate SameBooks(w: World, r: World, p: Pid, own: bool) {
    && Retries(r, p) == Retries(w, p) && CheckpointsOf(w, p) <= CheckpointsOf(r, p)
    && (r.svc.supervisor.Some? <==> w.svc.supervisor.Some?)
    && (!own ==>
          MemoryOf(r, p) == MemoryOf(w, p) && CheckpointsOf(r, p) == CheckpointsOf(w, p)
            && UsageOf(r, p) == UsageOf(w, p))
  }

  /** The events of a step, as far as the process is concerned. */
  ghost predicate LogFoot(log: seq<Event>, log': seq<Event>, p: Pid, own: bool) {
    && log <= log'
    && forall i :: |log| <= i < |log'| ==> log'[i] != ProcessFailed(p) && (!own ==> log'[i] != ProcessStarted(p))
  }

  /** The footprint of a step on an observed process: in its own dispatch, or elsewhere. */
  ghost predicate Foot(w: World, r: World, o: Observed, own: bool) {
    && w.unused <= r.unused && LogFoot(w.log, r.log, o.pid, own) && SameBooks(w, r, o.pid, own)
    && (o.pid < w.unused ==> SameRecord(w, r, o.pid) && (!own ==> SameOwn(w, r, o.pid)))
    && (!own && Parked(w, o) ==> Parked(r, o) || KeyCreated(r.log, |w.log|, |r.log|, o.key))
  }

  lemma FootRefl(w: World, o: Observed, own: bool)
    ensures Foot(w, w, o, own)
  {}

  lemma FootTrans(a: World, b: World, c: World, o: Observed, own: bool)
    requires Foot(a, b, o, own) && Foot(b, c, o, own)
    ensures Foot(a, c, o, own)
  {
    hide MemoryOf, CheckpointsOf, UsageOf, PriorityOf, EntryOk, Parked;
    LogTrans(a.log, b.log, c.log, o.pid, own);
    CreatedTrans(a.log, b.log, c.log, o.key);
  }

  lemma LogTrans(a: seq<Event>, b: seq<Event>, c: seq<Event>, p: Pid, own: bool)
    requires LogFoot(a, b, p, own) && LogFoot(b, c, p, own)
    ensures LogFoot(a, c, p, own)
  {
    forall i | |a| <= i < |c| ensures c[i] != ProcessFailed(p) && (!own ==> c[i] != ProcessStarted(p)) {
      if i < |b| {
        assert c[i] == b[i];
      }
    }
  }

  lemma CreatedTrans(a: seq<Event>, b: seq<Event>, c: seq<Event>, key: string)
    requires a <= b <= c
    ensures KeyCreated(b, |a|, |b|, key) || KeyCreated(c, |b|, |c|, key) ==> KeyCreated(c, |a|, |c|, key)
  {
    if KeyCreated(b, |a|, |b|, key) {
      var i :| |a| <= i < |b| && b[i].StateCreated? && b[i].key == key;
      assert c[i] == b[i];
    }
  }

  /** Elsewhere is weaker than nowhere: a step that leaves the process alone also counts as its own. */
  lemma FootOwn(w: World, r: World, o: Observed, own: bool)
    requires Foot(w, r, o, false)
    ensures Foot(w, r, o, own)
  {
    hide SameRecord, SameOwn, Parked;
  }

  // ------------------------------------------------------------------
  // Small steps
  // ------------------------------------------------------------------

  lemma LogMore(log: seq<Event>, more: seq<Event>, p: Pid, own: bool)
    requires forall e :: e in more ==> e != ProcessFailed(p) && (!own ==> e != ProcessStarted(p))
    ensures LogFoot(log, log + more, p, own)
  {
    forall i | |log| <= i < |log + more|
      ensures (log + more)[i] != ProcessFailed(p) && (!own ==> (log + more)[i] != ProcessStarted(p))
    {
      assert (log + more)[i] == more[i - |log|] && more[i - |log|] in more;
    }
  }

  lemma SilentFoot(log: seq<Event>, log': seq<Event>, p: Pid)
    requires GrowsSilently(log, log')
    ensures LogFoot(log, log', p, false)
  {}

  /** Steps outside table, scheduler, services and store. */
  lemma QuietFoot(w: World, r: World, o: Observed)
    requires r == w.(cog := r.cog, log := r.log) && GrowsSilently(w.log, r.log)
    ensures Foot(w, r, o, false)
  {
    SilentFoot(w.log, r.log, o.pid);
  }

  lemma {:induction false} AddAllEntries(s: Sched, ps: seq<Pid>, p: Pid)
    requires EntryOk(s, p)
    ensures EntryOk(AddAll(s, ps), p)
    decreases ps
  {
    hide EntryOk, Add;
    if ps != [] {
      AddEntries(s, ps[0], PriorityOf(s, ps[0]), p);
      AddAllEntries(Add(s, ps[0], PriorityOf(s, ps[0])), ps[1..], p);
    }
  }

  lemma AddEntries(s: Sched, q: Pid, priority: int, p: Pid)
    requires EntryOk(s, p) && (q == p ==> priority == PriorityOf(s, p))
    ensures EntryOk(Add(s, q, priority), p)
  {
    hide Queued, Waits;
    InsertElements(s.queue, Entry(priority, s.order + 1, q));
  }

  lemma SameEntries(s: Sched, s': Sched, p: Pid)
    requires PriorityOf(s', p) == PriorityOf(s, p) && forall e :: e in s'.queue ==> e in s.queue
    ensures EntryOk(s, p) ==> EntryOk(s', p)
  {}

  lemma EvaluateEntries(s: Sched, holds: set<Condition>, p: Pid)
    ensures PriorityOf(Evaluate(s, holds), p) == PriorityOf(s, p)
    ensures EntryOk(s, p) ==> EntryOk(Evaluate(s, holds), p)
  {
    hide AddAll, Unsatisfied, Satisfied;
    if EntryOk(s, p) {
      AddAllEntries(s.(waiting := Unsatisfied(s.waiting, holds)), Satisfied(s.waiting, holds), p);
    }
  }

  lemma NotifyEntries(s: Sched, done: Pid, p: Pid)
    ensures PriorityOf(Notify(s, done), p) == PriorityOf(s, p)
    ensures EntryOk(s, p) ==> EntryOk(Notify(s, done), p)
  {
    hide AddAll, Shrunk, Freed;
    if EntryOk(s, p) {
      AddAllEntries(s.(pending := Shrunk(s.pending, done)), Freed(s.pending, done), p);
    }
  }

  lemma EnqueueEntries(s: Sched, q: Pid, priority: int, needs: set<Pid>, p: Pid)
    requires q != p
    ensures PriorityOf(Enqueue(s, q, priority, needs), p) == PriorityOf(s, p)
    ensures EntryOk(s, p) ==> EntryOk(Enqueue(s, q, priority, needs), p)
  {
    hide Queued, Waits;
    var s1 := s.(priorities := s.priorities[q := priority]);
    if EntryOk(s, p) {
      assert EntryOk(s1, p);
      AddEntries(s1, q, priority, p);
    }
  }

  lemma EvaluateFoot(w: World, o: Observed, own: bool)
    ensures Foot(w, EvaluateWaiting(w), o, own)
  {
    hide EvaluateWaiting, Evaluate, PriorityOf, EntryOk, Parked, MemoryOf, CheckpointsOf, UsageOf, TrueNow, SameState;
    var r := EvaluateWaiting(w);
    EvaluateParts(w);
    var more := EvaluateWaitingLog(w);
    LogMore(w.log, more, o.pid, own);
    EvaluateEntries(w.sched, TrueNow(w), o.pid);
    if Parked(w, o) {
      StaysParked(w, o);
    }
    SameServices(w, r, o.pid);
  }

  lemma SameServices(w: World, r: World, p: Pid)
    requires r.svc == w.svc
    ensures MemoryOf(r, p) == MemoryOf(w, p) && CheckpointsOf(r, p) == CheckpointsOf(w, p)
      && UsageOf(r, p) == UsageOf(w, p)
  {}

  lemma EvaluateParts(w: World)
    ensures EvaluateWaiting(w).sched == Evaluate(w.sched, TrueNow(w))
    ensures forall p :: p in w.table ==>
      && p in EvaluateWaiting(w).table
      && EvaluateWaiting(w).table[p] == w.table[p].(state := EvaluateWaiting(w).table[p].state)
    ensures forall p :: SameState(w, EvaluateWaiting(w), p)
  {
    hide Evaluate, Satisfied, TrueNow;
    var holds := TrueNow(w);
    WakeAllRecords(w.(sched := Evaluate(w.sched, holds)), Satisfied(w.sched.waiting, holds));
    WakeAllTable(w.(sched := Evaluate(w.sched, holds)), Satisfied(w.sched.waiting, holds));
  }

  lemma {:induction false} WakeAllRecords(w: World, ps: seq<Pid>)
    ensures forall p :: p in w.table ==>
      p in WakeAll(w, ps).table && WakeAll(w, ps).table[p] == w.table[p].(state := WakeAll(w, ps).table[p].state)
    ensures WakeAll(w, ps).sched == w.sched
    decreases ps
  {
    if ps != [] {
      WakeAllRecords(Wake(w, ps[0]), ps[1..]);
    }
  }

  lemma StaysParked(w: World, o: Observed)
    requires Parked(w, o)
    ensures Parked(EvaluateWaiting(w), o)
  {
    hide Evaluate;
    EvaluateParts(w);
    EvaluatedWaiting(w.sched, TrueNow(w), Waiter(o.pid, o.condition));
    assert !Holds(w, o.condition);
    hide EvaluateWaiting;
  }

  lemma EvaluatedWaiting(s: Sched, holds: set<Condition>, x: Waiter)
    requires x in s.waiting && x.condition !in holds
    ensures x in Evaluate(s, holds).waiting
  {
    hide AddAll, Satisfied;
    StillUnsatisfied(s.waiting, holds, x);
  }

  lemma {:induction false} StillUnsatisfied(ws: seq<Waiter>, holds: set<Condition>, x: Waiter)
    requires x in ws && x.condition !in holds
    ensures x in Unsatisfied(ws, holds)
  {
    if x != ws[0] {
      StillUnsatisfied(ws[1..], holds, x);
    }
  }

  lemma {:induction false} OthersStayRegistered(ws: seq<Waiter>, q: Pid, c: Condition, x: Waiter)
    requires x in ws && x.pid != q
    ensures x in PutWaiter(ws, q, c)
  {
    if x != ws[0] {
      OthersStayRegistered(ws[1..], q, c, x);
    }
  }

  lemma SpawnFoot(w: World, d: Definition, goal: Option<GoalId>, priority: int, needs: set<Pid>, o: Observed, own: bool)
    ensures Foot(w, Spawn(w, d, goal, priority, needs), o, own)
  {
    hide Enqueue, CapabilitiesFor, PriorityOf, EntryOk;
    var r := Spawn(w, d, goal, priority, needs);
    LogMore(w.log, [ProcessCreated(w.unused), ProcessReady(w.unused)], o.pid, own);
    EnqueueKeepsWaiting(w.sched, w.unused, priority, needs);
    if o.pid < w.unused {
      EnqueueEntries(w.sched, w.unused, priority, needs, o.pid);
    }
  }

  lemma EnqueueKeepsWaiting(s: Sched, q: Pid, priority: int, needs: set<Pid>)
    ensures Enqueue(s, q, priority, needs).waiting == s.waiting
  {}

  // ------------------------------------------------------------------
  // Shared state, messages and bodies
  // ------------------------------------------------------------------

  lemma StoredFoot(w: World, key: string, value: Value, o: Observed, own: bool)
    requires key !in w.store || w.store[key] != value
    ensures var e := if key in w.store then StateChanged(key, value) else StateCreated(key, value);
      Foot(w, Emit(w.(store := w.store[key := value]), e), o, own)
  {
    hide PriorityOf, EntryOk;
    var e := if key in w.store then StateChanged(key, value) else StateCreated(key, value);
    LogMore(w.log, [e], o.pid, own);
    if Parked(w, o) && key == o.key {
      assert (w.log + [e])[|w.log|] == StateCreated(key, value);
    }
  }

  lemma PutStateFoot(w: World, key: string, value: Value, o: Observed, own: bool)
    ensures Foot(w, PutState(w, key, value), o, own)
  {
    hide Foot, EvaluateWaiting;
    FootRefl(w, o, own);
    if key !in w.store || w.store[key] != value {
      var e := if key in w.store then StateChanged(key, value) else StateCreated(key, value);
      var w1 := Emit(w.(store := w.store[key := value]), e);
      StoredFoot(w, key, value, o, own);
      EvaluateFoot(w1, o, own);
      FootTrans(w, w1, EvaluateWaiting(w1), o, own);
    }
  }

  lemma ErasedFoot(w: World, key: string, o: Observed, own: bool)
    ensures Foot(w, Emit(w.(store := w.store - {key}), StateDeleted(key)), o, own)
  {
    hide PriorityOf, EntryOk;
    LogMore(w.log, [StateDeleted(key)], o.pid, own);
  }

  lemma DeleteStateFoot(w: World, key: string, o: Observed, own: bool)
    ensures Foot(w, DeleteState(w, key), o, own)
  {
    hide Foot, EvaluateWaiting;
    FootRefl(w, o, own);
    if key in w.store {
      var w1 := Emit(w.(store := w.store - {key}), StateDeleted(key));
      ErasedFoot(w, key, o, own);
      EvaluateFoot(w1, o, own);
      FootTrans(w, w1, EvaluateWaiting(w1), o, own);
    }
  }

  /** Mailboxes and quiet events are nobody's own. */
  lemma MailFoot(w: World, r: World, o: Observed, own: bool)
    requires r == w.(svc := w.svc.(mail := r.svc.mail), log := r.log) && LogFoot(w.log, r.log, o.pid, own)
    ensures Foot(w, r, o, own)
  {
    hide PriorityOf, EntryOk, LogFoot;
  }

  lemma SendFoot(w: World, to: Pid, message: Value, o: Observed, own: bool)
    ensures Foot(w, Send(w, to, message).0, o, own)
  {
    hide Foot, EvaluateWaiting;
    FootRefl(w, o, own);
    if to in w.svc.mail {
      var w1 := Delivered(w, to, message);
      LogMore(w.log, [MessageReceived(to)], o.pid, own);
      MailFoot(w, w1, o, own);
      EvaluateFoot(w1, o, own);
      FootTrans(w, w1, EvaluateWaiting(w1), o, own);
    }
  }

  /** A change of what belongs to process `q`. */
  lemma PrivateFoot(w: World, r: World, q: Pid, o: Observed)
    requires r == w.(svc := w.svc.(memory := r.svc.memory, usage := r.svc.usage, checkpoints := r.svc.checkpoints),
      log := r.log)
    requires q != o.pid ==>
      MemoryOf(r, o.pid) == MemoryOf(w, o.pid) && CheckpointsOf(r, o.pid) == CheckpointsOf(w, o.pid)
        && UsageOf(r, o.pid) == UsageOf(w, o.pid)
    requires CheckpointsOf(w, o.pid) <= CheckpointsOf(r, o.pid) && LogFoot(w.log, r.log, o.pid, q == o.pid)
    ensures Foot(w, r, o, q == o.pid)
  {
    hide PriorityOf, EntryOk, LogFoot, MemoryOf, CheckpointsOf, UsageOf;
  }

  lemma LogSame(log: seq<Event>, p: Pid, own: bool)
    ensures LogFoot(log, log, p, own)
  {}

  lemma RunOpFoot(w: World, q: Pid, op: BodyOp, o: Observed)
    ensures Foot(w, RunOp(w, q, op).0, o, q == o.pid)
  {
    hide Foot, Permitted, PutState, DeleteState, Send, Spawn, LogFoot, MemoryOf, CheckpointsOf, UsageOf;
    var own := q == o.pid;
    FootRefl(w, o, own);
    LogSame(w.log, o.pid, own);
    match op {
      case WriteState(k, v) => PutStateFoot(w, k, v, o, own);
      case EraseState(k) => DeleteStateFoot(w, k, o, own);
      case SendTo(to, m) => SendFoot(w, to, m, o, own);
      case TakeMessage => MailFoot(w, Receive(w, q), o, own);
      case Remember(k, v) => RememberFoot(w, q, k, v, o);
      case UseTool(c, tokens, cost) =>
        var u := UsageOf(w, q);
        UsageFoot(w, q, u.(tokens := u.tokens + tokens, tools := u.tools + 1, cost := u.cost + cost), o);
      case SpawnChild(d, priority) =>
        if Permitted(w, q, "process.create") && q in w.table && d in w.registry {
          var w1 := Spawn(w, w.registry[d], w.table[q].goal, priority, {});
          SpawnFoot(w, w.registry[d], w.table[q].goal, priority, {}, o, own);
          UsageFoot(w1, q, UsageOf(w1, q).(tools := UsageOf(w1, q).tools + 1), o);
          FootTrans(w, w1, RunOp(w, q, op).0, o, own);
        }
      case SaveCheckpoint => CheckpointFoot(w, q, o);
    }
  }

  lemma UsageFoot(w: World, q: Pid, u: Usage, o: Observed)
    ensures Foot(w, SetUsage(w, q, u), o, q == o.pid)
  {
    hide Foot, LogFoot;
    LogSame(w.log, o.pid, q == o.pid);
    PrivateFoot(w, SetUsage(w, q, u), q, o);
  }

  lemma RememberFoot(w: World, q: Pid, k: string, v: Value, o: Observed)
    ensures Foot(w, Emit(w.(svc := w.svc.(memory := w.svc.memory[q := MemoryOf(w, q)[k := v]])), MemoryStored(q)), o,
      q == o.pid)
  {
    hide Foot, LogFoot;
    LogMore(w.log, [MemoryStored(q)], o.pid, q == o.pid);
    PrivateFoot(w, Emit(w.(svc := w.svc.(memory := w.svc.memory[q := MemoryOf(w, q)[k := v]])), MemoryStored(q)), q, o);
  }

  lemma CheckpointFoot(w: World, q: Pid, o: Observed)
    ensures Foot(w, TakeCheckpoint(w, q), o, q == o.pid)
  {
    hide Foot, LogFoot;
    LogMore(w.log, [CheckpointCreated(q)], o.pid, q == o.pid);
    PrivateFoot(w, TakeCheckpoint(w, q), q, o);
  }

  lemma {:induction false} RunOpsFoot(w: World, q: Pid, ops: seq<BodyOp>, o: Observed)
    ensures Foot(w, RunOps(w, q, ops).0, o, q == o.pid)
    decreases ops
  {
    hide Foot, RunOp;
    FootRefl(w, o, q == o.pid);
    if ops != [] {
      var (w1, ok) := RunOp(w, q, ops[0]);
      RunOpFoot(w, q, ops[0], o);
      if ok {
        RunOpsFoot(w1, q, ops[1..], o);
        FootTrans(w, w1, RunOps(w1, q, ops[1..]).0, o, q == o.pid);
      }
    }
  }

  // ------------------------------------------------------------------
  // Plans
  // ------------------------------------------------------------------

  lemma StartTaskFoot(w: World, t: TaskId, d: Definition, goal: GoalId, o: Observed, own: bool)
    requires t in w.cog.tasks
    ensures Foot(w, StartTask(w, t, d, goal), o, own)
  {
    hide Foot, Spawn, GrowsSilently;
    var w1 := Spawn(w, d, Some(goal), w.cog.tasks[t].priority, {});
    SpawnFoot(w, d, Some(goal), w.cog.tasks[t].priority, {}, o, own);
    OneSilent(w1.log, TaskEvent(t, TaskRunning));
    QuietFoot(w1, StartTask(w, t, d, goal), o);
    FootOwn(w1, StartTask(w, t, d, goal), o, own);
    FootTrans(w, w1, StartTask(w, t, d, goal), o, own);
  }

  lemma {:induction false} StartTasksFoot(w: World, goal: GoalId, ids: seq<TaskId>, o: Observed, own: bool)
    ensures Foot(w, StartTasks(w, goal, ids).0, o, own)
    decreases ids
  {
    hide Foot, StartTask;
    FootRefl(w, o, own);
    if ids != [] {
      var t := ids[0];
      if t !in w.cog.tasks || w.cog.tasks[t].process.Some? {
        StartTasksFoot(w, goal, ids[1..], o, own);
      } else if w.cog.tasks[t].definition in w.registry {
        var w1 := StartTask(w, t, w.registry[w.cog.tasks[t].definition], goal);
        StartTaskFoot(w, t, w.registry[w.cog.tasks[t].definition], goal, o, own);
        StartTasksFoot(w1, goal, ids[1..], o, own);
        FootTrans(w, w1, StartTasks(w1, goal, ids[1..]).0, o, own);
      }
    }
  }

  lemma SpawnReadyFoot(w: World, q: PlanId, o: Observed, own: bool)
    ensures Foot(w, SpawnReady(w, q).0, o, own)
  {
    hide Foot, StartTasks;
    FootRefl(w, o, own);
    if q in w.cog.plans {
      StartTasksFoot(w, w.cog.plans[q].goal, ReadyTasks(w.cog, w.cog.plans[q].tasks), o, own);
    }
  }

  lemma AsideFoot(w: World, r: World, o: Observed, own: bool)
    requires Aside(w, r) && r == w.(cog := r.cog, log := r.log)
    ensures Foot(w, r, o, own)
  {
    hide Foot, GrowsSilently;
    QuietFoot(w, r, o);
    FootOwn(w, r, o, own);
  }

  lemma UpdateReadyFoot(w: World, q: PlanId, o: Observed, own: bool)
    ensures Foot(w, UpdateReady(w, q), o, own)
  {
    hide Foot, Aside, Readied, ReadyEvents;
    UpdateReadyAside(w, q);
    AsideFoot(w, UpdateReady(w, q), o, own);
  }

  lemma SetTaskFoot(w: World, t: TaskId, s: TaskState, o: Observed, own: bool)
    ensures Foot(w, SetTask(w, t, s), o, own)
  {
    hide Foot, Aside;
    FootRefl(w, o, own);
    if t in w.cog.tasks {
      SetTaskAside(w, t, s);
      AsideFoot(w, SetTask(w, t, s), o, own);
    }
  }

  lemma ClosePlanFoot(w: World, q: PlanId, ps: PlanState, gs: GoalState, o: Observed, own: bool)
    requires q in w.cog.plans
    ensures Foot(w, ClosePlan(w, q, ps, gs).0, o, own)
  {
    hide Foot, Aside, PlanMayMove, GoalMayMove;
    ClosePlanAside(w, q, ps, gs);
    AsideFoot(w, ClosePlan(w, q, ps, gs).0, o, own);
  }

  lemma CheckCompletionFoot(w: World, q: PlanId, o: Observed, own: bool)
    ensures Foot(w, CheckCompletion(w, q).0, o, own)
  {
    hide Foot, ClosePlan, AllCompleted;
    FootRefl(w, o, own);
    if q in w.cog.plans {
      ClosePlanFoot(w, q, PlanCompleted, GoalCompleted, o, own);
    }
  }

  lemma TaskCompletesFoot(w: World, q: Pid, o: Observed, own: bool)
    ensures Foot(w, TaskCompletes(w, q).0, o, own)
  {
    hide Foot, SetTask, UpdateReady, SpawnReady, CheckCompletion, TaskOf, TaskMayMove;
    FootRefl(w, o, own);
    if TaskOf(w.cog, w.cog.order, q).Some? {
      var t := TaskOf(w.cog, w.cog.order, q).value;
      if t in w.cog.tasks {
        var plan := w.cog.tasks[t].plan;
        var w1 := SetTask(w, t, TaskCompleted);
        var w2 := UpdateReady(w1, plan);
        var w3 := SpawnReady(w2, plan).0;
        SetTaskFoot(w, t, TaskCompleted, o, own);
        UpdateReadyFoot(w1, plan, o, own);
        SpawnReadyFoot(w2, plan, o, own);
        CheckCompletionFoot(w3, plan, o, own);
        FootTrans(w, w1, w2, o, own);
        FootTrans(w, w2, w3, o, own);
        FootTrans(w, w3, CheckCompletion(w3, plan).0, o, own);
      }
    }
  }

  lemma TaskFailsFoot(w: World, q: Pid, o: Observed, own: bool)
    ensures Foot(w, TaskFails(w, q).0, o, own)
  {
    hide Foot, SetTask, ClosePlan, TaskOf, TaskMayMove;
    FootRefl(w, o, own);
    if TaskOf(w.cog, w.cog.order, q).Some? {
      var t := TaskOf(w.cog, w.cog.order, q).value;
      if t in w.cog.tasks {
        var plan := w.cog.tasks[t].plan;
        var w1 := SetTask(w, t, TaskFailed);
        SetTaskFoot(w, t, TaskFailed, o, own);
        if plan in w1.cog.plans {
          ClosePlanFoot(w1, plan, PlanFailed, GoalFailed, o, own);
          FootTrans(w, w1, ClosePlan(w1, plan, PlanFailed, GoalFailed).0, o, own);
        }
      }
    }
  }

  // ------------------------------------------------------------------
  // Dispatch
  // ------------------------------------------------------------------

  /** A state and an event of process `q`. */
  lemma MovedFoot(w: World, q: Pid, s: ProcessState, e: Event, o: Observed, own: bool)
    requires e != ProcessFailed(o.pid) && (!own ==> q != o.pid && e != ProcessStarted(o.pid))
    ensures Foot(w, Emit(SetState(w, q, s), e), o, own)
  {
    hide PriorityOf, EntryOk, LogFoot, MemoryOf, CheckpointsOf, UsageOf;
    SameServices(w, Emit(SetState(w, q, s), e), o.pid);
    LogMore(w.log, [e], o.pid, own);
  }

  lemma OnTerminalFoot(w: World, q: Pid, o: Observed, own: bool)
    ensures Foot(w, OnTerminal(w, q), o, own)
  {
    hide Foot, EvaluateWaiting, Notify;
    var w1 := EvaluateWaiting(w);
    EvaluateFoot(w, o, own);
    NotifiedFoot(w1, q, o, own);
    FootTrans(w, w1, w1.(sched := Notify(w1.sched, q)), o, own);
  }

  lemma NotifiedFoot(w: World, q: Pid, o: Observed, own: bool)
    ensures Foot(w, w.(sched := Notify(w.sched, q)), o, own)
  {
    hide Notify, PriorityOf, EntryOk;
    NotifyEntries(w.sched, q, o.pid);
    NotifyKeepsWaiting(w.sched, q);
  }

  lemma NotifyKeepsWaiting(s: Sched, q: Pid)
    ensures Notify(s, q).waiting == s.waiting
  {}

  lemma AnnounceFoot(w: World, q: Pid, s: ProcessState, e: Event, o: Observed, own: bool)
    requires e != ProcessFailed(o.pid) && (!own ==> q != o.pid && e != ProcessStarted(o.pid))
    ensures Foot(w, Announce(w, q, s, e), o, own)
  {
    hide Foot, OnTerminal, SetState;
    MovedFoot(w, q, s, e, o, own);
    OnTerminalFoot(Emit(SetState(w, q, s), e), q, o, own);
    FootTrans(w, Emit(SetState(w, q, s), e), Announce(w, q, s, e), o, own);
  }

  lemma CleanupFoot(w: World, q: Pid, o: Observed)
    ensures Foot(w, Cleanup(w, q), o, q == o.pid)
  {
    hide PriorityOf, EntryOk, Finished;
  }

  lemma ResumeFoot(w: World, q: Pid, o: Observed)
    requires q != o.pid
    ensures Foot(w, PrepareForResume(w, q), o, false)
  {
    hide PriorityOf, EntryOk, Enqueue, CapabilitiesFor;
    EnqueueKeepsWaiting(w.sched, q, 0, {});
    EnqueueEntries(w.sched, q, 0, {}, o.pid);
  }

  lemma RetriedFoot(w: World, q: Pid, o: Observed)
    requires q != o.pid
    ensures Foot(w, RecordRetry(PrepareForResume(w, q), q), o, false)
  {
    hide Foot, PrepareForResume;
    var w1 := PrepareForResume(w, q);
    ResumeFoot(w, q, o);
    UsageFoot(w1, q, UsageOf(w1, q).(retries := UsageOf(w1, q).retries + 1), o);
    FootTrans(w, w1, RecordRetry(w1, q), o, false);
  }

  lemma RestoredFoot(w: World, q: Pid, c: Checkpoint, o: Observed)
    requires q != o.pid
    ensures Foot(w, RestoreCheckpoint(w, q, c), o, false)
  {
    hide Foot, LogFoot;
    LogMore(w.log, [CheckpointRestored(q)], o.pid, false);
    PrivateFoot(w, RestoreCheckpoint(w, q, c), q, o);
  }

  lemma CountedFoot(w: World, q: Pid, n: nat, o: Observed)
    requires q != o.pid && w.svc.supervisor.Some?
    ensures Foot(w, w.(svc := w.svc.(supervisor := Some(w.svc.supervisor.value[q := n]))), o, false)
  {
    hide PriorityOf, EntryOk;
  }

  lemma SuperviseFoot(w: World, q: Pid, o: Observed)
    requires q != o.pid
    ensures Foot(w, Supervise(w, q), o, false)
  {
    hide Foot, RestoreCheckpoint, PrepareForResume, RecordRetry;
    FootRefl(w, o, false);
    match Decide(w, q) {
      case Restore(c) =>
        var w1 := RestoreCheckpoint(w, q, c);
        RestoredFoot(w, q, c, o);
        RetriedFoot(w1, q, o);
        FootTrans(w, w1, RecordRetry(PrepareForResume(w1, q), q), o, false);
      case Retry(n) =>
        var w1 := w.(svc := w.svc.(supervisor := Some(w.svc.supervisor.value[q := n])));
        CountedFoot(w, q, n, o);
        RetriedFoot(w1, q, o);
        FootTrans(w, w1, RecordRetry(PrepareForResume(w1, q), q), o, false);
      case _ =>
    }
  }

  lemma EmittedFoot(w: World, e: Event, o: Observed, own: bool)
    requires e != ProcessFailed(o.pid) && (!own ==> e != ProcessStarted(o.pid))
    ensures Foot(w, Emit(w, e), o, own)
  {
    hide PriorityOf, EntryOk, LogFoot;
    LogMore(w.log, [e], o.pid, own);
  }

  lemma FailProcessFoot(w: World, q: Pid, o: Observed)
    requires q != o.pid
    ensures Foot(w, FailProcess(w, q).0, o, false)
  {
    hide Foot, Announce, OnTerminal, Supervise, TaskFails, Cleanup, MayMove;
    var w1 := if MayMove(w, q, Failed)
      then Announce(w, q, Failed, ProcessFailed(q)) else OnTerminal(Emit(w, ProcessFailed(q)), q);
    if MayMove(w, q, Failed) {
      AnnounceFoot(w, q, Failed, ProcessFailed(q), o, false);
    } else {
      EmittedFoot(w, ProcessFailed(q), o, false);
      OnTerminalFoot(Emit(w, ProcessFailed(q)), q, o, false);
      FootTrans(w, Emit(w, ProcessFailed(q)), w1, o, false);
    }
    var w2 := Supervise(w1, q);
    SuperviseFoot(w1, q, o);
    FootTrans(w, w1, w2, o, false);
    var w3 := TaskFails(w2, q).0;
    TaskFailsFoot(w2, q, o, false);
    FootTrans(w, w2, w3, o, false);
    CleanupFoot(w3, q, o);
    FootTrans(w, w3, Cleanup(w3, q), o, false);
  }

  /** A completion that does not raise, of the process itself, or any completion elsewhere. */
  lemma FinishFoot(w: World, q: Pid, o: Observed)
    requires MayMove(w, q, Completed)
    requires q == o.pid ==> !TaskCompletes(Announce(w, q, Completed, ProcessCompleted(q)), q).1
    ensures Foot(w, Finish(w, q).0, o, q == o.pid)
  {
    hide Foot, Announce, TaskCompletes, FailProcess, Cleanup, Finish, MayMove;
    var own := q == o.pid;
    var w1 := Announce(w, q, Completed, ProcessCompleted(q));
    FinishCases(w, q);
    AnnounceFoot(w, q, Completed, ProcessCompleted(q), o, own);
    var (w2, raised) := TaskCompletes(w1, q);
    TaskCompletesFoot(w1, q, o, own);
    FootTrans(w, w1, w2, o, own);
    if raised {
      if !own {
        FailProcessFoot(w2, q, o);
        FootTrans(w, w2, FailProcess(w2, q).0, o, own);
      }
    } else {
      CleanupFoot(w2, q, o);
      FootTrans(w, w2, Cleanup(w2, q), o, own);
    }
  }

  lemma ParkFoot(w: World, q: Pid, c: Condition, o: Observed)
    ensures Foot(w, Park(w, q, c), o, q == o.pid)
  {
    hide Foot, TakeCheckpoint, SetState, MarkWaiting;
    var w1 := TakeCheckpoint(w, q);
    CheckpointFoot(w, q, o);
    MarkedFoot(w1, q, c, o);
    FootTrans(w, w1, Park(w, q, c), o, q == o.pid);
  }

  lemma MarkedFoot(w: World, q: Pid, c: Condition, o: Observed)
    ensures var w1 := SetState(w, q, Waiting);
      Foot(w, Emit(w1.(sched := MarkWaiting(w1.sched, q, c)), ProcessWaiting(q)), o, q == o.pid)
  {
    hide PriorityOf, EntryOk, LogFoot, MarkWaiting, MemoryOf, CheckpointsOf, UsageOf;
    var w1 := SetState(w, q, Waiting);
    SameServices(w, Emit(w1.(sched := MarkWaiting(w1.sched, q, c)), ProcessWaiting(q)), o.pid);
    LogMore(w.log, [ProcessWaiting(q)], o.pid, q == o.pid);
    MarkEntries(w.sched, q, c, o.pid);
    if q != o.pid && Parked(w, o) {
      MarkKeepsOthers(w.sched, q, c, Waiter(o.pid, o.condition));
    }
  }

  lemma MarkKeepsOthers(s: Sched, q: Pid, c: Condition, x: Waiter)
    requires x in s.waiting && x.pid != q
    ensures x in MarkWaiting(s, q, c).waiting
  {
    OthersStayRegistered(s.waiting, q, c, x);
  }

  lemma MarkEntries(s: Sched, q: Pid, c: Condition, p: Pid)
    ensures PriorityOf(MarkWaiting(s, q, c), p) == PriorityOf(s, p)
    ensures EntryOk(s, p) ==> EntryOk(MarkWaiting(s, q, c), p)
  {
    WithoutElements(s.queue, q);
  }

  lemma BeginFoot(w: World, q: Pid, o: Observed)
    ensures Foot(w, Begin(w, q), o, q == o.pid)
  {
    hide Foot, SetState;
    MovedFoot(w, q, Running, ProcessStarted(q), o, q == o.pid);
  }

  lemma TakeNextFoot(w: World, o: Observed)
    requires w.sched.queue != []
    ensures Foot(w, TakeNext(w), o, w.sched.queue[0].pid == o.pid)
  {
    hide Foot, UsageOf;
    var q := w.sched.queue[0].pid;
    var own := q == o.pid;
    var w1 := w.(sched := Dequeue(w.sched));
    DequeuedFoot(w, o);
    FootOwn(w, w1, o, own);
    UsageFoot(w1, q, UsageOf(w, q), o);
    assert TakeNext(w) == SetUsage(w1, q, UsageOf(w, q));
    FootTrans(w, w1, SetUsage(w1, q, UsageOf(w, q)), o, own);
  }

  lemma DequeueEntries(s: Sched, p: Pid)
    requires s.queue != []
    ensures PriorityOf(Dequeue(s), p) == PriorityOf(s, p)
    ensures EntryOk(s, p) ==> EntryOk(Dequeue(s), p)
  {
    assert forall e :: e in Dequeue(s).queue ==> e in s.queue;
  }

  /** A dispatch of another process. */
  lemma ExecuteFoot(w: World, q: Pid, body: Body, o: Observed)
    requires q != o.pid
    ensures Foot(w, Execute(w, q, body).0, o, false)
  {
    hide Foot, MayMove, Begin, RunOps, FailProcess, Finish, Park, SetUsage, UsageOf;
    if !MayMove(w, q, Running) {
      FailProcessFoot(w, q, o);
    } else {
      BeginFoot(w, q, o);
      BodyFoot(w, q, body, o);
      FootTrans(w, Begin(w, q), Execute(w, q, body).0, o, false);
    }
  }

  /** The same, from the STARTED event on. */
  lemma BodyFoot(w: World, q: Pid, body: Body, o: Observed)
    requires q != o.pid && MayMove(w, q, Running)
    ensures Foot(Begin(w, q), Execute(w, q, body).0, o, false)
  {
    hide Foot, MayMove, Begin, RunOps, FailProcess, Finish, Park, SetUsage, UsageOf;
    var w0 := Begin(w, q);
    var (w1, ok) := RunOps(w0, q, body.ops);
    RunOpsFoot(w0, q, body.ops, o);
    if !ok || body.end.Raises? {
      FailProcessFoot(w1, q, o);
      FootTrans(w0, w1, FailProcess(w1, q).0, o, false);
    } else if body.end.WaitsFor? {
      ParkFoot(w1, q, body.end.condition, o);
      FootTrans(w0, w1, Park(w1, q, body.end.condition), o, false);
    } else {
      var w2 := SetUsage(w1, q, UsageOf(w1, q));
      UsageFoot(w1, q, UsageOf(w1, q), o);
      FootTrans(w0, w1, w2, o, false);
      ReturnedFoot(w2, q, body.overran, o);
      FootTrans(w0, w2, if body.overran then FailProcess(w2, q).0 else Finish(w2, q).0, o, false);
    }
  }

  lemma ReturnedFoot(w: World, q: Pid, overran: bool, o: Observed)
    requires q != o.pid
    ensures Foot(w, if overran then FailProcess(w, q).0 else Finish(w, q).0, o, false)
  {
    hide Foot, FailProcess, MayMove;
    FailProcessFoot(w, q, o);
    if MayMove(w, q, Completed) {
      FinishFoot(w, q, o);
    } else {
      FinishRefused(w, q);
    }
  }

  lemma FinishRefused(w: World, q: Pid)
    requires !MayMove(w, q, Completed)
    ensures Finish(w, q) == FailProcess(w, q)
  {
    hide FailProcess, MayMove;
  }

  /** `run_next` dispatches the process next. */
  predicate IsNext(w: World, p: Pid) {
    EvaluateWaiting(w).sched.queue != [] && EvaluateWaiting(w).sched.queue[0].pid == p
  }

  lemma RunNextFoot(w: World, body: Body, o: Observed)
    requires !IsNext(w, o.pid)
    ensures Foot(w, RunNext(w, body).0, o, false)
  {
    hide Foot, EvaluateWaiting, TakeNext, Execute, FailProcess, CanDispatch;
    var w1 := EvaluateWaiting(w);
    EvaluateFoot(w, o, false);
    if w1.sched.queue != [] {
      var q := w1.sched.queue[0].pid;
      if q !in w1.table {
        DequeuedFoot(w1, o);
        FootTrans(w, w1, w1.(sched := Dequeue(w1.sched)), o, false);
      } else {
        var w2 := TakeNext(w1);
        TakeNextFoot(w1, o);
        FootTrans(w, w1, w2, o, false);
        FailProcessFoot(w2, q, o);
        FootTrans(w, w2, FailProcess(w2, q).0, o, false);
        ExecuteFoot(w2, q, body, o);
        FootTrans(w, w2, Execute(w2, q, body).0, o, false);
      }
    }
  }

  lemma DequeuedFoot(w: World, o: Observed)
    requires w.sched.queue != []
    ensures Foot(w, w.(sched := Dequeue(w.sched)), o, false)
  {
    hide PriorityOf, EntryOk;
    DequeueEntries(w.sched, o.pid);
  }

  // ------------------------------------------------------------------
  // Every call
  // ------------------------------------------------------------------

  lemma CreatePlanFoot(w: World, g: GoalId, specs: seq<TaskSpec>, plan: PlanId, base: TaskId, o: Observed)
    requires g in w.cog.goals && w.cog.goals[g] == GoalPlanning
    ensures Foot(w, CreatePlan(w, g, specs, plan, base).0, o, false)
  {
    hide Foot, Planned, UpdateReady, CreatePlan;
    var w1 := Planned(w, g, specs, plan, base);
    PlannedIs(w, g, specs, plan, base);
    PlannedFoot(w, g, specs, plan, base, o);
    UpdateReadyFoot(w1, plan, o, false);
    FootTrans(w, w1, UpdateReady(w1, plan), o, false);
  }

  lemma PlannedFoot(w: World, g: GoalId, specs: seq<TaskSpec>, plan: PlanId, base: TaskId, o: Observed)
    ensures Foot(w, Planned(w, g, specs, plan, base), o, false)
  {
    hide Foot, PlannedCog, Aside;
    PlannedAside(w, g, specs, plan, base);
    AsideFoot(w, Planned(w, g, specs, plan, base), o, false);
  }

  lemma GoalFoot(w: World, g: GoalId, s: GoalState, o: Observed)
    ensures Foot(w, Emit(w.(cog := w.cog.(goals := w.cog.goals[g := s])), GoalEvent(g, s)), o, false)
  {
    hide Foot, Aside, CogEvolves, ProcessesGoOn;
    GoalAside(w, g, s);
    AsideFoot(w, Emit(w.(cog := w.cog.(goals := w.cog.goals[g := s])), GoalEvent(g, s)), o, false);
  }

  lemma {:induction false} ScanFoot(w: World, p: Pid, o: Observed)
    ensures Foot(w, ScanMail(w, p).0, o, false)
    decreases w.unused - p
  {
    hide Foot, EvaluateWaiting;
    FootRefl(w, o, false);
    if p < w.unused {
      if p in w.table && w.table[p].state == Waiting && p in w.svc.mail && w.svc.mail[p] != [] {
        var w1 := EvaluateWaiting(w);
        EvaluateFoot(w, o, false);
        ScanFoot(w1, p + 1, o);
        FootTrans(w, w1, ScanMail(w1, p + 1).0, o, false);
      } else {
        ScanFoot(w, p + 1, o);
      }
    }
  }

  lemma HasWorkFoot(w: World, o: Observed)
    ensures Foot(w, HasWork(w).0, o, false)
  {
    hide Foot, EvaluateWaiting, ScanMail;
    FootRefl(w, o, false);
    var w1 := EvaluateWaiting(w);
    EvaluateFoot(w, o, false);
    ScanFoot(w1, 0, o);
    FootTrans(w, w1, ScanMail(w1, 0).0, o, false);
  }

  /** What neither table, scheduler, services, store nor log shows. */
  lemma BackgroundFoot(w: World, r: World, o: Observed)
    requires r == w.(registry := r.registry, clock := r.clock)
    ensures Foot(w, r, o, false)
  {}

  /** A call that does not dispatch the process. */
  lemma CallFoot(w: World, c: Call, o: Observed)
    requires Sound(w, c) && !(c.CallRunNext? && IsNext(w, o.pid))
    ensures Foot(w, Do(w, c).0, o, false)
  {
    hide Foot, IsNext, Spawn, RunNext, HasWork, PutState, DeleteState, Send, CreatePlan, SpawnReady, EvaluateWaiting;
    FootRefl(w, o, false);
    if !Do(w, c).1 {
      match c {
        case CallRegister(d) => BackgroundFoot(w, Register(w, d).0, o);
        case CallSpawn(d, goal, priority, needs) => SpawnFoot(w, d, goal, priority, needs, o, false);
        case CallRunNext(body) => RunNextFoot(w, body, o);
        case CallHasWork => HasWorkFoot(w, o);
        case CallGrant(request) => GrantFoot(w, request, o);
        case CallPut(key, v) => PutStateFoot(w, key, v, o, false);
        case CallDelete(key) => DeleteStateFoot(w, key, o, false);
        case CallSend(to, m) => SendFoot(w, to, m, o, false);
        case CallCreateGoal(g) => GoalFoot(w, g, GoalCreated, o);
        case CallStartPlanning(g) => GoalFoot(w, g, GoalPlanning, o);
        case CallCreatePlan(g, specs, plan, base) =>
          KnownGoal(w, g, specs, plan, base);
          CreatePlanFoot(w, g, specs, plan, base, o);
        case CallExecutePlan(plan) => SpawnReadyFoot(w, plan, o, false);
        case ClockMoves(now) => BackgroundFoot(w, w.(clock := now), o);
      }
    }
  }

  lemma KnownGoal(w: World, g: GoalId, specs: seq<TaskSpec>, plan: PlanId, base: TaskId)
    requires !CreatePlan(w, g, specs, plan, base).1
    ensures g in w.cog.goals
  {}

  lemma GrantFoot(w: World, request: string, o: Observed)
    ensures Foot(w, Grant(w, request), o, false)
  {
    hide Foot, PutState, EvaluateWaiting;
    var w1 := PutState(w, "approval:" + request, Number(1));
    PutStateFoot(w, "approval:" + request, Number(1), o, false);
    EvaluateFoot(w1, o, false);
    FootTrans(w, w1, EvaluateWaiting(w1), o, false);
  }

  // ------------------------------------------------------------------
  // The process's own dispatch
  // ------------------------------------------------------------------

  lemma OwnOpsFoot(w: World, p: Pid, ops: seq<BodyOp>, o: Observed)
    requires o.pid == p
    ensures Foot(w, RunOps(Begin(w, p), p, ops).0, o, true)
  {
    hide Foot, Begin, RunOps;
    var w0 := Begin(w, p);
    BeginFoot(w, p, o);
    RunOpsFoot(w0, p, ops, o);
    FootTrans(w, w0, RunOps(w0, p, ops).0, o, true);
  }

  /** Up to the point of failure, if the body fails. */
  lemma OwnFailureFoot(w: World, p: Pid, body: Body, o: Observed)
    requires o.pid == p && FailureOf(w, p, body).Some?
    ensures Foot(w, FailureOf(w, p, body).value, o, true)
  {
    hide Foot, Begin, RunOps, SetUsage, UsageOf;
    var w1 := RunOps(Begin(w, p), p, body.ops).0;
    OwnOpsFoot(w, p, body.ops, o);
    UsageFoot(w1, p, UsageOf(w1, p), o);
    FootTrans(w, w1, SetUsage(w1, p, UsageOf(w1, p)), o, true);
  }

  /** To the end, if it does not fail and nothing is raised. */
  lemma OwnReturnFoot(w: World, p: Pid, body: Body, o: Observed, k: Track)
    requires Inv(w, {p}, {}, k) && p in w.table && w.table[p].state == Ready
    requires o.pid == p && FailureOf(w, p, body).None? && !Execute(w, p, body).1.RaisedOut?
    ensures Foot(w, Execute(w, p, body).0, o, true)
  {
    hide Foot, Begin, RunOps, FailProcess, Finish, Park, SetUsage, UsageOf, Inv, Evolves;
    var w1 := RunOps(Begin(w, p), p, body.ops).0;
    OwnOpsFoot(w, p, body.ops, o);
    if body.end.WaitsFor? {
      ParkFoot(w1, p, body.end.condition, o);
      FootTrans(w, w1, Park(w1, p, body.end.condition), o, true);
    } else {
      var w2 := SetUsage(w1, p, UsageOf(w1, p));
      UsageFoot(w1, p, UsageOf(w1, p), o);
      FootTrans(w, w1, w2, o, true);
      BodyRuns(w, p, body.ops, k);
      UsedStep(w1, p, k);
      OwnFinishFoot(w2, p, o, k);
      FootTrans(w, w2, Finish(w2, p).0, o, true);
    }
  }

  lemma UsedStep(w: World, p: Pid, k: Track)
    requires Inv(w, {p}, {}, k)
    ensures var r := SetUsage(w, p, UsageOf(w, p));
      Inv(r, {p}, {}, k) && Evolves(w, r) && r.table == w.table && r.cog == w.cog
  {
    hide Inv, Evolves;
    AsideSameCog(w, SetUsage(w, p, UsageOf(w, p)), {p}, k);
  }

  /** The process is RUNNING after its operations, whatever they were. */
  lemma BodyRuns(w: World, p: Pid, ops: seq<BodyOp>, k: Track)
    requires Inv(w, {p}, {}, k) && p in w.table && w.table[p].state == Ready
    ensures var r := RunOps(Begin(w, p), p, ops).0;
      && Inv(r, {p}, {}, k) && Evolves(w, r) && r.cog == w.cog
      && p in r.table && r.table[p] == w.table[p].(state := Running)
  {
    hide Inv, Evolves, Begin, RunOps, SameBusy;
    var w0 := Begin(w, p);
    BeginStep(w, p, k);
    RunOpsStep(w0, p, ops, k);
    BusyState(w0, RunOps(w0, p, ops).0, p);
    EvolvesTrans(w, w0, RunOps(w0, p, ops).0);
    RunOpsKeepsPlans(w0, p, ops);
    BeginKeepsPlans(w, p);
  }

  lemma OwnFinishFoot(w: World, p: Pid, o: Observed, k: Track)
    requires Inv(w, {p}, {}, k) && p in w.table && w.table[p].state == Running && o.pid == p
      && !Finish(w, p).1.RaisedOut?
    ensures Foot(w, Finish(w, p).0, o, true)
  {
    hide Foot, Inv, Announce, TaskCompletes, FailProcess, Cleanup, Finish, Evolves, Logged;
    var w1 := Announce(w, p, Completed, ProcessCompleted(p));
    FinishCases(w, p);
    AnnounceStep(w, p, Completed, ProcessCompleted(p), k);
    CompletedCannotFail(w1, p, k);
    FinishFoot(w, p, o);
  }

  // ------------------------------------------------------------------
  // The dispatch in a run
  // ------------------------------------------------------------------

  /** The world in which the next process's body begins. */
  function Taken(w: World): World
    requires EvaluateWaiting(w).sched.queue != []
  {
    TakeNext(EvaluateWaiting(w))
  }

  /** What `run_next` does with the process at the head of the queue. */
  lemma NextDispatch(w: World, p: Pid, k: Track)
    requires Inv(w, {}, {}, k) && IsNext(w, p)
    ensures var w2 := Taken(w);
      && Inv(w2, {p}, {}, k) && Evolves(w, w2) && p in w2.table && w2.table[p].state == Ready && w2.cog == w.cog
  {
    hide Inv, Evolves, EvaluateWaiting, TakeNext;
    var w1 := EvaluateWaiting(w);
    EvaluateStep(w, {}, k);
    TakeNextStep(w1, k);
    EvolvesTrans(w, w1, TakeNext(w1));
  }

  lemma TakenFoot(w: World, o: Observed)
    requires IsNext(w, o.pid)
    ensures Foot(w, Taken(w), o, true)
  {
    hide EvaluateWaiting, TakeNext, Foot;
    var w1 := EvaluateWaiting(w);
    EvaluateFoot(w, o, true);
    TakeNextFoot(w1, o);
    FootTrans(w, w1, TakeNext(w1), o, true);
  }

  lemma NextIs(w: World, body: Body, p: Pid)
    requires IsNext(w, p) && p in Taken(w).table
    ensures RunNext(w, body) ==
      if CanDispatch(UsageOf(Taken(w), p), Taken(w).table[p].budget)
      then Execute(Taken(w), p, body) else FailProcess(Taken(w), p)
  {
    hide EvaluateWaiting, CanDispatch, Execute, FailProcess;
  }

  /** A dispatch that is allowed logs its start. */
  lemma ExecuteLogsStart(w: World, p: Pid, body: Body)
    requires p in w.table && w.table[p].state == Ready
    ensures var log := Execute(w, p, body).0.log;
      w.log + [ProcessStarted(p)] <= log
  {
    hide Execute, Foot, RunOps;
    var o := Observed(p + 1, TimeReached(0), "");
    BodyFoot(w, p, body, o);
    FootLog(Begin(w, p), Execute(w, p, body).0, o);
  }

  lemma FootLog(w: World, r: World, o: Observed)
    requires Foot(w, r, o, false)
    ensures w.log <= r.log
  {}

  // ------------------------------------------------------------------
  // Every run
  // ------------------------------------------------------------------

  /** The process was not started since. */
  ghost predicate Unstarted(log: seq<Event>, from: nat, p: Pid) {
    forall i :: from <= i < |log| ==> log[i] != ProcessStarted(p)
  }

  /** Every call that returns with the process as the next one has started it. */
  lemma NextIsStarted(w: World, body: Body, p: Pid, k: Track)
    requires Inv(w, {}, {}, k) && IsNext(w, p) && !RunNext(w, body).1.RaisedOut?
    ensures var log := RunNext(w, body).0.log; w.log <= log && !Unstarted(log, |w.log|, p)
  {
    hide Inv, Evolves, Execute, FailProcess, EvaluateWaiting, TakeNext, RunNext, CanDispatch;
    NextDispatch(w, p, k);
    NextIs(w, body, p);
    FailingCompletedRaises(Taken(w), p);
    ExecuteLogsStart(Taken(w), p, body);
    LogGrew(w, Taken(w));
    var log := Execute(Taken(w), p, body).0.log;
    assert log[|Taken(w).log|] == ProcessStarted(p);
  }

  lemma CallIsolates(w: World, c: Call, o: Observed, k: Track)
    requires Inv(w, {}, {}, k) && Sound(w, c) && Unstarted(Do(w, c).0.log, |w.log|, o.pid)
    ensures Foot(w, Do(w, c).0, o, false)
  {
    hide Inv, Foot, RunNext, IsNext;
    if c.CallRunNext? && IsNext(w, o.pid) {
      if !Do(w, c).1 {
        NextIsStarted(w, c.body, o.pid, k);
        assert false;
      }
      FootRefl(w, o, false);
    } else {
      CallFoot(w, c, o);
    }
  }

  lemma {:induction false} RunIsolates(w: World, calls: seq<Call>, o: Observed, k: Track)
    requires Inv(w, {}, {}, k) && !k.replays && Runs.Returns(w, calls)
    requires Unstarted(Runs.After(w, calls).log, |w.log|, o.pid)
    ensures Foot(w, Runs.After(w, calls), o, false)
    decreases calls
  {
    hide Inv, Evolves, Foot, Do, Sound, Later;
    FootRefl(w, o, false);
    if calls != [] {
      var w1 := Do(w, calls[0]).0;
      var r := Runs.After(w1, calls[1..]);
      CallStep(w, calls[0], k);
      LaterIsSame(w, calls[0], k);
      EveryRunKeepsInv(w1, calls[1..], k);
      LogGrew(w, w1);
      LogGrew(w1, r);
      UnstartedParts(w.log, w1.log, r.log, o.pid);
      CallIsolates(w, calls[0], o, k);
      RunIsolates(w1, calls[1..], o, k);
      FootTrans(w, w1, r, o, false);
    }
  }

  lemma UnstartedParts(a: seq<Event>, b: seq<Event>, c: seq<Event>, p: Pid)
    requires a <= b <= c && Unstarted(c, |a|, p)
    ensures Unstarted(b, |a|, p) && Unstarted(c, |b|, p)
  {
    forall i | |a| <= i < |b| ensures b[i] != ProcessStarted(p) {
      assert b[i] == c[i];
    }
  }

  /** Isolation: in every run, as long as a process is not started, no other process and no call
      changes its memory, checkpoints, usage counters, capabilities, priority or retry count, nor
      its definition, budget and goal; its state changes only by being woken. */
  lemma OthersLeaveItAlone(supervised: bool, before: seq<Call>, p: Pid, later: seq<Call>)
    requires Runs.Returns(Boot(supervised), before) && Runs.Returns(Runs.After(Boot(supervised), before), later)
    requires p in Runs.After(Boot(supervised), before).table
    requires Unstarted(Runs.After(Runs.After(Boot(supervised), before), later).log,
      |Runs.After(Boot(supervised), before).log|, p)
    ensures var w := Runs.After(Boot(supervised), before);
      var r := Runs.After(w, later);
      && p in r.table && r.table[p].definition == w.table[p].definition && r.table[p].budget == w.table[p].budget
      && r.table[p].goal == w.table[p].goal
      && (r.table[p].state == w.table[p].state || (w.table[p].state in {Waiting, Blocked} && r.table[p].state == Ready))
      && MemoryOf(r, p) == MemoryOf(w, p) && CheckpointsOf(r, p) == CheckpointsOf(w, p)
      && UsageOf(r, p) == UsageOf(w, p)
      && (p in r.svc.caps <==> p in w.svc.caps) && (p in w.svc.caps ==> r.svc.caps[p] == w.svc.caps[p])
      && PriorityOf(r.sched, p) == PriorityOf(w.sched, p) && Retries(r, p) == Retries(w, p)
  {
    hide Runs.After, Runs.Returns, Inv, Evolves, Unstarted, MemoryOf, CheckpointsOf, UsageOf, PriorityOf, EntryOk,
      Parked, Retries;
    var k := Track(None, false);
    BootInv(supervised, k);
    EveryRunKeepsInv(Boot(supervised), before, k);
    var w := Runs.After(Boot(supervised), before);
    KnownIsOld(w, p, k);
    RunIsolates(w, later, Observed(p, TimeReached(0), ""), k);
  }

  lemma KnownIsOld(w: World, p: Pid, k: Track)
    requires Inv(w, {}, {}, k) && p in w.table
    ensures p < w.unused
  {}
}
