/** Every run of the kernel keeps its invariant: the correspondence between table and services,
    replay, dependency gating, plan safety and task order, step by step and over whole runs. */
module KernelRuns {
  import opened Common
  import opened Heap
  import opened States
  import opened SchedulerModel
  import opened KernelModel
  import opened Correspondence
  import opened Replay
  import opened Gating
  import opened PlanSafety
  import opened History

  /** What is followed along a run: any one dependency gate opened so far, and whether the log
      is to replay to the process table. */
  datatype Track = Track(gate: Option<Gate>, replays: bool)

  /** The invariant while the processes in `busy` are being run or retired and the plans in
      `closing` are being closed. */
  ghost predicate Inv(w: World, busy: set<Pid>, closing: set<PlanId>, g: Track) {
    && Consistent(w, busy)
    && PlansOk(w, busy, closing)
    && HistOk(w)
    && StoreAgrees(w)
    && (g.replays ==> StatesAgree(w))
    && (g.gate.Some? ==> GateOk(w, g.gate.value))
  }

  /** What a step may not undo. */
  ghost predicate Evolves(w: World, r: World) {
    && w.log <= r.log
    && CogEvolves(w.cog, r.cog)
    && (w.svc.supervisor.None? <==> r.svc.supervisor.None?)
    && w.unused <= r.unused
    && RegistryGrows(w.registry, r.registry)
  }

  /** No definition is forgotten or replaced, and a new one is filed under its own name. */
  ghost predicate RegistryGrows(before: map<string, Definition>, after: map<string, Definition>) {
    && (forall d :: d in before ==> d in after && after[d] == before[d])
    && (forall d :: d in after && d !in before ==> after[d].name == d)
  }

  ghost predicate SameBusy(w: World, r: World, busy: set<Pid>) {
    forall p :: p in busy ==> p in w.table && p in r.table && r.table[p] == w.table[p]
  }

  lemma EvolvesRefl(w: World)
    ensures Evolves(w, w)
  {}

  lemma EvolvesTrans(a: World, b: World, c: World)
    requires Evolves(a, b) && Evolves(b, c)
    ensures Evolves(a, c)
  {
    CogEvolvesTrans(a.cog, b.cog, c.cog);
    hide CogEvolves;
  }

  /** `r` differs from `w` only where the invariant does not look, plus events without effect. */
  ghost predicate Aside(w: World, r: World) {
    && r.table == w.table && r.sched == w.sched && r.store == w.store && r.unused == w.unused
    && r.registry == w.registry
    && r.svc.mail.Keys == w.svc.mail.Keys && r.svc.caps == w.svc.caps
    && (r.svc.supervisor.None? <==> w.svc.supervisor.None?)
    && GrowsSilently(w.log, r.log)
  }

  lemma AsideKeeps(w: World, r: World, busy: set<Pid>, closing: set<PlanId>, closing': set<PlanId>, g: Track)
    requires Inv(w, busy, closing, g) && Aside(w, r)
    requires PlansOk(r, busy, closing') && HistOk(r)
    ensures Inv(r, busy, closing', g)
  {
    hide Consistent, PlansOk, HistOk, Fold, GateOk, GrowsSilently, Silent, Calm;
    var more := SilentSuffix(w.log, r.log);
    FoldSilent(w.log, more);
    if g.gate.Some? {
      GateStaysCalm(w, r, more, g.gate.value);
    }
    SamePlaces(w, r, busy);
  }

  lemma SilentSuffix(log: seq<Event>, log': seq<Event>) returns (more: seq<Event>)
    requires GrowsSilently(log, log')
    ensures log' == log + more && forall e :: e in more ==> Silent(e) && Calm(e)
  {
    more := log'[|log|..];
    forall e | e in more ensures Silent(e) && Calm(e) {
      var i :| 0 <= i < |more| && more[i] == e;
      assert log'[|log| + i] == e;
    }
  }

  lemma SamePlaces(w: World, r: World, busy: set<Pid>)
    requires Consistent(w, busy)
    requires r.table == w.table && r.sched == w.sched && r.unused == w.unused
    requires r.svc.mail.Keys == w.svc.mail.Keys && r.svc.caps == w.svc.caps
    ensures Consistent(r, busy)
  {}

  /** Steps that leave the plans alone as well. */
  lemma AsideSameCog(w: World, r: World, busy: set<Pid>, g: Track)
    requires Inv(w, busy, {}, g) && Aside(w, r) && r.cog == w.cog
    ensures Inv(r, busy, {}, g) && Evolves(w, r)
  {
    assert PlansOk(r, busy, {});
    assert HistOk(r) by {
      SilentStartsNothing(w.log, r.log);
      HistSameTasks(w, r);
    }
    hide PlansOk, HistOk, Consistent;
    AsideKeeps(w, r, busy, {}, {}, g);
  }

  lemma SilentStartsNothing(log: seq<Event>, log': seq<Event>)
    requires GrowsSilently(log, log')
    ensures GrowsUnstarted(log, log')
  {}

  // ------------------------------------------------------------------
  // Waking, spawning and shared state
  // ------------------------------------------------------------------

  lemma ReadyEventsStartNothing(w: World)
    ensures GrowsUnstarted(w.log, EvaluateWaiting(w).log)
  {
    var more := EvaluateWaitingLog(w);
    var r := EvaluateWaiting(w).log;
    forall i | |w.log| <= i < |r| ensures !r[i].ProcessStarted? {
      assert r[i] == more[i - |w.log|] && more[i - |w.log|] in more;
    }
  }

  lemma EvaluateStep(w: World, busy: set<Pid>, g: Track)
    requires Inv(w, busy, {}, g)
    ensures Inv(EvaluateWaiting(w), busy, {}, g) && Evolves(w, EvaluateWaiting(w))
    ensures SameBusy(w, EvaluateWaiting(w), busy)
  {
    hide EvaluateWaiting, Consistent, HistOk, PlansOk, StatesAgree, StoreAgrees, GateOk, OnlyWakes, TableGoesOn,
      GrowsUnstarted;
    var r := EvaluateWaiting(w);
    InvPlaces(w, busy, g);
    EvaluateWaitingKeeps(w, busy);
    WakesGoOn(w.table, r.table, busy);
    EvaluateWaitingAgrees(w);
    ReadyEventsStartNothing(w);
    if g.gate.Some? {
      GateEvaluateWaiting(w, g.gate.value);
    }
    Assemble(w, r, busy, busy, g);
  }

  lemma InvPlaces(w: World, busy: set<Pid>, g: Track)
    requires Inv(w, busy, {}, g)
    ensures SchedOk(w.sched) && busy <= w.table.Keys
  {}

  lemma WakesGoOn(table: map<Pid, Process>, table': map<Pid, Process>, busy: set<Pid>)
    requires OnlyWakes(table, table')
    ensures TableGoesOn(table, busy, table', busy)
  {}

  lemma SpawnGoesOn(w: World, d: Definition, goal: Option<GoalId>, priority: int, needs: set<Pid>, busy: set<Pid>)
    requires w.unused !in w.table
    ensures var r := Spawn(w, d, goal, priority, needs);
      && TableGoesOn(w.table, busy, r.table, busy) && GrowsUnstarted(w.log, r.log)
      && r.cog == w.cog && Evolves(w, r) && r.store == w.store && r.svc.supervisor == w.svc.supervisor
      && (busy <= w.table.Keys ==> SameBusy(w, r, busy))
  {
    hide Enqueue, CapabilitiesFor;
  }

  lemma SpawnStep(w: World, d: Definition, goal: Option<GoalId>, priority: int, needs: set<Pid>, busy: set<Pid>,
      closing: set<PlanId>, g: Track)
    requires Inv(w, busy, closing, g)
    ensures var r := Spawn(w, d, goal, priority, needs);
      Inv(r, busy, closing, g) && Evolves(w, r) && SameBusy(w, r, busy) && w.unused !in w.table
  {
    var r := Spawn(w, d, goal, priority, needs);
    SpawnKeeps(w, d, goal, priority, needs, busy);
    SpawnAgrees(w, d, goal, priority, needs);
    assert SchedOk(w.sched) && !Waits(w.sched, w.unused) && busy <= w.table.Keys;
    SpawnGoesOn(w, d, goal, priority, needs, busy);
    hide Consistent, HistOk, Spawn, StatesAgree, StoreAgrees, TableGoesOn, CogOk, SameBusy;
    HistSameTasks(w, r);
    CogFrame(w.cog, w.table, busy, r.table, busy, closing);
    if g.gate.Some? {
      GateSpawn(w, d, goal, priority, needs, g.gate.value);
    }
  }

  /** A change of the shared store: the change and its event first, then the wakeups. */
  lemma StoreStep(w: World, w1: World, e: Event, busy: set<Pid>, g: Track)
    requires Inv(w, busy, {}, g)
    requires w1 == w.(store := w1.store, log := w.log + [e])
    requires e.StateCreated? || e.StateChanged? || e.StateDeleted?
    requires StoreAgrees(w1) && (StatesAgree(w) ==> StatesAgree(w1))
    ensures Inv(EvaluateWaiting(w1), busy, {}, g) && Evolves(w, EvaluateWaiting(w1))
    ensures SameBusy(w, EvaluateWaiting(w1), busy)
  {
    hide Inv, Evolves, EvaluateWaiting, StoreAgrees, StatesAgree;
    StoredStep(w, w1, e, busy, g);
    EvaluateStep(w1, busy, g);
    EvolvesTrans(w, w1, EvaluateWaiting(w1));
  }

  lemma StoredStep(w: World, w1: World, e: Event, busy: set<Pid>, g: Track)
    requires Inv(w, busy, {}, g)
    requires w1 == w.(store := w1.store, log := w.log + [e])
    requires e.StateCreated? || e.StateChanged? || e.StateDeleted?
    requires StoreAgrees(w1) && (StatesAgree(w) ==> StatesAgree(w1))
    ensures Inv(w1, busy, {}, g) && Evolves(w, w1)
  {
    hide HistOk, Consistent, CogOk, StoreAgrees, StatesAgree, GateOk;
    HistSameTasks(w, w1);
    if g.gate.Some? {
      GateStaysCalm(w, w1, [e], g.gate.value);
    }
    SamePlaces(w, w1, busy);
  }

  lemma InvBusy(w: World, busy: set<Pid>, closing: set<PlanId>, g: Track)
    requires Inv(w, busy, closing, g)
    ensures SameBusy(w, w, busy)
    ensures StoreAgrees(w)
  {}

  lemma PutStateStep(w: World, key: string, value: Value, busy: set<Pid>, g: Track)
    requires Inv(w, busy, {}, g)
    ensures var r := PutState(w, key, value);
      Inv(r, busy, {}, g) && Evolves(w, r) && SameBusy(w, r, busy)
  {
    InvBusy(w, busy, {}, g);
    hide Inv, Fold, EvaluateWaiting, Evolves, SameBusy, StoreAgrees, StatesAgree;
    EvolvesRefl(w);
    if key !in w.store || w.store[key] != value {
      var e := if key in w.store then StateChanged(key, value) else StateCreated(key, value);
      WriteAgrees(w, key, value, e);
      StoreStep(w, Emit(w.(store := w.store[key := value]), e), e, busy, g);
    }
  }

  lemma DeleteStateStep(w: World, key: string, busy: set<Pid>, g: Track)
    requires Inv(w, busy, {}, g)
    ensures var r := DeleteState(w, key);
      Inv(r, busy, {}, g) && Evolves(w, r) && SameBusy(w, r, busy)
  {
    InvBusy(w, busy, {}, g);
    hide Inv, Fold, EvaluateWaiting, Evolves, SameBusy, StoreAgrees, StatesAgree;
    EvolvesRefl(w);
    if key in w.store {
      EraseAgrees(w, key);
      StoreStep(w, Emit(w.(store := w.store - {key}), StateDeleted(key)), StateDeleted(key), busy, g);
    }
  }

  function Delivered(w: World, to: Pid, message: Value): World
    requires to in w.svc.mail
  {
    Emit(w.(svc := w.svc.(mail := w.svc.mail[to := w.svc.mail[to] + [message]])), MessageReceived(to))
  }

  lemma DeliveredAside(w: World, to: Pid, message: Value)
    requires to in w.svc.mail
    ensures Aside(w, Delivered(w, to, message))
  {
    assert Delivered(w, to, message).svc.mail.Keys == w.svc.mail.Keys;
  }

  lemma SendStep(w: World, to: Pid, message: Value, busy: set<Pid>, g: Track)
    requires Inv(w, busy, {}, g)
    ensures var (r, _) := Send(w, to, message);
      Inv(r, busy, {}, g) && Evolves(w, r) && SameBusy(w, r, busy)
  {
    hide Inv, EvaluateWaiting, Evolves, Aside, StoreAgrees;
    InvBusy(w, busy, {}, g);
    EvolvesRefl(w);
    if to in w.svc.mail {
      var w1 := Delivered(w, to, message);
      DeliveredAside(w, to, message);
      AsideSameCog(w, w1, busy, g);
      EvaluateStep(w1, busy, g);
      EvolvesTrans(w, w1, EvaluateWaiting(w1));
    }
  }

  // ------------------------------------------------------------------
  // Process bodies
  // ------------------------------------------------------------------

  predicate Quiet(op: BodyOp) {
    op.TakeMessage? || op.Remember? || op.UseTool? || op.SaveCheckpoint?
  }

  lemma QuietOpAside(w: World, p: Pid, op: BodyOp)
    requires Quiet(op)
    ensures Aside(w, RunOp(w, p, op).0) && RunOp(w, p, op).0.cog == w.cog
    ensures p in w.table ==> RunOp(w, p, op).0.table == w.table
  {
    hide RunOp, GrowsSilently;
    QuietOpMail(w, p, op);
    QuietOpElse(w, p, op);
    QuietOpLog(w, p, op);
  }

  lemma QuietOpElse(w: World, p: Pid, op: BodyOp)
    requires Quiet(op)
    ensures var r := RunOp(w, p, op).0;
      && r == w.(log := r.log, svc := r.svc) && r.svc.caps == w.svc.caps && r.svc.supervisor == w.svc.supervisor
  {
    hide Permitted, UsageOf, MemoryOf, CheckpointsOf;
  }

  lemma QuietOpMail(w: World, p: Pid, op: BodyOp)
    requires Quiet(op)
    ensures RunOp(w, p, op).0.svc.mail.Keys == w.svc.mail.Keys
  {
    hide Permitted;
    if op.TakeMessage? {
      assert Receive(w, p).svc.mail.Keys == w.svc.mail.Keys;
    }
  }

  lemma QuietOpLog(w: World, p: Pid, op: BodyOp)
    requires Quiet(op)
    ensures GrowsSilently(w.log, RunOp(w, p, op).0.log)
  {
    hide Permitted, Silent, GrowsSilently;
    NoneSilent(w.log);
    OneSilent(w.log, MemoryStored(p));
    OneSilent(w.log, CheckpointCreated(p));
  }

  lemma NoneSilent(log: seq<Event>)
    ensures GrowsSilently(log, log)
  {}

  lemma OneSilent(log: seq<Event>, e: Event)
    ensures Silent(e) ==> GrowsSilently(log, log + [e])
    ensures e.MemoryStored? || e.CheckpointCreated? || e.CheckpointRestored? || e.TaskEvent? ==> Silent(e)
  {}

  lemma QuietOpStep(w: World, p: Pid, op: BodyOp, g: Track)
    requires Inv(w, {p}, {}, g) && Quiet(op)
    ensures var r := RunOp(w, p, op).0;
      Inv(r, {p}, {}, g) && Evolves(w, r) && SameBusy(w, r, {p})
  {
    InvBusy(w, {p}, {}, g);
    hide Inv, Evolves, RunOp, Aside;
    QuietOpAside(w, p, op);
    AsideSameCog(w, RunOp(w, p, op).0, {p}, g);
  }

  lemma SpawnChildStep(w: World, p: Pid, d: string, priority: int, g: Track)
    requires Inv(w, {p}, {}, g) && p in w.table && d in w.registry
    ensures var r := RunOp(w, p, SpawnChild(d, priority)).0;
      Inv(r, {p}, {}, g) && Evolves(w, r) && SameBusy(w, r, {p})
  {
    hide Inv, Evolves, Enqueue, CapabilitiesFor;
    EvolvesRefl(w);
    var r := RunOp(w, p, SpawnChild(d, priority)).0;
    if Permitted(w, p, "process.create") {
      var w1 := Spawn(w, w.registry[d], w.table[p].goal, priority, {});
      SpawnStep(w, w.registry[d], w.table[p].goal, priority, {}, {p}, {}, g);
      hide Spawn;
      AsideSameCog(w1, r, {p}, g);
      EvolvesTrans(w, w1, r);
    }
  }

  lemma RunOpStep(w: World, p: Pid, op: BodyOp, g: Track)
    requires Inv(w, {p}, {}, g)
    ensures var (r, _) := RunOp(w, p, op);
      Inv(r, {p}, {}, g) && Evolves(w, r) && SameBusy(w, r, {p})
  {
    hide Inv, EvaluateWaiting, Evolves, PutState, DeleteState, Send, Spawn, Aside, TakeCheckpoint, Receive, Permitted,
      SameBusy;
    InvBusy(w, {p}, {}, g);
    EvolvesRefl(w);
    if Quiet(op) {
      QuietOpStep(w, p, op, g);
    } else {
      match op {
        case WriteState(k, v) => PutStateStep(w, k, v, {p}, g);
        case EraseState(k) => DeleteStateStep(w, k, {p}, g);
        case SendTo(to, m) => SendStep(w, to, m, {p}, g);
        case SpawnChild(d, priority) =>
          if p in w.table && d in w.registry {
            SpawnChildStep(w, p, d, priority, g);
          }
      }
    }
  }

  lemma {:induction false} RunOpsStep(w: World, p: Pid, ops: seq<BodyOp>, g: Track)
    requires Inv(w, {p}, {}, g)
    ensures var (r, _) := RunOps(w, p, ops);
      Inv(r, {p}, {}, g) && Evolves(w, r) && SameBusy(w, r, {p})
    decreases ops
  {
    hide Inv, Evolves, RunOp, SameBusy, StoreAgrees;
    InvBusy(w, {p}, {}, g);
    EvolvesRefl(w);
    if ops != [] {
      var (w1, ok) := RunOp(w, p, ops[0]);
      RunOpStep(w, p, ops[0], g);
      if ok {
        RunOpsStep(w1, p, ops[1..], g);
        EvolvesTrans(w, w1, RunOps(w1, p, ops[1..]).0);
        SameBusyChain(w, w1, RunOps(w1, p, ops[1..]).0, {p});
      }
    }
  }

  lemma SameBusyChain(a: World, b: World, c: World, busy: set<Pid>)
    requires SameBusy(a, b, busy) && SameBusy(b, c, busy)
    ensures SameBusy(a, c, busy)
  {}

  // ------------------------------------------------------------------
  // Dispatching, announcing, parking, resuming
  // ------------------------------------------------------------------

  /** Puts the parts of the invariant together after a step that leaves the plans alone. */
  lemma AssembleParts(w: World, r: World, busy: set<Pid>, busy': set<Pid>, g: Track)
    requires Inv(w, busy, {}, g)
    requires Consistent(r, busy') && TableGoesOn(w.table, busy, r.table, busy')
    requires r.cog == w.cog && HistOk(r) && w.log <= r.log && r.unused == w.unused && r.registry == w.registry
    requires r.svc.supervisor.None? <==> w.svc.supervisor.None?
    requires StoreAgrees(r) && (g.replays ==> StatesAgree(r))
    requires g.gate.Some? ==> GateOk(r, g.gate.value)
    ensures Inv(r, busy', {}, g) && Evolves(w, r)
  {
    hide Consistent, HistOk, CogOk, StatesAgree, StoreAgrees, GateOk, TableGoesOn;
    CogFrame(w.cog, w.table, busy, r.table, busy', {});
  }

  lemma Assemble(w: World, r: World, busy: set<Pid>, busy': set<Pid>, g: Track)
    requires Inv(w, busy, {}, g)
    requires Consistent(r, busy') && TableGoesOn(w.table, busy, r.table, busy')
    requires r.cog == w.cog && GrowsUnstarted(w.log, r.log) && r.unused == w.unused && r.registry == w.registry
    requires r.svc.supervisor.None? <==> w.svc.supervisor.None?
    requires StoreAgrees(r) && (g.replays ==> StatesAgree(r))
    requires g.gate.Some? ==> GateOk(r, g.gate.value)
    ensures Inv(r, busy', {}, g) && Evolves(w, r)
  {
    assert HistOk(w);
    hide Consistent, HistOk, PlansOk, StatesAgree, StoreAgrees, GateOk, TableGoesOn, GrowsUnstarted, Inv, Evolves;
    HistSameTasks(w, r);
    GrowthIsPrefix(w.log, r.log);
    AssembleParts(w, r, busy, busy', g);
  }

  lemma GrowthIsPrefix(log: seq<Event>, log': seq<Event>)
    requires GrowsUnstarted(log, log')
    ensures log <= log'
  {}

  lemma TakeNextStep(w: World, g: Track)
    requires Inv(w, {}, {}, g) && w.sched.queue != []
    ensures var p := w.sched.queue[0].pid;
      var r := TakeNext(w);
      && p in w.table && w.table[p].state == Ready && r.table == w.table && r.log == w.log
      && Inv(r, {p}, {}, g) && Evolves(w, r) && r.registry == w.registry && r.cog == w.cog
  {
    hide HistOk, PlansOk, Consistent;
    TakeNextKeeps(w);
    var p := w.sched.queue[0].pid;
    var r := TakeNext(w);
    if g.gate.Some? {
      GateStaysCalm(w, r, [], g.gate.value);
    }
    hide GateOk;
    Assemble(w, r, {}, {p}, g);
  }

  lemma BusyFacts(w: World, p: Pid)
    requires Consistent(w, {p})
    ensures p in w.table && p < w.unused && SchedOk(w.sched)
    ensures !Depends(w.sched, p) && !Queued(w.sched, p) && !Waits(w.sched, p)
  {}

  lemma BeginFacts(w: World, p: Pid)
    requires p in w.table && w.table[p].state == Ready
    ensures var r := Begin(w, p);
      && r.table == w.table[p := w.table[p].(state := Running)] && r == w.(table := r.table, log := r.log)
      && w.log <= r.log && TableGoesOn(w.table, {p}, r.table, {p})
      && SetState(w, p, Running) == w.(table := r.table)
  {}

  lemma BeginStep(w: World, p: Pid, g: Track)
    requires Inv(w, {p}, {}, g) && p in w.table && w.table[p].state == Ready
    ensures Inv(Begin(w, p), {p}, {}, g) && Evolves(w, Begin(w, p))
    ensures Begin(w, p).table == w.table[p := w.table[p].(state := Running)]
  {
    BusyFacts(w, p);
    assert HistOk(w) && PlansOk(w, {p}, {});
    var r := Begin(w, p);
    StateAndEvent(w, p, Running, ProcessStarted(p));
    BeginFacts(w, p);
    hide Consistent, HistOk, PlansOk, StatesAgree, StoreAgrees, Depends, SchedOk, Begin, SetState, TableGoesOn, GateOk;
    SetStateKeeps(w, p, Running, {p});
    SamePlaces(SetState(w, p, Running), r, {p});
    HistBegin(w, p, {p});
    if g.gate.Some? {
      GateBegin(w, p, g.gate.value);
    }
    AssembleParts(w, r, {p}, {p}, g);
  }

  lemma AnnounceLog(w: World, p: Pid, s: ProcessState, e: Event)
    requires !e.ProcessStarted?
    ensures GrowsUnstarted(w.log, Announce(w, p, s, e).log)
    ensures Logged(Announce(w, p, s, e).log, |Announce(w, p, s, e).log|, e)
  {
    hide EvaluateWaiting;
    var w1 := Emit(SetState(w, p, s), e);
    ReadyEventsStartNothing(w1);
    var log := Announce(w, p, s, e).log;
    assert w1.log <= log && w1.log[|w.log|] == e && w.log <= w1.log;
    assert log[|w.log|] == e;
  }

  lemma AnnounceAgrees(w: World, p: Pid, s: ProcessState, e: Event)
    requires p in w.table
    requires (s == Completed && e == ProcessCompleted(p)) || (s == Failed && e == ProcessFailed(p))
    ensures StatesAgree(w) ==> StatesAgree(Announce(w, p, s, e))
    ensures StoreAgrees(w) ==> StoreAgrees(Announce(w, p, s, e))
  {
    hide Fold, EvaluateWaiting;
    StateAndEvent(w, p, s, e);
    EvaluateWaitingAgrees(Emit(SetState(w, p, s), e));
  }

  lemma AnnouncePlaces(w: World, p: Pid, s: ProcessState, e: Event)
    requires Consistent(w, {p})
    ensures var r := Announce(w, p, s, e);
      && Consistent(r, {p}) && p in w.table && p in r.table && r.table[p] == w.table[p].(state := s)
      && OnlyWakes(w.table[p := w.table[p].(state := s)], r.table)
      && r == w.(table := r.table, log := r.log, sched := r.sched)
  {
    SetStateKeeps(w, p, s, {p});
    var w1 := Emit(SetState(w, p, s), e);
    SamePlaces(SetState(w, p, s), w1, {p});
    OnTerminalKeeps(w1, p, {p});
  }

  lemma RetiringGoesOn(table: map<Pid, Process>, p: Pid, s: ProcessState, table': map<Pid, Process>)
    requires p in table && table[p].state == Running && p in table' && table'[p] == table[p].(state := s)
    requires OnlyWakes(table[p := table[p].(state := s)], table')
    ensures TableGoesOn(table, {p}, table', {p})
  {}

  lemma AnnounceStep(w: World, p: Pid, s: ProcessState, e: Event, g: Track)
    requires Inv(w, {p}, {}, g) && p in w.table && w.table[p].state == Running
    requires (s == Completed && e == ProcessCompleted(p)) || (s == Failed && e == ProcessFailed(p))
    ensures var r := Announce(w, p, s, e);
      && Inv(r, {p}, {}, g) && Evolves(w, r) && p in r.table && r.table[p] == w.table[p].(state := s)
      && Logged(r.log, |r.log|, e) && r == w.(table := r.table, log := r.log, sched := r.sched)
  {
    hide Consistent, HistOk, PlansOk, StatesAgree, StoreAgrees, Announce, Logged, OnlyWakes, TableGoesOn, GateOk,
      SchedOk, GrowsUnstarted;
    AnnounceLog(w, p, s, e);
    AnnounceAgrees(w, p, s, e);
    AnnouncePlaces(w, p, s, e);
    BusyFacts(w, p);
    var r := Announce(w, p, s, e);
    RetiringGoesOn(w.table, p, s, r.table);
    if g.gate.Some? {
      GateNotify(w, p, e, s, g.gate.value);
    }
    Assemble(w, r, {p}, {p}, g);
  }

  lemma ParkFacts(w: World, p: Pid, c: Condition)
    requires p in w.table && w.table[p].state == Running
    ensures var r := Park(w, p, c);
      && r.log == w.log + [CheckpointCreated(p), ProcessWaiting(p)]
      && r.sched == MarkWaiting(w.sched, p, c) && r.cog == w.cog && r.store == w.store
      && r.unused == w.unused && r.registry == w.registry && r.svc.supervisor == w.svc.supervisor
      && r.table == w.table[p := w.table[p].(state := Waiting)]
      && TableGoesOn(w.table, {p}, r.table, {})
  {}

  lemma ParkAgrees(w: World, p: Pid, r: World)
    requires p in w.table && r.log == w.log + [CheckpointCreated(p), ProcessWaiting(p)]
    requires r.table == w.table[p := w.table[p].(state := Waiting)] && r.store == w.store
    ensures StatesAgree(w) ==> StatesAgree(r)
    ensures StoreAgrees(w) ==> StoreAgrees(r)
  {
    hide Fold;
    FoldTwo(w.log, CheckpointCreated(p), ProcessWaiting(p));
  }

  lemma ParkStep(w: World, p: Pid, c: Condition, g: Track)
    requires Inv(w, {p}, {}, g) && p in w.table && w.table[p].state == Running
    ensures Inv(Park(w, p, c), {}, {}, g) && Evolves(w, Park(w, p, c))
  {
    hide Consistent, HistOk, PlansOk, StatesAgree, StoreAgrees, TableGoesOn, GateOk, Park;
    var r := Park(w, p, c);
    ParkFacts(w, p, c);
    ParkKeeps(w, p, c);
    ParkAgrees(w, p, r);
    if g.gate.Some? {
      GateStaysCalm(w, r, [CheckpointCreated(p), ProcessWaiting(p)], g.gate.value);
    }
    Assemble(w, r, {p}, {}, g);
  }

  /** `r` is `w` with process `p` READY and queued again. */
  lemma ResumeStep(w: World, p: Pid, g: Track)
    requires Inv(w, {p}, {}, g) && p in w.table && w.table[p].state == Failed && !g.replays
    ensures var r := RecordRetry(PrepareForResume(w, p), p);
      && Inv(r, {}, {}, g) && Evolves(w, r) && r.table == w.table[p := w.table[p].(state := Ready)] && r.log == w.log
  {
    hide Consistent, HistOk, PlansOk, StatesAgree, StoreAgrees, GateOk, Enqueue, CapabilitiesFor;
    var w1 := PrepareForResume(w, p);
    var r := RecordRetry(w1, p);
    PrepareForResumeKeeps(w, p);
    SamePlaces(w1, r, {});
    BusyFacts(w, p);
    EnqueuePlaces(w.sched, p, 0, {});
    SameStore(w, r);
    if g.gate.Some? {
      GateStaysCalm(w, r, [], g.gate.value);
    }
    Assemble(w, r, {p}, {}, g);
  }

  lemma SameStore(w: World, r: World)
    requires r.store == w.store && r.log == w.log
    ensures StoreAgrees(w) ==> StoreAgrees(r)
  {}

  /** The supervisor will take the process back. */
  predicate Revivable(w: World, p: Pid) {
    Decide(w, p).Restore? || Decide(w, p).Retry?
  }

  /** Without a supervisor nothing is revived; with one, the log no longer says so. */
  function Untold(w: World, p: Pid, g: Track): Track {
    if Revivable(w, p) then g.(replays := false) else g
  }

  lemma Forget(w: World, busy: set<Pid>, g: Track)
    requires Inv(w, busy, {}, g)
    ensures Inv(w, busy, {}, g.(replays := false))
  {}

  lemma RestoreAside(w: World, p: Pid, c: Checkpoint)
    ensures var r := RestoreCheckpoint(w, p, c);
      Aside(w, r) && r.cog == w.cog && r.table == w.table && Fold(r.log).states == Fold(w.log).states
  {
    hide Fold;
    OneSilent(w.log, CheckpointRestored(p));
    FoldSnoc(w.log, CheckpointRestored(p));
  }

  lemma ResumeFromCheckpoint(w: World, p: Pid, c: Checkpoint, g: Track)
    requires Inv(w, {p}, {}, g) && p in w.table && w.table[p].state == Failed
    ensures var r := RecordRetry(PrepareForResume(RestoreCheckpoint(w, p, c), p), p);
      && Inv(r, {}, {}, g.(replays := false)) && Evolves(w, r) && r.table == w.table[p := w.table[p].(state := Ready)]
      && Fold(r.log).states == Fold(w.log).states
  {
    Forget(w, {p}, g);
    hide Inv, Evolves, PrepareForResume, RecordRetry, Fold, RestoreCheckpoint, Aside;
    var h := g.(replays := false);
    var w1 := RestoreCheckpoint(w, p, c);
    RestoreAside(w, p, c);
    AsideSameCog(w, w1, {p}, h);
    ResumeStep(w1, p, h);
    EvolvesTrans(w, w1, RecordRetry(PrepareForResume(w1, p), p));
  }

  lemma ResumeForRetry(w: World, p: Pid, n: nat, g: Track)
    requires Inv(w, {p}, {}, g) && p in w.table && w.table[p].state == Failed && w.svc.supervisor.Some?
    ensures var w1 := w.(svc := w.svc.(supervisor := Some(w.svc.supervisor.value[p := n])));
      var r := RecordRetry(PrepareForResume(w1, p), p);
      && Inv(r, {}, {}, g.(replays := false)) && Evolves(w, r) && r.table == w.table[p := w.table[p].(state := Ready)]
      && r.log == w.log
  {
    Forget(w, {p}, g);
    hide Inv, Evolves, PrepareForResume, RecordRetry;
    var h := g.(replays := false);
    var w1 := w.(svc := w.svc.(supervisor := Some(w.svc.supervisor.value[p := n])));
    AsideSameCog(w, w1, {p}, h);
    ResumeStep(w1, p, h);
    EvolvesTrans(w, w1, RecordRetry(PrepareForResume(w1, p), p));
  }

  /** A supervised failure either ends the process or puts it back in the queue at once. */
  lemma SuperviseStep(w: World, p: Pid, g: Track)
    requires Inv(w, {p}, {}, g) && p in w.table && w.table[p].state == Failed
    ensures var r := Supervise(w, p);
      if Revivable(w, p) then
        && Inv(r, {}, {}, Untold(w, p, g)) && Evolves(w, r) && r.table == w.table[p := w.table[p].(state := Ready)]
        && Fold(r.log).states == Fold(w.log).states
      else r == w
  {
    hide Inv, Evolves, Fold, RestoreCheckpoint, PrepareForResume, RecordRetry;
    match Decide(w, p) {
      case Restore(c) => ResumeFromCheckpoint(w, p, c, g);
      case Retry(n) => ResumeForRetry(w, p, n, g);
      case _ =>
    }
  }

  // ------------------------------------------------------------------
  // Plans
  // ------------------------------------------------------------------

  /** Every task's process definition is in the registry. */
  ghost predicate Registered(w: World) {
    forall t :: t in w.cog.tasks ==> w.cog.tasks[t].definition in w.registry
  }

  /** `r.cog` is a change of `w.cog` within what the history allows. */
  lemma CogStep(w: World, r: World, busy: set<Pid>, closing: set<PlanId>, closing': set<PlanId>, g: Track)
    requires Inv(w, busy, closing, g) && Aside(w, r) && PlansOk(r, busy, closing')
    requires ProcessesGoOn(w.cog, r.cog, w.unused) && CogEvolves(w.cog, r.cog)
    requires forall t :: t in r.cog.tasks && r.cog.tasks[t].state == TaskCompleted && r.cog.tasks[t].process.Some? ==>
      Logged(r.log, |r.log|, ProcessCompleted(r.cog.tasks[t].process.value))
    ensures Inv(r, busy, closing', g) && Evolves(w, r)
  {
    SilentStartsNothing(w.log, r.log);
    hide PlansOk, HistOk, Consistent, CogEvolves, ProcessesGoOn, Logged, GrowsUnstarted;
    assert HistOk(r) by { HistGrows(w, r); }
    AsideKeeps(w, r, busy, closing, closing', g);
  }

  /** Steps on the plans that complete no task. */
  lemma CogStepCompletesNothing(w: World, r: World, busy: set<Pid>, closing: set<PlanId>, closing': set<PlanId>,
      g: Track)
    requires Inv(w, busy, closing, g) && Aside(w, r) && PlansOk(r, busy, closing')
    requires ProcessesGoOn(w.cog, r.cog, w.unused) && CogEvolves(w.cog, r.cog)
    requires forall t :: t in r.cog.tasks && r.cog.tasks[t].state == TaskCompleted ==>
      t in w.cog.tasks && w.cog.tasks[t].state == TaskCompleted && w.cog.tasks[t].process == r.cog.tasks[t].process
    ensures Inv(r, busy, closing', g) && Evolves(w, r)
  {
    forall t | t in r.cog.tasks && r.cog.tasks[t].state == TaskCompleted && r.cog.tasks[t].process.Some?
      ensures Logged(r.log, |r.log|, ProcessCompleted(r.cog.tasks[t].process.value))
    {
      LoggedLater(w.log, r.log, ProcessCompleted(r.cog.tasks[t].process.value));
    }
    hide Inv, PlansOk, Aside, Logged, CogEvolves, ProcessesGoOn;
    CogStep(w, r, busy, closing, closing', g);
  }

  lemma {:induction false} ReadyEventsSilent(c: Cognition, ids: seq<TaskId>)
    ensures forall e :: e in ReadyEvents(c, ids) ==> e.TaskEvent?
  {
    if ids != [] {
      ReadyEventsSilent(c, ids[..|ids| - 1]);
    }
  }

  lemma UpdateReadyAside(w: World, q: PlanId)
    ensures Aside(w, UpdateReady(w, q)) && CogEvolves(w.cog, UpdateReady(w, q).cog)
    ensures ProcessesGoOn(w.cog, UpdateReady(w, q).cog, w.unused)
  {
    var ids := TasksOf(w.cog, q);
    ReadyEventsSilent(w.cog, ids);
    hide DepsMet;
    var more := ReadyEvents(w.cog, ids);
    forall i | |w.log| <= i < |w.log + more| ensures Silent((w.log + more)[i]) {
      assert (w.log + more)[i] in more;
    }
  }

  lemma UpdateReadyStep(w: World, q: PlanId, busy: set<Pid>, closing: set<PlanId>, g: Track)
    requires Inv(w, busy, closing, g)
    ensures Inv(UpdateReady(w, q), busy, closing, g) && Evolves(w, UpdateReady(w, q))
    ensures UpdateReady(w, q).table == w.table
  {
    hide Consistent, HistOk, CogOk, Aside, CogEvolves, ProcessesGoOn, BecomesReady;
    UpdateReadyKeeps(w, q, busy, closing);
    UpdateReadyAside(w, q);
    CogStepCompletesNothing(w, UpdateReady(w, q), busy, closing, closing, g);
  }

  lemma StartedEvolves(c: Cognition, t: TaskId, p: Pid)
    requires t in c.tasks && c.tasks[t].state == TaskReady && c.tasks[t].process == None
    requires c.tasks[t].plan in c.plans && c.plans[c.tasks[t].plan].state == PlanActive
    ensures CogEvolves(c, Started(c, t, p)) && ProcessesGoOn(c, Started(c, t, p), p)
  {}

  lemma StartTaskHistory(w: World, t: TaskId, d: Definition, goal: GoalId)
    requires HistOk(w) && t in w.cog.tasks && w.cog.tasks[t].state == TaskReady
    requires ProcessesGoOn(w.cog, Started(w.cog, t, w.unused), w.unused)
    ensures HistOk(StartTask(w, t, d, goal))
  {
    hide Enqueue, CapabilitiesFor, Logged, DepsDone;
    var r := StartTask(w, t, d, goal);
    assert r.cog == Started(w.cog, t, w.unused);
    assert w.log <= r.log;
    forall u | u in r.cog.tasks && r.cog.tasks[u].state == TaskCompleted && r.cog.tasks[u].process.Some?
      ensures Logged(r.log, |r.log|, ProcessCompleted(r.cog.tasks[u].process.value))
    {
      LoggedLater(w.log, r.log, ProcessCompleted(r.cog.tasks[u].process.value));
    }
    HistGrows(w, r);
  }

  lemma StartTaskAside(w: World, t: TaskId, d: Definition, goal: GoalId)
    requires t in w.cog.tasks
    ensures Aside(Spawn(w, d, Some(goal), w.cog.tasks[t].priority, {}), StartTask(w, t, d, goal))
  {
    hide Spawn;
    OneSilent(Spawn(w, d, Some(goal), w.cog.tasks[t].priority, {}).log, TaskEvent(t, TaskRunning));
  }

  lemma StartTaskStep(w: World, t: TaskId, d: Definition, goal: GoalId, busy: set<Pid>, closing: set<PlanId>, g: Track)
    requires Inv(w, busy, closing, g)
    requires t in w.cog.tasks && w.cog.tasks[t].state == TaskReady
    requires w.cog.tasks[t].plan in w.cog.plans && w.cog.plans[w.cog.tasks[t].plan].state == PlanActive
    ensures var r := StartTask(w, t, d, goal);
      && Inv(r, busy, closing, g) && Evolves(w, r) && SameBusy(w, r, busy) && r.cog == Started(w.cog, t, w.unused)
  {
    InvTask(w, busy, closing, g, t);
    var w1 := Spawn(w, d, Some(goal), w.cog.tasks[t].priority, {});
    var r := StartTask(w, t, d, goal);
    SpawnStep(w, d, Some(goal), w.cog.tasks[t].priority, {}, busy, closing, g);
    hide Inv, CogEvolves, ProcessesGoOn, Spawn, StartTask, Aside, HistOk, PlansOk;
    StartedEvolves(w.cog, t, w.unused);
    StartTaskKeeps(w, t, d, goal, busy, closing);
    StartTaskHistory(w, t, d, goal);
    StartTaskAside(w, t, d, goal);
    AsideKeeps(w1, r, busy, closing, closing, g);
    AsideFrame(w, w1, r, busy);
  }

  lemma InvTask(w: World, busy: set<Pid>, closing: set<PlanId>, g: Track, t: TaskId)
    requires Inv(w, busy, closing, g) && t in w.cog.tasks
    ensures PlansOk(w, busy, closing) && HistOk(w) && TaskOk(w.cog, w.table, busy, t)
  {}

  lemma AsideFrame(w: World, w1: World, r: World, busy: set<Pid>)
    requires Evolves(w, w1) && Aside(w1, r) && CogEvolves(w.cog, r.cog) && SameBusy(w, w1, busy)
    ensures Evolves(w, r) && SameBusy(w, r, busy)
  {
    hide CogEvolves;
  }

  /** `ids` are distinct ready tasks of plan `q`, which is active. */
  ghost predicate ReadyIds(c: Cognition, q: PlanId, ids: seq<TaskId>) {
    && q in c.plans && c.plans[q].state == PlanActive
    && (forall i, j :: 0 <= i < j < |ids| ==> ids[i] != ids[j])
    && (forall t :: t in ids ==> t in c.tasks && c.tasks[t].state == TaskReady && c.tasks[t].plan == q)
  }

  /** All of `ids` are running now, and nothing else about the plans has changed. */
  ghost predicate AllStarted(c: Cognition, c': Cognition, ids: seq<TaskId>) {
    && c'.plans == c.plans && c'.goals == c.goals && c'.order == c.order && c'.tasks.Keys == c.tasks.Keys
    && forall t :: t in c.tasks ==>
      if t in ids then c'.tasks[t] == c.tasks[t].(state := TaskRunning, process := c'.tasks[t].process)
      else c'.tasks[t] == c.tasks[t]
  }

  /** The spawn loop raises exactly at an unregistered definition; otherwise it starts every
      task it was given. */
  lemma {:induction false} StartTasksStep(w: World, q: PlanId, goal: GoalId, ids: seq<TaskId>, busy: set<Pid>,
      closing: set<PlanId>, g: Track)
    requires Inv(w, busy, closing, g) && ReadyIds(w.cog, q, ids)
    ensures var (r, raised) := StartTasks(w, goal, ids);
      && (!raised ==>
            && Inv(r, busy, closing, g) && Evolves(w, r) && SameBusy(w, r, busy)
            && AllStarted(w.cog, r.cog, ids))
      && (Registered(w) ==> !raised)
    decreases ids
  {
    hide Inv, Evolves, SameBusy, StartTask, Registered, PlansOk, HistOk, StoreAgrees;
    InvBusy(w, busy, closing, g);
    if ids == [] {
      EvolvesRefl(w);
    } else {
      var t := ids[0];
      ReadyIsFree(w, busy, closing, g, t);
      RegisteredAt(w, t);
      if w.cog.tasks[t].definition in w.registry {
        var d := w.registry[w.cog.tasks[t].definition];
        var w1 := StartTask(w, t, d, goal);
        StartTaskStep(w, t, d, goal, busy, closing, g);
        RegisteredStays(w, t, d, goal);
        StartedLeavesReady(w.cog, q, ids, w.unused);
        StartTasksStep(w1, q, goal, ids[1..], busy, closing, g);
        StartTasksCons(w, w1, q, goal, ids, busy, closing, g);
      }
    }
  }

  lemma ReadyIsFree(w: World, busy: set<Pid>, closing: set<PlanId>, g: Track, t: TaskId)
    requires Inv(w, busy, closing, g) && t in w.cog.tasks && w.cog.tasks[t].state == TaskReady
    ensures w.cog.tasks[t].process == None
  {
    InvTask(w, busy, closing, g, t);
    hide Inv;
  }

  lemma RegisteredAt(w: World, t: TaskId)
    ensures Registered(w) && t in w.cog.tasks ==> w.cog.tasks[t].definition in w.registry
  {}

  lemma RegisteredStays(w: World, t: TaskId, d: Definition, goal: GoalId)
    requires t in w.cog.tasks
    ensures Registered(w) ==> Registered(StartTask(w, t, d, goal))
  {
    hide Enqueue, CapabilitiesFor;
  }

  lemma StartedLeavesReady(c: Cognition, q: PlanId, ids: seq<TaskId>, p: Pid)
    requires ReadyIds(c, q, ids) && ids != []
    ensures ReadyIds(Started(c, ids[0], p), q, ids[1..])
  {}

  lemma StartTasksCons(w: World, w1: World, q: PlanId, goal: GoalId, ids: seq<TaskId>, busy: set<Pid>,
      closing: set<PlanId>, g: Track)
    requires ids != [] && ReadyIds(w.cog, q, ids)
    requires Evolves(w, w1) && SameBusy(w, w1, busy) && w1.cog == Started(w.cog, ids[0], w.unused)
    ensures var (r, raised) := StartTasks(w1, goal, ids[1..]);
      Evolves(w1, r) && SameBusy(w1, r, busy) && AllStarted(w1.cog, r.cog, ids[1..]) ==>
      Evolves(w, r) && SameBusy(w, r, busy) && AllStarted(w.cog, r.cog, ids)
  {
    hide StartTasks, Evolves;
    var (r, raised) := StartTasks(w1, goal, ids[1..]);
    if Evolves(w1, r) && SameBusy(w1, r, busy) && AllStarted(w1.cog, r.cog, ids[1..]) {
      EvolvesTrans(w, w1, r);
      assert forall t :: t in ids <==> t == ids[0] || t in ids[1..];
    }
  }

  lemma {:induction false} ReadyTasksFacts(c: Cognition, ids: seq<TaskId>)
    requires forall i, j :: 0 <= i < j < |ids| ==> ids[i] != ids[j]
    ensures var r := ReadyTasks(c, ids);
      && (forall i, j :: 0 <= i < j < |r| ==> r[i] != r[j])
      && (forall t :: t in r <==> t in ids && t in c.tasks && c.tasks[t].state == TaskReady)
  {
    if ids != [] {
      ReadyTasksFacts(c, ids[1..]);
      var rest := ReadyTasks(c, ids[1..]);
      assert ids == [ids[0]] + ids[1..];
      assert ids[0] !in ids[1..];
      assert forall j :: 0 <= j < |rest| ==> rest[j] in rest;
    }
  }

  lemma NoneStarted(c: Cognition)
    ensures AllStarted(c, c, [])
  {}

  lemma InvPlans(w: World, busy: set<Pid>, closing: set<PlanId>, g: Track)
    requires Inv(w, busy, closing, g)
    ensures PlansOk(w, busy, closing)
  {
    hide PlansOk;
  }

  lemma PlanReadyIds(w: World, q: PlanId, busy: set<Pid>, closing: set<PlanId>)
    requires PlansOk(w, busy, closing) && q in w.cog.plans && w.cog.plans[q].state == PlanActive
    ensures ReadyIds(w.cog, q, ReadyTasks(w.cog, w.cog.plans[q].tasks))
  {
    assert PlanOk(w.cog, q, q in closing);
    hide TaskOk;
    ReadyTasksFacts(w.cog, w.cog.plans[q].tasks);
  }

  /** `_spawn_ready_tasks`: nothing at all unless the plan is active. */
  lemma SpawnReadyStep(w: World, q: PlanId, busy: set<Pid>, closing: set<PlanId>, g: Track)
    requires Inv(w, busy, closing, g) && q in w.cog.plans
    ensures var (r, raised) := SpawnReady(w, q);
      && (!raised ==>
            && Inv(r, busy, closing, g) && Evolves(w, r) && SameBusy(w, r, busy)
            && AllStarted(w.cog, r.cog, if w.cog.plans[q].state == PlanActive
                 then ReadyTasks(w.cog, w.cog.plans[q].tasks) else []))
      && (Registered(w) ==> !raised)
  {
    hide Inv, Evolves, SameBusy, Registered, AllStarted, ReadyIds, StartTasks, ReadyTasks, StoreAgrees, PlansOk;
    InvBusy(w, busy, closing, g);
    EvolvesRefl(w);
    NoneStarted(w.cog);
    if w.cog.plans[q].state == PlanActive {
      InvPlans(w, busy, closing, g);
      PlanReadyIds(w, q, busy, closing);
      StartTasksStep(w, q, w.cog.plans[q].goal, ReadyTasks(w.cog, w.cog.plans[q].tasks), busy, closing, g);
    }
  }

  /** No task of the plan is waiting to be made ready or to be started. */
  ghost predicate Settled(c: Cognition, q: PlanId) {
    forall t :: t in TasksOf(c, q) && t in c.tasks ==> c.tasks[t].state != TaskReady && !BecomesReady(c, t)
  }

  lemma ReadyAndStartedSame(c: Cognition, c': Cognition, ids: seq<TaskId>, started: seq<TaskId>)
    requires AllStarted(Readied(c, ids), c', started)
    requires forall t :: t in started && t in c.tasks ==> Readied(c, ids).tasks[t].state == TaskReady
    ensures forall t :: t in c.tasks ==>
      t in c'.tasks && (c'.tasks[t].state == TaskCompleted <==> c.tasks[t].state == TaskCompleted)
    ensures forall deps: seq<TaskId> :: DepsMet(c', deps) <==> DepsMet(c, deps)
  {
    hide DepsMet;
    SameCompleted(c, c');
  }

  lemma SameCompleted(c: Cognition, c': Cognition)
    requires c'.tasks.Keys == c.tasks.Keys
    requires forall t :: t in c.tasks ==> (c'.tasks[t].state == TaskCompleted <==> c.tasks[t].state == TaskCompleted)
    ensures forall deps: seq<TaskId> :: DepsMet(c', deps) <==> DepsMet(c, deps)
  {}

  lemma ReadyAndStartedSettles(c: Cognition, c': Cognition, q: PlanId)
    requires q in c.plans
    requires AllStarted(Readied(c, c.plans[q].tasks), c', ReadyTasks(Readied(c, c.plans[q].tasks), c.plans[q].tasks))
    requires forall i, j :: 0 <= i < j < |c.plans[q].tasks| ==> c.plans[q].tasks[i] != c.plans[q].tasks[j]
    ensures Settled(c', q)
    ensures forall t :: t in c.tasks ==>
      t in c'.tasks && (c'.tasks[t].state == TaskCompleted <==> c.tasks[t].state == TaskCompleted)
  {
    var ids := c.plans[q].tasks;
    var c1 := Readied(c, ids);
    hide DepsMet, ReadyTasks;
    ReadyTasksFacts(c1, ids);
    ReadyAndStartedSame(c, c', ids, ReadyTasks(c1, ids));
  }

  lemma CompletedEvolves(c: Cognition, t: TaskId, unused: Pid)
    requires t in c.tasks && c.tasks[t].state == TaskRunning
    ensures CogEvolves(c, WithState(c, t, TaskCompleted)) && ProcessesGoOn(c, WithState(c, t, TaskCompleted), unused)
  {}

  lemma SetTaskAside(w: World, t: TaskId, s: TaskState)
    requires t in w.cog.tasks
    ensures Aside(w, SetTask(w, t, s)) && SetTask(w, t, s).cog == WithState(w.cog, t, s)
  {
    OneSilent(w.log, TaskEvent(t, s));
  }

  lemma SetCompletedLogged(w: World, t: TaskId, p: Pid)
    requires HistOk(w) && t in w.cog.tasks && w.cog.tasks[t].process == Some(p)
    requires Logged(w.log, |w.log|, ProcessCompleted(p))
    ensures var r := SetTask(w, t, TaskCompleted);
      forall u :: u in r.cog.tasks && r.cog.tasks[u].state == TaskCompleted && r.cog.tasks[u].process.Some? ==>
        Logged(r.log, |r.log|, ProcessCompleted(r.cog.tasks[u].process.value))
  {
    hide Logged, DepsDone;
    var r := SetTask(w, t, TaskCompleted);
    forall u | u in r.cog.tasks && r.cog.tasks[u].state == TaskCompleted && r.cog.tasks[u].process.Some?
      ensures Logged(r.log, |r.log|, ProcessCompleted(r.cog.tasks[u].process.value))
    {
      LoggedLater(w.log, r.log, ProcessCompleted(r.cog.tasks[u].process.value));
    }
  }

  lemma SetCompletedStep(w: World, t: TaskId, p: Pid, g: Track)
    requires Inv(w, {p}, {}, g)
    requires t in w.cog.tasks && w.cog.tasks[t].state == TaskRunning && w.cog.tasks[t].process == Some(p)
    requires p in w.table && w.table[p].state == Completed && Logged(w.log, |w.log|, ProcessCompleted(p))
    ensures var r := SetTask(w, t, TaskCompleted);
      Inv(r, {p}, {w.cog.tasks[t].plan}, g) && Evolves(w, r) && r.table == w.table
  {
    InvTask(w, {p}, {}, g, t);
    hide Inv, PlansOk, Logged, CogEvolves, ProcessesGoOn, Aside, SetTask, HistOk, TaskOk;
    var r := SetTask(w, t, TaskCompleted);
    SetCompletedKeeps(w, t, {p});
    CompletedEvolves(w.cog, t, w.unused);
    SetTaskAside(w, t, TaskCompleted);
    SetCompletedLogged(w, t, p);
    CogStep(w, r, {p}, {}, {w.cog.tasks[t].plan}, g);
  }

  lemma ClosedEvolves(c: Cognition, q: PlanId, ps: PlanState, unused: Pid)
    requires q in c.plans && c.plans[q].state in {PlanActive, ps}
    ensures CogEvolves(c, Closed(c, q, ps)) && ProcessesGoOn(c, Closed(c, q, ps), unused)
  {}

  lemma ClosePlanAside(w: World, q: PlanId, ps: PlanState, gs: GoalState)
    requires q in w.cog.plans
    ensures Aside(w, ClosePlan(w, q, ps, gs).0)
  {}

  lemma CheckCompletionStep(w: World, q: PlanId, busy: set<Pid>, g: Track)
    requires Inv(w, busy, {q}, g) && q in w.cog.plans
    ensures var (r, raised) := CheckCompletion(w, q);
      && !raised && Inv(r, busy, {}, g) && Evolves(w, r) && r.table == w.table
      && r.cog.tasks == w.cog.tasks && TasksOf(r.cog, q) == TasksOf(w.cog, q) && r.cog.plans.Keys == w.cog.plans.Keys
  {
    hide Inv, PlansOk, Aside, CheckCompletion, Closed, CogEvolves, ProcessesGoOn;
    InvPlans(w, busy, {q}, g);
    CheckCompletionKeeps(w, q, busy);
    var r := CheckCompletion(w, q).0;
    ClosingIsLegal(w, q, busy);
    CheckCompletionAside(w, q);
    SameAside(w);
    CogStepCompletesNothing(w, r, busy, {q}, {}, g);
  }

  lemma ClosingIsLegal(w: World, q: PlanId, busy: set<Pid>)
    requires PlansOk(w, busy, {q}) && q in w.cog.plans
    ensures var c' := Closed(w.cog, q, PlanCompleted);
      && c'.tasks == w.cog.tasks && TasksOf(c', q) == TasksOf(w.cog, q) && c'.plans.Keys == w.cog.plans.Keys
      && (AllCompleted(w.cog, w.cog.plans[q].tasks) && w.cog.plans[q].tasks != [] ==>
            CogEvolves(w.cog, c') && ProcessesGoOn(w.cog, c', w.unused))
  {
    hide CogEvolves, ProcessesGoOn, TaskOk;
    assert PlanOk(w.cog, q, true);
    if AllCompleted(w.cog, w.cog.plans[q].tasks) && w.cog.plans[q].tasks != [] {
      ClosedEvolves(w.cog, q, PlanCompleted, w.unused);
    }
  }

  lemma CheckCompletionAside(w: World, q: PlanId)
    requires q in w.cog.plans
    ensures Aside(w, CheckCompletion(w, q).0)
  {
    hide Aside, ClosePlan, CogEvolves, ProcessesGoOn;
    SameAside(w);
    ClosePlanAside(w, q, PlanCompleted, GoalCompleted);
  }

  lemma SameAside(w: World)
    ensures Aside(w, w) && CogEvolves(w.cog, w.cog) && ProcessesGoOn(w.cog, w.cog, w.unused)
  {}

  // ------------------------------------------------------------------
  // A process that completes or fails
  // ------------------------------------------------------------------

  /** No task is running on the process. */
  ghost predicate Released(c: Cognition, p: Pid) {
    forall t :: t in c.tasks && c.tasks[t].process == Some(p) ==> c.tasks[t].state != TaskRunning
  }

  /** No task outside plan `q` has changed. */
  ghost predicate OthersSame(c: Cognition, c': Cognition, q: PlanId) {
    forall u :: u in c.tasks && c.tasks[u].plan != q ==> u in c'.tasks && c'.tasks[u] == c.tasks[u]
  }

  /** What the completion of process `p` does to the plans: its running task, if any, is
      COMPLETED, and if the task's plan is active every task that now can run does. */
  ghost predicate CompletionEffect(c: Cognition, c': Cognition, p: Pid) {
    && c'.tasks.Keys == c.tasks.Keys && c'.plans.Keys == c.plans.Keys
    && (forall t :: t in c.tasks ==>
          if c.tasks[t].process == Some(p) && c.tasks[t].state == TaskRunning then
            c'.tasks[t].state == TaskCompleted
            && (c.tasks[t].plan in c.plans && c.plans[c.tasks[t].plan].state == PlanActive ==>
                 Settled(c', c.tasks[t].plan))
          else c'.tasks[t].state == TaskCompleted <==> c.tasks[t].state == TaskCompleted)
    && (forall t :: t in c.tasks ==> (c'.tasks[t].state == TaskFailed <==> c.tasks[t].state == TaskFailed))
    && (forall t :: t in c.tasks && c.tasks[t].process == Some(p) && c.tasks[t].state == TaskRunning ==>
         OthersSame(c, c', c.tasks[t].plan))
    && ((forall t :: t in c.tasks && c.tasks[t].process == Some(p) ==> c.tasks[t].state != TaskRunning) ==> c' == c)
  }

  lemma TaskCompletesStep(w: World, p: Pid, g: Track)
    requires Inv(w, {p}, {}, g) && p in w.table && w.table[p].state == Completed
    requires Logged(w.log, |w.log|, ProcessCompleted(p))
    ensures var (r, raised) := TaskCompletes(w, p);
      && (!raised ==>
            && Inv(r, {p}, {}, g) && Evolves(w, r) && SameBusy(w, r, {p})
            && Released(r.cog, p) && CompletionEffect(w.cog, r.cog, p))
      && (Registered(w) ==> !raised)
  {
    hide Inv, Evolves, SameBusy, SetTask, UpdateReady, SpawnReady, CheckCompletion, Registered, Logged, TaskOf, TaskOk,
      PlansOk, HistOk;
    InvBusy(w, {p}, {}, g);
    EvolvesRefl(w);
    TaskOfFinds(w.cog, w.cog.order, p);
    match TaskOf(w.cog, w.cog.order, p) {
      case None =>
        NoTask(w, p, g);
      case Some(t) =>
        InvTask(w, {p}, {}, g, t);
        RunningOrFinished(w.cog, w.table, p, t);
        if w.cog.tasks[t].state.IsFinished() {
          OneTaskPerProcess(w, p, t, g);
        } else {
          RunningTaskCompletes(w, p, t, g);
        }
    }
  }

  lemma RunningOrFinished(c: Cognition, table: map<Pid, Process>, p: Pid, t: TaskId)
    requires t in c.tasks && TaskOk(c, table, {p}, t) && c.tasks[t].process.Some?
    ensures c.tasks[t].state == TaskRunning || c.tasks[t].state.IsFinished()
  {}

  lemma NoTask(w: World, p: Pid, g: Track)
    requires Inv(w, {p}, {}, g)
    requires forall t :: t in w.cog.order && t in w.cog.tasks ==> w.cog.tasks[t].process != Some(p)
    ensures forall t :: t in w.cog.tasks ==> w.cog.tasks[t].process != Some(p)
  {}

  lemma OneTaskPerProcess(w: World, p: Pid, t: TaskId, g: Track)
    requires Inv(w, {p}, {}, g) && t in w.cog.tasks && w.cog.tasks[t].process == Some(p)
    ensures forall u :: u in w.cog.tasks && w.cog.tasks[u].process == Some(p) ==> u == t
  {}

  lemma CompletionChain(c: Cognition, t: TaskId, p: Pid, c3: Cognition, c4: Cognition)
    requires t in c.tasks && c.tasks[t].process == Some(p) && c.tasks[t].state == TaskRunning
    requires forall u :: u in c.tasks && c.tasks[u].process == Some(p) ==> u == t
    requires forall u :: u in c.tasks && c.tasks[u].process.Some? ==>
      c.tasks[u].state in {TaskRunning, TaskCompleted, TaskFailed}
    requires var q := c.tasks[t].plan;
      && q in c.plans && (forall i, j :: 0 <= i < j < |c.plans[q].tasks| ==> c.plans[q].tasks[i] != c.plans[q].tasks[j])
      && (forall u :: u in c.plans[q].tasks && u in c.tasks ==> c.tasks[u].plan == q)
      && var c2 := Readied(WithState(c, t, TaskCompleted), c.plans[q].tasks);
      && AllStarted(c2, c3, if c.plans[q].state == PlanActive then ReadyTasks(c2, c.plans[q].tasks) else [])
      && c4.tasks == c3.tasks && TasksOf(c4, q) == TasksOf(c3, q) && c4.plans.Keys == c3.plans.Keys
    requires forall u :: u in c3.tasks && c3.tasks[u].state == TaskRunning && c3.tasks[u].process == Some(p) ==>
      u in c.tasks && c.tasks[u].process == Some(p)
    ensures Released(c4, p) && CompletionEffect(c, c4, p)
  {
    hide DepsMet, Settled, ReadyTasks, Readied, AllStarted, TasksOf, OthersSame, Released, CompletionEffect;
    var q := c.tasks[t].plan;
    var c1 := WithState(c, t, TaskCompleted);
    var c2 := Readied(c1, c.plans[q].tasks);
    ReadyTasksFacts(c2, c.plans[q].tasks);
    SameEndingsAlong(c1, c2, c3, c.plans[q].tasks, if c.plans[q].state == PlanActive
      then ReadyTasks(c2, c.plans[q].tasks) else []);
    if c.plans[q].state == PlanActive {
      ReadyAndStartedSettles(c1, c3, q);
      SettledSameTasks(c3, c4, q);
    }
    OthersAlong(c, t, c3, c4, if c.plans[q].state == PlanActive then ReadyTasks(c2, c.plans[q].tasks) else []);
    ChainEffect(c, t, p, c4);
  }

  lemma OthersAlong(c: Cognition, t: TaskId, c3: Cognition, c4: Cognition, started: seq<TaskId>)
    requires t in c.tasks && c.tasks[t].plan in c.plans && c4.tasks == c3.tasks
    requires forall u :: u in c.plans[c.tasks[t].plan].tasks && u in c.tasks ==> c.tasks[u].plan == c.tasks[t].plan
    requires AllStarted(Readied(WithState(c, t, TaskCompleted), c.plans[c.tasks[t].plan].tasks), c3, started)
    requires forall u :: u in started ==> u in c.plans[c.tasks[t].plan].tasks
    ensures OthersSame(c, c4, c.tasks[t].plan)
  {
    hide BecomesReady;
  }

  lemma ChainEffect(c: Cognition, t: TaskId, p: Pid, c': Cognition)
    requires t in c.tasks && c.tasks[t].process == Some(p) && c.tasks[t].state == TaskRunning
    requires forall u :: u in c.tasks && c.tasks[u].process == Some(p) ==> u == t
    requires c'.tasks.Keys == c.tasks.Keys && c'.plans.Keys == c.plans.Keys
    requires forall u :: u in c.tasks ==>
      (c'.tasks[u].state == TaskCompleted <==> u == t || c.tasks[u].state == TaskCompleted)
    requires forall u :: u in c.tasks ==> (c'.tasks[u].state == TaskFailed <==> c.tasks[u].state == TaskFailed)
    requires forall u :: u in c'.tasks && c'.tasks[u].state == TaskRunning && c'.tasks[u].process == Some(p) ==>
      u in c.tasks && c.tasks[u].process == Some(p)
    requires c.tasks[t].plan in c.plans && c.plans[c.tasks[t].plan].state == PlanActive ==> Settled(c', c.tasks[t].plan)
    requires OthersSame(c, c', c.tasks[t].plan)
    ensures Released(c', p) && CompletionEffect(c, c', p)
  {
    hide Settled, OthersSame;
  }

  lemma SameEndingsAlong(c1: Cognition, c2: Cognition, c3: Cognition, ids: seq<TaskId>, started: seq<TaskId>)
    requires c2 == Readied(c1, ids) && AllStarted(c2, c3, started)
    requires forall t :: t in started && t in c2.tasks ==> c2.tasks[t].state == TaskReady
    ensures c3.tasks.Keys == c1.tasks.Keys && c3.plans == c1.plans
    ensures forall t :: t in c1.tasks ==> (c3.tasks[t].state == TaskCompleted <==> c1.tasks[t].state == TaskCompleted)
    ensures forall t :: t in c1.tasks ==> (c3.tasks[t].state == TaskFailed <==> c1.tasks[t].state == TaskFailed)
  {
    hide DepsMet;
  }

  lemma SettledSameTasks(c: Cognition, c': Cognition, q: PlanId)
    requires Settled(c, q) && c'.tasks == c.tasks && TasksOf(c', q) == TasksOf(c, q)
    ensures Settled(c', q)
  {
    assert forall deps: seq<TaskId> :: DepsMet(c', deps) <==> DepsMet(c, deps);
  }

  lemma RunningTaskFacts(w: World, p: Pid, t: TaskId, g: Track)
    requires Inv(w, {p}, {}, g) && t in w.cog.tasks && w.cog.tasks[t].process == Some(p)
      && w.cog.tasks[t].state == TaskRunning
    ensures forall u :: u in w.cog.tasks && w.cog.tasks[u].process == Some(p) ==> u == t
    ensures forall u :: u in w.cog.tasks && w.cog.tasks[u].process.Some? ==>
      w.cog.tasks[u].state in {TaskRunning, TaskCompleted, TaskFailed}
    ensures var q := w.cog.tasks[t].plan;
      && q in w.cog.plans && (forall i, j :: 0 <= i < j < |w.cog.plans[q].tasks| ==>
           w.cog.plans[q].tasks[i] != w.cog.plans[q].tasks[j])
      && forall u :: u in w.cog.plans[q].tasks && u in w.cog.tasks ==> w.cog.tasks[u].plan == q
  {
    assert TaskOk(w.cog, w.table, {p}, t);
    assert PlanOk(w.cog, w.cog.tasks[t].plan, false);
    forall u | u in w.cog.tasks && w.cog.tasks[u].process.Some?
      ensures w.cog.tasks[u].state in {TaskRunning, TaskCompleted, TaskFailed}
    {
      assert TaskOk(w.cog, w.table, {p}, u);
    }
  }

  /** The middle of `on_process_completed`, for a running task. */
  lemma CompletingSteps(w: World, p: Pid, t: TaskId, g: Track)
    requires Inv(w, {p}, {}, g) && p in w.table && w.table[p].state == Completed
    requires Logged(w.log, |w.log|, ProcessCompleted(p))
    requires t in w.cog.tasks && w.cog.tasks[t].process == Some(p) && w.cog.tasks[t].state == TaskRunning
    requires w.cog.tasks[t].plan in w.cog.plans
    ensures var q := w.cog.tasks[t].plan;
      var w2 := UpdateReady(SetTask(w, t, TaskCompleted), q);
      var (w3, raised) := SpawnReady(w2, q);
      && w2.cog == Readied(WithState(w.cog, t, TaskCompleted), w.cog.plans[q].tasks)
      && (!raised ==>
            && Inv(w3, {p}, {q}, g) && Evolves(w, w3) && SameBusy(w, w3, {p})
            && AllStarted(w2.cog, w3.cog, if w.cog.plans[q].state == PlanActive
                 then ReadyTasks(w2.cog, w.cog.plans[q].tasks) else []))
      && (Registered(w) ==> !raised)
  {
    hide Inv, Evolves, SpawnReady, Logged, AllStarted;
    var q := w.cog.tasks[t].plan;
    var w1 := SetTask(w, t, TaskCompleted);
    var w2 := UpdateReady(w1, q);
    SetCompletedStep(w, t, p, g);
    UpdateReadyStep(w1, q, {p}, {q}, g);
    EvolvesTrans(w, w1, w2);
    assert w2.cog == Readied(WithState(w.cog, t, TaskCompleted), w.cog.plans[q].tasks);
    SpawnReadyStep(w2, q, {p}, {q}, g);
    if !SpawnReady(w2, q).1 {
      EvolvesTrans(w, w2, SpawnReady(w2, q).0);
    }
  }

  lemma TaskCompletesIs(w: World, p: Pid, t: TaskId)
    requires TaskOf(w.cog, w.cog.order, p) == Some(t)
    requires t in w.cog.tasks && w.cog.tasks[t].state == TaskRunning
    ensures var q := w.cog.tasks[t].plan;
      var (w3, raised) := SpawnReady(UpdateReady(SetTask(w, t, TaskCompleted), q), q);
      TaskCompletes(w, p) == if raised then (w3, true) else CheckCompletion(w3, q)
  {
    hide SetTask, UpdateReady, SpawnReady, CheckCompletion;
  }

  /** A process that got a task keeps it: no other task can be running on `p` later. */
  lemma RunningOnBefore(w: World, r: World, p: Pid, closing: set<PlanId>, g: Track)
    requires Inv(w, {p}, {}, g) && Inv(r, {p}, closing, g) && Evolves(w, r)
    requires exists t :: t in w.cog.tasks && w.cog.tasks[t].process == Some(p)
    ensures forall u :: u in r.cog.tasks && r.cog.tasks[u].process == Some(p) ==>
      u in w.cog.tasks && w.cog.tasks[u].process == Some(p)
  {
    var t :| t in w.cog.tasks && w.cog.tasks[t].process == Some(p);
    assert r.cog.tasks[t].process == Some(p);
    OneTaskPerProcessIn(r, p, t, closing, g);
  }

  lemma OneTaskPerProcessIn(w: World, p: Pid, t: TaskId, closing: set<PlanId>, g: Track)
    requires Inv(w, {p}, closing, g) && t in w.cog.tasks && w.cog.tasks[t].process == Some(p)
    ensures forall u :: u in w.cog.tasks && w.cog.tasks[u].process == Some(p) ==> u == t
  {}

  lemma RunningTaskCompletes(w: World, p: Pid, t: TaskId, g: Track)
    requires Inv(w, {p}, {}, g) && p in w.table && w.table[p].state == Completed
    requires Logged(w.log, |w.log|, ProcessCompleted(p))
    requires TaskOf(w.cog, w.cog.order, p) == Some(t)
    requires t in w.cog.tasks && w.cog.tasks[t].process == Some(p) && w.cog.tasks[t].state == TaskRunning
    ensures var (r, raised) := TaskCompletes(w, p);
      && (!raised ==>
            && Inv(r, {p}, {}, g) && Evolves(w, r) && SameBusy(w, r, {p})
            && Released(r.cog, p) && CompletionEffect(w.cog, r.cog, p))
      && (Registered(w) ==> !raised)
  {
    hide Inv, SetTask, UpdateReady, SpawnReady, CheckCompletion, TaskCompletes, Evolves, AllStarted, Readied, Logged,
      Registered, Released, CompletionEffect, SameBusy, WithState, ReadyTasks, TaskOf;
    RunningTaskFacts(w, p, t, g);
    var q := w.cog.tasks[t].plan;
    TaskCompletesIs(w, p, t);
    CompletingSteps(w, p, t, g);
    var (w3, raised) := SpawnReady(UpdateReady(SetTask(w, t, TaskCompleted), q), q);
    if !raised {
      RunningOnBefore(w, w3, p, {q}, g);
      PlanRemains(w, w3, q);
      CheckCompletionStep(w3, q, {p}, g);
      var r := CheckCompletion(w3, q).0;
      EvolvesTrans(w, w3, r);
      SameBusyTrans(w, w3, r, {p});
      CompletionChain(w.cog, t, p, w3.cog, r.cog);
    }
  }

  lemma SameBusyTrans(a: World, b: World, c: World, busy: set<Pid>)
    requires SameBusy(a, b, busy) && c.table == b.table
    ensures SameBusy(a, c, busy)
  {}

  lemma PlanRemains(w: World, r: World, q: PlanId)
    requires Evolves(w, r) && q in w.cog.plans
    ensures q in r.cog.plans
  {}

  lemma TaskFailsAside(w: World, p: Pid)
    ensures Aside(w, TaskFails(w, p).0)
  {
    hide ClosePlan, SetTask, Aside;
    SameAside(w);
    match TaskOf(w.cog, w.cog.order, p) {
      case None =>
      case Some(t) =>
        if t in w.cog.tasks && TaskMayMove(w.cog.tasks[t].state, TaskFailed) {
          var w1 := SetTask(w, t, TaskFailed);
          SetTaskAside(w, t, TaskFailed);
          if w.cog.tasks[t].plan in w1.cog.plans {
            ClosePlanAside(w1, w.cog.tasks[t].plan, PlanFailed, GoalFailed);
            AsideTrans(w, w1, ClosePlan(w1, w.cog.tasks[t].plan, PlanFailed, GoalFailed).0);
          }
        }
    }
  }

  lemma AsideTrans(a: World, b: World, c: World)
    requires Aside(a, b) && Aside(b, c)
    ensures Aside(a, c)
  {
    forall i | |a.log| <= i < |c.log| ensures Silent(c.log[i]) {
      if i < |b.log| {
        assert c.log[i] == b.log[i];
      }
    }
  }

  lemma FailedCogEvolves(c: Cognition, t: TaskId, unused: Pid)
    requires t in c.tasks && c.tasks[t].state in {TaskRunning, TaskFailed} && c.tasks[t].plan in c.plans
    requires c.plans[c.tasks[t].plan].state in {PlanActive, PlanFailed}
    ensures CogEvolves(c, FailedCog(c, t)) && ProcessesGoOn(c, FailedCog(c, t), unused)
  {}

  /** What the failure of process `p` does to the plans: its task fails, and the plan and goal
      with it. */
  ghost predicate FailureEffect(c: Cognition, c': Cognition, p: Pid) {
    if forall t :: t in c.tasks ==> c.tasks[t].process != Some(p) then c' == c
    else exists t ::
           t in c.tasks && c.tasks[t].process == Some(p) && c.tasks[t].plan in c.plans && c' == FailedCog(c, t)
  }

  lemma TaskFailsStep(w: World, p: Pid, busy: set<Pid>, g: Track)
    requires Inv(w, busy, {}, g) && p in w.table && w.table[p].state != Completed
    ensures var (r, raised) := TaskFails(w, p);
      && !raised && Inv(r, busy, {}, g) && Evolves(w, r) && Released(r.cog, p) && r.table == w.table
      && FailureEffect(w.cog, r.cog, p)
  {
    hide Inv, TaskFails, CogEvolves, ProcessesGoOn, PlansOk, Aside, FailureEffect;
    InvPlans(w, busy, {}, g);
    var r := TaskFails(w, p).0;
    TaskFailsAside(w, p);
    TaskFailsKeeps(w, p, busy);
    TaskFailsCog(w, p, busy);
    CogStepCompletesNothing(w, r, busy, {}, {}, g);
  }

  lemma AssignedIsStarted(c: Cognition, table: map<Pid, Process>, busy: set<Pid>, t: TaskId)
    requires t in c.tasks && TaskOk(c, table, busy, t) && c.tasks[t].process.Some?
    requires c.tasks[t].process.value in table && table[c.tasks[t].process.value].state != Completed
    ensures c.tasks[t].state in {TaskRunning, TaskFailed} && c.tasks[t].plan in c.plans
  {}

  lemma FailingCompletesNothing(c: Cognition, t: TaskId)
    requires t in c.tasks && c.tasks[t].plan in c.plans
    ensures var c' := FailedCog(c, t);
      forall u :: u in c'.tasks && c'.tasks[u].state == TaskCompleted ==>
        u in c.tasks && c.tasks[u].state == TaskCompleted && c.tasks[u].process == c'.tasks[u].process
  {}

  lemma TaskFailsCog(w: World, p: Pid, busy: set<Pid>)
    requires PlansOk(w, busy, {}) && p in w.table && w.table[p].state != Completed
    ensures var c' := TaskFails(w, p).0.cog;
      && CogEvolves(w.cog, c') && ProcessesGoOn(w.cog, c', w.unused)
      && forall t :: t in c'.tasks && c'.tasks[t].state == TaskCompleted ==>
        t in w.cog.tasks && w.cog.tasks[t].state == TaskCompleted && w.cog.tasks[t].process == c'.tasks[t].process
    ensures FailureEffect(w.cog, TaskFails(w, p).0.cog, p)
  {
    hide PlanOk, DepsMet, TaskFails, CogEvolves, ProcessesGoOn, TaskOk, FailedCog, Closed;
    SameAside(w);
    TaskOfFinds(w.cog, w.cog.order, p);
    match TaskOf(w.cog, w.cog.order, p) {
      case None =>
        NoTaskFails(w, p);
      case Some(t) =>
        AssignedIsStarted(w.cog, w.table, busy, t);
        FailedKeeps(w.cog, w.table, busy, t);
        TaskFailsIs(w, p, t);
        FailedCogEvolves(w.cog, t, w.unused);
        FailingCompletesNothing(w.cog, t);
    }
  }

  /** A finished process that no task runs on any more is retired. */
  lemma CleanupStep(w: World, p: Pid, g: Track)
    requires Inv(w, {p}, {}, g) && p in w.table && w.table[p].state in {Completed, Failed} && Released(w.cog, p)
    ensures Inv(Cleanup(w, p), {}, {}, g) && Evolves(w, Cleanup(w, p)) && Cleanup(w, p).cog == w.cog
  {
    hide Consistent, CogOk, HistOk, Cleanup, StatesAgree, StoreAgrees;
    var r := Cleanup(w, p);
    CleanupFrame(w, p);
    CleanupKeeps(w, p);
    CogRetire(w.cog, w.table, p, {});
    HistSameTasks(w, r);
    SameStore(w, r);
    if g.gate.Some? {
      GateStaysCalm(w, r, [], g.gate.value);
    }
  }

  lemma CleanupFrame(w: World, p: Pid)
    ensures var r := Cleanup(w, p);
      && r == w.(svc := r.svc) && r.svc.supervisor == w.svc.supervisor
      && (StatesAgree(w) <==> StatesAgree(r)) && Evolves(w, r)
  {}

  /** In the table with this state, and nowhere else. */
  ghost predicate Retired(w: World, p: Pid, s: ProcessState) {
    && p in w.table && w.table[p].state == s
    && !Queued(w.sched, p) && !Waits(w.sched, p) && !Depends(w.sched, p) && p !in w.svc.mail && p !in w.svc.caps
  }

  /** READY, in the queue, with a mailbox and the capabilities of its definition. */
  ghost predicate Requeued(w: World, p: Pid) {
    && p in w.table && w.table[p].state == Ready
    && Queued(w.sched, p) && p in w.svc.mail && p in w.svc.caps
    && w.svc.caps[p] == CapabilitiesFor(w.table[p].definition)
  }

  lemma FinishedIsRetired(w: World, p: Pid, g: Track)
    requires Inv(w, {}, {}, g) && p in w.table && w.table[p].state in {Completed, Failed}
    ensures Retired(w, p, w.table[p].state)
  {
    assert Consistent(w, {});
    hide Inv;
    assert Placed(w.table[p], p, w.sched, w.svc.mail.Keys, w.svc.caps, {});
  }

  lemma ReadyAndQueued(w: World, p: Pid, g: Track)
    requires Inv(w, {}, {}, g) && p in w.table && w.table[p].state == Ready && Queued(w.sched, p)
    ensures Requeued(w, p)
  {
    assert Consistent(w, {});
    hide Inv;
    assert Placed(w.table[p], p, w.sched, w.svc.mail.Keys, w.svc.caps, {});
  }

  lemma SupervisedIsQueued(w: World, p: Pid, g: Track)
    requires Inv(w, {p}, {}, g) && Revivable(w, p)
    ensures Queued(Supervise(w, p).sched, p)
  {
    assert Placed(w.table[p], p, w.sched, w.svc.mail.Keys, w.svc.caps, {p});
    assert SchedOk(w.sched);
    EnqueuePlaces(w.sched, p, 0, {});
    hide Inv, Enqueue, CapabilitiesFor, SchedOk;
  }

  /** A running process that fails ends FAILED and retired, or, when the supervisor takes it
      back, READY and queued. Nothing is raised. The log still replays to the table exactly
      when the process was not taken back. */
  lemma FailStep(w: World, p: Pid, g: Track)
    requires Inv(w, {p}, {}, g) && p in w.table && w.table[p].state == Running
    ensures var (r, out) := FailProcess(w, p);
      && out == Ran(p) && Inv(r, {}, {}, Untold(w, p, g)) && Evolves(w, r)
      && (if Revivable(w, p) then Requeued(r, p) else Retired(r, p, Failed))
      && FailureEffect(w.cog, r.cog, p)
      && (g.replays && Revivable(w, p) ==> !StatesAgree(r))
  {
    hide FailureEffect, Inv, Evolves, Announce, Supervise, TaskFails, Cleanup, Decide, Logged, Released, StatesAgree,
      Retired, Requeued, Queued;
    var w1 := Announce(w, p, Failed, ProcessFailed(p));
    AnnounceStep(w, p, Failed, ProcessFailed(p), g);
    DecideSame(w, w1, p);
    SuperviseKeepsPlans(w1, p);
    var w2 := Supervise(w1, p);
    SuperviseStep(w1, p, g);
    EvolvesRefl(w1);
    var h := Untold(w, p, g);
    var w3 := TaskFails(w2, p).0;
    TaskFailsStep(w2, p, if Revivable(w, p) then {} else {p}, h);
    TaskFailsSched(w2, p);
    if Revivable(w, p) {
      CleanupOfLiveIsNothing(w3, p);
      SupervisedIsQueued(w1, p, g);
      ReadyAndQueued(w3, p, h);
      EvolvesRefl(w3);
      if g.replays {
        RevivalUntold(w1, w2, w3, p, g);
      }
    } else {
      CleanupTable(w3, p);
      CleanupStep(w3, p, h);
      FinishedIsRetired(Cleanup(w3, p), p, h);
    }
    CleanupTable(w3, p);
    EvolvesTrans(w, w1, w2);
    EvolvesTrans(w, w2, w3);
    EvolvesTrans(w, w3, Cleanup(w3, p));
  }

  lemma TaskFailsSched(w: World, p: Pid)
    ensures TaskFails(w, p).0.sched == w.sched
  {
    hide Aside;
    assert TaskFails(w, p).0.sched == w.sched by {
      TaskFailsAside(w, p);
      AsideSched(w, TaskFails(w, p).0);
    }
  }

  lemma AsideSched(w: World, r: World)
    requires Aside(w, r)
    ensures r.sched == w.sched && r.registry == w.registry
  {}

  lemma SuperviseKeepsPlans(w: World, p: Pid)
    ensures Supervise(w, p).cog == w.cog
  {
    hide Enqueue, CapabilitiesFor;
  }

  lemma CleanupTable(w: World, p: Pid)
    ensures Cleanup(w, p).table == w.table && Cleanup(w, p).cog == w.cog
  {}

  lemma DecideSame(w: World, r: World, p: Pid)
    requires r == w.(table := r.table, log := r.log, sched := r.sched)
    requires p in w.table && p in r.table && r.table[p].budget == w.table[p].budget
    ensures Decide(r, p) == Decide(w, p)
  {}

  /** The log says FAILED, the table says READY. */
  lemma RevivalUntold(w1: World, w2: World, w3: World, p: Pid, g: Track)
    requires Inv(w1, {p}, {}, g) && g.replays && p in w1.table && w1.table[p].state == Failed
    requires Fold(w2.log).states == Fold(w1.log).states && w2.table == w1.table[p := w1.table[p].(state := Ready)]
    requires w3 == TaskFails(w2, p).0 && w3.table == w2.table
    ensures !StatesAgree(w3)
  {
    hide Fold, TaskFails;
    TaskFailsAside(w2, p);
    SilentFold(w2.log, w3.log);
    assert StatesOf(w1.table)[p] == Failed && StatesOf(w3.table)[p] == Ready;
  }

  lemma SilentFold(log: seq<Event>, log': seq<Event>)
    requires GrowsSilently(log, log')
    ensures Fold(log').states == Fold(log).states
  {
    hide Fold;
    var more := SilentSuffix(log, log');
    FoldSilent(log, more);
  }

  /** What `Finish` does when COMPLETED is a legal next state. */
  lemma FinishCases(w: World, p: Pid)
    requires MayMove(w, p, Completed)
    ensures var (r, raised) := TaskCompletes(Announce(w, p, Completed, ProcessCompleted(p)), p);
      Finish(w, p) == if raised then FailProcess(r, p) else (Cleanup(r, p), Ran(p))
  {
    hide Announce, TaskCompletes, FailProcess, Cleanup, MayMove;
  }

  /** The process ends COMPLETED and retired, unless a task it makes ready has no registered
      definition. */
  lemma FinishStep(w: World, p: Pid, g: Track)
    requires Inv(w, {p}, {}, g) && p in w.table && w.table[p].state == Running
    ensures var (r, out) := Finish(w, p);
      && (!out.RaisedOut? ==> out == Ran(p) && Inv(r, {}, {}, g) && Evolves(w, r) && CompletionEffect(w.cog, r.cog, p))
      && (Registered(w) ==> !out.RaisedOut?)
  {
    hide Inv, Evolves, Announce, TaskCompletes, Cleanup, Logged, Released, CompletionEffect, Registered, FailProcess,
      SameBusy, Finish;
    var w1 := Announce(w, p, Completed, ProcessCompleted(p));
    FinishCases(w, p);
    AnnounceStep(w, p, Completed, ProcessCompleted(p), g);
    var (w2, raised) := TaskCompletes(w1, p);
    TaskCompletesStep(w1, p, g);
    RegisteredSame(w, w1);
    if raised {
      CompletedCannotFail(w1, p, g);
    } else {
      BusyState(w1, w2, p);
      CleanupStep(w2, p, g);
      EvolvesTrans(w, w1, w2);
      EvolvesTrans(w, w2, Cleanup(w2, p));
    }
  }

  lemma InvBound(w: World, p: Pid, g: Track)
    requires Inv(w, {p}, {}, g)
    ensures p in w.table && p < w.unused
  {}

  lemma {:induction false} StartTasksKeepsProcess(w: World, goal: GoalId, ids: seq<TaskId>, p: Pid)
    requires p in w.table && p < w.unused
    ensures var r := StartTasks(w, goal, ids).0; p in r.table && r.table[p] == w.table[p]
    decreases ids
  {
    if ids != [] {
      var t := ids[0];
      if t !in w.cog.tasks || w.cog.tasks[t].process.Some? {
        StartTasksKeepsProcess(w, goal, ids[1..], p);
      } else if w.cog.tasks[t].definition in w.registry {
        var w1 := StartTask(w, t, w.registry[w.cog.tasks[t].definition], goal);
        assert p in w1.table && w1.table[p] == w.table[p] && w1.unused == w.unused + 1;
        hide StartTask;
        StartTasksKeepsProcess(w1, goal, ids[1..], p);
      }
    }
  }

  lemma TaskCompletesKeepsProcess(w: World, p: Pid)
    requires p in w.table && p < w.unused
    ensures var r := TaskCompletes(w, p).0; p in r.table && r.table[p] == w.table[p]
  {
    hide SpawnReady, UpdateReady, SetTask, CheckCompletion;
    match TaskOf(w.cog, w.cog.order, p) {
      case None =>
      case Some(t) =>
        if t in w.cog.tasks {
          var q := w.cog.tasks[t].plan;
          var w2 := UpdateReady(SetTask(w, t, TaskCompleted), q);
          TaskStepsKeepTable(w, t, q);
          SpawnReadyKeepsProcess(w2, q, p);
          CheckCompletionKeepsTable(SpawnReady(w2, q).0, q);
        }
    }
  }

  lemma SpawnReadyKeepsProcess(w: World, q: PlanId, p: Pid)
    requires p in w.table && p < w.unused
    ensures var r := SpawnReady(w, q).0; p in r.table && r.table[p] == w.table[p]
  {
    hide StartTasks;
    if q in w.cog.plans {
      StartTasksKeepsProcess(w, w.cog.plans[q].goal, ReadyTasks(w.cog, w.cog.plans[q].tasks), p);
    }
  }

  lemma TaskStepsKeepTable(w: World, t: TaskId, q: PlanId)
    ensures var r := UpdateReady(SetTask(w, t, TaskCompleted), q); r.table == w.table && r.unused == w.unused
  {}

  lemma CheckCompletionKeepsTable(w: World, q: PlanId)
    ensures CheckCompletion(w, q).0.table == w.table
  {
    hide AllCompleted;
  }

  /** A process whose completion raised is COMPLETED and cannot be failed any more. */
  lemma CompletedCannotFail(w: World, p: Pid, g: Track)
    requires Inv(w, {p}, {}, g) && p in w.table && w.table[p].state == Completed
    ensures FailProcess(TaskCompletes(w, p).0, p).1.RaisedOut?
  {
    hide TaskCompletes, FailProcess, Inv;
    InvBound(w, p, g);
    TaskCompletesKeepsProcess(w, p);
    FailingCompletedRaises(TaskCompletes(w, p).0, p);
  }

  lemma RegisteredSame(w: World, r: World)
    requires r.cog == w.cog && r.registry == w.registry
    ensures Registered(r) <==> Registered(w)
  {}

  lemma BusyState(w: World, r: World, p: Pid)
    requires SameBusy(w, r, {p})
    ensures p in w.table && p in r.table && r.table[p] == w.table[p]
  {}

  /** Failing a process from a state that has no edge to FAILED always escapes. */
  lemma FailingCompletedRaises(w: World, p: Pid)
    ensures !MayMove(w, p, Failed) ==> FailProcess(w, p).1 == RaisedOut(p)
  {
    hide Announce, OnTerminal, Supervise, TaskFails;
  }

  // ------------------------------------------------------------------
  // run_next
  // ------------------------------------------------------------------

  lemma {:induction false} RunOpsKeepsPlans(w: World, p: Pid, ops: seq<BodyOp>)
    ensures RunOps(w, p, ops).0.cog == w.cog
    decreases ops
  {
    hide EvaluateWaiting, Permitted, Enqueue, CapabilitiesFor;
    if ops != [] {
      RunOpsKeepsPlans(RunOp(w, p, ops[0]).0, p, ops[1..]);
    }
  }

  lemma RegisteredGrows(w: World, r: World)
    requires Evolves(w, r) && r.cog == w.cog
    ensures Registered(w) ==> Registered(r)
  {}

  /** The world in which the running process fails, if its body makes it fail. */
  function FailureOf(w: World, p: Pid, body: Body): Option<World> {
    var (w1, ok) := RunOps(Begin(w, p), p, body.ops);
    if !ok || body.end.Raises? then Some(w1)
    else if body.end.Returns? && body.overran then Some(SetUsage(w1, p, UsageOf(w1, p)))
    else None
  }

  predicate Revives(w: World, p: Pid, body: Body) {
    FailureOf(w, p, body).Some? && Revivable(FailureOf(w, p, body).value, p)
  }

  lemma ExecuteStep(w: World, p: Pid, body: Body, g: Track)
    requires Inv(w, {p}, {}, g) && p in w.table && w.table[p].state == Ready
    ensures var (r, out) := Execute(w, p, body);
      && (!out.RaisedOut? ==>
            && out == Ran(p) && Evolves(w, r)
            && Inv(r, {}, {}, if Revives(w, p, body) then g.(replays := false) else g)
            && (g.replays && Revives(w, p, body) ==> !StatesAgree(r)))
      && (Registered(w) ==> !out.RaisedOut?)
  {
    hide Inv, Evolves, Begin, RunOps, FailProcess, Finish, Park, Registered, Decide, StatesAgree;
    var w0 := Begin(w, p);
    BeginStep(w, p, g);
    var (w1, ok) := RunOps(w0, p, body.ops);
    RunOpsStep(w0, p, body.ops, g);
    EvolvesTrans(w, w0, w1);
    BusyState(w0, w1, p);
    RunOpsKeepsPlans(w0, p, body.ops);
    BeginKeepsPlans(w, p);
    if !ok || body.end.Raises? {
      FailStep(w1, p, g);
      EvolvesTrans(w, w1, FailProcess(w1, p).0);
    } else if body.end.WaitsFor? {
      ParkStep(w1, p, body.end.condition, g);
      EvolvesTrans(w, w1, Park(w1, p, body.end.condition));
    } else {
      var w2 := SetUsage(w1, p, UsageOf(w1, p));
      AsideSameCog(w1, w2, {p}, g);
      EvolvesTrans(w, w1, w2);
      RegisteredGrows(w, w2);
      if body.overran {
        FailStep(w2, p, g);
        EvolvesTrans(w, w2, FailProcess(w2, p).0);
      } else {
        FinishStep(w2, p, g);
        if !Finish(w2, p).1.RaisedOut? {
          EvolvesTrans(w, w2, Finish(w2, p).0);
        }
      }
    }
  }

  lemma BeginKeepsPlans(w: World, p: Pid)
    ensures Begin(w, p).cog == w.cog
  {}

  /** The process that `run_next` would dispatch has used up its budget. */
  predicate BudgetSpent(w: World) {
    var w1 := EvaluateWaiting(w);
    w1.sched.queue != [] &&
    var p := w1.sched.queue[0].pid;
    p in w1.table && !CanDispatch(UsageOf(w1, p), w1.table[p].budget)
  }

  /** The dispatched process fails and the supervisor takes it back. */
  predicate RevivesNext(w: World, body: Body) {
    var w1 := EvaluateWaiting(w);
    w1.sched.queue != [] && Revives(TakeNext(w1), w1.sched.queue[0].pid, body)
  }

  /** `run_next` keeps the invariant whenever it returns, and with every task definition
      registered it raises exactly when the next process may not be dispatched. A log that
      replays to the table still does, exactly when no process was revived. */
  lemma RunNextStep(w: World, body: Body, g: Track)
    requires Inv(w, {}, {}, g)
    ensures var (r, out) := RunNext(w, body);
      && (!out.RaisedOut? ==>
            && Evolves(w, r)
            && Inv(r, {}, {}, if RevivesNext(w, body) then g.(replays := false) else g)
            && (g.replays && RevivesNext(w, body) ==> !StatesAgree(r)))
      && (BudgetSpent(w) ==> out.RaisedOut?)
      && (Registered(w) ==> (out.RaisedOut? <==> BudgetSpent(w)))
  {
    hide Inv, Evolves, EvaluateWaiting, Execute, FailProcess, Registered, Revives, StatesAgree;
    var w1 := EvaluateWaiting(w);
    EvaluateStep(w, {}, g);
    if w1.sched.queue != [] {
      TakeNextStep(w1, g);
      var p := w1.sched.queue[0].pid;
      var w2 := TakeNext(w1);
      assert UsageOf(w2, p) == UsageOf(w1, p);
      RegisteredSame(w, w2);
      if !CanDispatch(UsageOf(w2, p), w2.table[p].budget) {
        FailingCompletedRaises(w2, p);
      } else {
        ExecuteStep(w2, p, body, g);
        EvolvesTrans(w, w1, w2);
        if !Execute(w2, p, body).1.RaisedOut? {
          EvolvesTrans(w, w2, Execute(w2, p, body).0);
        }
      }
    }
  }

  // ------------------------------------------------------------------
  // No lost wakeups
  // ------------------------------------------------------------------

  /** After `evaluate_waiting` no waiter's condition holds, whenever it came true. */
  lemma NoLostWakeups(w: World)
    requires SchedOk(w.sched)
    ensures var r := EvaluateWaiting(w);
      && (forall x :: x in r.sched.waiting ==> x in w.sched.waiting && !Holds(r, x.condition))
      && (forall x :: x in w.sched.waiting && Holds(w, x.condition) ==>
           Queued(r.sched, x.pid) && !Waits(r.sched, x.pid))
  {
    var r := EvaluateWaiting(w);
    WaitingEvaluates(w);
    EvaluateFacts(w.sched, TrueNow(w));
    hide EvaluateWaiting, Evaluate, Satisfied;
    forall x | x in w.sched.waiting && Holds(w, x.condition) ensures Queued(r.sched, x.pid) && !Waits(r.sched, x.pid) {
      assert x.condition in TrueNow(w);
      WokenIsSatisfied(w.sched, TrueNow(w), x);
    }
    forall x | x in r.sched.waiting ensures x in w.sched.waiting && !Holds(r, x.condition) {
      assert x.condition !in TrueNow(w);
      assert Holds(r, x.condition) == Holds(w, x.condition);
    }
  }

  lemma WokenIsSatisfied(s: Sched, holds: set<Condition>, x: Waiter)
    requires SchedOk(s) && x in s.waiting && x.condition in holds
    ensures x.pid in Satisfied(s.waiting, holds)
  {
    WaiterSplit(s.waiting, holds);
  }

  lemma {:induction false} NothingSatisfied(ws: seq<Waiter>)
    ensures Satisfied(ws, {}) == [] && Unsatisfied(ws, {}) == ws
  {
    if ws != [] {
      NothingSatisfied(ws[1..]);
    }
  }

  /** Evaluating again changes nothing. */
  lemma EvaluateTwice(w: World)
    requires SchedOk(w.sched)
    ensures EvaluateWaiting(EvaluateWaiting(w)) == EvaluateWaiting(w)
  {
    var r := EvaluateWaiting(w);
    NoLostWakeups(w);
    assert TrueNow(r) == {};
    NothingSatisfied(r.sched.waiting);
  }

  lemma {:induction false} ScanFindsNothing(w: World, p: Pid)
    requires EvaluateWaiting(w) == w && w.sched.queue == []
    ensures ScanMail(w, p) == (w, false)
    decreases w.unused - p
  {
    hide EvaluateWaiting;
    if p < w.unused {
      ScanFindsNothing(w, p + 1);
    }
  }

  /** The mail scan at the end of `has_work` never finds anything: the answer is whether the
      queue is non-empty after one evaluation. It is no exactly when nothing is queued and no
      registered condition holds. */
  lemma HasWorkStep(w: World, g: Track)
    requires Inv(w, {}, {}, g)
    ensures var (r, more) := HasWork(w);
      && r == (if w.sched.queue == [] then EvaluateWaiting(w) else w)
      && (more <==> r.sched.queue != [])
      && Inv(r, {}, {}, g) && Evolves(w, r)
      && (more <==> w.sched.queue != [] || exists x :: x in w.sched.waiting && Holds(w, x.condition))
  {
    EvaluateStep(w, {}, g);
    assert SchedOk(w.sched);
    hide Inv, EvaluateWaiting, SchedOk, Evolves;
    EvolvesRefl(w);
    if w.sched.queue == [] {
      var w1 := EvaluateWaiting(w);
      NoLostWakeups(w);
      EvaluateTwice(w);
      if w1.sched.queue == [] {
        ScanFindsNothing(w1, 0);
      } else {
        WokenWasSatisfied(w);
      }
    }
  }

  lemma WokenWasSatisfied(w: World)
    requires SchedOk(w.sched) && w.sched.queue == [] && EvaluateWaiting(w).sched.queue != []
    ensures exists x :: x in w.sched.waiting && Holds(w, x.condition)
  {
    WaitingEvaluates(w);
    EvaluatePlaces(w.sched, TrueNow(w));
    WaiterSplit(w.sched.waiting, TrueNow(w));
    var r := EvaluateWaiting(w);
    hide EvaluateWaiting, Evaluate;
    var p := r.sched.queue[0].pid;
    assert Queued(r.sched, p) && !Queued(w.sched, p);
    var x :| x in w.sched.waiting && x.pid == p && x.condition in TrueNow(w);
    var y :| y in w.sched.waiting && Holds(w, y.condition) && y.condition == x.condition;
  }
}
