/** The process table and the services agree: a process is READY exactly when it is queued or
    blocked on dependencies, WAITING exactly when it is registered as waiting, and a finished
    process has no mailbox and no capabilities. */
module Correspondence {
  import opened Common
  import opened Heap
  import opened States
  import opened SchedulerModel
  import opened KernelModel

  /** One process's place. A process in `busy` is being run or retired right now: it is in no
      scheduler structure and still owns its mailbox. */
  ghost predicate Placed(process: Process, p: Pid, s: Sched, mail: set<Pid>, caps: map<Pid, set<string>>,
      busy: set<Pid>)
  {
    if p in busy then
      && !Queued(s, p) && !Waits(s, p) && !Depends(s, p)
      && p in mail && p in caps && caps[p] == CapabilitiesFor(process.definition)
    else
      && process.state in {Ready, Waiting, Completed, Failed}
      && (process.state == Ready <==> Queued(s, p) || Depends(s, p))
      && (process.state == Waiting <==> Waits(s, p))
      && (process.state.IsFinished() ==> p !in mail && p !in caps)
      && (!process.state.IsFinished() ==> p in mail && p in caps && caps[p] == CapabilitiesFor(process.definition))
  }

  ghost predicate Agreement(table: map<Pid, Process>, s: Sched, mail: set<Pid>, caps: map<Pid, set<string>>,
      unused: Pid, busy: set<Pid>)
  {
    && SchedOk(s)
    && (forall p :: Queued(s, p) || Waits(s, p) || Depends(s, p) ==> p in table)
    && (forall p :: Depends(s, p) ==> !Queued(s, p) && !Waits(s, p))
    && (forall p :: p in table ==> p < unused && Placed(table[p], p, s, mail, caps, busy))
    && busy <= table.Keys && mail <= table.Keys && caps.Keys <= table.Keys
  }

  ghost predicate Consistent(w: World, busy: set<Pid>) {
    Agreement(w.table, w.sched, w.svc.mail.Keys, w.svc.caps, w.unused, busy)
  }

  // ------------------------------------------------------------------
  // Waking
  // ------------------------------------------------------------------

  /** Only waiting or blocked processes change, and they become READY. */
  ghost predicate OnlyWakes(before: map<Pid, Process>, after: map<Pid, Process>) {
    && after.Keys == before.Keys
    && forall p :: p in before ==>
      after[p] == before[p] || (before[p].state in {Waiting, Blocked} && after[p] == before[p].(state := Ready))
  }

  lemma {:induction false} WakeAllTable(w: World, ps: seq<Pid>)
    ensures OnlyWakes(w.table, WakeAll(w, ps).table)
    ensures forall p :: p in w.table ==>
      WakeAll(w, ps).table[p] == if p in ps
        && w.table[p].state in {Waiting, Blocked} then w.table[p].(state := Ready) else w.table[p]
    decreases ps
  {
    if ps != [] {
      WakeAllTable(Wake(w, ps[0]), ps[1..]);
    }
  }

  lemma EvaluateWaitingKeeps(w: World, busy: set<Pid>)
    requires Consistent(w, busy)
    ensures Consistent(EvaluateWaiting(w), busy)
    ensures OnlyWakes(w.table, EvaluateWaiting(w).table)
    ensures forall p :: p in busy ==> EvaluateWaiting(w).table[p] == w.table[p]
    ensures EvaluateWaiting(w).sched == Evaluate(w.sched, TrueNow(w))
  {
    hide Queued, Waits, Depends, SchedOk, Evaluate, Satisfied, TrueNow, WakeAll, CapabilitiesFor, OnlyWakes;
    var holds := TrueNow(w);
    var r := EvaluateWaiting(w);
    EvaluatePlaces(w.sched, holds);
    WakeAllTable(w.(sched := Evaluate(w.sched, holds)), Satisfied(w.sched.waiting, holds));
    forall p | p in r.table ensures Placed(r.table[p], p, r.sched, r.svc.mail.Keys, r.svc.caps, busy) {
      assert Placed(w.table[p], p, w.sched, w.svc.mail.Keys, w.svc.caps, busy);
    }
  }

  lemma OnTerminalKeeps(w: World, p: Pid, busy: set<Pid>)
    requires Consistent(w, busy)
    ensures Consistent(OnTerminal(w, p), busy)
    ensures OnlyWakes(w.table, OnTerminal(w, p).table)
    ensures forall q :: q in busy ==> OnTerminal(w, p).table[q] == w.table[q]
  {
    var w1 := EvaluateWaiting(w);
    EvaluateWaitingKeeps(w, busy);
    hide Queued, Waits, Depends, SchedOk, EvaluateWaiting, Notify;
    var r := OnTerminal(w, p);
    NotifyPlaces(w1.sched, p);
    forall q | q in r.table ensures Placed(r.table[q], q, r.sched, r.svc.mail.Keys, r.svc.caps, busy) {
      assert Placed(w1.table[q], q, w1.sched, w1.svc.mail.Keys, w1.svc.caps, busy);
    }
  }

  // ------------------------------------------------------------------
  // Spawning, dispatching, parking, resuming and retiring
  // ------------------------------------------------------------------

  lemma NotInTable(w: World, busy: set<Pid>, p: Pid)
    requires Consistent(w, busy) && p !in w.table
    ensures !Queued(w.sched, p) && !Waits(w.sched, p) && !Depends(w.sched, p)
    ensures p !in w.svc.mail && p !in w.svc.caps
  {}

  lemma SpawnPlaces(w: World, d: Definition, goal: Option<GoalId>, priority: int, needs: set<Pid>, busy: set<Pid>)
    requires Consistent(w, busy)
    ensures w.unused !in w.table
    ensures var r := Spawn(w, d, goal, priority, needs);
      forall q :: q in r.table ==> Placed(r.table[q], q, r.sched, r.svc.mail.Keys, r.svc.caps, busy)
  {
    hide Queued, Waits, Depends, SchedOk, Enqueue, CapabilitiesFor;
    var r := Spawn(w, d, goal, priority, needs);
    NotInTable(w, busy, w.unused);
    EnqueuePlaces(w.sched, w.unused, priority, needs);
    forall q | q in r.table ensures Placed(r.table[q], q, r.sched, r.svc.mail.Keys, r.svc.caps, busy) {
      if q != w.unused {
        assert Placed(w.table[q], q, w.sched, w.svc.mail.Keys, w.svc.caps, busy);
      }
    }
  }

  lemma SpawnKeeps(w: World, d: Definition, goal: Option<GoalId>, priority: int, needs: set<Pid>, busy: set<Pid>)
    requires Consistent(w, busy)
    ensures Consistent(Spawn(w, d, goal, priority, needs), busy)
    ensures w.unused !in w.table
  {
    SpawnPlaces(w, d, goal, priority, needs, busy);
    NotInTable(w, busy, w.unused);
    hide Queued, Waits, Depends, SchedOk, Enqueue, CapabilitiesFor, Placed;
    EnqueuePlaces(w.sched, w.unused, priority, needs);
  }

  /** A process in `busy` may change state freely. */
  lemma SetStateKeeps(w: World, p: Pid, s: ProcessState, busy: set<Pid>)
    requires Consistent(w, busy) && p in busy
    ensures Consistent(SetState(w, p, s), busy)
  {
    hide Queued, Waits, Depends, SchedOk, CapabilitiesFor;
    var r := SetState(w, p, s);
    forall q | q in r.table ensures Placed(r.table[q], q, r.sched, r.svc.mail.Keys, r.svc.caps, busy) {
      assert Placed(w.table[q], q, w.sched, w.svc.mail.Keys, w.svc.caps, busy);
    }
  }

  lemma TakeNextKeeps(w: World)
    requires Consistent(w, {}) && w.sched.queue != []
    ensures var p := w.sched.queue[0].pid;
      && p in w.table && w.table[p].state == Ready
      && Consistent(TakeNext(w), {p})
  {
    hide Queued, Waits, Depends, SchedOk, Dequeue, CapabilitiesFor;
    var p := w.sched.queue[0].pid;
    DequeuePlaces(w.sched);
    var r := TakeNext(w);
    assert Placed(w.table[p], p, w.sched, w.svc.mail.Keys, w.svc.caps, {});
    forall q | q in r.table ensures Placed(r.table[q], q, r.sched, r.svc.mail.Keys, r.svc.caps, {p}) {
      assert Placed(w.table[q], q, w.sched, w.svc.mail.Keys, w.svc.caps, {});
    }
  }

  lemma ParkKeeps(w: World, p: Pid, c: Condition)
    requires Consistent(w, {p})
    ensures Consistent(Park(w, p, c), {})
    ensures Park(w, p, c).table == w.table[p := w.table[p].(state := Waiting)]
  {
    hide Queued, Waits, Depends, SchedOk, MarkWaiting, CapabilitiesFor;
    var r := Park(w, p, c);
    assert r.sched == MarkWaiting(w.sched, p, c);
    assert r.svc.mail == w.svc.mail && r.svc.caps == w.svc.caps;
    MarkPlaces(w.sched, p, c);
    forall q | q in r.table ensures Placed(r.table[q], q, r.sched, r.svc.mail.Keys, r.svc.caps, {}) {
      assert Placed(w.table[q], q, w.sched, w.svc.mail.Keys, w.svc.caps, {p});
    }
  }

  lemma PrepareForResumeKeeps(w: World, p: Pid)
    requires Consistent(w, {p})
    ensures Consistent(PrepareForResume(w, p), {})
    ensures PrepareForResume(w, p).table == w.table[p := w.table[p].(state := Ready)]
  {
    hide Queued, Waits, Depends, SchedOk, Enqueue, CapabilitiesFor;
    var r := PrepareForResume(w, p);
    assert Placed(w.table[p], p, w.sched, w.svc.mail.Keys, w.svc.caps, {p});
    EnqueuePlaces(w.sched, p, 0, {});
    forall q | q in r.table ensures Placed(r.table[q], q, r.sched, r.svc.mail.Keys, r.svc.caps, {}) {
      assert Placed(w.table[q], q, w.sched, w.svc.mail.Keys, w.svc.caps, {p});
    }
  }

  lemma CleanupKeeps(w: World, p: Pid)
    requires Consistent(w, {p}) && w.table[p].state in {Completed, Failed}
    ensures Consistent(Cleanup(w, p), {})
  {
    hide Queued, Waits, Depends, SchedOk, CapabilitiesFor;
    var r := Cleanup(w, p);
    forall q | q in r.table ensures Placed(r.table[q], q, r.sched, r.svc.mail.Keys, r.svc.caps, {}) {
      assert Placed(w.table[q], q, w.sched, w.svc.mail.Keys, w.svc.caps, {p});
    }
  }

  /** Between calls a process that has not just finished is left alone by `_cleanup_process`. */
  lemma CleanupOfLiveIsNothing(w: World, p: Pid)
    requires p in w.table && w.table[p].state == Ready
    ensures Cleanup(w, p) == w
  {}
}
