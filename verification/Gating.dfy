/** Dependency gating over the event log: what a process still waits for is what it asked for
    minus what has ended since, and it starts only after all of it has ended. */
module Gating {
  import opened Common
  import opened Heap
  import opened States
  import opened SchedulerModel
  import opened KernelModel
  import opened Correspondence

  /** A process spawned with dependencies `needs` when the log had `start` events. */
  datatype Gate = Gate(pid: Pid, needs: set<Pid>, start: nat)

  predicate Ends(e: Event, q: Pid) {
    e == ProcessCompleted(q) || e == ProcessFailed(q) || e == ProcessCancelled(q)
  }

  ghost predicate Ended(log: seq<Event>, from: nat, to: nat, q: Pid) {
    exists i :: from <= i < to && i < |log| && Ends(log[i], q)
  }

  ghost function StillNeeded(log: seq<Event>, g: Gate): set<Pid> {
    set q | q in g.needs && !Ended(log, g.start, |log|, q)
  }

  ghost predicate StartsLate(log: seq<Event>, g: Gate) {
    forall i, q :: g.start <= i < |log| && log[i] == ProcessStarted(g.pid) && q in g.needs ==> Ended(log, g.start, i, q)
  }

  ghost predicate GateOk(w: World, g: Gate) {
    && g.start <= |w.log| && g.needs != {} && g.pid < w.unused
    && (Depends(w.sched, g.pid) ==> Dependent(g.pid, StillNeeded(w.log, g)) in w.sched.pending)
    && (!Depends(w.sched, g.pid) ==> StillNeeded(w.log, g) == {})
    && StartsLate(w.log, g)
  }

  /** The process is held back exactly as long as something it needs has not ended. */
  lemma HeldExactlyWhileNeeded(w: World, g: Gate)
    requires SchedOk(w.sched) && GateOk(w, g)
    ensures Depends(w.sched, g.pid) <==> StillNeeded(w.log, g) != {}
  {}

  // ------------------------------------------------------------------
  // Log growth
  // ------------------------------------------------------------------

  /** An event that neither ends nor starts a process. */
  predicate Calm(e: Event) {
    !e.ProcessStarted? && !e.ProcessCompleted? && !e.ProcessFailed? && !e.ProcessCancelled?
  }

  lemma EndedGrows(log: seq<Event>, e: Event, from: nat, q: Pid)
    ensures Ended(log + [e], from, |log + [e]|, q) <==> Ended(log, from, |log|, q) || (from <= |log| && Ends(e, q))
    ensures forall to: nat :: to <= |log| ==> (Ended(log + [e], from, to, q) <==> Ended(log, from, to, q))
  {
    var r := log + [e];
    assert r[|log|] == e;
    assert forall i :: 0 <= i < |log| ==> r[i] == log[i];
  }

  lemma NeedAfter(log: seq<Event>, e: Event, g: Gate)
    requires g.start <= |log| && StartsLate(log, g)
    requires e == ProcessStarted(g.pid) ==> StillNeeded(log, g) == {}
    ensures StartsLate(log + [e], g)
    ensures StillNeeded(log + [e], g) == set q | q in StillNeeded(log, g) && !Ends(e, q)
  {
    forall q ensures Ended(log + [e], g.start, |log + [e]|, q) <==> Ended(log, g.start, |log|, q) || Ends(e, q) {
      EndedGrows(log, e, g.start, q);
    }
    var r := log + [e];
    forall i, q | g.start <= i < |r| && r[i] == ProcessStarted(g.pid) && q in g.needs ensures Ended(r, g.start, i, q) {
      EndedGrows(log, e, g.start, q);
      if i == |log| {
        assert q !in StillNeeded(log, g);
      }
    }
  }

  lemma {:induction false} NeedAfterCalm(log: seq<Event>, more: seq<Event>, g: Gate)
    requires g.start <= |log| && StartsLate(log, g)
    requires forall e :: e in more ==> Calm(e)
    ensures StartsLate(log + more, g)
    ensures StillNeeded(log + more, g) == StillNeeded(log, g)
  {
    if more == [] {
      assert log + more == log;
    } else {
      var front := more[..|more| - 1];
      var e := more[|more| - 1];
      assert e in more && forall x :: x in front ==> x in more;
      NeedAfterCalm(log, front, g);
      NeedAfter(log + front, e, g);
      assert log + more == (log + front) + [e];
      assert forall q :: !Ends(e, q);
    }
  }

  lemma {:induction false} WakeAllLog(w: World, ps: seq<Pid>) returns (more: seq<Event>)
    ensures WakeAll(w, ps).log == w.log + more
    ensures forall e :: e in more ==> e.ProcessReady?
    decreases ps
  {
    if ps == [] {
      more := [];
    } else {
      var w1 := Wake(w, ps[0]);
      var rest := WakeAllLog(w1, ps[1..]);
      more := w1.log[|w.log|..] + rest;
      assert w1.log == w.log + w1.log[|w.log|..];
    }
  }

  lemma EvaluateWaitingLog(w: World) returns (more: seq<Event>)
    ensures EvaluateWaiting(w).log == w.log + more
    ensures forall e :: e in more ==> e.ProcessReady?
  {
    var holds := TrueNow(w);
    more := WakeAllLog(w.(sched := Evaluate(w.sched, holds)), Satisfied(w.sched.waiting, holds));
  }

  // ------------------------------------------------------------------
  // Steps
  // ------------------------------------------------------------------

  lemma GateStaysCalm(w: World, r: World, more: seq<Event>, g: Gate)
    requires GateOk(w, g)
    requires r.log == w.log + more && forall e :: e in more ==> Calm(e)
    requires r.sched.pending == w.sched.pending && r.unused >= w.unused
    ensures GateOk(r, g)
  {
    NeedAfterCalm(w.log, more, g);
    assert Depends(r.sched, g.pid) <==> Depends(w.sched, g.pid);
  }

  lemma GateEvaluateWaiting(w: World, g: Gate)
    requires GateOk(w, g) && SchedOk(w.sched)
    ensures GateOk(EvaluateWaiting(w), g)
  {
    hide GateOk;
    var more := EvaluateWaitingLog(w);
    EvaluateFacts(w.sched, TrueNow(w));
    GateStaysCalm(w, EvaluateWaiting(w), more, g);
  }

  lemma GateSpawn(w: World, d: Definition, goal: Option<GoalId>, priority: int, needs: set<Pid>, g: Gate)
    requires GateOk(w, g) && SchedOk(w.sched) && !Waits(w.sched, w.unused)
    ensures GateOk(Spawn(w, d, goal, priority, needs), g)
  {
    hide StillNeeded, StartsLate;
    var r := Spawn(w, d, goal, priority, needs);
    assert r.log == w.log + [ProcessCreated(w.unused), ProcessReady(w.unused)];
    NeedAfterCalm(w.log, [ProcessCreated(w.unused), ProcessReady(w.unused)], g);
    EnqueuePlaces(w.sched, w.unused, priority, needs);
  }

  /** A gate opens with the spawn. */
  lemma GateOpens(w: World, d: Definition, goal: Option<GoalId>, priority: int, needs: set<Pid>)
    requires SchedOk(w.sched) && !Waits(w.sched, w.unused) && needs != {}
    ensures GateOk(Spawn(w, d, goal, priority, needs), Gate(w.unused, needs, |w.log|))
  {
    var g := Gate(w.unused, needs, |w.log|);
    var r := Spawn(w, d, goal, priority, needs);
    EnqueuePlaces(w.sched, w.unused, priority, needs);
    assert forall i :: g.start <= i < |r.log| ==> Calm(r.log[i]);
    assert forall q :: !Ended(r.log, g.start, |r.log|, q);
    assert StillNeeded(r.log, g) == needs;
  }

  lemma WaitingEvaluates(w: World)
    ensures EvaluateWaiting(w).sched == Evaluate(w.sched, TrueNow(w))
  {}

  lemma GateNotify(w: World, p: Pid, e: Event, s: ProcessState, g: Gate)
    requires GateOk(w, g) && SchedOk(w.sched)
    requires e in {ProcessCompleted(p), ProcessFailed(p)}
    ensures GateOk(Announce(w, p, s, e), g)
  {
    hide StillNeeded, StartsLate, EvaluateWaiting, SchedOk, Depends, Notify, Evaluate;
    var w1 := Emit(SetState(w, p, s), e);
    var w2 := EvaluateWaiting(w1);
    var more := EvaluateWaitingLog(w1);
    NeedAfter(w.log, e, g);
    NeedAfterCalm(w1.log, more, g);
    WaitingEvaluates(w1);
    EvaluateFacts(w1.sched, TrueNow(w1));
    var r := OnTerminal(w1, p);
    assert StillNeeded(r.log, g) == StillNeeded(w.log, g) - {p} by {
      assert forall q :: Ends(e, q) <==> q == p;
    }
    GateShrinks(w.sched, w2.sched, p, g, StillNeeded(w.log, g));
  }

  lemma GateShrinks(s: Sched, t: Sched, p: Pid, g: Gate, needed: set<Pid>)
    requires SchedOk(s) && SchedOk(t) && t.pending == s.pending
    requires Depends(s, g.pid) ==> Dependent(g.pid, needed) in s.pending
    requires !Depends(s, g.pid) ==> needed == {}
    ensures Depends(Notify(t, p), g.pid) ==> Dependent(g.pid, needed - {p}) in Notify(t, p).pending
    ensures !Depends(Notify(t, p), g.pid) ==> needed - {p} == {}
  {
    NotifyFacts(t, p);
    var r := Notify(t, p);
    assert Depends(t, g.pid) <==> Depends(s, g.pid);
    if Depends(s, g.pid) && needed - {p} != {} {
      assert Dependent(g.pid, needed) in t.pending;
      assert Dependent(g.pid, needed - {p}) in r.pending;
    }
  }

  lemma GateBegin(w: World, p: Pid, g: Gate)
    requires GateOk(w, g) && !Depends(w.sched, p)
    ensures GateOk(Begin(w, p), g)
  {
    NeedAfter(w.log, ProcessStarted(p), g);
    assert StillNeeded(Begin(w, p).log, g) == StillNeeded(w.log, g);
    assert forall q :: !Ends(ProcessStarted(p), q);
  }
}
