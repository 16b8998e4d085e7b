/** Tasks and plans over the event log: a task's process starts only after the processes of all
    its dependencies completed, and what is settled stays settled. */
module History {
  import opened Common
  import opened Heap
  import opened States
  import opened SchedulerModel
  import opened KernelModel
  import opened Replay
  import opened PlanSafety

  ghost predicate Logged(log: seq<Event>, to: nat, e: Event) {
    exists i :: 0 <= i < to && i < |log| && log[i] == e
  }

  ghost predicate DepsDone(c: Cognition, deps: seq<TaskId>, log: seq<Event>, to: nat) {
    forall d :: d in deps ==>
      d in c.tasks && c.tasks[d].process.Some? && Logged(log, to, ProcessCompleted(c.tasks[d].process.value))
  }

  ghost predicate HistOk(w: World) {
    && (forall t :: t in w.cog.tasks && w.cog.tasks[t].state == TaskCompleted && w.cog.tasks[t].process.Some? ==>
          Logged(w.log, |w.log|, ProcessCompleted(w.cog.tasks[t].process.value)))
    && (forall i, t ::
          0 <= i < |w.log| && t in w.cog.tasks && w.cog.tasks[t].process.Some? &&
          w.log[i] == ProcessStarted(w.cog.tasks[t].process.value) ==>
          DepsDone(w.cog, w.cog.tasks[t].deps, w.log, i))
    && (forall i :: 0 <= i < |w.log| && w.log[i].ProcessStarted? ==> w.log[i].pid < w.unused)
  }

  /** `log'` is `log` followed by events that start nothing. */
  ghost predicate GrowsUnstarted(log: seq<Event>, log': seq<Event>) {
    log <= log' && forall i :: |log| <= i < |log'| ==> !log'[i].ProcessStarted?
  }

  ghost predicate GrowsSilently(log: seq<Event>, log': seq<Event>) {
    log <= log' && forall i :: |log| <= i < |log'| ==> Silent(log'[i])
  }

  /** A task's process, once given, stays; a new one is a new process. */
  ghost predicate ProcessesGoOn(c: Cognition, c': Cognition, unused: Pid) {
    && (forall t :: t in c.tasks ==>
          && t in c'.tasks && c'.tasks[t].deps == c.tasks[t].deps
          && (c.tasks[t].process.Some? ==> c'.tasks[t].process == c.tasks[t].process))
    && (forall t :: t in c'.tasks && c'.tasks[t].process.Some? ==>
          (t in c.tasks && c.tasks[t].process == c'.tasks[t].process) || c'.tasks[t].process.value >= unused)
  }

  lemma LoggedGrows(log: seq<Event>, log': seq<Event>, to: nat, e: Event)
    requires log <= log' && to <= |log|
    ensures Logged(log', to, e) <==> Logged(log, to, e)
  {
    assert forall i :: 0 <= i < |log| ==> log'[i] == log[i];
  }

  lemma DepsDoneGrows(c: Cognition, c': Cognition, unused: Pid, deps: seq<TaskId>, log: seq<Event>, log': seq<Event>,
      to: nat)
    requires DepsDone(c, deps, log, to) && log <= log' && to <= |log| && ProcessesGoOn(c, c', unused)
    ensures DepsDone(c', deps, log', to)
  {
    forall d | d in deps ensures d in c'.tasks && c'.tasks[d].process.Some?
      && Logged(log', to, ProcessCompleted(c'.tasks[d].process.value))
    {
      LoggedGrows(log, log', to, ProcessCompleted(c.tasks[d].process.value));
    }
  }

  lemma HistGrows(w: World, r: World)
    requires HistOk(w) && GrowsUnstarted(w.log, r.log) && r.unused >= w.unused
    requires ProcessesGoOn(w.cog, r.cog, w.unused)
    requires forall t :: t in r.cog.tasks && r.cog.tasks[t].state == TaskCompleted && r.cog.tasks[t].process.Some? ==>
      Logged(r.log, |r.log|, ProcessCompleted(r.cog.tasks[t].process.value))
    ensures HistOk(r)
  {
    hide Logged, DepsDone;
    forall i, t | 0 <= i < |r.log| && t in r.cog.tasks && r.cog.tasks[t].process.Some?
      && r.log[i] == ProcessStarted(r.cog.tasks[t].process.value)
      ensures DepsDone(r.cog, r.cog.tasks[t].deps, r.log, i)
    {
      assert w.log[i] == r.log[i];
      DepsDoneGrows(w.cog, r.cog, w.unused, w.cog.tasks[t].deps, w.log, r.log, i);
    }
    forall i | 0 <= i < |r.log| && r.log[i].ProcessStarted? ensures r.log[i].pid < r.unused {
      assert w.log[i] == r.log[i];
    }
  }

  /** Steps that leave the tasks alone. */
  lemma HistSameTasks(w: World, r: World)
    requires HistOk(w) && GrowsUnstarted(w.log, r.log) && r.unused >= w.unused && r.cog == w.cog
    ensures HistOk(r)
  {
    forall t | t in r.cog.tasks && r.cog.tasks[t].state == TaskCompleted && r.cog.tasks[t].process.Some?
      ensures Logged(r.log, |r.log|, ProcessCompleted(r.cog.tasks[t].process.value))
    {
      LoggedLater(w.log, r.log, ProcessCompleted(r.cog.tasks[t].process.value));
    }
    HistGrows(w, r);
  }

  lemma LoggedLater(log: seq<Event>, log': seq<Event>, e: Event)
    requires Logged(log, |log|, e) && log <= log'
    ensures Logged(log', |log'|, e)
  {
    var i :| 0 <= i < |log| && log[i] == e;
    assert log'[i] == e;
  }

  /** A task's process starts: all its dependencies' processes have completed. */
  lemma HistBegin(w: World, p: Pid, busy: set<Pid>)
    requires HistOk(w) && PlansOk(w, busy, {}) && p < w.unused
    ensures HistOk(Begin(w, p))
  {
    var r := Begin(w, p);
    hide PlanOk, Logged, DepsDone, DepsMet;
    assert w.log <= r.log && r.cog == w.cog;
    forall t | t in r.cog.tasks && r.cog.tasks[t].state == TaskCompleted && r.cog.tasks[t].process.Some?
      ensures Logged(r.log, |r.log|, ProcessCompleted(r.cog.tasks[t].process.value))
    {
      LoggedLater(w.log, r.log, ProcessCompleted(r.cog.tasks[t].process.value));
    }
    forall i, t | 0 <= i < |r.log| && t in r.cog.tasks && r.cog.tasks[t].process.Some?
      && r.log[i] == ProcessStarted(r.cog.tasks[t].process.value)
      ensures DepsDone(r.cog, r.cog.tasks[t].deps, r.log, i)
    {
      if i == |w.log| {
        assert TaskOk(w.cog, w.table, busy, t);
        DepsMetIsDone(w, busy, w.cog.tasks[t].deps);
        DepsDoneGrows(w.cog, r.cog, w.unused, w.cog.tasks[t].deps, w.log, r.log, i);
      } else {
        assert w.log[i] == r.log[i];
        DepsDoneGrows(w.cog, r.cog, w.unused, w.cog.tasks[t].deps, w.log, r.log, i);
      }
    }
  }

  lemma DepsMetIsDone(w: World, busy: set<Pid>, deps: seq<TaskId>)
    requires HistOk(w) && PlansOk(w, busy, {}) && DepsMet(w.cog, deps)
    ensures DepsDone(w.cog, deps, w.log, |w.log|)
  {
    hide PlanOk, Logged;
    forall d | d in deps ensures d in w.cog.tasks && w.cog.tasks[d].process.Some?
      && Logged(w.log, |w.log|, ProcessCompleted(w.cog.tasks[d].process.value))
    {
      assert TaskOk(w.cog, w.table, busy, d);
    }
  }

  // ------------------------------------------------------------------
  // What is settled stays settled
  // ------------------------------------------------------------------

  /** Completed and failed tasks and plans stay so, a task keeps the process it got, and a plan
      that is over gets no further process. */
  ghost predicate CogEvolves(c: Cognition, c': Cognition) {
    && (forall t :: t in c.tasks ==>
          && t in c'.tasks
          && c'.tasks[t].plan == c.tasks[t].plan && c'.tasks[t].deps == c.tasks[t].deps
          && c'.tasks[t].definition == c.tasks[t].definition
          && (c.tasks[t].process.Some? ==> c'.tasks[t].process == c.tasks[t].process)
          && (c.tasks[t].state in {TaskCompleted, TaskFailed} ==> c'.tasks[t].state == c.tasks[t].state))
    && (forall q :: q in c.plans ==>
          && q in c'.plans
          && c'.plans[q].goal == c.plans[q].goal && c'.plans[q].tasks == c.plans[q].tasks
          && (c.plans[q].state in {PlanCompleted, PlanFailed} ==> c'.plans[q].state == c.plans[q].state))
    && (forall t ::
          t in c.tasks && c.tasks[t].plan in c.plans &&
          c.plans[c.tasks[t].plan].state in {PlanCompleted, PlanFailed} ==>
          t in c'.tasks && c'.tasks[t].process == c.tasks[t].process)
  }

  lemma CogEvolvesTrans(a: Cognition, b: Cognition, c: Cognition)
    requires CogEvolves(a, b) && CogEvolves(b, c)
    ensures CogEvolves(a, c)
  {}
}
