/** What a priority means: a queued process has the priority it was last enqueued with, and the
    larger one goes first. */
module Priorities {
  import opened Heap
  import opened SchedulerModel

  /** The priority last given to a process; clearing forgets, and the default is 0. */
  function LastGiven(ops: seq<SchedOp>, p: Pid): int {
    if ops == [] then 0
    else
      var earlier, last := ops[..|ops| - 1], ops[|ops| - 1];
      if last.DoClear? then 0
      else if last.DoEnqueue? && last.pid == p then last.priority
      else LastGiven(earlier, p)
  }

  // ------------------------------------------------------------------
  // One call
  // ------------------------------------------------------------------

  /** A process that is neither queued nor waiting and needs nobody gets one entry, with the
      priority it was enqueued with, behind every other entry of that priority. */
  lemma EnqueueGivesPriority(s: Sched, p: Pid, priority: int)
    requires SchedOk(s) && !Queued(s, p) && !Waits(s, p)
    ensures var r := Enqueue(s, p, priority, {});
      && |r.queue| == |s.queue| + 1
      && exists e: Entry :: e.pid == p && e.priority == priority && e !in s.queue
           && (forall x :: x in s.queue ==> x.order < e.order)
           && forall x :: x in r.queue <==> x in s.queue || x == e
  {
    var s1 := s.(priorities := s.priorities[p := priority]);
    var e := Entry(priority, s.order + 1, p);
    assert !Queued(s1, p) && !Waits(s1, p);
    InsertElements(s.queue, e);
    InsertLength(s.queue, e);
  }

  lemma {:induction false} InsertLength(q: seq<Entry>, e: Entry)
    ensures |Insert(q, e)| == |q| + 1
  {
    if q != [] {
      InsertLength(q[1..], e);
    }
  }

  /** Otherwise the queue stays as it is. */
  lemma EnqueueElsewhere(s: Sched, p: Pid, priority: int, needs: set<Pid>)
    requires Queued(s, p) || Waits(s, p) || needs != {}
    ensures Enqueue(s, p, priority, needs).queue == s.queue
  {
    var s1 := s.(priorities := s.priorities[p := priority]);
    assert (Queued(s1, p) <==> Queued(s, p)) && (Waits(s1, p) <==> Waits(s, p));
  }

  /** The table and the queue agree about priorities. */
  ghost predicate Prioritised(s: Sched) {
    forall e :: e in s.queue ==> e.priority == if e.pid in s.priorities then s.priorities[e.pid] else 0
  }

  /** A queued process is enqueued again, with another priority. */
  ghost predicate Requeues(s: Sched, op: SchedOp) {
    op.DoEnqueue? && exists e :: e in s.queue && e.pid == op.pid && e.priority != op.priority
  }

  lemma AddPrioritised(s: Sched, p: Pid)
    requires Prioritised(s)
    ensures Prioritised(Add(s, p, PriorityOf(s, p)))
  {
    hide Queued, Waits;
    var e := Entry(PriorityOf(s, p), s.order + 1, p);
    InsertElements(s.queue, e);
  }

  lemma {:induction false} AddAllPrioritised(s: Sched, ps: seq<Pid>)
    requires Prioritised(s)
    ensures Prioritised(AddAll(s, ps))
    decreases ps
  {
    hide Prioritised, Add;
    if ps != [] {
      AddPrioritised(s, ps[0]);
      AddAllPrioritised(Add(s, ps[0], PriorityOf(s, ps[0])), ps[1..]);
    }
  }

  /** Enqueuing keeps table and queue in agreement if and only if it does not give a queued process
      another priority: the entry keeps the old one. */
  lemma EnqueuePrioritisedExactlyWhen(s: Sched, p: Pid, priority: int, needs: set<Pid>)
    requires SchedOk(s) && Prioritised(s)
    ensures Prioritised(Enqueue(s, p, priority, needs)) <==> !Requeues(s, DoEnqueue(p, priority, needs))
  {
    var s1 := s.(priorities := s.priorities[p := priority]);
    assert (Queued(s1, p) <==> Queued(s, p)) && (Waits(s1, p) <==> Waits(s, p));
    if needs == {} && !Queued(s, p) && !Waits(s, p) {
      InsertElements(s.queue, Entry(priority, s.order + 1, p));
      assert forall e :: e in s.queue ==> e.pid != p;
    } else {
      EnqueueElsewhere(s, p, priority, needs);
      assert Enqueue(s, p, priority, needs).priorities == s1.priorities;
    }
  }

  lemma MovesPrioritised(s: Sched, op: SchedOp)
    requires SchedOk(s) && Prioritised(s) && !op.DoEnqueue?
    ensures Prioritised(Step(s, op))
  {
    hide SchedOk, AddAll, Unsatisfied, Satisfied, Shrunk, Freed, Without;
    match op {
      case DoDequeue =>
      case DoMarkWaiting(p, c) => WithoutElements(s.queue, p);
      case DoEvaluate(holds) =>
        AddAllPrioritised(s.(waiting := Unsatisfied(s.waiting, holds)), Satisfied(s.waiting, holds));
      case DoNotify(p) => AddAllPrioritised(s.(pending := Shrunk(s.pending, p)), Freed(s.pending, p));
      case DoClear =>
    }
  }

  // ------------------------------------------------------------------
  // Every operation sequence
  // ------------------------------------------------------------------

  ghost predicate NeverRequeues(s: Sched, ops: seq<SchedOp>)
    decreases ops
  {
    ops == [] || (!Requeues(s, ops[0]) && NeverRequeues(Step(s, ops[0]), ops[1..]))
  }

  lemma {:induction false} RunPrioritised(s: Sched, ops: seq<SchedOp>)
    requires SchedOk(s) && Prioritised(s) && NeverRequeues(s, ops)
    ensures Prioritised(After(s, ops))
    decreases ops
  {
    hide SchedOk, Prioritised, Requeues, Step;
    if ops != [] {
      StepPrioritised(s, ops[0]);
      OneStepOk(s, ops[0]);
      RunPrioritised(Step(s, ops[0]), ops[1..]);
    }
  }

  lemma OneStepOk(s: Sched, op: SchedOp)
    requires SchedOk(s)
    ensures SchedOk(Step(s, op))
  {
    hide SchedOk, Step;
    EveryRunKeepsSchedOk(s, [op]);
    assert After(s, [op]) == After(Step(s, op), [op][1..]) == Step(s, op);
  }

  lemma StepPrioritised(s: Sched, op: SchedOp)
    requires SchedOk(s) && Prioritised(s) && !Requeues(s, op)
    ensures Prioritised(Step(s, op))
  {
    hide SchedOk, Prioritised, Requeues, Enqueue;
    if op.DoEnqueue? {
      EnqueuePrioritisedExactlyWhen(s, op.pid, op.priority, op.needs);
    } else {
      MovesPrioritised(s, op);
    }
  }

  lemma {:induction false} AfterSnoc(s: Sched, ops: seq<SchedOp>, op: SchedOp)
    ensures After(s, ops + [op]) == Step(After(s, ops), op)
    decreases ops
  {
    hide Step;
    if ops == [] {
      assert [] + [op] == [op] && [op][1..] == [];
    } else {
      assert (ops + [op])[1..] == ops[1..] + [op];
      AfterSnoc(Step(s, ops[0]), ops[1..], op);
    }
  }

  lemma StepPriorities(s: Sched, op: SchedOp)
    ensures Step(s, op).priorities == match op
      case DoEnqueue(p, priority, _) => s.priorities[p := priority]
      case DoClear => map[]
      case _ => s.priorities
  {
    hide Queued, Waits;
  }

  /** The scheduler's table has exactly what was last given. */
  lemma {:induction false} TableHasLastGiven(ops: seq<SchedOp>, p: Pid)
    ensures var t := After(EmptySched, ops).priorities; LastGiven(ops, p) == if p in t then t[p] else 0
    decreases |ops|
  {
    hide Step;
    if ops != [] {
      var earlier, last := ops[..|ops| - 1], ops[|ops| - 1];
      assert ops == earlier + [last];
      AfterSnoc(EmptySched, earlier, last);
      TableHasLastGiven(earlier, p);
      StepPriorities(After(EmptySched, earlier), last);
    }
  }

  /** Over every sequence of calls that never enqueues a queued process again with another
      priority, each queued process has the priority it was last enqueued with, also after a wait
      or a release. */
  lemma QueuedWithLastGiven(ops: seq<SchedOp>, e: Entry)
    requires NeverRequeues(EmptySched, ops) && e in After(EmptySched, ops).queue
    ensures e.priority == LastGiven(ops, e.pid)
  {
    RunPrioritised(EmptySched, ops);
    TableHasLastGiven(ops, e.pid);
  }

  lemma GoesFirst(s: Sched, a: Entry, b: Entry)
    requires SchedOk(s) && a in s.queue && b in s.queue
    requires a.priority > b.priority || (a.priority == b.priority && a.order < b.order)
    ensures exists i, j :: 0 <= i < j < |Drain(s)| && Drain(s)[i] == a.pid && Drain(s)[j] == b.pid
  {
    DrainGivesQueue(s);
    hide Drain;
    var i :| 0 <= i < |s.queue| && s.queue[i] == a;
    var j :| 0 <= j < |s.queue| && s.queue[j] == b;
    assert Before(a, b) && !Before(b, a) && !(j < i);
    assert Drain(s)[i] == a.pid && Drain(s)[j] == b.pid;
  }

  /** Of two queued processes the one enqueued with the larger priority is dequeued first. */
  lemma LargerPriorityFirst(ops: seq<SchedOp>, p: Pid, q: Pid)
    requires NeverRequeues(EmptySched, ops)
    requires Queued(After(EmptySched, ops), p) && Queued(After(EmptySched, ops), q)
      && LastGiven(ops, p) > LastGiven(ops, q)
    ensures var order := Drain(After(EmptySched, ops));
      exists i, j :: 0 <= i < j < |order| && order[i] == p && order[j] == q
  {
    hide After, NeverRequeues, LastGiven, SchedOk;
    var s := After(EmptySched, ops);
    EmptyOk();
    EveryRunKeepsSchedOk(EmptySched, ops);
    var a :| a in s.queue && a.pid == p;
    var b :| b in s.queue && b.pid == q;
    QueuedWithLastGiven(ops, a);
    QueuedWithLastGiven(ops, b);
    GoesFirst(s, a, b);
  }

  lemma EmptyOk()
    ensures SchedOk(EmptySched)
  {}

  /** Within one priority the process enqueued first is dequeued first. */
  lemma EqualPriorityInOrder(s: Sched, p: Pid, q: Pid, priority: int)
    requires SchedOk(s) && p != q && !Queued(s, p) && !Waits(s, p) && !Queued(s, q) && !Waits(s, q)
    ensures var order := Drain(Enqueue(Enqueue(s, p, priority, {}), q, priority, {}));
      exists i, j :: 0 <= i < j < |order| && order[i] == p && order[j] == q
  {
    hide SchedOk, Enqueue, Queued, Waits, Depends, Drain;
    var s1 := Enqueue(s, p, priority, {});
    EnqueuePlaces(s, p, priority, {});
    EnqueueGivesPriority(s, p, priority);
    EnqueuePlaces(s1, q, priority, {});
    EnqueueGivesPriority(s1, q, priority);
    var r := Enqueue(s1, q, priority, {});
    var a: Entry :| a.pid == p && a.priority == priority && a in s1.queue;
    var b: Entry :|
      b.pid == q && b.priority == priority && b in r.queue && forall x :: x in s1.queue ==> x.order < b.order;
    assert a in r.queue && a.order < b.order;
    GoesFirst(r, a, b);
  }

  /** Enqueued again while it is queued, a process keeps its place: priority 1 goes on being
      dispatched behind priority 3 though it was raised to 5. */
  lemma RequeueKeepsOldPlace()
    ensures var ops := [DoEnqueue(0, 1, {}), DoEnqueue(1, 3, {}), DoEnqueue(0, 5, {})];
      LastGiven(ops, 0) > LastGiven(ops, 1) && Drain(After(EmptySched, ops)) == [1, 0]
  {
    var s1 := Enqueue(EmptySched, 0, 1, {});
    var a, b := Entry(1, 1, 0), Entry(3, 2, 1);
    assert s1.queue == [a];
    var s2 := Enqueue(s1, 1, 3, {});
    assert !Queued(s1, 1) && s2.queue == [b, a];
    var s3 := Enqueue(s2, 0, 5, {});
    assert a in s2.queue && Queued(s2, 0);
    EnqueueElsewhere(s2, 0, 5, {});
    var o1, o2, o3 := DoEnqueue(0, 1, {}), DoEnqueue(1, 3, {}), DoEnqueue(0, 5, {});
    AfterSnoc(EmptySched, [o1, o2], o3);
    AfterSnoc(EmptySched, [o1], o2);
    AfterSnoc(EmptySched, [], o1);
    assert [o1, o2, o3] == [o1, o2] + [o3] && [o1, o2] == [o1] + [o2] && [o1] == [] + [o1];
    DrainIsQueue(s3);
    LastOfThree(o1, o2, o3);
  }

  lemma LastOfThree(o1: SchedOp, o2: SchedOp, o3: SchedOp)
    requires o1 == DoEnqueue(0, 1, {}) && o2 == DoEnqueue(1, 3, {}) && o3 == DoEnqueue(0, 5, {})
    ensures LastGiven([o1, o2, o3], 0) == 5 && LastGiven([o1, o2, o3], 1) == 3
  {
    assert [o1, o2, o3][..2] == [o1, o2];
  }
}
