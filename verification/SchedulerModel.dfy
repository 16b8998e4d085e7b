/** What the scheduler means: a ready queue kept as a sorted sequence, the waiting registry
    and the dependency table, with one function for each public operation. The two registries
    are insertion-ordered dictionaries, so they are sequences of entries with distinct ids. */
module SchedulerModel {
  import opened Heap

  datatype Condition =
    | MessageArrives(recipient: Pid)
    | KeyExists(key: string)
    | Approved(request: string)
    | TimeReached(deadline: int)

  datatype Waiter = Waiter(pid: Pid, condition: Condition)

  datatype Dependent = Dependent(pid: Pid, needs: set<Pid>)

  datatype Sched = Sched(
    queue: seq<Entry>,
    order: nat,
    priorities: map<Pid, int>,
    waiting: seq<Waiter>,
    pending: seq<Dependent>)

  const EmptySched := Sched([], 0, map[], [], [])

  // ------------------------------------------------------------------
  // Where a process is
  // ------------------------------------------------------------------

  predicate Queued(s: Sched, p: Pid) {
    exists e :: e in s.queue && e.pid == p
  }

  predicate Waits(s: Sched, p: Pid) {
    exists x :: x in s.waiting && x.pid == p
  }

  predicate Depends(s: Sched, p: Pid) {
    exists d :: d in s.pending && d.pid == p
  }

  // ------------------------------------------------------------------
  // Operations
  // ------------------------------------------------------------------

  /** The place of a new entry: behind everything it does not precede. */
  function Insert(q: seq<Entry>, e: Entry): seq<Entry> {
    if q == [] || Before(e, q[0]) then [e] + q else [q[0]] + Insert(q[1..], e)
  }

  function PriorityOf(s: Sched, p: Pid): int {
    if p in s.priorities then s.priorities[p] else 0
  }

  /** `_add_to_queue`: a queued or waiting process is left where it is. */
  function Add(s: Sched, p: Pid, priority: int): (r: Sched)
    ensures r.waiting == s.waiting && r.pending == s.pending && r.priorities == s.priorities
  {
    if Queued(s, p) || Waits(s, p) then s
    else s.(queue := Insert(s.queue, Entry(priority, s.order + 1, p)), order := s.order + 1)
  }

  function AddAll(s: Sched, ps: seq<Pid>): (r: Sched)
    ensures r.waiting == s.waiting && r.pending == s.pending && r.priorities == s.priorities
    decreases ps
  {
    if ps == [] then s else AddAll(Add(s, ps[0], PriorityOf(s, ps[0])), ps[1..])
  }

  function PutDependent(pending: seq<Dependent>, p: Pid, needs: set<Pid>): seq<Dependent> {
    if pending == [] then [Dependent(p, needs)]
    else if pending[0].pid == p then [Dependent(p, needs)] + pending[1..]
    else [pending[0]] + PutDependent(pending[1..], p, needs)
  }

  function Enqueue(s: Sched, p: Pid, priority: int, needs: set<Pid>): Sched {
    var s1 := s.(priorities := s.priorities[p := priority]);
    if needs != {} then s1.(pending := PutDependent(s1.pending, p, needs)) else Add(s1, p, priority)
  }

  function Dequeue(s: Sched): Sched
    requires s.queue != []
  {
    s.(queue := s.queue[1..])
  }

  function PutWaiter(waiting: seq<Waiter>, p: Pid, c: Condition): seq<Waiter> {
    if waiting == [] then [Waiter(p, c)]
    else if waiting[0].pid == p then [Waiter(p, c)] + waiting[1..]
    else [waiting[0]] + PutWaiter(waiting[1..], p, c)
  }

  function Without(q: seq<Entry>, p: Pid): seq<Entry> {
    if q == [] then [] else (if q[0].pid == p then [] else [q[0]]) + Without(q[1..], p)
  }

  function MarkWaiting(s: Sched, p: Pid, c: Condition): Sched {
    s.(waiting := PutWaiter(s.waiting, p, c), queue := Without(s.queue, p))
  }

  /** Ids of the waiters whose condition holds, in registration order. */
  function Satisfied(waiting: seq<Waiter>, holds: set<Condition>): seq<Pid> {
    if waiting == [] then []
    else (if waiting[0].condition in holds then [waiting[0].pid] else []) + Satisfied(waiting[1..], holds)
  }

  function Unsatisfied(waiting: seq<Waiter>, holds: set<Condition>): seq<Waiter> {
    if waiting == [] then []
    else (if waiting[0].condition in holds then [] else [waiting[0]]) + Unsatisfied(waiting[1..], holds)
  }

  /** `evaluate_waiting`, given the conditions that hold now. */
  function Evaluate(s: Sched, holds: set<Condition>): Sched {
    AddAll(s.(waiting := Unsatisfied(s.waiting, holds)), Satisfied(s.waiting, holds))
  }

  /** Ids that need nothing but `p`, in registration order. */
  function Freed(pending: seq<Dependent>, p: Pid): seq<Pid> {
    if pending == [] then []
    else (if pending[0].needs - {p} == {} then [pending[0].pid] else []) + Freed(pending[1..], p)
  }

  function Shrunk(pending: seq<Dependent>, p: Pid): seq<Dependent> {
    if pending == [] then []
    else
      var needs := pending[0].needs - {p};
      (if needs == {} then [] else [Dependent(pending[0].pid, needs)]) + Shrunk(pending[1..], p)
  }

  /** `notify_completed`. */
  function Notify(s: Sched, p: Pid): Sched {
    AddAll(s.(pending := Shrunk(s.pending, p)), Freed(s.pending, p))
  }

  // ------------------------------------------------------------------
  // The invariant of every operation sequence
  // ------------------------------------------------------------------

  ghost predicate Sorted(q: seq<Entry>) {
    forall i, j :: 0 <= i < j < |q| ==> Before(q[i], q[j])
  }

  ghost predicate DistinctEntries(q: seq<Entry>) {
    && (forall a, b :: a in q && b in q && a.pid == b.pid ==> a == b)
    && (forall a, b :: a in q && b in q && a.order == b.order ==> a == b)
  }

  ghost predicate DistinctWaiters(w: seq<Waiter>) {
    forall i, j :: 0 <= i < j < |w| ==> w[i].pid != w[j].pid
  }

  ghost predicate DistinctDependents(d: seq<Dependent>) {
    && (forall i, j :: 0 <= i < j < |d| ==> d[i].pid != d[j].pid)
    && (forall x :: x in d ==> x.needs != {})
  }

  ghost predicate SchedOk(s: Sched) {
    && Sorted(s.queue) && DistinctEntries(s.queue)
    && (forall e :: e in s.queue ==> e.order <= s.order)
    && DistinctWaiters(s.waiting)
    && DistinctDependents(s.pending)
    && (forall p :: Queued(s, p) ==> !Waits(s, p))
  }

  // ------------------------------------------------------------------
  // Sequence facts
  // ------------------------------------------------------------------

  lemma {:induction false} InsertElements(q: seq<Entry>, e: Entry)
    ensures multiset(Insert(q, e)) == multiset(q) + multiset{e}
    ensures forall x :: x in Insert(q, e) <==> x in q || x == e
  {
    if q == [] || Before(e, q[0]) {
    } else {
      InsertElements(q[1..], e);
      assert q == [q[0]] + q[1..];
    }
  }

  lemma {:induction false} InsertSorted(q: seq<Entry>, e: Entry)
    requires Sorted(q) && forall x :: x in q ==> x.order != e.order
    ensures Sorted(Insert(q, e))
  {
    if q == [] || Before(e, q[0]) {
    } else {
      InsertSorted(q[1..], e);
      InsertElements(q[1..], e);
      var r := Insert(q[1..], e);
      forall j | 0 <= j < |r| ensures Before(q[0], r[j]) {
        assert r[j] in r;
        assert r[j] in q[1..] || r[j] == e;
      }
    }
  }

  /** A sorted sequence is determined by its elements: the heap has one sorted reading. */
  lemma {:induction false} SortedIsUnique(a: seq<Entry>, b: seq<Entry>)
    requires Sorted(a) && Sorted(b) && multiset(a) == multiset(b)
    ensures a == b
  {
    if a == [] {
      assert |multiset(b)| == 0;
    } else {
      assert a[0] in multiset(b) && |multiset(a)| == |a| && |multiset(b)| == |b|;
      assert b[0] in multiset(a);
      assert a[0] == b[0];
      assert a == [a[0]] + a[1..] && b == [b[0]] + b[1..];
      assert multiset(a[1..]) == multiset(a) - multiset{a[0]};
      assert multiset(b[1..]) == multiset(b) - multiset{b[0]};
      SortedIsUnique(a[1..], b[1..]);
    }
  }

  lemma {:induction false} WithoutElements(q: seq<Entry>, p: Pid)
    ensures forall x :: x in Without(q, p) <==> x in q && x.pid != p
  {
    if q != [] {
      WithoutElements(q[1..], p);
    }
  }

  lemma {:induction false} WithoutSorted(q: seq<Entry>, p: Pid)
    requires Sorted(q)
    ensures Sorted(Without(q, p))
  {
    if q != [] {
      WithoutSorted(q[1..], p);
      WithoutElements(q[1..], p);
      var r := Without(q[1..], p);
      forall j | 0 <= j < |r| ensures Before(q[0], r[j]) {
        assert r[j] in r;
        assert r[j] in q[1..];
      }
    }
  }

  lemma {:induction false} PutWaiterElements(w: seq<Waiter>, p: Pid, c: Condition)
    requires DistinctWaiters(w)
    ensures DistinctWaiters(PutWaiter(w, p, c))
    ensures forall x :: x in PutWaiter(w, p, c) <==> (x in w && x.pid != p) || x == Waiter(p, c)
  {
    if w == [] {
    } else if w[0].pid == p {
    } else {
      PutWaiterElements(w[1..], p, c);
      var r := PutWaiter(w[1..], p, c);
      assert w == [w[0]] + w[1..];
      forall j | 0 <= j < |r| ensures w[0].pid != r[j].pid {
        assert r[j] in r;
      }
    }
  }

  lemma {:induction false} PutDependentElements(d: seq<Dependent>, p: Pid, needs: set<Pid>)
    requires DistinctDependents(d) && needs != {}
    ensures DistinctDependents(PutDependent(d, p, needs))
    ensures forall x :: x in PutDependent(d, p, needs) <==> (x in d && x.pid != p) || x == Dependent(p, needs)
  {
    if d == [] {
    } else if d[0].pid == p {
      assert d == [d[0]] + d[1..];
    } else {
      PutDependentElements(d[1..], p, needs);
      var r := PutDependent(d[1..], p, needs);
      assert d == [d[0]] + d[1..];
      forall j | 0 <= j < |r| ensures d[0].pid != r[j].pid {
        assert r[j] in r;
      }
    }
  }

  lemma {:induction false} WaiterSplit(w: seq<Waiter>, holds: set<Condition>)
    requires DistinctWaiters(w)
    ensures DistinctWaiters(Unsatisfied(w, holds))
    ensures forall x :: x in Unsatisfied(w, holds) <==> x in w && x.condition !in holds
    ensures forall p :: p in Satisfied(w, holds) <==> exists x :: x in w && x.pid == p && x.condition in holds
  {
    if w != [] {
      WaiterSplit(w[1..], holds);
      assert w == [w[0]] + w[1..];
      var r := Unsatisfied(w[1..], holds);
      forall j | 0 <= j < |r| ensures w[0].pid != r[j].pid {
        assert r[j] in r;
      }
    }
  }

  lemma {:induction false} DependentSplit(d: seq<Dependent>, p: Pid)
    requires DistinctDependents(d)
    ensures DistinctDependents(Shrunk(d, p))
    ensures forall x :: x in Shrunk(d, p) <==>
      x.needs != {} && exists y :: y in d && y.pid == x.pid && x.needs == y.needs - {p}
    ensures forall q :: q in Freed(d, p) <==> exists y :: y in d && y.pid == q && y.needs - {p} == {}
  {
    if d != [] {
      DependentSplit(d[1..], p);
      assert d == [d[0]] + d[1..];
      var r := Shrunk(d[1..], p);
      forall j | 0 <= j < |r| ensures d[0].pid != r[j].pid {
        assert r[j] in r;
      }
    }
  }

  // ------------------------------------------------------------------
  // Where each operation leaves every process
  // ------------------------------------------------------------------

  lemma AddFacts(s: Sched, p: Pid, priority: int)
    requires SchedOk(s)
    ensures SchedOk(Add(s, p, priority))
    ensures forall q :: Queued(Add(s, p, priority), q) <==> Queued(s, q) || (q == p && !Waits(s, p))
    ensures Add(s, p, priority).(queue := s.queue, order := s.order) == s
    ensures forall e :: e in s.queue ==> e in Add(s, p, priority).queue
  {
    if !Queued(s, p) && !Waits(s, p) {
      var e := Entry(priority, s.order + 1, p);
      var s1 := Add(s, p, priority);
      InsertElements(s.queue, e);
      InsertSorted(s.queue, e);
      assert e in s1.queue;
      forall q ensures Queued(s1, q) <==> Queued(s, q) || q == p {
        if Queued(s, q) {
          var x :| x in s.queue && x.pid == q;
          assert x in s1.queue;
        }
      }
    }
  }

  lemma {:induction false} AddAllFacts(s: Sched, ps: seq<Pid>)
    requires SchedOk(s)
    ensures SchedOk(AddAll(s, ps))
    ensures forall q :: Queued(AddAll(s, ps), q) <==> Queued(s, q) || (q in ps && !Waits(s, q))
    ensures AddAll(s, ps).(queue := s.queue, order := s.order) == s
    ensures forall e :: e in s.queue ==> e in AddAll(s, ps).queue
    decreases ps
  {
    if ps != [] {
      var s1 := Add(s, ps[0], PriorityOf(s, ps[0]));
      AddFacts(s, ps[0], PriorityOf(s, ps[0]));
      AddAllFacts(s1, ps[1..]);
      assert forall q :: Waits(s1, q) <==> Waits(s, q);
      assert forall q :: q in ps <==> q == ps[0] || q in ps[1..];
    }
  }

  lemma EnqueueFacts(s: Sched, p: Pid, priority: int, needs: set<Pid>)
    requires SchedOk(s)
    ensures var r := Enqueue(s, p, priority, needs);
      && SchedOk(r) && r.waiting == s.waiting
      && (needs == {} ==> r.pending == s.pending)
      && (needs != {} ==> r.queue == s.queue)
      && (needs != {} ==> forall x :: x in r.pending <==> (x in s.pending && x.pid != p) || x == Dependent(p, needs))
      && (needs == {} ==> forall q :: Queued(r, q) <==> Queued(s, q) || (q == p && !Waits(s, p)))
      && (forall e :: e in s.queue ==> e in r.queue)
  {
    var s1 := s.(priorities := s.priorities[p := priority]);
    assert forall q :: (Queued(s1, q) <==> Queued(s, q)) && (Waits(s1, q) <==> Waits(s, q));
    if needs != {} {
      PutDependentElements(s.pending, p, needs);
      var r := Enqueue(s, p, priority, needs);
      assert forall q :: (Queued(r, q) <==> Queued(s, q)) && (Waits(r, q) <==> Waits(s, q));
    } else {
      AddFacts(s1, p, priority);
    }
  }

  lemma DequeueFacts(s: Sched)
    requires SchedOk(s) && s.queue != []
    ensures var r := Dequeue(s);
      && SchedOk(r) && r.waiting == s.waiting && r.pending == s.pending
      && (forall q :: Queued(r, q) <==> Queued(s, q) && q != s.queue[0].pid)
      && Queued(s, s.queue[0].pid)
      && (forall e :: e in s.queue ==> e == s.queue[0] || (e in r.queue && Before(s.queue[0], e)))
  {
    var r := Dequeue(s);
    assert s.queue == [s.queue[0]] + r.queue;
    assert s.queue[0] in s.queue;
    assert forall e :: e in s.queue <==> e == s.queue[0] || e in r.queue;
    forall e | e in r.queue ensures Before(s.queue[0], e) {
      var i :| 0 <= i < |r.queue| && r.queue[i] == e;
      assert s.queue[i + 1] == e;
    }
    forall q ensures Queued(r, q) <==> Queued(s, q) && q != s.queue[0].pid {
      if Queued(r, q) {
        var e :| e in r.queue && e.pid == q;
        assert e in s.queue && Before(s.queue[0], e);
        assert e != s.queue[0];
      }
    }
    assert forall q :: Waits(r, q) <==> Waits(s, q);
  }

  lemma MarkWaitingFacts(s: Sched, p: Pid, c: Condition)
    requires SchedOk(s)
    ensures var r := MarkWaiting(s, p, c);
      && SchedOk(r) && r.pending == s.pending && r.order == s.order
      && (forall q :: Queued(r, q) <==> Queued(s, q) && q != p)
      && (forall q :: Waits(r, q) <==> Waits(s, q) || q == p)
      && (forall x :: x in r.waiting <==> (x in s.waiting && x.pid != p) || x == Waiter(p, c))
  {
    var r := MarkWaiting(s, p, c);
    PutWaiterElements(s.waiting, p, c);
    WithoutElements(s.queue, p);
    WithoutSorted(s.queue, p);
    assert Waiter(p, c) in r.waiting;
    forall q ensures Waits(r, q) <==> Waits(s, q) || q == p {
      if Waits(s, q) && q != p {
        var x :| x in s.waiting && x.pid == q;
        assert x in r.waiting;
      }
    }
    forall q ensures Queued(r, q) <==> Queued(s, q) && q != p {
      if Queued(s, q) && q != p {
        var e :| e in s.queue && e.pid == q;
        assert e in r.queue;
      }
    }
  }

  /** No lost wakeup: a satisfied waiter leaves the registry and is queued, whenever its
      condition came true, and nobody else moves. */
  lemma EvaluateFacts(s: Sched, holds: set<Condition>)
    requires SchedOk(s)
    ensures var r := Evaluate(s, holds);
      && SchedOk(r) && r.pending == s.pending && r.priorities == s.priorities
      && (forall x :: x in r.waiting <==> x in s.waiting && x.condition !in holds)
      && (forall q :: q in Satisfied(s.waiting, holds) <==> Waits(s, q) && !Waits(r, q))
      && (forall q :: Queued(r, q) <==> Queued(s, q) || q in Satisfied(s.waiting, holds))
      && (forall e :: e in s.queue ==> e in r.queue)
  {
    WaiterSplit(s.waiting, holds);
    var s1 := s.(waiting := Unsatisfied(s.waiting, holds));
    assert forall q :: Queued(s1, q) <==> Queued(s, q);
    assert forall q :: Waits(s1, q) ==> Waits(s, q);
    assert SchedOk(s1);
    forall q ensures q in Satisfied(s.waiting, holds) <==> Waits(s, q) && !Waits(s1, q) {
      SatisfiedLeaves(s, holds, q);
    }
    AddAllFacts(s1, Satisfied(s.waiting, holds));
    var r := Evaluate(s, holds);
    assert r.waiting == s1.waiting;
    assert forall q :: Waits(r, q) <==> Waits(s1, q);
  }

  lemma OneWaiterEach(w: seq<Waiter>, x: Waiter, y: Waiter)
    requires DistinctWaiters(w) && x in w && y in w && x != y
    ensures x.pid != y.pid
  {
    var i :| 0 <= i < |w| && w[i] == x;
    var j :| 0 <= j < |w| && w[j] == y;
  }

  lemma SatisfiedLeaves(s: Sched, holds: set<Condition>, q: Pid)
    requires SchedOk(s)
    ensures q in Satisfied(s.waiting, holds) <==> Waits(s, q) && !Waits(s.(waiting := Unsatisfied(s.waiting, holds)), q)
  {
    WaiterSplit(s.waiting, holds);
    var s1 := s.(waiting := Unsatisfied(s.waiting, holds));
    if q in Satisfied(s.waiting, holds) {
      var x :| x in s.waiting && x.pid == q && x.condition in holds;
      forall y | y in s1.waiting ensures y.pid != q {
        OneWaiterEach(s.waiting, x, y);
      }
    } else if Waits(s, q) {
      var x :| x in s.waiting && x.pid == q;
      assert x in s1.waiting;
    }
  }

  lemma NotifyFacts(s: Sched, p: Pid)
    requires SchedOk(s)
    ensures var r := Notify(s, p);
      && SchedOk(r) && r.waiting == s.waiting && r.priorities == s.priorities
      && (forall x :: x in r.pending <==>
           x.needs != {} && exists y :: y in s.pending && y.pid == x.pid && x.needs == y.needs - {p})
      && (forall q :: Depends(s, q) && !Depends(r, q) <==> q in Freed(s.pending, p))
      && (forall q :: Depends(r, q) ==> Depends(s, q))
      && (forall q :: Queued(r, q) <==> Queued(s, q) || (q in Freed(s.pending, p) && !Waits(s, q)))
      && (forall e :: e in s.queue ==> e in r.queue)
  {
    DependentSplit(s.pending, p);
    var s1 := s.(pending := Shrunk(s.pending, p));
    assert forall q :: Queued(s1, q) <==> Queued(s, q);
    assert forall q :: Waits(s1, q) <==> Waits(s, q);
    assert SchedOk(s1);
    AddAllFacts(s1, Freed(s.pending, p));
    var r := Notify(s, p);
    assert r.pending == s1.pending;
    forall q ensures Depends(s, q) && !Depends(r, q) <==> q in Freed(s.pending, p) {
      FreedLeaves(s, p, q);
      assert Depends(r, q) <==> Depends(s1, q);
    }
    forall q | Depends(r, q) ensures Depends(s, q) {
      var x :| x in r.pending && x.pid == q;
      var y :| y in s.pending && y.pid == x.pid && x.needs == y.needs - {p};
    }
  }

  lemma FreedLeaves(s: Sched, p: Pid, q: Pid)
    requires SchedOk(s)
    ensures q in Freed(s.pending, p) <==> Depends(s, q) && !Depends(s.(pending := Shrunk(s.pending, p)), q)
  {
    DependentSplit(s.pending, p);
    var s1 := s.(pending := Shrunk(s.pending, p));
    if q in Freed(s.pending, p) {
      var y :| y in s.pending && y.pid == q && y.needs - {p} == {};
    } else if Depends(s, q) {
      var y :| y in s.pending && y.pid == q;
      assert Dependent(q, y.needs - {p}) in s1.pending;
    }
  }

  // The same facts, as moves between the three places.

  lemma EvaluatePlaces(s: Sched, holds: set<Condition>)
    requires SchedOk(s)
    ensures var r := Evaluate(s, holds);
      var woken := Satisfied(s.waiting, holds);
      && SchedOk(r) && r.pending == s.pending
      && (forall p :: p in woken ==> Waits(s, p))
      && (forall p :: Waits(r, p) <==> Waits(s, p) && p !in woken)
      && (forall p :: Queued(r, p) <==> Queued(s, p) || p in woken)
      && (forall p :: Depends(r, p) <==> Depends(s, p))
  {
    EvaluateFacts(s, holds);
    var r := Evaluate(s, holds);
    forall p | Waits(r, p) ensures Waits(s, p) {
      var x :| x in r.waiting && x.pid == p;
      assert x in s.waiting;
    }
    assert forall p :: Depends(r, p) <==> Depends(s, p);
  }

  lemma NotifyPlaces(s: Sched, done: Pid)
    requires SchedOk(s)
    ensures var r := Notify(s, done);
      && SchedOk(r) && r.waiting == s.waiting
      && (forall p :: Depends(r, p) ==> Depends(s, p))
      && (forall p :: Waits(r, p) <==> Waits(s, p))
      && (forall p :: Queued(r, p) <==> Queued(s, p) || (Depends(s, p) && !Depends(r, p) && !Waits(s, p)))
  {
    NotifyFacts(s, done);
    var r := Notify(s, done);
    assert forall p :: Waits(r, p) <==> Waits(s, p);
  }

  lemma EnqueuePlaces(s: Sched, p: Pid, priority: int, needs: set<Pid>)
    requires SchedOk(s) && !Waits(s, p)
    ensures var r := Enqueue(s, p, priority, needs);
      && SchedOk(r) && r.waiting == s.waiting
      && (forall q :: Waits(r, q) <==> Waits(s, q))
      && (forall q :: Queued(r, q) <==> Queued(s, q) || (q == p && needs == {}))
      && (forall q :: Depends(r, q) <==> Depends(s, q) || (q == p && needs != {}))
      && (needs == {} ==> r.pending == s.pending)
      && (needs != {} ==> Dependent(p, needs) in r.pending)
      && (forall x :: x in s.pending && x.pid != p ==> x in r.pending)
  {
    EnqueueFacts(s, p, priority, needs);
    var r := Enqueue(s, p, priority, needs);
    assert forall q :: Waits(r, q) <==> Waits(s, q);
    if needs != {} {
      assert Dependent(p, needs) in r.pending;
      forall q ensures Depends(r, q) <==> Depends(s, q) || q == p {
        if Depends(s, q) && q != p {
          var x :| x in s.pending && x.pid == q;
          assert x in r.pending;
        }
      }
      assert forall q :: Queued(r, q) <==> Queued(s, q);
    } else {
      assert forall q :: Depends(r, q) <==> Depends(s, q);
    }
  }

  lemma DequeuePlaces(s: Sched)
    requires SchedOk(s) && s.queue != []
    ensures var r := Dequeue(s);
      && SchedOk(r) && r.waiting == s.waiting && r.pending == s.pending
      && Queued(s, s.queue[0].pid)
      && (forall q :: Queued(r, q) <==> Queued(s, q) && q != s.queue[0].pid)
      && (forall q :: Waits(r, q) <==> Waits(s, q))
      && (forall q :: Depends(r, q) <==> Depends(s, q))
  {
    DequeueFacts(s);
    var r := Dequeue(s);
    assert forall q :: (Waits(r, q) <==> Waits(s, q)) && (Depends(r, q) <==> Depends(s, q));
  }

  lemma MarkPlaces(s: Sched, p: Pid, c: Condition)
    requires SchedOk(s)
    ensures var r := MarkWaiting(s, p, c);
      && SchedOk(r) && r.pending == s.pending
      && (forall q :: Queued(r, q) <==> Queued(s, q) && q != p)
      && (forall q :: Waits(r, q) <==> Waits(s, q) || q == p)
      && (forall q :: Depends(r, q) <==> Depends(s, q))
  {
    MarkWaitingFacts(s, p, c);
    var r := MarkWaiting(s, p, c);
    assert forall q :: Depends(r, q) <==> Depends(s, q);
  }

  // ------------------------------------------------------------------
  // Every operation sequence
  // ------------------------------------------------------------------

  datatype SchedOp =
    | DoEnqueue(pid: Pid, priority: int, needs: set<Pid>)
    | DoDequeue
    | DoMarkWaiting(pid: Pid, condition: Condition)
    | DoEvaluate(holds: set<Condition>)
    | DoNotify(pid: Pid)
    | DoClear

  function Step(s: Sched, op: SchedOp): Sched {
    match op
    case DoEnqueue(p, priority, needs) => Enqueue(s, p, priority, needs)
    case DoDequeue => if s.queue == [] then s else Dequeue(s)
    case DoMarkWaiting(p, c) => MarkWaiting(s, p, c)
    case DoEvaluate(holds) => Evaluate(s, holds)
    case DoNotify(p) => Notify(s, p)
    case DoClear => EmptySched
  }

  function After(s: Sched, ops: seq<SchedOp>): Sched
    decreases ops
  {
    if ops == [] then s else After(Step(s, ops[0]), ops[1..])
  }

  /** Whatever is called in whatever order, the queue is sorted, holds every id and every
      sequence number once, and shares no id with the waiting registry. */
  lemma {:induction false} EveryRunKeepsSchedOk(s: Sched, ops: seq<SchedOp>)
    requires SchedOk(s)
    ensures SchedOk(After(s, ops))
    decreases ops
  {
    if ops != [] {
      match ops[0] {
        case DoEnqueue(p, priority, needs) => EnqueueFacts(s, p, priority, needs);
        case DoDequeue => if s.queue != [] { DequeueFacts(s); }
        case DoMarkWaiting(p, c) => MarkWaitingFacts(s, p, c);
        case DoEvaluate(holds) => EvaluateFacts(s, holds);
        case DoNotify(p) => NotifyFacts(s, p);
        case DoClear =>
      }
      EveryRunKeepsSchedOk(Step(s, ops[0]), ops[1..]);
    }
  }

  /** A held process is queued by the very notification that empties its set, and by no other. */
  lemma NotifyReleases(s: Sched, p: Pid, needs: set<Pid>, done: Pid)
    requires SchedOk(s) && Dependent(p, needs) in s.pending && !Queued(s, p) && !Waits(s, p)
    ensures var r := Notify(s, done);
      if needs - {done} == {} then Queued(r, p) && !Depends(r, p)
      else !Queued(r, p) && Dependent(p, needs - {done}) in r.pending
  {
    NotifyFacts(s, done);
    DependentSplit(s.pending, done);
    hide Notify, Freed, Shrunk;
    var r := Notify(s, done);
    if needs - {done} != {} {
      assert Dependent(p, needs - {done}) in r.pending;
      assert Depends(r, p);
    }
  }

  // ------------------------------------------------------------------
  // Draining
  // ------------------------------------------------------------------

  /** The ids that repeated dequeuing gives until the queue is empty. */
  function Drain(s: Sched): seq<Pid>
    decreases |s.queue|
  {
    if s.queue == [] then [] else [s.queue[0].pid] + Drain(Dequeue(s))
  }

  lemma {:induction false} DrainIsQueue(s: Sched)
    ensures |Drain(s)| == |s.queue| && forall i :: 0 <= i < |s.queue| ==> Drain(s)[i] == s.queue[i].pid
    decreases |s.queue|
  {
    if s.queue != [] {
      DrainIsQueue(Dequeue(s));
    }
  }

  /** Draining gives every queued id once, by falling priority and in insertion order within one
      priority, which is what `queued_ids` lists. */
  lemma DrainGivesQueue(s: Sched)
    requires SchedOk(s)
    ensures |Drain(s)| == |s.queue| && forall i :: 0 <= i < |s.queue| ==> Drain(s)[i] == s.queue[i].pid
    ensures forall p :: Queued(s, p) <==> p in Drain(s)
    ensures forall i, j :: 0 <= i < j < |s.queue| ==>
      && Drain(s)[i] != Drain(s)[j]
      && s.queue[i].priority >= s.queue[j].priority
      && (s.queue[i].priority == s.queue[j].priority ==> s.queue[i].order < s.queue[j].order)
  {
    DrainIsQueue(s);
    hide Drain;
    forall p | Queued(s, p) ensures p in Drain(s) {
      var e :| e in s.queue && e.pid == p;
      var i :| 0 <= i < |s.queue| && s.queue[i] == e;
      assert Drain(s)[i] == p;
    }
    forall p | p in Drain(s) ensures Queued(s, p) {
      var i :| 0 <= i < |Drain(s)| && Drain(s)[i] == p;
      assert s.queue[i] in s.queue;
    }
    forall i, j | 0 <= i < j < |s.queue| ensures s.queue[i].pid != s.queue[j].pid {
      assert s.queue[i] in s.queue && s.queue[j] in s.queue;
      assert Before(s.queue[i], s.queue[j]);
    }
  }
}
