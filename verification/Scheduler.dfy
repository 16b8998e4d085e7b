/** The scheduler as it runs: a heap, a membership set and two dictionaries changed in place,
    proved to be the sorted queue of `SchedulerModel`. */
module Schedulers {
  import opened Heap
  import opened SchedulerModel

  /** The heap and the membership set hold what the sorted queue holds. */
  ghost predicate Represents(heap: seq<Entry>, membership: set<Pid>, s: Sched) {
    && SchedOk(s)
    && IsHeap(heap)
    && multiset(heap) == multiset(s.queue)
    && (forall p :: p in membership <==> Queued(s, p))
  }

  datatype Next = SchedulerEmpty | Process(pid: Pid)

  class Scheduler {
    var heap: seq<Entry>
    var order: nat
    var membership: set<Pid>
    var priorities: map<Pid, int>
    var waiting: seq<Waiter>
    var pending: seq<Dependent>
    ghost var ready: seq<Entry> // the heap, read in order

    ghost function Model(): Sched
      reads this
    {
      Sched(ready, order, priorities, waiting, pending)
    }

    ghost predicate Valid()
      reads this
    {
      Represents(heap, membership, Model())
    }

    constructor ()
      ensures Valid() && Model() == EmptySched
    {
      heap, order, membership, priorities := [], 0, {}, map[];
      waiting, pending := [], [];
      ready := [];
    }

    method IsEmpty() returns (empty: bool)
      requires Valid()
      ensures empty <==> Model().queue == []
    {
      SameLength(heap, ready);
      empty := heap == [];
    }

    method Contains(p: Pid) returns (queued: bool)
      requires Valid()
      ensures queued <==> Queued(Model(), p)
    {
      queued := p in membership;
    }

    method AddToQueue(p: Pid, priority: int)
      requires Valid()
      modifies this
      ensures Valid() && Model() == Add(old(Model()), p, priority)
    {
      var waits := IsWaiting(p);
      if p in membership || waits {
        return;
      }
      var e := Entry(priority, order + 1, p);
      NewEntryComparable(heap, Model(), e);
      heap := Push(heap, e);
      AddRepresents(old(heap), heap, membership, Model(), p, priority);
      order := order + 1;
      membership := membership + {p};
      ready := Insert(ready, e);
      assert Model() == Add(old(Model()), p, priority);
    }

    method Enqueue(p: Pid, priority: int, needs: set<Pid>)
      requires Valid()
      modifies this
      ensures Valid() && Model() == SchedulerModel.Enqueue(old(Model()), p, priority, needs)
    {
      priorities := priorities[p := priority];
      SameQueue(old(Model()), Model());
      if needs != {} {
        PutDependentElements(pending, p, needs);
        pending := PutDependent(pending, p, needs);
        SameQueue(old(Model()), Model());
        return;
      }
      AddToQueue(p, priority);
    }

    /** The root of the heap is the first entry of the sorted queue. */
    method Dequeue() returns (next: Next)
      requires Valid()
      modifies this
      ensures Valid()
      ensures old(Model()).queue == [] ==> next == SchedulerEmpty && Model() == old(Model())
      ensures old(Model()).queue != [] ==>
        next == Process(old(Model()).queue[0].pid) && Model() == SchedulerModel.Dequeue(old(Model()))
    {
      hide SchedOk, IsHeap, Comparable, Queued, Sorted, DistinctEntries;
      SameLength(heap, ready);
      if heap == [] {
        return SchedulerEmpty;
      }
      DequeueFacts(Model());
      QueueIsOrdered(Model());
      HeapComparable(ready, heap);
      var least;
      least, heap := Pop(heap);
      LeastIsFirst(ready, old(heap), least);
      membership := membership - {least.pid};
      ready := ready[1..];
      next := Process(least.pid);
    }

    method Peek() returns (next: Next)
      requires Valid()
      ensures next == if Model().queue == [] then SchedulerEmpty else Process(Model().queue[0].pid)
    {
      SameLength(heap, ready);
      if heap == [] {
        return SchedulerEmpty;
      }
      AllAfterRoot(heap);
      LeastIsFirst(ready, heap, heap[0]);
      next := Process(heap[0].pid);
    }

    method IsWaiting(p: Pid) returns (waits: bool)
      ensures waits <==> Waits(Model(), p)
    {
      waits := exists x :: x in waiting && x.pid == p;
    }

    method MarkWaiting(p: Pid, c: Condition)
      requires Valid()
      modifies this
      ensures Valid() && Model() == SchedulerModel.MarkWaiting(old(Model()), p, c)
    {
      hide SchedOk, IsHeap, Without, PutWaiter, Queued;
      RepresentsDistinct(heap, membership, Model());
      WithoutComparable(heap, ready, p);
      heap := Heapify(Without(heap, p));
      MarkRepresents(old(heap), heap, membership, Model(), p, c);
      waiting := PutWaiter(waiting, p, c);
      membership := membership - {p};
      ready := Without(ready, p);
    }

    /** Wakes the waiters whose condition holds, in registration order. */
    method EvaluateWaiting(holds: set<Condition>) returns (woken: seq<Pid>)
      requires Valid()
      modifies this
      ensures Valid() && Model() == Evaluate(old(Model()), holds)
      ensures woken == Satisfied(old(Model()).waiting, holds)
    {
      hide SchedOk, IsHeap, Unsatisfied, Satisfied, AddAll, Queued;
      var rest := waiting; // the snapshot still to be looked at
      var kept: seq<Waiter> := [];
      woken := [];
      ghost var left := Unsatisfied(waiting, holds);
      while rest != []
        invariant Valid() && waiting == kept + rest && left == kept + Unsatisfied(rest, holds)
        invariant Satisfied(old(waiting), holds) == woken + Satisfied(rest, holds)
        invariant AddAll(Model().(waiting := left), Satisfied(rest, holds)) == Evaluate(old(Model()), holds)
        decreases |rest|
      {
        var p := rest[0].pid;
        WakeStep(Model(), kept, rest, holds);
        if rest[0].condition in holds {
          WaiterLeaves(heap, membership, Model(), kept, rest);
          waiting := kept + rest[1..];
          var priority := if p in priorities then priorities[p] else 0;
          AddToQueue(p, priority);
          woken := woken + [p];
        } else {
          kept := kept + [rest[0]];
        }
        rest := rest[1..];
      }
      NothingLeft(Model(), holds, 0);
    }

    /** Takes `p` out of every dependency set and releases the processes left with none. */
    method NotifyCompleted(p: Pid) returns (released: seq<Pid>)
      requires Valid()
      modifies this
      ensures Valid() && Model() == Notify(old(Model()), p)
      ensures released == Freed(old(Model()).pending, p)
    {
      hide SchedOk, IsHeap, Shrunk, Freed, AddAll, Queued;
      var rest := pending; // the snapshot still to be looked at
      var kept: seq<Dependent> := [];
      released := [];
      ghost var left := Shrunk(pending, p);
      while rest != []
        invariant Valid() && pending == kept + rest && left == kept + Shrunk(rest, p)
        invariant Freed(old(pending), p) == released + Freed(rest, p)
        invariant AddAll(Model().(pending := left), Freed(rest, p)) == Notify(old(Model()), p)
        decreases |rest|
      {
        var q := rest[0].pid;
        var needs := rest[0].needs - {p};
        ReleaseStep(Model(), kept, rest, p, left);
        DependentChanges(heap, membership, Model(), kept, rest, needs);
        if needs == {} {
          pending := kept + rest[1..];
          var priority := if q in priorities then priorities[q] else 0;
          AddToQueue(q, priority);
          released := released + [q];
        } else {
          kept := kept + [Dependent(q, needs)];
          pending := kept + rest[1..];
        }
        rest := rest[1..];
      }
      NothingLeft(Model(), {}, p);
    }

    method Clear()
      modifies this
      ensures Valid() && Model() == EmptySched
    {
      heap, order, membership, priorities := [], 0, {}, map[];
      waiting, pending := [], [];
      ready := [];
    }

    /** Sorting the heap's array gives the sorted queue. */
    method SortedHeap() returns (sorted: seq<Entry>)
      requires Valid()
      ensures sorted == Model().queue
    {
      sorted := [];
      var i := 0;
      while i < |heap|
        invariant 0 <= i <= |heap|
        invariant Sorted(sorted) && multiset(sorted) == multiset(heap[..i])
      {
        NextIsNew(heap, i, ready, sorted);
        InsertSorted(sorted, heap[i]);
        InsertElements(sorted, heap[i]);
        sorted := Insert(sorted, heap[i]);
        assert heap[..i + 1] == heap[..i] + [heap[i]];
        i := i + 1;
      }
      assert heap[..i] == heap;
      SortedIsUnique(sorted, ready);
    }

    /** The ids in dequeue order. */
    method QueuedIds() returns (ids: seq<Pid>)
      requires Valid()
      ensures |ids| == |Model().queue|
      ensures forall i :: 0 <= i < |ids| ==> ids[i] == Model().queue[i].pid
    {
      var sorted := SortedHeap();
      ids := [];
      var i := 0;
      while i < |sorted|
        invariant 0 <= i <= |sorted| && |ids| == i
        invariant forall k :: 0 <= k < i ==> ids[k] == sorted[k].pid
      {
        ids := ids + [sorted[i].pid];
        i := i + 1;
      }
    }
  }

  // ------------------------------------------------------------------
  // The heap and the sorted queue
  // ------------------------------------------------------------------

  lemma SameLength(h: seq<Entry>, q: seq<Entry>)
    requires multiset(h) == multiset(q)
    ensures |h| == |q|
    ensures forall e :: e in h <==> e in q
  {
    assert |multiset(h)| == |h| && |multiset(q)| == |q|;
    forall e ensures e in h <==> e in q {
      assert e in h <==> e in multiset(h);
      assert e in q <==> e in multiset(q);
    }
  }

  lemma QueueIsOrdered(s: Sched)
    requires SchedOk(s)
    ensures Sorted(s.queue) && DistinctEntries(s.queue)
  {}

  lemma HeapComparable(q: seq<Entry>, h: seq<Entry>)
    requires multiset(h) == multiset(q) && DistinctEntries(q)
    ensures Comparable(multiset(h))
  {
    assert forall e :: e in multiset(h) ==> e in q;
  }

  lemma SameQueue(s: Sched, r: Sched)
    requires r.queue == s.queue && r.waiting == s.waiting && r.order == s.order
    ensures forall q :: (Queued(r, q) <==> Queued(s, q)) && (Waits(r, q) <==> Waits(s, q))
  {}

  lemma NewEntryComparable(h: seq<Entry>, s: Sched, e: Entry)
    requires multiset(h) == multiset(s.queue) && SchedOk(s) && e.order == s.order + 1
    ensures Comparable(multiset(h) + multiset{e})
  {
    forall x: Entry | x in multiset(h) ensures x in s.queue && x.order < e.order {
      assert x in multiset(s.queue);
    }
  }

  lemma AddRepresents(h: seq<Entry>, r: seq<Entry>, membership: set<Pid>, s: Sched, p: Pid, priority: int)
    requires Represents(h, membership, s) && !Queued(s, p) && !Waits(s, p)
    requires IsHeap(r) && multiset(r) == multiset(h) + multiset{Entry(priority, s.order + 1, p)}
    ensures Represents(r, membership + {p}, Add(s, p, priority))
  {
    AddFacts(s, p, priority);
    InsertElements(s.queue, Entry(priority, s.order + 1, p));
  }

  lemma RepresentsDistinct(h: seq<Entry>, membership: set<Pid>, s: Sched)
    requires Represents(h, membership, s)
    ensures DistinctEntries(s.queue) && multiset(h) == multiset(s.queue)
  {}

  lemma MarkRepresents(h: seq<Entry>, r: seq<Entry>, membership: set<Pid>, s: Sched, p: Pid, c: Condition)
    requires Represents(h, membership, s)
    requires IsHeap(r) && multiset(r) == multiset(Without(h, p))
    ensures Represents(r, membership - {p}, SchedulerModel.MarkWaiting(s, p, c))
  {
    MarkWaitingFacts(s, p, c);
    WithoutMultiset(h, s.queue, p);
  }

  lemma LeastIsFirst(q: seq<Entry>, h: seq<Entry>, least: Entry)
    requires Sorted(q) && multiset(h) == multiset(q) && q != []
    requires least in h && forall e :: e in h ==> AtMost(least, e)
    ensures least == q[0]
    ensures multiset(q[1..]) == multiset(h) - multiset{least}
  {
    SameLength(h, q);
    assert q[0] in h;
    assert q == [q[0]] + q[1..];
  }

  lemma {:induction false} WithoutCount(q: seq<Entry>, p: Pid, e: Entry)
    ensures multiset(Without(q, p))[e] == if e.pid == p then 0 else multiset(q)[e]
  {
    if q != [] {
      WithoutCount(q[1..], p, e);
      assert q == [q[0]] + q[1..];
    }
  }

  lemma WithoutMultiset(h: seq<Entry>, q: seq<Entry>, p: Pid)
    requires multiset(h) == multiset(q)
    ensures multiset(Without(h, p)) == multiset(Without(q, p))
  {
    forall e ensures multiset(Without(h, p))[e] == multiset(Without(q, p))[e] {
      WithoutCount(h, p, e);
      WithoutCount(q, p, e);
    }
  }

  lemma WithoutComparable(h: seq<Entry>, q: seq<Entry>, p: Pid)
    requires multiset(h) == multiset(q) && DistinctEntries(q)
    ensures Comparable(multiset(Without(h, p)))
  {
    WithoutElements(h, p);
    SameLength(h, q);
    assert forall e :: e in multiset(Without(h, p)) ==> e in Without(h, p);
  }

  lemma {:induction false} DistinctOnce(q: seq<Entry>, e: Entry)
    requires Sorted(q)
    ensures multiset(q)[e] <= 1
  {
    if q != [] {
      DistinctOnce(q[1..], e);
      assert q == [q[0]] + q[1..];
      if e == q[0] {
        assert e !in q[1..];
      }
    }
  }

  lemma NextIsNew(h: seq<Entry>, i: nat, q: seq<Entry>, sorted: seq<Entry>)
    requires i < |h| && multiset(sorted) == multiset(h[..i])
    requires multiset(h) == multiset(q) && Sorted(q) && DistinctEntries(q)
    ensures forall x :: x in sorted ==> x.order != h[i].order
  {
    assert h == h[..i] + ([h[i]] + h[i + 1..]);
    DistinctOnce(q, h[i]);
    SameLength(h, q);
    SameLength(h[..i], sorted);
  }

  // ------------------------------------------------------------------
  // The two registry loops
  // ------------------------------------------------------------------

  lemma NothingLeft(s: Sched, holds: set<Condition>, p: Pid)
    ensures Unsatisfied([], holds) == [] && Satisfied([], holds) == [] && Shrunk([], p) == [] && Freed([], p) == []
    ensures AddAll(s, []) == s
  {}

  lemma AddAllCons(s: Sched, p: Pid, ps: seq<Pid>)
    ensures AddAll(s, [p] + ps) == AddAll(Add(s, p, PriorityOf(s, p)), ps)
  {
    assert ([p] + ps)[1..] == ps;
  }

  lemma LookAtWaiter(w: seq<Waiter>, holds: set<Condition>)
    requires w != []
    ensures Satisfied(w, holds) == (if w[0].condition in holds then [w[0].pid] else []) + Satisfied(w[1..], holds)
    ensures Unsatisfied(w, holds) == (if w[0].condition in holds then [] else [w[0]]) + Unsatisfied(w[1..], holds)
  {}

  lemma LookAtDependent(d: seq<Dependent>, p: Pid)
    requires d != []
    ensures var needs := d[0].needs - {p};
      && Freed(d, p) == (if needs == {} then [d[0].pid] else []) + Freed(d[1..], p)
      && Shrunk(d, p) == (if needs == {} then [] else [Dependent(d[0].pid, needs)]) + Shrunk(d[1..], p)
  {}

  /** One round of the wakeup loop: what is left to queue stays what it was. */
  lemma WakeStep(s: Sched, kept: seq<Waiter>, rest: seq<Waiter>, holds: set<Condition>)
    requires SchedOk(s) && s.waiting == kept + rest && rest != []
    ensures var x := rest[0];
      var left := kept + Unsatisfied(rest, holds);
      if x.condition in holds then
        && Satisfied(rest, holds) == [x.pid] + Satisfied(rest[1..], holds)
        && left == kept + Unsatisfied(rest[1..], holds)
        && AddAll(s.(waiting := left), Satisfied(rest, holds)) ==
           AddAll(Add(s.(waiting := kept + rest[1..]), x.pid, PriorityOf(s, x.pid)).(waiting := left),
             Satisfied(rest[1..], holds))
      else
        && Satisfied(rest, holds) == Satisfied(rest[1..], holds)
        && left == (kept + [x]) + Unsatisfied(rest[1..], holds)
        && s.waiting == (kept + [x]) + rest[1..]
  {
    hide Satisfied, Unsatisfied, AddAll, Add;
    var x := rest[0];
    var left := kept + Unsatisfied(rest, holds);
    LookAtWaiter(rest, holds);
    if x.condition in holds {
      AddAllCons(s.(waiting := left), x.pid, Satisfied(rest[1..], holds));
      HeadIsAlone(kept, rest);
      WaiterSplit(rest[1..], holds);
      AddIgnoresOthers(s.(waiting := kept + rest[1..]), left, x.pid, PriorityOf(s, x.pid));
    }
  }

  lemma HeadIsAlone(kept: seq<Waiter>, rest: seq<Waiter>)
    requires DistinctWaiters(kept + rest) && rest != []
    ensures forall y :: y in kept || y in rest[1..] ==> y.pid != rest[0].pid
    ensures DistinctWaiters(rest[1..]) && DistinctWaiters(kept + rest[1..])
  {
    var w := kept + rest;
    assert forall i :: 0 <= i < |kept| ==> w[i] == kept[i];
    assert forall i :: 0 <= i < |rest| ==> w[|kept| + i] == rest[i];
  }

  lemma WaiterLeaves(h: seq<Entry>, membership: set<Pid>, s: Sched, kept: seq<Waiter>, rest: seq<Waiter>)
    requires Represents(h, membership, s) && s.waiting == kept + rest && rest != []
    ensures var r := s.(waiting := kept + rest[1..]);
      Represents(h, membership, r) && !Waits(r, rest[0].pid)
  {
    var r := s.(waiting := kept + rest[1..]);
    HeadIsAlone(kept, rest);
    assert forall q :: Queued(r, q) <==> Queued(s, q);
    forall q | Waits(r, q) ensures Waits(s, q) {
      var x :| x in r.waiting && x.pid == q;
      assert x in s.waiting;
    }
  }

  /** One round of the release loop. */
  lemma ReleaseStep(s: Sched, kept: seq<Dependent>, rest: seq<Dependent>, p: Pid, left: seq<Dependent>)
    requires rest != [] && left == kept + Shrunk(rest, p)
    ensures var q := rest[0].pid;
      var needs := rest[0].needs - {p};
      if needs == {} then
        && Freed(rest, p) == [q] + Freed(rest[1..], p)
        && left == kept + Shrunk(rest[1..], p)
        && AddAll(s.(pending := left), Freed(rest, p)) ==
           AddAll(Add(s.(pending := kept + rest[1..]), q, PriorityOf(s, q)).(pending := left), Freed(rest[1..], p))
      else
        && Freed(rest, p) == Freed(rest[1..], p)
        && left == (kept + [Dependent(q, needs)]) + Shrunk(rest[1..], p)
  {
    hide Shrunk, Freed, AddAll, Add;
    var q := rest[0].pid;
    LookAtDependent(rest, p);
    if rest[0].needs - {p} == {} {
      AddAllCons(s.(pending := left), q, Freed(rest[1..], p));
      AddIgnoresPending(s.(pending := kept + rest[1..]), left, q, PriorityOf(s, q));
    }
  }

  lemma DependentChanges(h: seq<Entry>, membership: set<Pid>, s: Sched, kept: seq<Dependent>, rest: seq<Dependent>,
      needs: set<Pid>)
    requires Represents(h, membership, s) && s.pending == kept + rest && rest != []
    ensures Represents(h, membership, s.(pending :=
      if needs == {} then kept + rest[1..] else (kept + [Dependent(rest[0].pid, needs)]) + rest[1..]))
  {
    var d := if needs == {} then kept + rest[1..] else (kept + [Dependent(rest[0].pid, needs)]) + rest[1..];
    var r := s.(pending := d);
    SameQueue(s, r);
    DependentsStayDistinct(kept, rest, needs);
  }

  lemma DependentsStayDistinct(kept: seq<Dependent>, rest: seq<Dependent>, needs: set<Pid>)
    requires DistinctDependents(kept + rest) && rest != []
    ensures DistinctDependents(if needs == {} then kept + rest[1..]
      else (kept + [Dependent(rest[0].pid, needs)]) + rest[1..])
  {
    var w := kept + rest;
    var d := if needs == {} then kept + rest[1..] else (kept + [Dependent(rest[0].pid, needs)]) + rest[1..];
    assert forall i :: 0 <= i < |kept| ==> w[i] == kept[i];
    assert forall i :: 0 <= i < |rest| ==> w[|kept| + i] == rest[i];
    forall x | x in d ensures x.needs != {} {
      assert x in w || x == Dependent(rest[0].pid, needs);
    }
  }

  /** A registry entry of some other process makes no difference to `Add`. */
  lemma AddIgnoresOthers(s: Sched, waiting: seq<Waiter>, p: Pid, priority: int)
    requires !Waits(s, p) && !Waits(s.(waiting := waiting), p)
    ensures Add(s.(waiting := waiting), p, priority) == Add(s, p, priority).(waiting := waiting)
  {
    assert Queued(s.(waiting := waiting), p) <==> Queued(s, p);
  }

  lemma AddIgnoresPending(s: Sched, pending: seq<Dependent>, p: Pid, priority: int)
    ensures Add(s.(pending := pending), p, priority) == Add(s, p, priority).(pending := pending)
  {
    assert Queued(s.(pending := pending), p) <==> Queued(s, p);
    assert Waits(s.(pending := pending), p) <==> Waits(s, p);
  }
}
