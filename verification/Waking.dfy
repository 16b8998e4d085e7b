/** What the wait conditions mean: who stays registered after an evaluation, what a grant does,
    and that nobody parked on a state key or an approval is started before the key is created. */
module Waking {
  import opened Common
  import opened Heap
  import opened States
  import opened SchedulerModel
  import opened KernelModel
  import opened Correspondence
  import opened Replay
  import opened KernelRuns
  import opened Runs
  import opened Isolation

  /** After an evaluation a registered process is still registered if and only if its mailbox is
      missing or empty, its key is absent, its approval is not recorded, or its deadline lies
      ahead, as its condition says. */
  lemma StillWaitsExactlyWhen(w: World, x: Waiter)
    requires SchedOk(w.sched) && x in w.sched.waiting
    ensures x in EvaluateWaiting(w).sched.waiting <==>
      match x.condition
      case MessageArrives(p) => p !in w.svc.mail || w.svc.mail[p] == []
      case KeyExists(key) => key !in w.store
      case Approved(request) => "approval:" + request !in w.store
      case TimeReached(deadline) => w.clock < deadline
  {
    EvaluateFacts(w.sched, TrueNow(w));
    EvaluateParts(w);
    hide EvaluateWaiting, Evaluate;
    assert x.condition in TrueNow(w) <==> Holds(w, x.condition);
  }

  lemma WaiterLeft(w: World, x: Waiter, k: Track)
    requires Inv(w, {}, {}, k) && x in w.sched.waiting && x !in EvaluateWaiting(w).sched.waiting
    ensures var r := EvaluateWaiting(w);
      x.pid in r.table && r.table[x.pid].state == Ready && Queued(r.sched, x.pid) && !Waits(r.sched, x.pid)
  {
    assert Consistent(w, {}) && SchedOk(w.sched);
    hide Inv;
    EvaluateFacts(w.sched, TrueNow(w));
    EvaluateWaitingKeeps(w, {});
    var r := EvaluateWaiting(w);
    assert Waits(w.sched, x.pid);
    hide EvaluateWaiting, Evaluate, Satisfied, TrueNow;
    NoOtherWaiter(w.sched, r.sched, x);
    QueuedIsReady(r, x.pid);
  }

  lemma NoOtherWaiter(s: Sched, r: Sched, x: Waiter)
    requires SchedOk(s) && x in s.waiting && x !in r.waiting && forall y :: y in r.waiting ==> y in s.waiting
    ensures !Waits(r, x.pid)
  {
    forall y | y in r.waiting ensures y.pid != x.pid {
      OneWaiterEach(s.waiting, x, y);
    }
  }

  lemma QueuedIsReady(w: World, p: Pid)
    requires Consistent(w, {}) && Queued(w.sched, p)
    ensures p in w.table && w.table[p].state == Ready
  {
    assert Placed(w.table[p], p, w.sched, w.svc.mail.Keys, w.svc.caps, {});
  }

  lemma QueuedStays(w: World, p: Pid, k: Track)
    requires Inv(w, {}, {}, k) && Queued(w.sched, p)
    ensures var r := EvaluateWaiting(w);
      p in r.table && r.table[p].state == Ready && Queued(r.sched, p) && !Waits(r.sched, p)
  {
    assert Consistent(w, {}) && SchedOk(w.sched);
    hide Inv;
    EvaluatePlaces(w.sched, TrueNow(w));
    EvaluateWaitingKeeps(w, {});
    hide EvaluateWaiting, Evaluate, Satisfied, TrueNow;
    QueuedIsReady(EvaluateWaiting(w), p);
  }

  /** Granting a request makes every process registered for it READY and queues it, whether the
      approval was recorded before or not. */
  lemma GrantWakes(w: World, request: string, p: Pid, k: Track)
    requires Inv(w, {}, {}, k) && Waiter(p, Approved(request)) in w.sched.waiting
    ensures var r := Grant(w, request);
      p in r.table && r.table[p].state == Ready && Queued(r.sched, p) && !Waits(r.sched, p)
  {
    hide Inv, EvaluateWaiting, Queued, Waits, Evolves, SameBusy, SchedOk, StoreAgrees, StatesAgree;
    var key := "approval:" + request;
    var x := Waiter(p, Approved(request));
    if key in w.store && w.store[key] == Number(1) {
      SchedIsOk(w, k);
      StillWaitsExactlyWhen(w, x);
      WaiterLeft(w, x, k);
    } else {
      var e := if key in w.store then StateChanged(key, Number(1)) else StateCreated(key, Number(1));
      var w0 := Emit(w.(store := w.store[key := Number(1)]), e);
      InvBusy(w, {}, {}, k);
      WriteAgrees(w, key, Number(1), e);
      StoredStep(w, w0, e, {}, k);
      SchedIsOk(w0, k);
      StillWaitsExactlyWhen(w0, x);
      WaiterLeft(w0, x, k);
      EvaluateStep(w0, {}, k);
      QueuedStays(EvaluateWaiting(w0), p, k);
    }
  }

  lemma SchedIsOk(w: World, k: Track)
    requires Inv(w, {}, {}, k)
    ensures SchedOk(w.sched)
  {}

  // ------------------------------------------------------------------
  // Whole runs
  // ------------------------------------------------------------------

  /** Every start of the process comes after an event that creates the key. */
  ghost predicate StartsAfterCreation(log: seq<Event>, from: nat, p: Pid, key: string) {
    forall i :: from <= i < |log| && log[i] == ProcessStarted(p) ==> KeyCreated(log, from, i, key)
  }

  /** While it is parked, the process is not the next to be dispatched. */
  lemma ParkedIsNotNext(w: World, o: Observed, k: Track)
    requires Inv(w, {}, {}, k) && Parked(w, o)
    ensures !IsNext(w, o.pid)
  {
    StaysParked(w, o);
    EvaluateStep(w, {}, k);
    SchedIsOk(EvaluateWaiting(w), k);
    hide Inv, EvaluateWaiting;
    var s := EvaluateWaiting(w).sched;
    assert Waits(s, o.pid) && !Queued(s, o.pid);
    assert s.queue != [] ==> s.queue[0] in s.queue;
  }

  lemma StartsNowhere(log: seq<Event>, log': seq<Event>, p: Pid, key: string)
    requires LogFoot(log, log', p, false)
    ensures StartsAfterCreation(log', |log|, p, key)
  {}

  lemma StartsLater(a: seq<Event>, b: seq<Event>, c: seq<Event>, p: Pid, key: string)
    requires a <= b <= c && LogFoot(a, b, p, false)
    requires KeyCreated(b, |a|, |b|, key) || StartsAfterCreation(c, |b|, p, key)
    ensures StartsAfterCreation(c, |a|, p, key)
  {
    assert forall i :: |a| <= i < |b| ==> c[i] == b[i];
    forall i | |b| <= i < |c| && c[i] == ProcessStarted(p) ensures KeyCreated(c, |a|, i, key) {
      if KeyCreated(b, |a|, |b|, key) {
        var j :| |a| <= j < |b| && b[j].StateCreated? && b[j].key == key;
        assert c[j] == b[j];
      } else {
        var j :| |b| <= j < i <= |c| && c[j].StateCreated? && c[j].key == key;
      }
    }
  }

  lemma {:induction false} RunStartsAfterCreation(w: World, calls: seq<Call>, o: Observed, k: Track)
    requires Inv(w, {}, {}, k) && !k.replays && Runs.Returns(w, calls) && Parked(w, o)
    ensures var r := Runs.After(w, calls);
      && w.log <= r.log && StartsAfterCreation(r.log, |w.log|, o.pid, o.key)
      && (Parked(r, o) || KeyCreated(r.log, |w.log|, |r.log|, o.key))
    decreases calls
  {
    hide Inv, Evolves, Foot, Do, Sound, Later, IsNext, Parked, StartsAfterCreation, LogFoot, KeyCreated;
    if calls == [] {
      NothingStarts(w.log, o.pid, o.key);
    } else {
      var w1 := Do(w, calls[0]).0;
      var r := Runs.After(w1, calls[1..]);
      CallStep(w, calls[0], k);
      LaterIsSame(w, calls[0], k);
      EveryRunKeepsInv(w1, calls[1..], k);
      LogGrew(w1, r);
      ParkedIsNotNext(w, o, k);
      CallFoot(w, calls[0], o);
      FootParts(w, w1, o);
      if Parked(w1, o) {
        RunStartsAfterCreation(w1, calls[1..], o, k);
      }
      StartsLater(w.log, w1.log, r.log, o.pid, o.key);
      CreatedTrans(w.log, w1.log, r.log, o.key);
    }
  }

  lemma NothingStarts(log: seq<Event>, p: Pid, key: string)
    ensures StartsAfterCreation(log, |log|, p, key)
  {}

  lemma FootParts(w: World, r: World, o: Observed)
    requires Foot(w, r, o, false)
    ensures w.log <= r.log && LogFoot(w.log, r.log, o.pid, false)
    ensures Parked(w, o) ==> Parked(r, o) || KeyCreated(r.log, |w.log|, |r.log|, o.key)
  {
    hide Parked, KeyCreated;
  }

  /** In every run a process that waits for an approval which is not recorded is started only after
      the approval has been recorded; until then it stays registered. */
  lemma ApprovalGates(supervised: bool, before: seq<Call>, p: Pid, request: string, later: seq<Call>)
    requires Runs.Returns(Boot(supervised), before) && Runs.Returns(Runs.After(Boot(supervised), before), later)
    requires Waiter(p, Approved(request)) in Runs.After(Boot(supervised), before).sched.waiting
    requires "approval:" + request !in Runs.After(Boot(supervised), before).store
    ensures var w := Runs.After(Boot(supervised), before);
      var r := Runs.After(w, later);
      var key := "approval:" + request;
      && (forall i :: |w.log| <= i < |r.log| && r.log[i] == ProcessStarted(p) ==>
            exists j :: |w.log| <= j < i && r.log[j].StateCreated? && r.log[j].key == key)
      && ((forall j :: |w.log| <= j < |r.log| && r.log[j].StateCreated? ==> r.log[j].key != key) ==>
            Waiter(p, Approved(request)) in r.sched.waiting && key !in r.store)
  {
    hide Runs.After, Runs.Returns, Inv, Evolves;
    var k := Track(None, false);
    BootInv(supervised, k);
    EveryRunKeepsInv(Boot(supervised), before, k);
    RunStartsAfterCreation(Runs.After(Boot(supervised), before), later,
      Observed(p, Approved(request), "approval:" + request), k);
  }

  /** The same for a process that waits for a key of the shared state. */
  lemma KeyGates(supervised: bool, before: seq<Call>, p: Pid, key: string, later: seq<Call>)
    requires Runs.Returns(Boot(supervised), before) && Runs.Returns(Runs.After(Boot(supervised), before), later)
    requires Waiter(p, KeyExists(key)) in Runs.After(Boot(supervised), before).sched.waiting
    requires key !in Runs.After(Boot(supervised), before).store
    ensures var w := Runs.After(Boot(supervised), before);
      var r := Runs.After(w, later);
      && (forall i :: |w.log| <= i < |r.log| && r.log[i] == ProcessStarted(p) ==>
            exists j :: |w.log| <= j < i && r.log[j].StateCreated? && r.log[j].key == key)
      && ((forall j :: |w.log| <= j < |r.log| && r.log[j].StateCreated? ==> r.log[j].key != key) ==>
            Waiter(p, KeyExists(key)) in r.sched.waiting && key !in r.store)
  {
    hide Runs.After, Runs.Returns, Inv, Evolves;
    var k := Track(None, false);
    BootInv(supervised, k);
    EveryRunKeepsInv(Boot(supervised), before, k);
    RunStartsAfterCreation(Runs.After(Boot(supervised), before), later, Observed(p, KeyExists(key), key), k);
  }
}
