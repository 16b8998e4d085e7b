/** What writing and erasing shared state does: which value a key has afterwards, and which event
    says so. */
module SharedState {
  import opened Common
  import opened Heap
  import opened States
  import opened SchedulerModel
  import opened KernelModel
  import opened Gating
  import opened KernelRuns

  /** A write takes effect, whatever the key held before; it is logged as a creation or a change,
      first of all that follows, and an equal value does nothing at all. */
  lemma PutMeans(w: World, key: string, value: Value)
    ensures var r := PutState(w, key, value);
      && key in r.store && r.store[key] == value
      && (forall k :: k != key ==> (k in r.store <==> k in w.store) && (k in w.store ==> r.store[k] == w.store[k]))
      && (key !in w.store ==> w.log + [StateCreated(key, value)] <= r.log)
      && (key in w.store && w.store[key] != value ==> w.log + [StateChanged(key, value)] <= r.log)
      && (key in w.store && w.store[key] == value ==> r == w)
  {
    hide EvaluateWaiting;
    EvaluationFollows(Emit(w.(store := w.store[key := value]), StateCreated(key, value)));
    EvaluationFollows(Emit(w.(store := w.store[key := value]), StateChanged(key, value)));
  }

  lemma EvaluationFollows(w: World)
    ensures w.log <= EvaluateWaiting(w).log && EvaluateWaiting(w).store == w.store
  {
    hide EvaluateWaiting;
    var more := EvaluateWaitingLog(w);
  }

  /** An erased key is gone, which is logged; a missing one is left missing. */
  lemma DeleteMeans(w: World, key: string)
    ensures var r := DeleteState(w, key);
      && key !in r.store
      && (forall k :: k != key ==> (k in r.store <==> k in w.store) && (k in w.store ==> r.store[k] == w.store[k]))
      && (key in w.store ==> w.log + [StateDeleted(key)] <= r.log) && (key !in w.store ==> r == w)
  {
    hide EvaluateWaiting;
    EvaluationFollows(Emit(w.(store := w.store - {key}), StateDeleted(key)));
  }

  // ------------------------------------------------------------------
  // Bodies
  // ------------------------------------------------------------------

  /** The operation writes or erases the key. */
  predicate Touches(op: BodyOp, key: string) {
    (op.WriteState? && op.key == key) || (op.EraseState? && op.key == key)
  }

  lemma OpTouches(w: World, p: Pid, op: BodyOp, key: string)
    requires RunOp(w, p, op).1
    ensures var r := RunOp(w, p, op).0;
      && (op.WriteState? && op.key == key ==> key in r.store && r.store[key] == op.value)
      && (op.EraseState? && op.key == key ==> key !in r.store)
      && (!Touches(op, key) ==>
           (key in r.store <==> key in w.store) && (key in w.store ==> r.store[key] == w.store[key]))
  {
    hide EvaluateWaiting, Permitted, PutState, DeleteState, Enqueue, CapabilitiesFor;
    if op.WriteState? {
      PutMeans(w, op.key, op.value);
    } else if op.EraseState? {
      DeleteMeans(w, op.key);
    }
  }

  lemma {:induction false} UntouchedStays(w: World, p: Pid, ops: seq<BodyOp>, key: string)
    requires RunOps(w, p, ops).1 && forall op :: op in ops ==> !Touches(op, key)
    ensures var r := RunOps(w, p, ops).0;
      (key in r.store <==> key in w.store) && (key in w.store ==> r.store[key] == w.store[key])
    decreases ops
  {
    hide RunOp;
    if ops != [] {
      OpTouches(w, p, ops[0], key);
      UntouchedStays(RunOp(w, p, ops[0]).0, p, ops[1..], key);
    }
  }

  /** The last write wins: after a body's operations a key has the value of the last one that touched
      it, is missing if that one erased it, and is as before if none did. */
  lemma {:induction false} LastWriteWins(w: World, p: Pid, ops: seq<BodyOp>, key: string, i: nat)
    requires RunOps(w, p, ops).1 && i < |ops| && Touches(ops[i], key)
    requires forall j :: i < j < |ops| ==> !Touches(ops[j], key)
    ensures var r := RunOps(w, p, ops).0;
      if ops[i].WriteState? then key in r.store && r.store[key] == ops[i].value else key !in r.store
    decreases ops
  {
    hide RunOp;
    if i == 0 {
      OpTouches(w, p, ops[0], key);
      UntouchedStays(RunOp(w, p, ops[0]).0, p, ops[1..], key);
    } else {
      LastWriteWins(RunOp(w, p, ops[0]).0, p, ops[1..], key, i - 1);
    }
  }

  // ------------------------------------------------------------------
  // Memory and messages of a body
  // ------------------------------------------------------------------

  /** What a process remembers it has, and nobody else's memory changes. */
  lemma RememberMeans(w: World, p: Pid, key: string, value: Value)
    requires RunOp(w, p, Remember(key, value)).1
    ensures var r := RunOp(w, p, Remember(key, value)).0;
      && MemoryOf(r, p) == MemoryOf(w, p)[key := value] && forall q :: q != p ==> MemoryOf(r, q) == MemoryOf(w, q)
  {}

  /** Messages are received in the order in which they were sent. */
  lemma SentIsLast(w: World, to: Pid, message: Value)
    requires to in w.svc.mail
    ensures var (r, ok) := Send(w, to, message);
      && ok && to in r.svc.mail && r.svc.mail[to] == w.svc.mail[to] + [message]
      && forall q :: q != to ==>
           (q in r.svc.mail <==> q in w.svc.mail) && (q in w.svc.mail ==> r.svc.mail[q] == w.svc.mail[q])
  {
    hide EvaluateWaiting;
  }

  lemma ReceivedIsFirst(w: World, p: Pid)
    requires p in w.svc.mail
    ensures var r := Receive(w, p);
      && p in r.svc.mail && (w.svc.mail[p] == [] ==> r == w)
      && (w.svc.mail[p] != [] ==> [w.svc.mail[p][0]] + r.svc.mail[p] == w.svc.mail[p])
  {}

  /** A mailbox is a queue: what is sent while `n` messages wait is the first one left after `n`
      receptions. */
  lemma FirstInFirstOut(w: World, to: Pid, message: Value, n: nat)
    requires to in w.svc.mail && |w.svc.mail[to]| == n
    ensures var r := Received(Send(w, to, message).0, to, n);
      to in r.svc.mail && r.svc.mail[to] == [message]
  {
    hide Send;
    SentIsLast(w, to, message);
    ReceivedDrops(Send(w, to, message).0, to, n);
  }

  function Received(w: World, p: Pid, n: nat): World
    decreases n
  {
    if n == 0 then w else Received(Receive(w, p), p, n - 1)
  }

  lemma {:induction false} ReceivedDrops(w: World, p: Pid, n: nat)
    requires p in w.svc.mail && n <= |w.svc.mail[p]|
    ensures var r := Received(w, p, n); p in r.svc.mail && r.svc.mail[p] == w.svc.mail[p][n..]
    decreases n
  {
    if n > 0 {
      ReceivedIsFirst(w, p);
      ReceivedDrops(Receive(w, p), p, n - 1);
    }
  }
}
