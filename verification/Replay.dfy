/** Rebuilding process states and shared state from the event log. */
module Replay {
  import opened Common
  import opened Heap
  import opened States
  import opened SchedulerModel
  import opened KernelModel

  datatype Snapshot = Snapshot(store: map<string, Value>, states: map<Pid, ProcessState>, count: nat)

  const EmptySnapshot := Snapshot(map[], map[], 0)

  /** `value or payload.get("value")`: the payload of a state event is empty, so a falsy value
      is read back as None. */
  function ReadBack(v: Value): Value {
    if v.Truthy() then v else Null
  }

  /** `_apply`. The empty key is falsy too, so it is looked up in the payload, found missing,
      and skipped. */
  function Apply(s: Snapshot, e: Event): Snapshot {
    match e
    case ProcessCreated(p) => s.(states := s.states[p := Created])
    case ProcessReady(p) => s.(states := s.states[p := Ready])
    case ProcessStarted(p) => s.(states := s.states[p := Running])
    case ProcessWaiting(p) => s.(states := s.states[p := Waiting])
    case ProcessCompleted(p) => s.(states := s.states[p := Completed])
    case ProcessFailed(p) => s.(states := s.states[p := Failed])
    case ProcessCancelled(p) => s.(states := s.states[p := Cancelled])
    case StateCreated(k, v) => if k == "" then s else s.(store := s.store[k := ReadBack(v)])
    case StateChanged(k, v) => if k == "" then s else s.(store := s.store[k := ReadBack(v)])
    case StateDeleted(k) => if k == "" then s else s.(store := s.store - {k})
    case _ => s
  }

  function Fold(log: seq<Event>): Snapshot {
    if log == [] then EmptySnapshot
    else
      var s := Fold(log[..|log| - 1]);
      Apply(s, log[|log| - 1]).(count := s.count + 1)
  }

  lemma FoldSnoc(log: seq<Event>, e: Event)
    ensures Fold(log + [e]) == Apply(Fold(log), e).(count := Fold(log).count + 1)
  {
    assert (log + [e])[..|log + [e]| - 1] == log;
  }

  /** `ReplayEngine.replay`. */
  method ReplayLog(log: seq<Event>) returns (s: Snapshot)
    ensures s == Fold(log)
    ensures s.count == |log|
  {
    s := EmptySnapshot;
    var i := 0;
    while i < |log|
      invariant 0 <= i <= |log| && s == Fold(log[..i]) && s.count == i
    {
      assert log[..i + 1] == log[..i] + [log[i]];
      FoldSnoc(log[..i], log[i]);
      s := Apply(s, log[i]).(count := s.count + 1);
      i := i + 1;
    }
    assert log[..i] == log;
  }

  // ------------------------------------------------------------------
  // What replay should give
  // ------------------------------------------------------------------

  function StatesOf(table: map<Pid, Process>): map<Pid, ProcessState> {
    map p | p in table :: table[p].state
  }

  /** The live store as replay can see it: no empty key, and None for every falsy value. */
  function Visible(store: map<string, Value>): map<string, Value> {
    map k | k in store && k != "" :: ReadBack(store[k])
  }

  ghost predicate StatesAgree(w: World) {
    Fold(w.log).states == StatesOf(w.table)
  }

  ghost predicate StoreAgrees(w: World) {
    Fold(w.log).store == Visible(w.store)
  }

  /** Replay returns the live store itself exactly when no key is empty and no value is zero or the
      empty text. */
  lemma ReplayIsExactWhen(store: map<string, Value>)
    ensures Visible(store) == store <==>
      forall k :: k in store ==> k != "" && store[k] != Number(0) && store[k] != Text("")
  {
    if Visible(store) == store {
      forall k | k in store ensures k != "" && store[k] != Number(0) && store[k] != Text("") {
        assert k in Visible(store);
        assert Visible(store)[k] == store[k];
      }
    }
  }

  // ------------------------------------------------------------------
  // Steps
  // ------------------------------------------------------------------

  /** Events that change neither part of the snapshot. */
  predicate Silent(e: Event) {
    e.MessageReceived? || e.MemoryStored? || e.CheckpointCreated? || e.CheckpointRestored? ||
    e.TaskEvent? || e.PlanEvent? || e.GoalEvent?
  }

  lemma {:induction false} FoldSilent(log: seq<Event>, more: seq<Event>)
    requires forall e :: e in more ==> Silent(e)
    ensures Fold(log + more).states == Fold(log).states && Fold(log + more).store == Fold(log).store
  {
    hide Fold;
    if more == [] {
      assert log + more == log;
    } else {
      var front := more[..|more| - 1];
      assert Silent(more[|more| - 1]);
      assert more == front + [more[|more| - 1]];
      FoldSilent(log, front);
      FoldSnoc(log + front, more[|more| - 1]);
      assert log + more == (log + front) + [more[|more| - 1]];
    }
  }

  /** A state change with its own event keeps the table and the log in agreement. */
  lemma StateAndEvent(w: World, p: Pid, s: ProcessState, e: Event)
    requires p in w.table
    requires e == match s
      case Created => ProcessCreated(p)
      case Ready => ProcessReady(p)
      case Running => ProcessStarted(p)
      case Waiting => ProcessWaiting(p)
      case Completed => ProcessCompleted(p)
      case Failed => ProcessFailed(p)
      case Cancelled => ProcessCancelled(p)
      case Blocked => e
    requires s != Blocked
    ensures StatesAgree(w) ==> StatesAgree(Emit(SetState(w, p, s), e))
    ensures StoreAgrees(w) ==> StoreAgrees(Emit(SetState(w, p, s), e))
  {
    hide Fold;
    FoldSnoc(w.log, e);
    assert Apply(Fold(w.log), e).states == Fold(w.log).states[p := s];
    assert StatesOf(SetState(w, p, s).table) == StatesOf(w.table)[p := s];
  }

  lemma {:induction false} WakeAllAgrees(w: World, ps: seq<Pid>)
    ensures StatesAgree(w) ==> StatesAgree(WakeAll(w, ps))
    ensures StoreAgrees(w) ==> StoreAgrees(WakeAll(w, ps))
    decreases ps
  {
    if ps != [] {
      if ps[0] in w.table {
        StateAndEvent(w, ps[0], Ready, ProcessReady(ps[0]));
      }
      WakeAllAgrees(Wake(w, ps[0]), ps[1..]);
    }
  }

  lemma EvaluateWaitingAgrees(w: World)
    ensures StatesAgree(w) ==> StatesAgree(EvaluateWaiting(w))
    ensures StoreAgrees(w) ==> StoreAgrees(EvaluateWaiting(w))
  {
    var holds := TrueNow(w);
    WakeAllAgrees(w.(sched := Evaluate(w.sched, holds)), Satisfied(w.sched.waiting, holds));
  }

  lemma FoldTwo(log: seq<Event>, e1: Event, e2: Event)
    ensures Fold(log + [e1, e2]) == Apply(Apply(Fold(log), e1), e2).(count := Fold(log).count + 2)
  {
    hide Fold;
    FoldSnoc(log, e1);
    FoldSnoc(log + [e1], e2);
    assert log + [e1, e2] == (log + [e1]) + [e2];
  }

  lemma SpawnAgrees(w: World, d: Definition, goal: Option<GoalId>, priority: int, needs: set<Pid>)
    ensures StatesAgree(w) ==> StatesAgree(Spawn(w, d, goal, priority, needs))
    ensures StoreAgrees(w) ==> StoreAgrees(Spawn(w, d, goal, priority, needs))
  {
    hide Fold, Enqueue, CapabilitiesFor;
    FoldTwo(w.log, ProcessCreated(w.unused), ProcessReady(w.unused));
  }

  lemma VisiblePut(store: map<string, Value>, key: string, value: Value)
    ensures Visible(store[key := value]) == if key == "" then Visible(store) else Visible(store)[key := ReadBack(value)]
    ensures Visible(store - {key}) == if key == "" then Visible(store) else Visible(store) - {key}
  {}

  lemma WriteAgrees(w: World, key: string, value: Value, e: Event)
    requires e in {StateCreated(key, value), StateChanged(key, value)}
    ensures var r := Emit(w.(store := w.store[key := value]), e);
      (StatesAgree(w) ==> StatesAgree(r)) && (StoreAgrees(w) ==> StoreAgrees(r))
  {
    hide Fold, Visible, StatesOf;
    FoldSnoc(w.log, e);
    VisiblePut(w.store, key, value);
  }

  lemma EraseAgrees(w: World, key: string)
    ensures var r := Emit(w.(store := w.store - {key}), StateDeleted(key));
      (StatesAgree(w) ==> StatesAgree(r)) && (StoreAgrees(w) ==> StoreAgrees(r))
  {
    hide Fold, Visible, StatesOf;
    FoldSnoc(w.log, StateDeleted(key));
    VisiblePut(w.store, key, Null);
  }
}
