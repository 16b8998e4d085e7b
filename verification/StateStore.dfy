/** The shared state store on its persisting event bus, with handlers and watchers that re-enter
    it: a change is applied, then logged, then delivered. Replaying the log gives the live store
    after every operation, at every depth of re-entrance. */
module StateStores {
  import opened Common
  import opened KernelModel
  import opened Replay

  type Handler = nat

  datatype Kind = OnCreated | OnChanged | OnDeleted

  function KindOf(e: Event): Kind {
    if e.StateCreated? then OnCreated else if e.StateChanged? then OnChanged else OnDeleted
  }

  datatype Move =
    | Put(key: string, value: Value)
    | Erase(key: string)
    | Watch(key: string, watcher: Handler)
    | Unwatch(key: string, watcher: Handler)
    | Subscribe(kind: Kind, subscriber: Handler)
    | Unsubscribe(kind: Kind, subscriber: Handler)

  /** What one call of a handler does: a list of operations on the store, cut short by the first
      one that raises unless the handler catches it, and an exception of its own at the end. */
  datatype Reaction = Reaction(moves: seq<Move>, catches: bool, raises: bool)

  /** One handler call: a delivery of the event at an index of the log, or a watcher's callback. */
  datatype HandlerCall = Delivered(handler: Handler, index: nat) | Notified(handler: Handler, key: string)

  /** Who got the event at `index`, in order. */
  ghost function Receivers(calls: seq<HandlerCall>, index: nat): seq<Handler> {
    if calls == [] then []
    else
      var c := calls[|calls| - 1];
      Receivers(calls[..|calls| - 1], index) + if c.Delivered? && c.index == index then [c.handler] else []
  }

  ghost predicate NoRepeats(s: seq<Handler>) {
    forall i, j :: 0 <= i < j < |s| ==> s[i] != s[j]
  }

  function RemoveFirst(s: seq<Handler>, h: Handler): seq<Handler> {
    if s == [] then [] else if s[0] == h then s[1..] else [s[0]] + RemoveFirst(s[1..], h)
  }

  /** The event of a change. */
  function ChangeEvent(state: map<string, Value>, key: string, value: Value): Event {
    if key in state then StateChanged(key, value) else StateCreated(key, value)
  }

  /** A watcher list is shared: it lives on while it is being called, even if its key is gone. */
  class WatchList {
    var items: seq<Handler>

    constructor ()
      ensures items == []
    {
      items := [];
    }
  }

  class StateStore {
    var state: map<string, Value>
    var log: seq<Event>
    var subscribers: map<Kind, seq<Handler>>
    var watchers: map<string, WatchList>
    var script: seq<Reaction> // what the handlers still to be called will do
    ghost var lists: set<WatchList>
    ghost var calls: seq<HandlerCall>

    ghost predicate Agrees()
      reads this
    {
      Fold(log).store == Visible(state)
    }

    ghost predicate Tidy()
      reads this
    {
      && (forall k :: k in watchers ==> watchers[k] in lists)
      && (forall k :: k in subscribers ==> subscribers[k] != [] && NoRepeats(subscribers[k]))
    }

    ghost predicate Valid()
      reads this
    {
      Agrees() && Tidy()
    }

    function SubscribersOf(k: Kind): seq<Handler>
      reads this
    {
      if k in subscribers then subscribers[k] else []
    }

    /** The log and the calls have only grown, and no event logged before was delivered again. */
    ghost predicate Follows(log0: seq<Event>, calls0: seq<HandlerCall>, script0: seq<Reaction>)
      reads this
    {
      && log0 <= log && calls0 <= calls && |script| <= |script0|
      && (forall j :: |calls0| <= j < |calls| && calls[j].Delivered? ==> calls[j].index >= |log0|)
    }

    constructor (script: seq<Reaction>)
      ensures Valid() && state == map[] && log == [] && calls == [] && lists == {} && this.script == script
      ensures subscribers == map[] && watchers == map[]
    {
      state, log, subscribers, watchers, this.script := map[], [], map[], map[], script;
      lists, calls := {}, [];
    }

    // ----------------------------------------------------------------
    // Subscriptions
    // ----------------------------------------------------------------

    /** Appends; a second registration is ignored. */
    method Register(k: Kind, h: Handler)
      requires Valid()
      modifies `subscribers
      ensures Valid()
      ensures SubscribersOf(k) == if h in old(SubscribersOf(k)) then old(SubscribersOf(k))
        else old(SubscribersOf(k)) + [h]
      ensures forall j :: j != k ==> SubscribersOf(j) == old(SubscribersOf(j))
    {
      var handlers := SubscribersOf(k);
      if h !in handlers {
        subscribers := subscribers[k := handlers + [h]];
      }
    }

    method Unregister(k: Kind, h: Handler)
      requires Valid()
      modifies `subscribers
      ensures Valid()
      ensures SubscribersOf(k) == RemoveFirst(old(SubscribersOf(k)), h)
      ensures h !in SubscribersOf(k)
      ensures forall j :: j != k ==> SubscribersOf(j) == old(SubscribersOf(j))
    {
      if k !in subscribers {
        return;
      }
      var handlers := RemoveFirst(subscribers[k], h);
      RemovedOnce(subscribers[k], h);
      subscribers := if handlers == [] then subscribers - {k} else subscribers[k := handlers];
    }

    // ----------------------------------------------------------------
    // The store
    // ----------------------------------------------------------------

    /** `set`. */
    method Set(key: string, value: Value) returns (raised: bool)
      requires Valid()
      modifies this, lists
      decreases |script|, 4
      ensures Valid() && old(lists) <= lists && fresh(lists - old(lists))
      ensures Follows(old(log), old(calls), old(script))
      ensures key in old(state) && old(state)[key] == value ==>
        && !raised && state == old(state) && log == old(log) && calls == old(calls) && script == old(script)
        && subscribers == old(subscribers) && watchers == old(watchers)
      ensures !(key in old(state) && old(state)[key] == value) ==>
        && old(log) + [if key in old(state) then StateChanged(key, value) else StateCreated(key, value)] <= log
        && Receivers(calls[|old(calls)|..], |old(log)|)
             == old(SubscribersOf(if key in state then OnChanged else OnCreated))
        && (old(script) == [] ==> state == old(state)[key := value] && |log| == |old(log)| + 1 && !raised)
    {
      hide Fold, Visible, Receivers;
      if key in state && state[key] == value {
        return false;
      }
      var e := ChangeEvent(state, key, value);
      ChangeAgrees(log, state, key, value);
      state := state[key := value];
      Publish(e);
      ghost var delivered, logged := calls, |log|;
      raised := NotifyWatchers(key);
      LaterReceiveNothing(old(calls), delivered, calls, |old(log)|, logged);
    }

    /** `delete`. */
    method Delete(key: string)
      requires Valid()
      modifies this, lists
      decreases |script|, 4
      ensures Valid() && old(lists) <= lists && fresh(lists - old(lists))
      ensures Follows(old(log), old(calls), old(script))
      ensures key !in old(state) ==>
        && state == old(state) && log == old(log) && calls == old(calls) && script == old(script)
        && subscribers == old(subscribers) && watchers == old(watchers)
      ensures key in old(state) ==>
        && old(log) + [StateDeleted(key)] <= log
        && Receivers(calls[|old(calls)|..], |old(log)|) == old(SubscribersOf(OnDeleted))
        && (old(script) == [] ==>
             state == old(state) - {key} && watchers == old(watchers) - {key} && log == old(log) + [StateDeleted(key)])
    {
      hide Fold, Visible, Receivers;
      if key !in state {
        return;
      }
      EraseAgreesHere(log, state, key);
      state := state - {key};
      watchers := watchers - {key};
      Publish(StateDeleted(key));
    }

    /** `PersistingEventBus.publish`: append, then deliver to a copy of the subscriber list; a
        handler that raises does not stop the others. */
    method Publish(e: Event)
      requires Tidy() && Fold(log + [e]).store == Visible(state)
      modifies this, lists
      decreases |script|, 3
      ensures Valid() && old(lists) <= lists && fresh(lists - old(lists))
      ensures Follows(old(log), old(calls), old(script)) && old(log) + [e] <= log
      ensures Receivers(calls[|old(calls)|..], |old(log)|) == old(SubscribersOf(KindOf(e)))
      ensures old(script) == [] ==>
        state == old(state) && log == old(log) + [e] && watchers == old(watchers) && subscribers == old(subscribers)
          && script == []
      ensures old(script) == [] ==> forall l :: l in old(lists) ==> l.items == old(l.items)
    {
      hide Fold, Visible, Receivers, KindOf, NoRepeats;
      ghost var index := |log|;
      var handlers := SubscribersOf(KindOf(e));
      NobodyYet(index);
      log := log + [e];
      var i := 0;
      assert calls[|old(calls)|..] == [];
      while i < |handlers|
        invariant 0 <= i <= |handlers| && Valid() && old(lists) <= lists && fresh(lists - old(lists))
        invariant Follows(old(log), old(calls), old(script)) && old(log) + [e] <= log
        invariant Receivers(calls[|old(calls)|..], index) == handlers[..i]
        invariant old(script) == [] ==>
          state == old(state) && log == old(log) + [e] && watchers == old(watchers) && subscribers == old(subscribers)
            && script == []
        invariant old(script) == [] ==> forall l :: l in old(lists) ==> l.items == old(l.items)
      {
        label Before:
        ghost var start := |old(calls)|;
        var ignored := Invoke(handlers[i], Delivered(handlers[i], index));
        OneMoreReceives(old@Before(calls)[start..], calls[start..], index, handlers[i]);
        assert handlers[..i + 1] == handlers[..i] + [handlers[i]];
        i := i + 1;
      }
      assert handlers[..i] == handlers;
    }

    /** Calls the watchers of `key`, over the live list: one added meanwhile is called too, and
        an exception stops the round and reaches the caller of `set`. */
    method NotifyWatchers(key: string) returns (raised: bool)
      requires Valid()
      modifies this, lists
      decreases |script|, 3
      ensures Valid() && old(lists) <= lists && fresh(lists - old(lists))
      ensures Follows(old(log), old(calls), old(script))
      ensures old(script) == [] ==> state == old(state) && log == old(log) && !raised
      ensures raised ==> key in old(watchers)
    {
      if key !in watchers {
        return false;
      }
      var list := watchers[key];
      var i := 0;
      while i < |list.items|
        invariant 0 <= i && Valid() && old(lists) <= lists && fresh(lists - old(lists)) && list in lists
        invariant Follows(old(log), old(calls), old(script))
        invariant old(script) == [] ==> state == old(state) && log == old(log) && script == []
        decreases |script|, |list.items| - i
      {
        raised := Invoke(list.items[i], Notified(list.items[i], key));
        if raised {
          return;
        }
        i := i + 1;
      }
      raised := false;
    }

    /** One call of a handler. */
    method Invoke(h: Handler, ghost call: HandlerCall) returns (raised: bool)
      requires Valid() && call.handler == h && (call.Delivered? ==> call.index < |log|)
      modifies this, lists
      decreases |script|, 2
      ensures Valid() && old(lists) <= lists && fresh(lists - old(lists))
      ensures old(log) <= log && old(calls) + [call] <= calls && |script| <= |old(script)|
      ensures forall j :: |old(calls)| + 1 <= j < |calls| && calls[j].Delivered? ==> calls[j].index >= |old(log)|
      ensures old(script) != [] ==> |script| < |old(script)|
      ensures old(script) == [] ==>
        && !raised && state == old(state) && log == old(log) && watchers == old(watchers)
        && subscribers == old(subscribers)
        && script == [] && lists == old(lists) && forall l :: l in old(lists) ==> l.items == old(l.items)
    {
      calls := calls + [call];
      if script == [] {
        return false;
      }
      var reaction := script[0];
      script := script[1..];
      label Called:
      var i := 0;
      while i < |reaction.moves|
        invariant 0 <= i <= |reaction.moves| && Valid() && old(lists) <= lists && fresh(lists - old(lists))
        invariant Follows(old@Called(log), old@Called(calls), old@Called(script))
      {
        var failed := Make(reaction.moves[i]);
        if failed && !reaction.catches {
          return true;
        }
        i := i + 1;
      }
      raised := reaction.raises;
    }

    method Make(move: Move) returns (raised: bool)
      requires Valid()
      modifies this, lists
      decreases |script|, 5
      ensures Valid() && old(lists) <= lists && fresh(lists - old(lists))
      ensures Follows(old(log), old(calls), old(script))
      ensures raised ==> move.Put?
    {
      raised := false;
      match move
      case Put(key, value) => raised := Set(key, value);
      case Erase(key) => Delete(key);
      case Watch(key, h) => AddWatcher(key, h);
      case Unwatch(key, h) => RemoveWatcher(key, h);
      case Subscribe(k, h) => Register(k, h);
      case Unsubscribe(k, h) => Unregister(k, h);
    }

    // ----------------------------------------------------------------
    // Watchers
    // ----------------------------------------------------------------

    method AddWatcher(key: string, h: Handler)
      requires Valid()
      modifies `watchers, `lists, lists
      ensures Valid() && old(lists) <= lists && fresh(lists - old(lists))
      ensures key in watchers
        && watchers[key].items == (if key in old(watchers) then old(watchers[key].items) else []) + [h]
      ensures key in old(watchers) ==> watchers == old(watchers)
      ensures forall k :: k != key ==>
        (k in watchers <==> k in old(watchers)) && (k in watchers ==> watchers[k] == old(watchers)[k])
    {
      if key !in watchers {
        var list := new WatchList();
        lists := lists + {list};
        watchers := watchers[key := list];
      }
      watchers[key].items := watchers[key].items + [h];
    }

    method RemoveWatcher(key: string, h: Handler)
      requires Valid()
      modifies `watchers, lists
      ensures Valid() && lists == old(lists)
      ensures key !in old(watchers) ==> watchers == old(watchers)
      ensures key in old(watchers) ==>
        var list := old(watchers)[key];
        && list.items == RemoveFirst(old(list.items), h)
        && watchers == if list.items == [] then old(watchers) - {key} else old(watchers)
    {
      if key !in watchers {
        return;
      }
      var list := watchers[key];
      list.items := RemoveFirst(list.items, h);
      if list.items == [] {
        watchers := watchers - {key};
      }
    }
  }

  /** Any run from an empty store, whatever the handlers do: the replayed state is the live store
      as replay can see it. Without the empty key that is the same keys, the same truthy values,
      and None for the falsy ones. */
  method RunAll(moves: seq<Move>, script: seq<Reaction>) returns (state: map<string, Value>, log: seq<Event>)
    ensures Fold(log).store == Visible(state)
    ensures "" !in state ==> Fold(log).store.Keys == state.Keys
    ensures "" !in state ==> forall k :: k in state ==>
      Fold(log).store[k] == if state[k].Truthy() then state[k] else Null
  {
    var store := new StateStore(script);
    var i := 0;
    while i < |moves|
      invariant store.Valid() && fresh(store) && fresh(store.lists)
    {
      var raised := store.Make(moves[i]);
      i := i + 1;
    }
    state, log := store.state, store.log;
    if "" !in state {
      ReplayedStore(log, state);
    }
  }

  // ------------------------------------------------------------------
  // Facts
  // ------------------------------------------------------------------

  lemma ChangeAgrees(log: seq<Event>, state: map<string, Value>, key: string, value: Value)
    requires Fold(log).store == Visible(state)
    ensures Fold(log + [ChangeEvent(state, key, value)]).store == Visible(state[key := value])
  {
    hide Fold, Visible;
    FoldSnoc(log, ChangeEvent(state, key, value));
    VisiblePut(state, key, value);
  }

  lemma EraseAgreesHere(log: seq<Event>, state: map<string, Value>, key: string)
    requires Fold(log).store == Visible(state)
    ensures Fold(log + [StateDeleted(key)]).store == Visible(state - {key})
  {
    hide Fold, Visible;
    FoldSnoc(log, StateDeleted(key));
    VisiblePut(state, key, Null);
  }

  lemma {:induction false} RemovedOnce(s: seq<Handler>, h: Handler)
    requires NoRepeats(s)
    ensures NoRepeats(RemoveFirst(s, h)) && h !in RemoveFirst(s, h)
    ensures forall x :: x in RemoveFirst(s, h) <==> x in s && x != h
  {
    if s != [] {
      RemovedOnce(s[1..], h);
      assert s == [s[0]] + s[1..];
      assert s[0] !in s[1..];
    }
  }

  lemma {:induction false} ReceiversConcat(a: seq<HandlerCall>, b: seq<HandlerCall>, index: nat)
    ensures Receivers(a + b, index) == Receivers(a, index) + Receivers(b, index)
  {
    if b == [] {
      assert a + b == a;
    } else {
      var front := b[..|b| - 1];
      ReceiversConcat(a, front, index);
      assert (a + b)[..|a + b| - 1] == a + front;
    }
  }

  lemma {:induction false} NoneReceive(calls: seq<HandlerCall>, index: nat)
    requires forall c :: c in calls && c.Delivered? ==> c.index != index
    ensures Receivers(calls, index) == []
  {
    if calls != [] {
      NoneReceive(calls[..|calls| - 1], index);
      assert calls[|calls| - 1] in calls;
    }
  }

  /** One handler call and what it led to, none of it for the same event. */
  lemma NobodyYet(index: nat)
    ensures Receivers([], index) == []
  {}

  lemma OneMoreReceives(before: seq<HandlerCall>, after: seq<HandlerCall>, index: nat, h: Handler)
    requires before + [Delivered(h, index)] <= after
    requires forall j :: |before| + 1 <= j < |after| && after[j].Delivered? ==> after[j].index > index
    ensures Receivers(after, index) == Receivers(before, index) + [h]
  {
    var mine := before + [Delivered(h, index)];
    var rest := after[|mine|..];
    assert after == mine + rest;
    ReceiversConcat(mine, rest, index);
    NoneReceive(rest, index);
    assert mine[..|mine| - 1] == before;
  }

  /** Watchers' calls come after the deliveries and are for later events. */
  lemma LaterReceiveNothing(c0: seq<HandlerCall>, c1: seq<HandlerCall>, c2: seq<HandlerCall>, index: nat, logged: nat)
    requires c0 <= c1 <= c2 && index < logged
    requires forall j :: |c1| <= j < |c2| && c2[j].Delivered? ==> c2[j].index >= logged
    ensures Receivers(c2[|c0|..], index) == Receivers(c1[|c0|..], index)
  {
    var rest := c2[|c1|..];
    assert c2[|c0|..] == c1[|c0|..] + rest;
    NoneReceive(rest, index);
    ReceiversConcat(c1[|c0|..], rest, index);
  }

  /** Replay gives back exactly the live store's keys, truthy values and None for falsy ones. */
  lemma ReplayedStore(log: seq<Event>, state: map<string, Value>)
    requires Fold(log).store == Visible(state) && "" !in state
    ensures Fold(log).store.Keys == state.Keys
    ensures forall k :: k in state ==> Fold(log).store[k] == if state[k].Truthy() then state[k] else Null
  {
    hide Fold;
    assert Visible(state).Keys == state.Keys;
  }
}
