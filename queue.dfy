/**
 * The queue object: the arrays `listeners`, `events`, `history`, `persist`
 * and `defer`, the `global` object and the queue's cookies, updated in
 * place by `push` and the command handlers (src/DEQcore.js:3-213,
 * src/DigitalEventQueue.js:3-311, src/DigitalEventQueueWithPersist.js:5-65).
 * Every method is proved to leave the queue in the state the function of the
 * same name in module Bus computes; the handlers' calls are recorded in the
 * ghost field `delivered`.
 */
module Queue {
  import opened Values
  import Coerce
  import Storage
  import Stores
  import Persist
  import opened Bus

  class EventQueue {
    const name: string
    const variant: Variant
    /** The regular-expression test and the handlers' behaviour, fixed for the queue's life. */
    const matches: Storage.Matcher
    const handlers: Handlers
    const host: string

    var listeners: seq<Listener>
    var events: seq<Event>
    var history: seq<Value>
    var global: map<string, Value>
    var persist: seq<PersistItem>
    var defer: seq<DeferItem>
    var cookies: map<string, QueueCookie>
    ghost var delivered: seq<Delivery>

    /** The store behind PERSIST DATA, DEFER DATA and ADD EVENT in the WithPersist variant. */
    const persistence: Persist.PersistInterface
    ghost const Repr: set<object>

    ghost predicate Valid()
    {
      persistence.Valid() && Repr == {this} + persistence.Repr && this !in persistence.Repr &&
      persistence.config == Persist.Config(name, host)
    }

    function EnvAt(now: int): Env
    {
      Env(name, variant, matches, handlers, now, host)
    }

    ghost function Snapshot(): State
      reads this, persistence, persistence.pageloadStore, persistence.sessionStore, persistence.lastingStore, persistence.deferStore
    {
      State(listeners, events, history, global, persist, defer, cookies, persistence.State(), delivered)
    }

    /**
     * A new queue on a page whose cookies are `jar`; the Cookie and
     * WithPersist variants start from the persist and defer arrays read back
     * from the queue's own cookies.
     */
    constructor(name: string, variant: Variant, matches: Storage.Matcher, handlers: Handlers, host: string, jar: Stores.Jar,
                restored: Restored)
      ensures Valid() && fresh(Repr)
      ensures this.name == name && this.variant == variant && this.matches == matches && this.handlers == handlers && this.host == host
      ensures Snapshot() == StartState(variant, jar, restored)
    {
      this.name := name;
      this.variant := variant;
      this.matches := matches;
      this.handlers := handlers;
      this.host := host;
      listeners := [];
      events := [];
      history := [];
      global := map[];
      persist := if variant == Core then [] else restored.persist;
      defer := if variant == Core then [] else restored.defer;
      cookies := map[];
      delivered := [];
      var p := new Persist.PersistInterface(name, host, jar);
      persistence := p;
      Repr := {this} + p.Repr;
    }

    // -------------------------------------------------------------------------
    // push

    /** push; the Cookie variant throws for PERSIST DATA without data. */
    method Push(args: Value, now: int) returns (thrown: Option<Value>)
      requires Valid()
      modifies Repr
      ensures Snapshot() == Bus.Push(EnvAt(now), old(Snapshot()), args)
      ensures thrown == (if PushThrows(EnvAt(now), args) then Some(TypeError()) else None)
      decreases ValueRank(args), 7
    {
      history := history + [args];
      thrown := Handle(args, now);
    }

    /** What push does once the input is recorded. */
    method Handle(args: Value, now: int) returns (thrown: Option<Value>)
      requires Valid()
      modifies Repr
      ensures Snapshot() == Bus.Handle(EnvAt(now), old(Snapshot()), args)
      ensures thrown == (if PushThrows(EnvAt(now), args) then Some(TypeError()) else None)
      decreases ValueRank(args), 6, 1
    {
      thrown := None;
      if !(args.Obj? && Truthy(Get(args.fields, "command"))) {
        LogError("push", Str("invalid input"), Input(args), Undefined, Undefined, now);
        return;
      }
      var command := Get(args.fields, "command");
      if command == Str("ADD EVENT") {
        AddEvent(args.fields, now);
      } else if command == Str("ADD LISTENER") {
        AddListener(args.fields, now);
      } else {
        thrown := HandleData(args, now);
      }
    }

    /** The commands after ADD EVENT and ADD LISTENER in the chain: the data commands and the unknown ones. */
    method HandleData(args: Value, now: int) returns (thrown: Option<Value>)
      requires Valid()
      requires args.Obj? && Truthy(Get(args.fields, "command"))
      requires Get(args.fields, "command") != Str("ADD EVENT") && Get(args.fields, "command") != Str("ADD LISTENER")
      modifies Repr
      ensures Snapshot() == Bus.Handle(EnvAt(now), old(Snapshot()), args)
      ensures thrown == (if PushThrows(EnvAt(now), args) then Some(TypeError()) else None)
      decreases ValueRank(args), 6, 0
    {
      thrown := None;
      var command := Get(args.fields, "command");
      if command == Str("GLOBAL DATA") && variant == Core {
        AddGlobalData(args.fields);
      } else if command == Str("PERSIST DATA") && variant != Core {
        thrown := PersistData(args.fields, now);
      } else if command == Str("DEFER DATA") && variant != Core {
        DeferData(args.fields, now);
      } else {
        LogError("push", Str("unknown command: " + Coerce.ToStr(command)), Input(args), Undefined, Undefined, now);
      }
    }

    /** unshift is push. */
    method Unshift(args: Value, now: int) returns (thrown: Option<Value>)
      requires Valid() && variant != Core
      modifies Repr
      ensures Snapshot() == Bus.Push(EnvAt(now), old(Snapshot()), args)
      ensures thrown == (if PushThrows(EnvAt(now), args) then Some(TypeError()) else None)
    {
      thrown := Push(args, now);
    }

    /** `commands.forEach(push)`, stopped by the first push that throws. */
    method PushAll(commands: seq<Value>, now: int) returns (thrown: Option<Value>)
      requires Valid()
      modifies Repr
      ensures Snapshot() == Bus.PushAll(EnvAt(now), old(Snapshot()), commands)
      ensures thrown.Some? <==> exists i :: 0 <= i < |commands| && PushThrows(EnvAt(now), commands[i])
    {
      var i := 0;
      thrown := None;
      ghost var target := Bus.PushAll(EnvAt(now), Snapshot(), commands);
      while i < |commands|
        invariant i <= |commands|
        invariant Bus.PushAll(EnvAt(now), Snapshot(), commands[i..]) == target
        invariant forall j :: 0 <= j < i ==> !PushThrows(EnvAt(now), commands[j])
      {
        Bus.PushAllAt(EnvAt(now), Snapshot(), commands, i);
        var t := Push(commands[i], now);
        if t.Some? {
          thrown := t;
          return;
        }
        i := i + 1;
      }
    }

    /** logError */
    method LogError(errorType: string, message: Value, obj: Value, event: Value, listener: Value, now: int)
      requires Valid()
      modifies Repr
      ensures Snapshot() == Bus.LogError(EnvAt(now), old(Snapshot()), errorType, message, obj, event, listener)
      decreases 0, 8
    {
      var _ := Push(ErrorCommand(errorType, message, obj, event, listener), now);
    }

    // -------------------------------------------------------------------------
    // Events

    /** The ADD EVENT handler (WithPersist's override, or the queue's own addEvent). */
    method AddEvent(args: map<string, Value>, now: int)
      requires Valid()
      modifies Repr
      ensures Snapshot() == Bus.AddEvent(EnvAt(now), old(Snapshot()), args)
      decreases Rank(args), 5
    {
      if variant != WithPersist || Coerce.LooseEqualsString(Get(args, "name"), DeqError) {
        AddEventOrigin(args, now);
        return;
      }
      ghost var step := StoredLookup(EnvAt(now), Snapshot(), args);
      var eventName := Get(args, "name");
      var thrown, props := persistence.GetProperties(eventName, matches, now);
      if thrown.Some? {
        assert Snapshot() == step.state;
        LogError("add event", Str("invalid event object"), WithProp(thrown.value, "deq_event", eventName), Undefined, Undefined, now);
        return;
      }
      var args' := args["data" := Obj(MergeObj([Obj(props), Get(args, "data")]))];
      history := SetLast(history, Obj(args'));
      assert Snapshot() == step.state && args' == step.args;
      AddEventOrigin(args', now);
    }

    /** The persist loop of addEvent. */
    method PersistedData(eventName: string, now: int) returns (m: map<string, Value>)
      ensures m == PersistedFor(EnvAt(now), persist, eventName)
    {
      m := map[];
      var i := 0;
      while i < |persist|
        invariant i <= |persist|
        invariant m == PersistedFor(EnvAt(now), persist[..i], eventName)
      {
        assert persist[..i + 1][..i] == persist[..i];
        var item := persist[i];
        if name == item.q && matches(Coerce.ToStr(item.e), eventName) {
          m := m[item.k := item.v];
        }
        i := i + 1;
      }
      assert persist[..i] == persist;
    }

    /** The defer loop of addEvent: the merged data and the items that stay. */
    method SplitDefer(eventName: string, base: map<string, Value>, now: int) returns (m: map<string, Value>, unmatched: seq<DeferItem>)
      ensures m == DeferredFor(EnvAt(now), base, defer, eventName)
      ensures unmatched == Unmatched(EnvAt(now), defer, eventName)
    {
      m := base;
      unmatched := [];
      var i := 0;
      while i < |defer|
        invariant i <= |defer|
        invariant m == DeferredFor(EnvAt(now), base, defer[..i], eventName)
        invariant unmatched == Unmatched(EnvAt(now), defer[..i], eventName)
      {
        assert defer[..i + 1][..i] == defer[..i];
        var item := defer[i];
        if name == item.q && matches(Coerce.ToStr(item.e), eventName) {
          m := MergeObj([Obj(m), item.d]);
        } else {
          unmatched := unmatched + [item];
        }
        i := i + 1;
      }
      assert defer[..i] == defer;
    }

    /** The queue's own addEvent. */
    method AddEventOrigin(args: map<string, Value>, now: int)
      requires Valid()
      modifies Repr
      ensures Snapshot() == Bus.AddEventOrigin(EnvAt(now), old(Snapshot()), args)
      decreases Rank(args), 4
    {
      var eventName := Get(args, "name");
      var data := Get(args, "data");
      if !(eventName.Str? && (data.Undefined? || data.Obj?)) {
        LogError("add event", Str("invalid input"), Input(Obj(args)), Undefined, Undefined, now);
        return;
      }
      var ambient := TakeAmbient(eventName.s, now);
      var eventData := MergeObj([Obj(ambient), data, Meta(eventName.s, now)]);
      ghost var s1 := Snapshot();
      events := events + [Event(eventName.s, eventData)];
      assert Snapshot() == s1.(events := s1.events + [Event(eventName.s, eventData)]);
      Dispatch(eventName.s, eventData, listeners, now);
    }

    /** The data addEvent merges under the caller's; the Cookie variants drop the defer items they used. */
    method TakeAmbient(eventName: string, now: int) returns (ambient: map<string, Value>)
      requires Valid()
      modifies this
      ensures Valid()
      ensures ambient == Ambient(EnvAt(now), old(Snapshot()), eventName)
      ensures Snapshot() == if variant == Core then old(Snapshot()) else ConsumeDefer(EnvAt(now), old(Snapshot()), eventName)
    {
      if variant == Core {
        ambient := global;
      } else {
        var persisted := PersistedData(eventName, now);
        var unmatched;
        ambient, unmatched := SplitDefer(eventName, persisted, now);
        if |defer| != |unmatched| {
          defer := unmatched;
          cookies := cookies["deq_defer" := DeferCookie(unmatched)];
        }
      }
    }

    /** `listeners.forEach(checkAndExecuteEventMatch)` */
    method Dispatch(eventName: string, data: map<string, Value>, ls: seq<Listener>, now: int)
      requires Valid()
      modifies Repr
      ensures Snapshot() == Bus.Dispatch(EnvAt(now), old(Snapshot()), eventName, data, ls)
      decreases EventRank(eventName), 3
    {
      var i := 0;
      while i < |ls|
        invariant i <= |ls|
        invariant Bus.Dispatch(EnvAt(now), Snapshot(), eventName, data, ls[i..]) == Bus.Dispatch(EnvAt(now), old(Snapshot()), eventName, data, ls)
      {
        assert ls[i..][1..] == ls[i + 1..];
        Check(eventName, data, ls[i], now);
        i := i + 1;
      }
    }

    /** checkAndExecuteEventMatch */
    method Check(eventName: string, data: map<string, Value>, l: Listener, now: int)
      requires Valid()
      modifies Repr
      ensures Snapshot() == Bus.Check(EnvAt(now), old(Snapshot()), eventName, data, l)
      decreases EventRank(eventName), 2
    {
      if matches(l.matchEvent, eventName) && !(Coerce.ToLowerAscii(eventName) == DeqError && l.matchEvent == ".*") {
        Callback(eventName, data, l, now);
      }
    }

    /** callEventCallback */
    method Callback(eventName: string, data: map<string, Value>, l: Listener, now: int)
      requires Valid()
      modifies Repr
      ensures Snapshot() == Bus.Callback(EnvAt(now), old(Snapshot()), eventName, data, l)
      decreases EventRank(eventName), 1
    {
      var copy := CopyObj(Obj(data));
      delivered := delivered + [Delivery(l, eventName, copy)];
      var outcome := handlers(l.handler, eventName, copy);
      if outcome.Some? && eventName != DeqError {
        LogError("listener", Str("listener (" + Coerce.ToStr(l.name) + ") failed on '" + eventName), outcome.value,
                 Str(eventName), l.name, now);
      }
    }

    // -------------------------------------------------------------------------
    // Listeners and global data

    /** addListener */
    method AddListener(args: map<string, Value>, now: int)
      requires Valid()
      modifies Repr
      ensures Snapshot() == Bus.AddListener(EnvAt(now), old(Snapshot()), args)
      decreases 1, 5
    {
      var handler := Get(args, "handler");
      var matchEvent := Get(args, "matchEvent");
      if !(handler.Func? && matchEvent.Str?) {
        LogError("add listener", Str("invalid input"), Input(Obj(args)), Undefined, Undefined, now);
        return;
      }
      var listenerName := if Truthy(Get(args, "name")) then Get(args, "name") else Str("unnamed listener");
      var l := Listener(listenerName, matchEvent.s, handler.id);
      history := SetLast(history, Obj(args["name" := listenerName]));
      listeners := listeners + [l];
      if !Truthy(Get(args, "skipHistory")) {
        Replay(l, events, now);
      }
    }

    /** `events.forEach(e => checkAndExecuteEventMatch(e, listener))` */
    method Replay(l: Listener, evs: seq<Event>, now: int)
      requires Valid()
      modifies Repr
      ensures Snapshot() == Bus.Replay(EnvAt(now), old(Snapshot()), l, evs)
      decreases 1, 4
    {
      var i := 0;
      while i < |evs|
        invariant i <= |evs|
        invariant Bus.Replay(EnvAt(now), Snapshot(), l, evs[i..]) == Bus.Replay(EnvAt(now), old(Snapshot()), l, evs)
      {
        assert evs[i..][1..] == evs[i + 1..];
        Check(evs[i].name, evs[i].data, l, now);
        i := i + 1;
      }
    }

    /** addGlobalData */
    method AddGlobalData(args: map<string, Value>)
      modifies this
      ensures Snapshot() == Bus.AddGlobalData(old(Snapshot()), args)
    {
      var data := Get(args, "data");
      if data.Obj? {
        global := MergeObj([Obj(global), data]);
      }
    }

    // -------------------------------------------------------------------------
    // Persist and defer commands

    /** The PERSIST DATA handler; only the Cookie variant lets an error escape. */
    method PersistData(args: map<string, Value>, now: int) returns (thrown: Option<Value>)
      requires Valid()
      modifies Repr
      ensures Snapshot() == Bus.PersistData(EnvAt(now), old(Snapshot()), args)
      ensures thrown == (if variant != WithPersist && Coerce.ObjectProps(Get(args, "data")).None? then Some(TypeError()) else None)
      decreases 1, 5
    {
      thrown := None;
      if variant != WithPersist {
        thrown := AddPersistData(args, now);
        return;
      }
      var e := persistence.AddProperties(args, now);
      if e.Some? {
        LogError("persist data", MessageOf(e.value), e.value, Undefined, Undefined, now);
      }
    }

    /** The DEFER DATA handler. */
    method DeferData(args: map<string, Value>, now: int)
      requires Valid()
      modifies Repr
      ensures Snapshot() == Bus.DeferData(EnvAt(now), old(Snapshot()), args)
      decreases 1, 5
    {
      if variant != WithPersist {
        AddDeferData(args, now);
        return;
      }
      var args' := args["duration" := Str("DEFER")];
      history := SetLast(history, Obj(args'));
      var e := persistence.AddProperties(args', now);
      if e.Some? {
        LogError("defer data", MessageOf(e.value), e.value, Undefined, Undefined, now);
      }
    }

    /** addPersistData */
    method AddPersistData(args: map<string, Value>, now: int) returns (thrown: Option<Value>)
      modifies this
      ensures Snapshot() == Bus.AddPersistData(EnvAt(now), old(Snapshot()), args)
      ensures thrown == (if Coerce.ObjectProps(Get(args, "data")).None? then Some(TypeError()) else None)
    {
      var lifetime := PersistLifetime(args);
      var keys := Coerce.ObjectProps(Get(args, "data"));
      if keys.None? {
        return Some(TypeError());
      }
      var props := keys.value;
      var e := Get(args, "matchEvent");
      var i := 0;
      while i < |props|
        invariant i <= |props|
        invariant Snapshot() == AddPersistItems(EnvAt(now), old(Snapshot()), e, props[..i], lifetime)
      {
        assert props[..i + 1][..i] == props[..i];
        var item := PersistItem(e, props[i].key, props[i].val, name);
        if !Coerce.LooseEqualsString(lifetime, "PAGELOAD") {
          cookies := cookies[PersistCookieName(name, props[i].key) := PersistCookie(item, lifetime)];
        }
        persist := persist + [item];
        i := i + 1;
      }
      assert props[..i] == props;
      thrown := None;
    }

    /** addDeferData */
    method AddDeferData(args: map<string, Value>, now: int)
      modifies this
      ensures Snapshot() == Bus.AddDeferData(EnvAt(now), old(Snapshot()), args)
    {
      defer := defer + [DeferItem(Get(args, "matchEvent"), Get(args, "data"), name)];
      cookies := cookies["deq_defer" := DeferCookie(defer)];
    }
  }
}
