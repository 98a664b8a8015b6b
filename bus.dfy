/**
 * The event-queue engine as functions on its state: `push` and the command
 * handlers of src/DEQcore.js (variant Core), of src/DigitalEventQueue.js
 * (variant Cookie, with the persist and defer arrays) and of
 * src/DigitalEventQueueWithPersist.js (variant WithPersist: the Cookie
 * engine with PERSIST DATA, DEFER DATA and ADD EVENT routed through the
 * four-tier store). The dispatch code is the same in the three files and is
 * defined once.
 *
 * Every fault is reported by pushing a "deq error" event back through
 * `Push`, so the functions are mutually recursive. They terminate because a
 * handler failing on a "deq error" event is not reported again: the measure
 * is (rank, level, size), where an error command and an event named
 * "deq error" have rank 0, so an error report never leads to another.
 */
module Bus {
  import opened Values
  import Coerce
  import Storage
  import Persist
  import Stores

  datatype Variant = Core | Cookie | WithPersist

  /** `[name, matchEvent, handler]`; the handler is a function value. */
  datatype Listener = Listener(name: Value, matchEvent: string, handler: nat)

  /** `[name, data]` */
  datatype Event = Event(name: string, data: map<string, Value>)

  /** One call of a handler: the listener, the event name and the copy of the data it received. */
  datatype Delivery = Delivery(listener: Listener, event: string, data: map<string, Value>)

  /** `{e: matchEvent, k: key, v: value, q: queue name}` */
  datatype PersistItem = PersistItem(e: Value, k: string, v: Value, q: string)

  /** `{e: matchEvent, d: data, q: queue name}` */
  datatype DeferItem = DeferItem(e: Value, d: Value, q: string)

  /**
   * What the queue writes to its own cookies: one persist item with the
   * lifetime argument setCookie receives (a truthy lifetime is a number of
   * seconds, anything else a session cookie), or the whole defer array.
   */
  datatype QueueCookie = PersistCookie(item: PersistItem, lifetime: Value) | DeferCookie(items: seq<DeferItem>)

  datatype State = State(
    listeners: seq<Listener>,
    events: seq<Event>,
    history: seq<Value>,
    global: map<string, Value>,
    persist: seq<PersistItem>,
    defer: seq<DeferItem>,
    cookies: map<string, QueueCookie>,
    store: Persist.PState,
    delivered: seq<Delivery>)

  /** What a handler does when called with an event name and data: return (`None`) or throw a value. */
  type Handlers = (nat, string, map<string, Value>) -> Option<Value>

  /**
   * The queue's name and variant, the regular-expression test
   * `name.match(new RegExp("^" + pattern + "$", "i"))` as `matches(pattern,
   * name)`, the handlers, the clock and the page's hostname.
   */
  datatype Env = Env(name: string, variant: Variant, matches: Storage.Matcher, handlers: Handlers, now: int, host: string)

  function Config(env: Env): Persist.Config
  {
    Persist.Config(env.name, env.host)
  }

  const DeqError := "deq error"

  function EmptyState(jar: Stores.Jar): State
  {
    State([], [], [], map[], [], [], map[], Persist.PState([], [], [], [], [], jar), [])
  }

  /**
   * What the constructor of src/DigitalEventQueue.js reads back from the
   * page's cookies before replaying earlier commands: the `deq_defer` array
   * (empty unless that cookie parses as an array) and one persist item per
   * `deq_persist` cookie, in cookie order.
   */
  datatype Restored = Restored(persist: seq<PersistItem>, defer: seq<DeferItem>)

  /** A new queue: empty, except that the Cookie and WithPersist variants start from the restored arrays. */
  function StartState(variant: Variant, jar: Stores.Jar, restored: Restored): State
  {
    if variant == Core then EmptyState(jar)
    else EmptyState(jar).(persist := restored.persist, defer := restored.defer)
  }

  // ---------------------------------------------------------------------------
  // The records only grow.

  predicate Prefix<T(==)>(a: seq<T>, b: seq<T>)
  {
    |a| <= |b| && b[..|a|] == a
  }

  /** The fields of a command a handler may rewrite in place: the listener name, the event data, the duration. */
  const EditableKeys: set<string> := {"name", "data", "duration"}

  /** `b` is the command `a`, with at most its editable fields rewritten. */
  predicate EditOf(a: Value, b: Value)
  {
    a == b ||
    (a.Obj? && b.Obj? &&
     (forall k :: k in a.fields && k !in EditableKeys ==> k in b.fields && b.fields[k] == a.fields[k]) &&
     (forall k :: k in b.fields && k !in EditableKeys ==> k in a.fields))
  }

  /** History, events, listeners and deliveries keep everything they held. */
  predicate Grows(s: State, r: State)
  {
    Prefix(s.history, r.history) && Prefix(s.events, r.events) && Prefix(s.listeners, r.listeners) && Prefix(s.delivered, r.delivered)
  }

  /** As Grows, except that the last command recorded, the one being handled, may be edited. */
  predicate GrowsEditing(s: State, r: State, args: map<string, Value>)
  {
    Prefix(s.events, r.events) && Prefix(s.listeners, r.listeners) && Prefix(s.delivered, r.delivered) &&
    |s.history| <= |r.history| &&
    (s.history != [] ==> r.history[..|s.history| - 1] == s.history[..|s.history| - 1]) &&
    (s.history != [] && s.history[|s.history| - 1] == Obj(args) ==> EditOf(Obj(args), r.history[|s.history| - 1]))
  }

  /** Rewriting an editable field of a command is an edit of it. */
  lemma EditOfUpdate(args: map<string, Value>, key: string, v: Value)
    requires key in EditableKeys
    ensures EditOf(Obj(args), Obj(args[key := v]))
  {
  }

  /** A step that keeps the records of `s` as they are, followed by growth, is an editing growth. */
  lemma KeepThenGrow(s: State, s1: State, r: State, args: map<string, Value>)
    requires s1.history == s.history && s1.events == s.events && s1.listeners == s.listeners && s1.delivered == s.delivered
    requires Grows(s1, r)
    ensures GrowsEditing(s, r, args)
  {
  }

  /**
   * `s1` is `s` with the command being handled edited into `v` (and perhaps
   * listeners appended); events and deliveries stay.
   */
  predicate EditStep(s: State, s1: State, args: map<string, Value>, v: Value)
  {
    s1.history == SetLast(s.history, v) && s1.events == s.events && Prefix(s.listeners, s1.listeners) &&
    s1.delivered == s.delivered && EditOf(Obj(args), v)
  }

  /** An edit step followed by growth is an editing growth. */
  lemma EditThenGrow(s: State, s1: State, r: State, args: map<string, Value>, v: Value)
    requires EditStep(s, s1, args, v)
    requires Grows(s1, r)
    ensures GrowsEditing(s, r, args)
  {
    if s.history != [] {
      assert s1.history[..|s.history| - 1] == s.history[..|s.history| - 1];
      assert r.history[..|s.history| - 1] == s1.history[..|s.history| - 1];
    }
  }

  // ---------------------------------------------------------------------------
  // Commands and error reports.

  /** `{input: args}` */
  function Input(args: Value): Value
  {
    Obj(map["input" := args])
  }

  /** The command logError pushes; a falsy error object becomes `{}`. */
  function ErrorCommand(errorType: string, message: Value, obj: Value, event: Value, listener: Value): Value
  {
    Obj(map[
      "command" := Str("ADD EVENT"),
      "name" := Str(DeqError),
      "data" := Obj(map[
        "deq_error_type" := Str(errorType),
        "deq_error_message" := message,
        "deq_error_obj" := (if Truthy(obj) then obj else Obj(map[])),
        "deq_error_event" := event,
        "deq_error_listener" := listener])])
  }

  /** `e.message` */
  function MessageOf(e: Value): Value
  {
    match e
    case Error(m, _) => Str(m)
    case Obj(f) => Get(f, "message")
    case _ => Undefined
  }

  /** `e[key] = v` on a thrown error object. */
  function WithProp(e: Value, key: string, v: Value): Value
  {
    match e
    case Error(m, p) => Error(m, p[key := v])
    case Obj(f) => Obj(f[key := v])
    case _ => e
  }

  /** An ADD EVENT command for "deq error" with object data: what logError pushes. */
  predicate IsErrorReport(args: map<string, Value>)
  {
    Get(args, "command") == Str("ADD EVENT") && Get(args, "name") == Str(DeqError) && Get(args, "data").Obj?
  }

  function Rank(args: map<string, Value>): nat
  {
    if IsErrorReport(args) then 0 else 1
  }

  function ValueRank(args: Value): nat
  {
    if args.Obj? then Rank(args.fields) else 1
  }

  function EventRank(name: string): nat
  {
    if name == DeqError then 0 else 1
  }

  /** The in-place edit of the command being handled, which is the last entry of the history. */
  function SetLast(h: seq<Value>, v: Value): seq<Value>
  {
    if h == [] then h else h[|h| - 1 := v]
  }

  /** `{deq_event: name, deq_event_ts: now}` */
  function Meta(name: string, now: int): Value
  {
    Obj(map["deq_event" := Str(name), "deq_event_ts" := Num(now)])
  }

  /** The Cookie variant's push throws the TypeError of `Object.keys` for PERSIST DATA without data. */
  predicate PushThrows(env: Env, args: Value)
  {
    env.variant == Cookie && args.Obj? && Get(args.fields, "command") == Str("PERSIST DATA") &&
    Coerce.ObjectProps(Get(args.fields, "data")).None?
  }

  function TypeError(): Value
  {
    Error(Coerce.KeysOfNothing, map[])
  }

  // ---------------------------------------------------------------------------
  // push and the command handlers.

  /**
   * push: record the input, then run the handler for its command. The tags
   * are compared exactly; GLOBAL DATA exists in the Core variant only,
   * PERSIST DATA and DEFER DATA in the other two.
   */
  function Push(env: Env, s: State, args: Value): (r: State)
    ensures Grows(s, r) && |r.history| > |s.history| && EditOf(args, r.history[|s.history|])
    decreases ValueRank(args), 7
  {
    var s1 := s.(history := s.history + [args]);
    var r := Handle(env, s1, args);
    RecordThenHandle(s, s1, r, args);
    r
  }

  /** What push does once the input is recorded: check it and run the handler for its command. */
  function Handle(env: Env, s: State, args: Value): (r: State)
    ensures if args.Obj? then GrowsEditing(s, r, args.fields) else Grows(s, r)
    decreases ValueRank(args), 6
  {
    if !(args.Obj? && Truthy(Get(args.fields, "command"))) then
      var r := LogError(env, s, "push", Str("invalid input"), Input(args), Undefined, Undefined);
      if args.Obj? then KeepThenGrow(s, s, r, args.fields); r else r
    else
      var command := Get(args.fields, "command");
      if command == Str("ADD EVENT") then AddEvent(env, s, args.fields)
      else if command == Str("ADD LISTENER") then AddListener(env, s, args.fields)
      else if command == Str("DEFER DATA") && env.variant != Core then DeferData(env, s, args.fields)
      else
        var r :=
          if command == Str("GLOBAL DATA") && env.variant == Core then AddGlobalData(s, args.fields)
          else if command == Str("PERSIST DATA") && env.variant != Core then PersistData(env, s, args.fields)
          else LogError(env, s, "push", Str("unknown command: " + Coerce.ToStr(command)), Input(args), Undefined, Undefined);
        KeepThenGrow(s, s, r, args.fields);
        r
  }

  /** Recording the input and then handling it grows the records, with the input (or its edit) in the new slot. */
  lemma RecordThenHandle(s: State, s1: State, r: State, args: Value)
    requires s1 == s.(history := s.history + [args])
    requires if args.Obj? then GrowsEditing(s1, r, args.fields) else Grows(s1, r)
    ensures Grows(s, r) && |r.history| > |s.history| && EditOf(args, r.history[|s.history|])
  {
    assert s1.history[..|s.history|] == s.history;
    if !args.Obj? {
      assert r.history[|s.history|] == s1.history[|s.history|];
    }
  }

  /** logError: push a "deq error" event describing the fault. */
  function LogError(env: Env, s: State, errorType: string, message: Value, obj: Value, event: Value, listener: Value): (r: State)
    ensures Grows(s, r)
    decreases 0, 8
  {
    Push(env, s, ErrorCommand(errorType, message, obj, event, listener))
  }

  /**
   * The ADD EVENT handler. WithPersist first merges the properties the store
   * returns for the event name under the caller's data (a "deq error" event,
   * by loose equality, skips the store); a failed lookup reports an error
   * and drops the event.
   */
  function AddEvent(env: Env, s: State, args: map<string, Value>): (r: State)
    ensures GrowsEditing(s, r, args)
    decreases Rank(args), 5
  {
    if env.variant != WithPersist || Coerce.LooseEqualsString(Get(args, "name"), DeqError) then
      var r := AddEventOrigin(env, s, args);
      KeepThenGrow(s, s, r, args);
      r
    else
      var got := StoredLookup(env, s, args);
      match got.thrown
      case Some(e) =>
        var r := LogError(env, got.state, "add event", Str("invalid event object"), WithProp(e, "deq_event", Get(args, "name")), Undefined, Undefined);
        KeepThenGrow(s, got.state, r, args);
        r
      case None =>
        var r := AddEventOrigin(env, got.state, got.args);
        EditThenGrow(s, got.state, r, args, Obj(got.args));
        r
  }

  /** What a call into the store leaves: the error it threw, the queue's state and the command as rewritten. */
  datatype StoreStep = StoreStep(thrown: Option<Value>, state: State, args: map<string, Value>)

  /**
   * The store lookup for the event name: the store's new state, and either
   * the error it threw or the command with the stored properties merged
   * under the caller's data (written back into the command).
   */
  function StoredLookup(env: Env, s: State, args: map<string, Value>): (r: StoreStep)
    ensures r.thrown.Some? ==> r.state == s.(store := r.state.store) && r.args == args
    ensures r.thrown.None? ==> r.state == s.(store := r.state.store, history := SetLast(s.history, Obj(r.args)))
    ensures r.thrown.None? ==> EditStep(s, r.state, args, Obj(r.args))
    ensures Rank(r.args) <= Rank(args)
  {
    var got := Persist.GetOutcome(Config(env), s.store, Get(args, "name"), env.matches, env.now);
    match got.thrown
    case Some(e) => StoreStep(got.thrown, s.(store := got.state), args)
    case None =>
      var data := Obj(MergeObj([Obj(got.props), Get(args, "data")]));
      EditOfUpdate(args, "data", data);
      var args' := args["data" := data];
      StoreStep(None, s.(store := got.state, history := SetLast(s.history, Obj(args'))), args')
  }

  /** A persist or defer item applies to an event: same queue, and its pattern matches. */
  predicate ItemMatches(env: Env, e: Value, q: string, name: string)
  {
    env.name == q && env.matches(Coerce.ToStr(e), name)
  }

  /** The persist loop: every matching item sets its key, later items winning. */
  function PersistedFor(env: Env, items: seq<PersistItem>, name: string): map<string, Value>
    decreases |items|
  {
    if items == [] then map[]
    else
      var m := PersistedFor(env, items[..|items| - 1], name);
      var it := items[|items| - 1];
      if ItemMatches(env, it.e, it.q, name) then m[it.k := it.v] else m
  }

  /** The defer loop's merge: every matching item's data is merged in, in order. */
  function DeferredFor(env: Env, base: map<string, Value>, items: seq<DeferItem>, name: string): map<string, Value>
    decreases |items|
  {
    if items == [] then base
    else
      var m := DeferredFor(env, base, items[..|items| - 1], name);
      var it := items[|items| - 1];
      if ItemMatches(env, it.e, it.q, name) then MergeObj([Obj(m), it.d]) else m
  }

  /** The defer loop's `unmatched` list. */
  function Unmatched(env: Env, items: seq<DeferItem>, name: string): seq<DeferItem>
    decreases |items|
  {
    if items == [] then []
    else
      var rest := Unmatched(env, items[..|items| - 1], name);
      var it := items[|items| - 1];
      if ItemMatches(env, it.e, it.q, name) then rest else rest + [it]
  }

  /** The defer array and cookie after the loop: replaced only when an item matched. */
  function ConsumeDefer(env: Env, s: State, name: string): State
  {
    var unmatched := Unmatched(env, s.defer, name);
    if |s.defer| != |unmatched| then s.(defer := unmatched, cookies := s.cookies["deq_defer" := DeferCookie(unmatched)])
    else s
  }

  /** The data the queue merges under the caller's: global data, or persisted and deferred items. */
  function Ambient(env: Env, s: State, name: string): map<string, Value>
  {
    if env.variant == Core then s.global
    else DeferredFor(env, PersistedFor(env, s.persist, name), s.defer, name)
  }

  /**
   * The queue's own addEvent: check the input, merge the ambient data, the
   * caller's data and the metadata, append the event and check it against
   * every listener.
   */
  function AddEventOrigin(env: Env, s: State, args: map<string, Value>): (r: State)
    ensures Grows(s, r)
    decreases Rank(args), 4
  {
    var name := Get(args, "name");
    var data := Get(args, "data");
    if !(name.Str? && (data.Undefined? || data.Obj?)) then
      LogError(env, s, "add event", Str("invalid input"), Input(Obj(args)), Undefined, Undefined)
    else
      var eventData := MergeObj([Obj(Ambient(env, s, name.s)), data, Meta(name.s, env.now)]);
      var s1 := if env.variant == Core then s else ConsumeDefer(env, s, name.s);
      var s2 := s1.(events := s1.events + [Event(name.s, eventData)]);
      Dispatch(env, s2, name.s, eventData, s2.listeners)
  }

  /** `listeners.forEach(checkAndExecuteEventMatch)` over the listeners registered when the event was added. */
  function Dispatch(env: Env, s: State, name: string, data: map<string, Value>, ls: seq<Listener>): (r: State)
    ensures Grows(s, r)
    decreases EventRank(name), 3, |ls|
  {
    if ls == [] then s else Dispatch(env, Check(env, s, name, data, ls[0]), name, data, ls[1..])
  }

  /** The match test, with the wildcard guard: ".*" never receives a "deq error" event (in any letter case). */
  predicate Delivers(env: Env, name: string, l: Listener)
  {
    env.matches(l.matchEvent, name) && !(Coerce.ToLowerAscii(name) == DeqError && l.matchEvent == ".*")
  }

  /** checkAndExecuteEventMatch */
  function Check(env: Env, s: State, name: string, data: map<string, Value>, l: Listener): (r: State)
    ensures Grows(s, r)
    decreases EventRank(name), 2
  {
    if Delivers(env, name, l) then Callback(env, s, name, data, l) else s
  }

  /**
   * callEventCallback: call the handler with a copy of the data; when it
   * throws, report it, unless the event is itself "deq error".
   */
  function Callback(env: Env, s: State, name: string, data: map<string, Value>, l: Listener): (r: State)
    ensures Grows(s, r)
    decreases EventRank(name), 1
  {
    var copy := CopyObj(Obj(data));
    var s1 := s.(delivered := s.delivered + [Delivery(l, name, copy)]);
    match env.handlers(l.handler, name, copy)
    case None => s1
    case Some(e) =>
      if name != DeqError then
        LogError(env, s1, "listener", Str("listener (" + Coerce.ToStr(l.name) + ") failed on '" + name), e, Str(name), l.name)
      else s1
  }

  /**
   * addListener: a function handler and a string matchEvent are required;
   * the name defaults to "unnamed listener" (written back into the command);
   * the stored events are replayed to the new listener unless skipHistory.
   */
  function AddListener(env: Env, s: State, args: map<string, Value>): (r: State)
    ensures GrowsEditing(s, r, args)
    decreases 1, 5
  {
    var handler := Get(args, "handler");
    var matchEvent := Get(args, "matchEvent");
    if !(handler.Func? && matchEvent.Str?) then
      var r := LogError(env, s, "add listener", Str("invalid input"), Input(Obj(args)), Undefined, Undefined);
      KeepThenGrow(s, s, r, args);
      r
    else
      var name := if Truthy(Get(args, "name")) then Get(args, "name") else Str("unnamed listener");
      var l := Listener(name, matchEvent.s, handler.id);
      var s1 := s.(history := SetLast(s.history, Obj(args["name" := name])), listeners := s.listeners + [l]);
      var r := if Truthy(Get(args, "skipHistory")) then s1 else Replay(env, s1, l, s1.events);
      EditOfUpdate(args, "name", name);
      EditThenGrow(s, s1, r, args, Obj(args["name" := name]));
      r
  }

  /** `events.forEach(e => checkAndExecuteEventMatch(e, listener))` over the events stored at registration. */
  function Replay(env: Env, s: State, l: Listener, evs: seq<Event>): (r: State)
    ensures Grows(s, r)
    decreases 1, 4, |evs|
  {
    if evs == [] then s else Replay(env, Check(env, s, evs[0].name, evs[0].data, l), l, evs[1..])
  }

  /** addGlobalData: object data is merged into global, anything else is ignored. */
  function AddGlobalData(s: State, args: map<string, Value>): State
  {
    if Get(args, "data").Obj? then s.(global := MergeObj([Obj(s.global), Get(args, "data")])) else s
  }

  /** The PERSIST DATA handler: the Cookie queue's addPersistData, or the store behind a catch. */
  function PersistData(env: Env, s: State, args: map<string, Value>): (r: State)
    ensures Grows(s, r)
    decreases 1, 5
  {
    if env.variant != WithPersist then AddPersistData(env, s, args)
    else
      var out := Persist.AddOutcome(Config(env), s.store, args, env.now);
      var s1 := s.(store := out.state);
      match out.thrown
      case None => s1
      case Some(e) => LogError(env, s1, "persist data", MessageOf(e), e, Undefined, Undefined)
  }

  /** The DEFER DATA handler: the Cookie queue's addDeferData, or the store with the duration forced to "DEFER". */
  function DeferData(env: Env, s: State, args: map<string, Value>): (r: State)
    ensures GrowsEditing(s, r, args)
    decreases 1, 5
  {
    if env.variant != WithPersist then
      var r := AddDeferData(env, s, args);
      KeepThenGrow(s, r, r, args);
      r
    else
      var out := StoredDefer(env, s, args);
      match out.thrown
      case None =>
        EditThenGrow(s, out.state, out.state, args, Obj(out.args));
        out.state
      case Some(e) =>
        var r := LogError(env, out.state, "defer data", MessageOf(e), e, Undefined, Undefined);
        EditThenGrow(s, out.state, r, args, Obj(out.args));
        r
  }

  /** WithPersist's DEFER DATA: the command's duration becomes "DEFER" (written back) and goes to the store. */
  function StoredDefer(env: Env, s: State, args: map<string, Value>): (r: StoreStep)
    ensures r.args == args["duration" := Str("DEFER")]
    ensures r.state == s.(history := SetLast(s.history, Obj(r.args)), store := r.state.store)
    ensures EditStep(s, r.state, args, Obj(r.args))
  {
    var args' := args["duration" := Str("DEFER")];
    var out := Persist.AddOutcome(Config(env), s.store, args', env.now);
    EditOfUpdate(args, "duration", Str("DEFER"));
    StoreStep(out.thrown, s.(history := SetLast(s.history, Obj(args')), store := out.state), args')
  }

  /** The queue name as it appears in persist cookie names: lower case, first space replaced by "_". */
  function SimpleName(name: string): string
  {
    Coerce.ReplaceFirstSpace(Coerce.ToLowerAscii(name))
  }

  function PersistCookieName(queue: string, key: string): string
  {
    "deq_persist-" + key + "-" + SimpleName(queue)
  }

  /** `args.duration || "PAGELOAD"`, with "SESSION" (loosely) turned into 0. */
  function PersistLifetime(args: map<string, Value>): Value
  {
    var duration := if Truthy(Get(args, "duration")) then Get(args, "duration") else Str("PAGELOAD");
    if Coerce.LooseEqualsString(duration, "SESSION") then Num(0) else duration
  }

  /** addPersistData: one item per key of data; `Object.keys` throws on undefined and null. */
  function AddPersistData(env: Env, s: State, args: map<string, Value>): State
  {
    match Coerce.ObjectProps(Get(args, "data"))
    case None => s
    case Some(props) => AddPersistItems(env, s, Get(args, "matchEvent"), props, PersistLifetime(args))
  }

  /** The `forEach` of addPersistData: a cookie unless the duration is PAGELOAD, then the item. */
  function AddPersistItems(env: Env, s: State, e: Value, props: seq<Coerce.Prop>, lifetime: Value): (r: State)
    ensures r == s.(persist := r.persist, cookies := r.cookies)
    decreases |props|
  {
    if props == [] then s
    else
      var s1 := AddPersistItems(env, s, e, props[..|props| - 1], lifetime);
      var p := props[|props| - 1];
      var item := PersistItem(e, p.key, p.val, env.name);
      var s2 := if !Coerce.LooseEqualsString(lifetime, "PAGELOAD")
                then s1.(cookies := s1.cookies[PersistCookieName(env.name, p.key) := PersistCookie(item, lifetime)])
                else s1;
      s2.(persist := s2.persist + [item])
  }

  /** addDeferData: one item holding the whole data; the defer cookie is rewritten. */
  function AddDeferData(env: Env, s: State, args: map<string, Value>): State
  {
    var defer := s.defer + [DeferItem(Get(args, "matchEvent"), Get(args, "data"), env.name)];
    s.(defer := defer, cookies := s.cookies["deq_defer" := DeferCookie(defer)])
  }

  /** `commands.forEach(push)`: the replay of previous commands, ended by the first push that throws. */
  function PushAll(env: Env, s: State, commands: seq<Value>): (r: State)
    ensures Grows(s, r)
    decreases |commands|
  {
    if commands == [] then s
    else
      var s1 := Push(env, s, commands[0]);
      if PushThrows(env, commands[0]) then s1 else PushAll(env, s1, commands[1..])
  }

  /** One step of the replay, taken at position `i`. */
  lemma PushAllAt(env: Env, s: State, commands: seq<Value>, i: nat)
    requires i < |commands|
    ensures PushAll(env, s, commands[i..]) ==
      if PushThrows(env, commands[i]) then Push(env, s, commands[i]) else PushAll(env, Push(env, s, commands[i]), commands[i + 1..])
  {
    assert commands[i..][0] == commands[i];
    assert commands[i..][1..] == commands[i + 1..];
  }
}
