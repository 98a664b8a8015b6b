/**
 * What the queue engine promises: every fault is reported by exactly one
 * "deq error" event and reporting never recurses; an accepted event is
 * appended once with its data layered ambient < caller < metadata; listeners
 * see the stored events in order; the persist and defer arrays behave as the
 * loops of addEvent say; the WithPersist variant routes its commands through
 * the store and turns store errors into error events.
 */
module BusProps {
  import opened Values
  import Coerce
  import Storage
  import Persist
  import PersistProps
  import opened Bus

  // ---------------------------------------------------------------------------
  // Reporting a fault.

  /** The calls a dispatch of `name` makes when no handler throws: one per listener whose test passes, in order. */
  function DeliveriesTo(env: Env, name: string, data: map<string, Value>, ls: seq<Listener>): seq<Delivery>
    decreases |ls|
  {
    if ls == [] then []
    else (if Delivers(env, name, ls[0]) then [Delivery(ls[0], name, data)] else []) + DeliveriesTo(env, name, data, ls[1..])
  }

  /** The `data` of the command logError pushes. */
  function ErrorData(errorType: string, message: Value, obj: Value, event: Value, listener: Value): Value
  {
    ErrorCommand(errorType, message, obj, event, listener).fields["data"]
  }

  /** The data of the "deq error" event a report adds: ambient data, the error fields, the metadata. */
  function ReportedData(env: Env, s: State, errorType: string, message: Value, obj: Value, event: Value, listener: Value): map<string, Value>
  {
    MergeObj([Obj(Ambient(env, s, DeqError)), ErrorData(errorType, message, obj, event, listener), Meta(DeqError, env.now)])
  }

  /**
   * `r` is `s` with exactly one more event, a "deq error" event carrying the
   * report, and the same listeners, global data, persist items and store.
   */
  predicate OneReport(env: Env, s: State, r: State, errorType: string, message: Value, obj: Value, event: Value, listener: Value)
  {
    r.events == s.events + [Event(DeqError, ReportedData(env, s, errorType, message, obj, event, listener))] &&
    r.listeners == s.listeners && r.global == s.global && r.persist == s.persist && r.store == s.store
  }

  /**
   * logError adds one command to the history and one "deq error" event,
   * delivers that event to the listeners whose test passes, and consumes the
   * deferred items that match "deq error" (Cookie and WithPersist); nothing
   * else changes.
   */
  lemma LogErrorReports(env: Env, s: State, errorType: string, message: Value, obj: Value, event: Value, listener: Value)
    ensures var r := LogError(env, s, errorType, message, obj, event, listener);
      var data := ReportedData(env, s, errorType, message, obj, event, listener);
      OneReport(env, s, r, errorType, message, obj, event, listener) &&
      r.history == s.history + [ErrorCommand(errorType, message, obj, event, listener)] &&
      r.delivered == s.delivered + DeliveriesTo(env, DeqError, data, s.listeners) &&
      r.defer == (if env.variant == Core then s.defer else ConsumeDefer(env, s, DeqError).defer) &&
      r.cookies == (if env.variant == Core then s.cookies else ConsumeDefer(env, s, DeqError).cookies)
  {
    var command := ErrorCommand(errorType, message, obj, event, listener);
    var s1 := s.(history := s.history + [command]);
    ErrorPushIsOrigin(env, s, errorType, message, obj, event, listener);
    var data := ReportedData(env, s, errorType, message, obj, event, listener);
    var s2 := if env.variant == Core then s1 else ConsumeDefer(env, s1, DeqError);
    var s3 := s2.(events := s2.events + [Event(DeqError, data)]);
    ErrorOriginDispatches(env, s, s1, errorType, message, obj, event, listener);
    DispatchDelivers(env, s3, DeqError, data, s3.listeners);
  }

  /** The error command is accepted by push and, being a "deq error" event, skips the store. */
  lemma ErrorPushIsOrigin(env: Env, s: State, errorType: string, message: Value, obj: Value, event: Value, listener: Value)
    ensures var command := ErrorCommand(errorType, message, obj, event, listener);
      LogError(env, s, errorType, message, obj, event, listener) == AddEventOrigin(env, s.(history := s.history + [command]), command.fields)
  {
    var command := ErrorCommand(errorType, message, obj, event, listener);
    var s1 := s.(history := s.history + [command]);
    PushIsHandle(env, s, command);
    assert Handle(env, s1, command) == AddEvent(env, s1, command.fields);
    Coerce.LooseEqualsStringOnStrings(Str(DeqError), DeqError);
  }

  /** addEvent of the error command appends the report and dispatches it. */
  lemma ErrorOriginDispatches(env: Env, s: State, s1: State, errorType: string, message: Value, obj: Value, event: Value, listener: Value)
    requires s1 == s.(history := s1.history)
    ensures var data := ReportedData(env, s, errorType, message, obj, event, listener);
      var s2 := if env.variant == Core then s1 else ConsumeDefer(env, s1, DeqError);
      var s3 := s2.(events := s2.events + [Event(DeqError, data)]);
      AddEventOrigin(env, s1, ErrorCommand(errorType, message, obj, event, listener).fields) == Dispatch(env, s3, DeqError, data, s3.listeners)
  {
    assert Ambient(env, s1, DeqError) == Ambient(env, s, DeqError);
  }

  /** The report names its type and is itself an event named "deq error". */
  lemma ReportedDataNamesFault(env: Env, s: State, errorType: string, message: Value, obj: Value, event: Value, listener: Value)
    ensures var data := ReportedData(env, s, errorType, message, obj, event, listener);
      "deq_error_type" in data && data["deq_error_type"] == Str(errorType) &&
      "deq_event" in data && data["deq_event"] == Str(DeqError)
  {
    var srcs := [Obj(Ambient(env, s, DeqError)), ErrorData(errorType, message, obj, event, listener), Meta(DeqError, env.now)];
    MergeLeafFromLastHolder(srcs, 1, "deq_error_type");
    MergeLeafFromLastHolder(srcs, 2, "deq_event");
  }

  // ---------------------------------------------------------------------------
  // Dispatch adds nothing but error reports.

  /**
   * From `s` to `r` only "deq error" events were added, and the listeners,
   * global data, persist items and store are the same.
   */
  predicate OnlyReportsAfter(s: State, r: State)
  {
    Prefix(s.events, r.events) &&
    (forall i :: |s.events| <= i < |r.events| ==> r.events[i].name == DeqError) &&
    r.listeners == s.listeners && r.global == s.global && r.persist == s.persist && r.store == s.store
  }

  lemma OnlyReportsAfterTrans(a: State, b: State, c: State)
    requires OnlyReportsAfter(a, b) && OnlyReportsAfter(b, c)
    ensures OnlyReportsAfter(a, c)
  {
    forall i | |a.events| <= i < |c.events|
      ensures c.events[i].name == DeqError
    {
      if i < |b.events| {
        assert c.events[i] == b.events[i];
      }
    }
  }

  /** Checking one listener adds at most one report, of a failing handler. */
  lemma CheckOnlyReports(env: Env, s: State, name: string, data: map<string, Value>, l: Listener)
    ensures OnlyReportsAfter(s, Check(env, s, name, data, l))
  {
    if Delivers(env, name, l) {
      var copy := CopyObj(Obj(data));
      var s1 := s.(delivered := s.delivered + [Delivery(l, name, copy)]);
      match env.handlers(l.handler, name, copy)
      case None =>
      case Some(e) =>
        if name != DeqError {
          LogErrorReports(env, s1, "listener", Str("listener (" + Coerce.ToStr(l.name) + ") failed on '" + name), e, Str(name), l.name);
        }
    }
  }

  lemma {:induction false} DispatchOnlyReports(env: Env, s: State, name: string, data: map<string, Value>, ls: seq<Listener>)
    ensures OnlyReportsAfter(s, Dispatch(env, s, name, data, ls))
    decreases |ls|
  {
    if ls != [] {
      var s1 := Check(env, s, name, data, ls[0]);
      CheckOnlyReports(env, s, name, data, ls[0]);
      DispatchOnlyReports(env, s1, name, data, ls[1..]);
      OnlyReportsAfterTrans(s, s1, Dispatch(env, s1, name, data, ls[1..]));
    }
  }

  /** A handler that fails on an event other than "deq error" is reported once, after its call is recorded. */
  lemma HandlerFailureReported(env: Env, s: State, name: string, data: map<string, Value>, l: Listener)
    requires Delivers(env, name, l) && name != DeqError
    requires env.handlers(l.handler, name, data).Some?
    ensures var r := Check(env, s, name, data, l);
      var s1 := s.(delivered := s.delivered + [Delivery(l, name, data)]);
      var e := env.handlers(l.handler, name, data).value;
      OneReport(env, s1, r, "listener", Str("listener (" + Coerce.ToStr(l.name) + ") failed on '" + name), e, Str(name), l.name) &&
      r.history == s.history + [ErrorCommand("listener", Str("listener (" + Coerce.ToStr(l.name) + ") failed on '" + name), e, Str(name), l.name)] &&
      Prefix(s1.delivered, r.delivered)
  {
    CopyObjIsIdentity(Obj(data));
    var s1 := s.(delivered := s.delivered + [Delivery(l, name, data)]);
    var e := env.handlers(l.handler, name, data).value;
    LogErrorReports(env, s1, "listener", Str("listener (" + Coerce.ToStr(l.name) + ") failed on '" + name), e, Str(name), l.name);
  }

  /**
   * When no handler throws, or the event is "deq error" (whose handler
   * failures are not reported), a dispatch only records the calls: one per
   * listener whose test passes, in listener order, each receiving data
   * equal to the event's.
   */
  lemma {:induction false} DispatchDelivers(env: Env, s: State, name: string, data: map<string, Value>, ls: seq<Listener>)
    requires Quiet(env, name, data, ls)
    ensures Dispatch(env, s, name, data, ls) == s.(delivered := s.delivered + DeliveriesTo(env, name, data, ls))
    decreases |ls|
  {
    if ls != [] {
      QuietSplit(env, name, data, ls);
      QuietCheck(env, s, name, data, ls[0]);
      DispatchDelivers(env, Check(env, s, name, data, ls[0]), name, data, ls[1..]);
      DeliveriesCons(env, name, data, ls, s.delivered);
    }
  }

  /** The handlers `ls` would call for `name` do not throw, or the event is "deq error". */
  predicate Quiet(env: Env, name: string, data: map<string, Value>, ls: seq<Listener>)
  {
    name == DeqError || forall i :: 0 <= i < |ls| && Delivers(env, name, ls[i]) ==> env.handlers(ls[i].handler, name, data).None?
  }

  lemma QuietSplit(env: Env, name: string, data: map<string, Value>, ls: seq<Listener>)
    requires ls != [] && Quiet(env, name, data, ls)
    ensures name == DeqError || (Delivers(env, name, ls[0]) ==> env.handlers(ls[0].handler, name, data).None?)
    ensures Quiet(env, name, data, ls[1..])
  {
    assert forall i :: 0 <= i < |ls[1..]| ==> ls[1..][i] == ls[i + 1];
  }

  /** The first listener's call, if any, comes before the rest's. */
  lemma DeliveriesCons(env: Env, name: string, data: map<string, Value>, ls: seq<Listener>, before: seq<Delivery>)
    requires ls != []
    ensures before + DeliveriesTo(env, name, data, ls) ==
      before + (if Delivers(env, name, ls[0]) then [Delivery(ls[0], name, data)] else []) + DeliveriesTo(env, name, data, ls[1..])
  {
    var step := if Delivers(env, name, ls[0]) then [Delivery(ls[0], name, data)] else [];
    var tail := DeliveriesTo(env, name, data, ls[1..]);
    assert DeliveriesTo(env, name, data, ls) == step + tail;
    ConcatAssoc(before, step, tail);
  }

  lemma ConcatAssoc<T>(a: seq<T>, b: seq<T>, c: seq<T>)
    ensures a + (b + c) == a + b + c
  {
  }

  /**
   * The wildcard guard: a listener for ".*" never receives "deq error" in
   * any letter case; given that ".*" matches every name, it receives every
   * other event.
   */
  lemma WildcardDelivery(env: Env, name: string, l: Listener)
    requires l.matchEvent == ".*"
    requires forall n :: env.matches(".*", n)
    ensures Delivers(env, name, l) <==> Coerce.ToLowerAscii(name) != DeqError
  {
  }

  // ---------------------------------------------------------------------------
  // Adding an event.

  /** The data addEvent gives an accepted event: ambient data, then the caller's, then the metadata. */
  function EventData(env: Env, s: State, name: string, data: Value): map<string, Value>
  {
    MergeObj([Obj(Ambient(env, s, name)), data, Meta(name, env.now)])
  }

  predicate ValidEventInput(args: map<string, Value>)
  {
    Get(args, "name").Str? && (Get(args, "data").Undefined? || Get(args, "data").Obj?)
  }

  /**
   * A valid addEvent appends exactly one event with the layered data,
   * followed only by reports of failing handlers; listeners, global data,
   * persist items and store stay.
   */
  lemma AddEventOriginAppends(env: Env, s: State, args: map<string, Value>)
    requires ValidEventInput(args)
    ensures var r := AddEventOrigin(env, s, args);
      var name := Get(args, "name").s;
      |r.events| > |s.events| &&
      r.events[..|s.events| + 1] == s.events + [Event(name, EventData(env, s, name, Get(args, "data")))] &&
      (forall i :: |s.events| < i < |r.events| ==> r.events[i].name == DeqError) &&
      r.listeners == s.listeners && r.global == s.global && r.persist == s.persist && r.store == s.store
  {
    var name := Get(args, "name").s;
    var eventData := EventData(env, s, name, Get(args, "data"));
    var s1 := if env.variant == Core then s else ConsumeDefer(env, s, name);
    var s2 := s1.(events := s1.events + [Event(name, eventData)]);
    DispatchOnlyReports(env, s2, name, eventData, s2.listeners);
    var r := Dispatch(env, s2, name, eventData, s2.listeners);
    assert r.events[..|s.events| + 1] == r.events[..|s2.events|];
  }

  /** An addEvent with a non-string name, or data neither undefined nor an object, appends only its report. */
  lemma AddEventOriginRejects(env: Env, s: State, args: map<string, Value>)
    requires !ValidEventInput(args)
    ensures var r := AddEventOrigin(env, s, args);
      OneReport(env, s, r, "add event", Str("invalid input"), Input(Obj(args)), Undefined, Undefined) &&
      r.history == s.history + [ErrorCommand("add event", Str("invalid input"), Input(Obj(args)), Undefined, Undefined)]
  {
    LogErrorReports(env, s, "add event", Str("invalid input"), Input(Obj(args)), Undefined, Undefined);
  }

  /**
   * The layers of an event's data: the metadata wins over everything, a
   * caller's leaf wins over the ambient data, and an ambient leaf shows
   * through where the caller has no such key.
   */
  lemma EventDataLayers(env: Env, s: State, name: string, data: Value, key: string)
    requires data.Undefined? || data.Obj?
    ensures var d := EventData(env, s, name, data);
      "deq_event" in d && d["deq_event"] == Str(name) && "deq_event_ts" in d && d["deq_event_ts"] == Num(env.now)
    ensures (key != "deq_event" && key != "deq_event_ts" && data.Obj? && key in data.fields && !data.fields[key].Obj?) ==>
      key in EventData(env, s, name, data) && EventData(env, s, name, data)[key] == data.fields[key]
    ensures (key != "deq_event" && key != "deq_event_ts" && !(data.Obj? && key in data.fields) &&
             key in Ambient(env, s, name) && !Ambient(env, s, name)[key].Obj?) ==>
      key in EventData(env, s, name, data) && EventData(env, s, name, data)[key] == Ambient(env, s, name)[key]
  {
    var srcs := [Obj(Ambient(env, s, name)), data, Meta(name, env.now)];
    MergeLeafFromLastHolder(srcs, 2, "deq_event");
    MergeLeafFromLastHolder(srcs, 2, "deq_event_ts");
    if key != "deq_event" && key != "deq_event_ts" {
      if data.Obj? && key in data.fields && !data.fields[key].Obj? {
        MergeLeafFromLastHolder(srcs, 1, key);
      } else if !(data.Obj? && key in data.fields) && key in Ambient(env, s, name) && !Ambient(env, s, name)[key].Obj? {
        MergeLeafFromLastHolder(srcs, 0, key);
      }
    }
  }

  // ---------------------------------------------------------------------------
  // push

  /** The commands push acts on: exact tags, GLOBAL DATA in Core only, PERSIST and DEFER DATA elsewhere. */
  predicate Accepted(env: Env, command: Value)
  {
    command == Str("ADD EVENT") || command == Str("ADD LISTENER") ||
    (command == Str("GLOBAL DATA") && env.variant == Core) ||
    ((command == Str("PERSIST DATA") || command == Str("DEFER DATA")) && env.variant != Core)
  }

  /** The message push reports for an input it does not act on. */
  function RejectMessage(args: Value): Value
  {
    if args.Obj? && Truthy(Get(args.fields, "command")) then Str("unknown command: " + Coerce.ToStr(Get(args.fields, "command")))
    else Str("invalid input")
  }

  /**
   * A non-object input, a missing or falsy command, or a tag push does not
   * accept is recorded and reported by one "deq error" event, and nothing
   * else happens.
   */
  lemma PushRejects(env: Env, s: State, args: Value)
    requires !(args.Obj? && Truthy(Get(args.fields, "command")) && Accepted(env, Get(args.fields, "command")))
    ensures var r := Push(env, s, args);
      OneReport(env, s, r, "push", RejectMessage(args), Input(args), Undefined, Undefined) &&
      r.history == s.history + [args, ErrorCommand("push", RejectMessage(args), Input(args), Undefined, Undefined)]
  {
    var s1 := s.(history := s.history + [args]);
    PushIsHandle(env, s, args);
    assert Handle(env, s1, args) == LogError(env, s1, "push", RejectMessage(args), Input(args), Undefined, Undefined);
    LogErrorReports(env, s1, "push", RejectMessage(args), Input(args), Undefined, Undefined);
    assert Ambient(env, s1, DeqError) == Ambient(env, s, DeqError);
  }

  /**
   * A valid ADD EVENT (Core and Cookie) is recorded, then appends exactly one
   * event with the layered data, followed only by reports.
   */
  lemma PushAddEvent(env: Env, s: State, args: Value)
    requires args.Obj? && Get(args.fields, "command") == Str("ADD EVENT") && env.variant != WithPersist
    requires ValidEventInput(args.fields)
    ensures var r := Push(env, s, args);
      var name := Get(args.fields, "name").s;
      r.history[..|s.history| + 1] == s.history + [args] &&
      |r.events| > |s.events| &&
      r.events[..|s.events| + 1] == s.events + [Event(name, EventData(env, s, name, Get(args.fields, "data")))] &&
      (forall i :: |s.events| < i < |r.events| ==> r.events[i].name == DeqError)
  {
    var s1 := s.(history := s.history + [args]);
    var name := Get(args.fields, "name").s;
    PushIsHandle(env, s, args);
    assert Handle(env, s1, args) == AddEvent(env, s1, args.fields);
    assert AddEvent(env, s1, args.fields) == AddEventOrigin(env, s1, args.fields);
    AddEventOriginAppends(env, s1, args.fields);
    assert Ambient(env, s1, name) == Ambient(env, s, name);
  }

  /** The Cookie variant's PERSIST DATA without data records the input and then throws, changing nothing else. */
  lemma ThrowingPushOnlyRecords(env: Env, s: State, args: Value)
    requires PushThrows(env, args)
    ensures Push(env, s, args) == s.(history := s.history + [args])
  {
    var s1 := s.(history := s.history + [args]);
    PushIsHandle(env, s, args);
    assert Handle(env, s1, args) == PersistData(env, s1, args.fields);
  }

  /** push records its input, then handles it. */
  lemma PushIsHandle(env: Env, s: State, args: Value)
    ensures Push(env, s, args) == Handle(env, s.(history := s.history + [args]), args)
  {
  }

  // ---------------------------------------------------------------------------
  // Listeners and global data.

  /** The calls a replay makes when no handler throws: one per stored event whose name passes the test, in order. */
  function ReplayDeliveries(env: Env, l: Listener, evs: seq<Event>): seq<Delivery>
    decreases |evs|
  {
    if evs == [] then []
    else (if Delivers(env, evs[0].name, l) then [Delivery(l, evs[0].name, evs[0].data)] else []) + ReplayDeliveries(env, l, evs[1..])
  }

  lemma {:induction false} ReplayOnlyReports(env: Env, s: State, l: Listener, evs: seq<Event>)
    ensures OnlyReportsAfter(s, Replay(env, s, l, evs))
    decreases |evs|
  {
    if evs != [] {
      var s1 := Check(env, s, evs[0].name, evs[0].data, l);
      CheckOnlyReports(env, s, evs[0].name, evs[0].data, l);
      ReplayOnlyReports(env, s1, l, evs[1..]);
      OnlyReportsAfterTrans(s, s1, Replay(env, s1, l, evs[1..]));
    }
  }

  /** When the handler never throws, a replay calls it once per matching stored event, in stored order. */
  lemma {:induction false} ReplayDelivers(env: Env, s: State, l: Listener, evs: seq<Event>)
    requires forall i :: 0 <= i < |evs| && Delivers(env, evs[i].name, l) ==> env.handlers(l.handler, evs[i].name, evs[i].data).None?
    ensures Replay(env, s, l, evs) == s.(delivered := s.delivered + ReplayDeliveries(env, l, evs))
    decreases |evs|
  {
    if evs != [] {
      ReplayQuietTail(env, l, evs);
      QuietCheck(env, s, evs[0].name, evs[0].data, l);
      ReplayDelivers(env, Check(env, s, evs[0].name, evs[0].data, l), l, evs[1..]);
      ReplayDeliveriesCons(env, l, evs, s.delivered);
    }
  }

  lemma ReplayQuietTail(env: Env, l: Listener, evs: seq<Event>)
    requires evs != []
    requires forall i :: 0 <= i < |evs| && Delivers(env, evs[i].name, l) ==> env.handlers(l.handler, evs[i].name, evs[i].data).None?
    ensures forall i :: 0 <= i < |evs[1..]| && Delivers(env, evs[1..][i].name, l) ==> env.handlers(l.handler, evs[1..][i].name, evs[1..][i].data).None?
  {
    assert forall i :: 0 <= i < |evs[1..]| ==> evs[1..][i] == evs[i + 1];
  }

  /** The first stored event's call, if any, comes before the rest's. */
  lemma ReplayDeliveriesCons(env: Env, l: Listener, evs: seq<Event>, before: seq<Delivery>)
    requires evs != []
    ensures before + ReplayDeliveries(env, l, evs) ==
      before + (if Delivers(env, evs[0].name, l) then [Delivery(l, evs[0].name, evs[0].data)] else []) + ReplayDeliveries(env, l, evs[1..])
  {
    var step := if Delivers(env, evs[0].name, l) then [Delivery(l, evs[0].name, evs[0].data)] else [];
    var tail := ReplayDeliveries(env, l, evs[1..]);
    assert ReplayDeliveries(env, l, evs) == step + tail;
    ConcatAssoc(before, step, tail);
  }

  /**
   * A check whose handler does not throw, or whose event is "deq error"
   * (a throw is then not reported), only records the call, when the name
   * passes the test.
   */
  lemma QuietCheck(env: Env, s: State, name: string, data: map<string, Value>, l: Listener)
    requires name == DeqError || (Delivers(env, name, l) ==> env.handlers(l.handler, name, data).None?)
    ensures Check(env, s, name, data, l) == s.(delivered := s.delivered + if Delivers(env, name, l) then [Delivery(l, name, data)] else [])
  {
    CopyObjIsIdentity(Obj(data));
    if Delivers(env, name, l) {
      assert Check(env, s, name, data, l) == Callback(env, s, name, data, l);
    } else {
      assert s.delivered + [] == s.delivered;
    }
  }

  /** The listener addListener registers: the name defaults to "unnamed listener". */
  function NewListener(args: map<string, Value>): Listener
    requires Get(args, "handler").Func? && Get(args, "matchEvent").Str?
  {
    Listener(if Truthy(Get(args, "name")) then Get(args, "name") else Str("unnamed listener"),
             Get(args, "matchEvent").s, Get(args, "handler").id)
  }

  /**
   * addListener appends the listener; with skipHistory set it calls nothing,
   * otherwise (when the handler never throws) it is called once for each
   * stored event that matches, in stored order. No event is added but
   * reports.
   */
  lemma AddListenerRegisters(env: Env, s: State, args: map<string, Value>)
    requires Get(args, "handler").Func? && Get(args, "matchEvent").Str?
    ensures var r := AddListener(env, s, args);
      var l := NewListener(args);
      r.listeners == s.listeners + [l] &&
      (forall i :: |s.events| <= i < |r.events| ==> r.events[i].name == DeqError) &&
      (Truthy(Get(args, "skipHistory")) ==> r.delivered == s.delivered && r.events == s.events)
    ensures var l := NewListener(args);
      !Truthy(Get(args, "skipHistory")) &&
      (forall i :: 0 <= i < |s.events| && Delivers(env, s.events[i].name, l) ==> env.handlers(l.handler, s.events[i].name, s.events[i].data).None?) ==>
      AddListener(env, s, args).delivered == s.delivered + ReplayDeliveries(env, l, s.events) &&
      AddListener(env, s, args).events == s.events
  {
    var l := NewListener(args);
    var s1 := s.(history := SetLast(s.history, Obj(args["name" := l.name])), listeners := s.listeners + [l]);
    if !Truthy(Get(args, "skipHistory")) {
      ReplayOnlyReports(env, s1, l, s1.events);
      if forall i :: 0 <= i < |s.events| && Delivers(env, s.events[i].name, l) ==> env.handlers(l.handler, s.events[i].name, s.events[i].data).None? {
        ReplayDelivers(env, s1, l, s1.events);
      }
    }
  }

  /** addListener without a function handler or a string matchEvent registers nothing and reports. */
  lemma AddListenerRejects(env: Env, s: State, args: map<string, Value>)
    requires !(Get(args, "handler").Func? && Get(args, "matchEvent").Str?)
    ensures OneReport(env, s, AddListener(env, s, args), "add listener", Str("invalid input"), Input(Obj(args)), Undefined, Undefined)
  {
    LogErrorReports(env, s, "add listener", Str("invalid input"), Input(Obj(args)), Undefined, Undefined);
  }

  /**
   * addGlobalData with object data: global gains the data's keys, takes its
   * leaves and keeps the keys the data lacks; other data changes nothing.
   */
  lemma AddGlobalDataMerges(s: State, args: map<string, Value>)
    ensures var r := AddGlobalData(s, args);
      var data := Get(args, "data");
      (!data.Obj? ==> r == s) &&
      (data.Obj? ==>
        r == s.(global := r.global) &&
        r.global.Keys == s.global.Keys + data.fields.Keys &&
        (forall k :: k in data.fields && !data.fields[k].Obj? ==> r.global[k] == data.fields[k]) &&
        (forall k :: k in s.global && k !in data.fields ==> r.global[k] == s.global[k]))
  {
    var data := Get(args, "data");
    if data.Obj? {
      MergePairIsMergeFields(Obj(s.global), data);
      forall k | k in data.fields && !data.fields[k].Obj?
        ensures MergeFields(s.global, data)[k] == data.fields[k]
      {
        DeepCopyIsIdentity(data.fields[k]);
      }
    }
  }

  // ---------------------------------------------------------------------------
  // The persist and defer arrays (Cookie variant).

  /** The persisted data of an event holds the key of every matching item... */
  lemma {:induction false} PersistedForKeys(env: Env, items: seq<PersistItem>, name: string)
    ensures PersistedFor(env, items, name).Keys == set i | 0 <= i < |items| && ItemMatches(env, items[i].e, items[i].q, name) :: items[i].k
    decreases |items|
  {
    if items != [] {
      var pre := items[..|items| - 1];
      PersistedForKeys(env, pre, name);
      assert forall i :: 0 <= i < |pre| ==> pre[i] == items[i];
    }
  }

  /** ...and, for each key, the value of the last matching item with that key. */
  lemma {:induction false} PersistedForLastWins(env: Env, items: seq<PersistItem>, name: string, i: nat)
    requires i < |items| && ItemMatches(env, items[i].e, items[i].q, name)
    requires forall j :: i < j < |items| && ItemMatches(env, items[j].e, items[j].q, name) ==> items[j].k != items[i].k
    ensures items[i].k in PersistedFor(env, items, name) && PersistedFor(env, items, name)[items[i].k] == items[i].v
    decreases |items|
  {
    if i < |items| - 1 {
      var pre := items[..|items| - 1];
      PersistedForLastWins(env, pre, name, i);
    }
  }

  /** The positions of the items the defer loop keeps, in increasing order. */
  function KeptIndices(env: Env, items: seq<DeferItem>, name: string): seq<nat>
    decreases |items|
  {
    if items == [] then []
    else
      var rest := KeptIndices(env, items[..|items| - 1], name);
      var it := items[|items| - 1];
      if ItemMatches(env, it.e, it.q, name) then rest else rest + [|items| - 1]
  }

  /**
   * The defer loop keeps exactly the items that do not match (those of other
   * queues among them), in their original relative order.
   */
  lemma {:induction false} UnmatchedKeepsOrder(env: Env, items: seq<DeferItem>, name: string)
    ensures var ks := KeptIndices(env, items, name);
      var u := Unmatched(env, items, name);
      |u| == |ks| &&
      (forall t :: 0 <= t < |ks| ==> ks[t] < |items| && u[t] == items[ks[t]]) &&
      (forall t, t' :: 0 <= t < t' < |ks| ==> ks[t] < ks[t']) &&
      (forall i :: 0 <= i < |items| ==> (i in ks <==> !ItemMatches(env, items[i].e, items[i].q, name)))
    decreases |items|
  {
    if items != [] {
      var pre := items[..|items| - 1];
      UnmatchedKeepsOrder(env, pre, name);
      assert forall i :: 0 <= i < |pre| ==> pre[i] == items[i];
    }
  }

  /** An item of another queue is never consumed. */
  lemma OtherQueueItemsStay(env: Env, items: seq<DeferItem>, name: string, i: nat)
    requires i < |items| && items[i].q != env.name
    ensures items[i] in Unmatched(env, items, name)
  {
    UnmatchedKeepsOrder(env, items, name);
    var ks := KeptIndices(env, items, name);
    var t :| 0 <= t < |ks| && ks[t] == i;
  }

  /** Nothing is consumed exactly when no item matches. */
  lemma {:induction false} UnmatchedLength(env: Env, items: seq<DeferItem>, name: string)
    ensures |Unmatched(env, items, name)| <= |items|
    ensures |Unmatched(env, items, name)| == |items| <==> forall i :: 0 <= i < |items| ==> !ItemMatches(env, items[i].e, items[i].q, name)
    decreases |items|
  {
    if items != [] {
      var pre := items[..|items| - 1];
      UnmatchedLength(env, pre, name);
      assert forall i :: 0 <= i < |pre| ==> pre[i] == items[i];
    }
  }

  /** The defer array and its cookie are rewritten only when an item matched; otherwise nothing changes. */
  lemma ConsumeDeferOnlyOnMatch(env: Env, s: State, name: string)
    ensures (forall i :: 0 <= i < |s.defer| ==> !ItemMatches(env, s.defer[i].e, s.defer[i].q, name)) ==> ConsumeDefer(env, s, name) == s
    ensures (exists i :: 0 <= i < |s.defer| && ItemMatches(env, s.defer[i].e, s.defer[i].q, name)) ==>
      var u := Unmatched(env, s.defer, name);
      ConsumeDefer(env, s, name) == s.(defer := u, cookies := s.cookies["deq_defer" := DeferCookie(u)])
  {
    UnmatchedLength(env, s.defer, name);
  }

  lemma {:induction false} DeferredForNoMatch(env: Env, base: map<string, Value>, items: seq<DeferItem>, name: string)
    requires forall i :: 0 <= i < |items| ==> !ItemMatches(env, items[i].e, items[i].q, name)
    ensures DeferredFor(env, base, items, name) == base
    decreases |items|
  {
    if items != [] {
      DeferredForNoMatch(env, base, items[..|items| - 1], name);
    }
  }

  /** Deferred data is handed out once: after the loop, the kept items add nothing for the same event name. */
  lemma DeferredOnce(env: Env, base: map<string, Value>, items: seq<DeferItem>, name: string)
    ensures DeferredFor(env, base, Unmatched(env, items, name), name) == base
  {
    UnmatchedKeepsOrder(env, items, name);
    DeferredForNoMatch(env, base, Unmatched(env, items, name), name);
  }

  /** The items addPersistData appends, one per key of the data, for this queue. */
  function ItemsFor(env: Env, e: Value, props: seq<Coerce.Prop>): seq<PersistItem>
  {
    seq(|props|, i requires 0 <= i < |props| => PersistItem(e, props[i].key, props[i].val, env.name))
  }

  /** addPersistData's loop appends one item per key, in order. */
  lemma {:induction false} AddPersistItemsAppends(env: Env, s: State, e: Value, props: seq<Coerce.Prop>, lifetime: Value)
    ensures AddPersistItems(env, s, e, props, lifetime).persist == s.persist + ItemsFor(env, e, props)
    decreases |props|
  {
    if props != [] {
      var pre := props[..|props| - 1];
      AddPersistItemsAppends(env, s, e, pre, lifetime);
      assert ItemsFor(env, e, props) == ItemsFor(env, e, pre) + [PersistItem(e, props[|props| - 1].key, props[|props| - 1].val, env.name)];
    }
  }

  /** The cookie names addPersistData writes, one per key. */
  function CookieNamesFor(env: Env, props: seq<Coerce.Prop>): set<string>
  {
    set i | 0 <= i < |props| :: PersistCookieName(env.name, props[i].key)
  }

  lemma CookieNamesForSnoc(env: Env, props: seq<Coerce.Prop>)
    requires props != []
    ensures CookieNamesFor(env, props) == CookieNamesFor(env, props[..|props| - 1]) + {PersistCookieName(env.name, props[|props| - 1].key)}
  {
    var pre := props[..|props| - 1];
    assert forall i :: 0 <= i < |pre| ==> pre[i] == props[i];
    forall n | n in CookieNamesFor(env, props)
      ensures n in CookieNamesFor(env, pre) + {PersistCookieName(env.name, props[|props| - 1].key)}
    {
      var i :| 0 <= i < |props| && n == PersistCookieName(env.name, props[i].key);
      if i < |pre| {
        assert n == PersistCookieName(env.name, pre[i].key);
      }
    }
  }

  /** A cookie is written per key unless the lifetime is (loosely) "PAGELOAD". */
  lemma {:induction false} AddPersistItemsCookies(env: Env, s: State, e: Value, props: seq<Coerce.Prop>, lifetime: Value)
    ensures var r := AddPersistItems(env, s, e, props, lifetime);
      (Coerce.LooseEqualsString(lifetime, "PAGELOAD") ==> r.cookies == s.cookies) &&
      (!Coerce.LooseEqualsString(lifetime, "PAGELOAD") ==> r.cookies.Keys == s.cookies.Keys + CookieNamesFor(env, props))
    decreases |props|
  {
    if props != [] {
      AddPersistItemsCookies(env, s, e, props[..|props| - 1], lifetime);
      AddPersistItemsLastCookie(env, s, e, props, lifetime);
      CookieNamesForSnoc(env, props);
    }
  }

  /** The last property's cookie is the one write after the others'. */
  lemma AddPersistItemsLastCookie(env: Env, s: State, e: Value, props: seq<Coerce.Prop>, lifetime: Value)
    requires props != []
    ensures var p := props[|props| - 1];
      var before := AddPersistItems(env, s, e, props[..|props| - 1], lifetime).cookies;
      AddPersistItems(env, s, e, props, lifetime).cookies ==
        if Coerce.LooseEqualsString(lifetime, "PAGELOAD") then before
        else before[PersistCookieName(env.name, p.key) := PersistCookie(PersistItem(e, p.key, p.val, env.name), lifetime)]
  {
  }

  /**
   * The lifetime a persist cookie gets: a missing or falsy duration is
   * "PAGELOAD" (no cookie); a string duration is 0 (a session cookie) exactly
   * when it is "SESSION" and is kept otherwise; a number is kept. The
   * lifetime is truthy unless it is the session cookie's 0.
   */
  lemma PersistLifetimeRule(args: map<string, Value>)
    ensures var d := Get(args, "duration");
      (!Truthy(d) ==> PersistLifetime(args) == Str("PAGELOAD")) &&
      (d.Str? && Truthy(d) ==> (PersistLifetime(args) == Num(0) <==> d.s == "SESSION")) &&
      (d.Str? && Truthy(d) && d.s != "SESSION" ==> PersistLifetime(args) == d) &&
      (d.Num? && Truthy(d) ==> PersistLifetime(args) == d)
    ensures Truthy(PersistLifetime(args)) || PersistLifetime(args) == Num(0)
  {
    var d := Get(args, "duration");
    if !Truthy(d) {
      Coerce.LooseEqualsStringOnStrings(Str("PAGELOAD"), "SESSION");
      assert "PAGELOAD" != "SESSION";
      assert PersistLifetime(args) == Str("PAGELOAD");
    } else if d.Str? {
      Coerce.LooseEqualsStringOnStrings(d, "SESSION");
    } else if d.Num? {
      Coerce.SessionIsNotNumeric();
      assert !Coerce.LooseEqualsString(d, "SESSION");
    }
  }

  /** The persist cookie name lower-cases the queue name and replaces its first space. */
  lemma PersistCookieNameExample()
    ensures PersistCookieName("My Queue", "k") == "deq_persist-k-my_queue"
  {
    Coerce.SimpleNameExample();
  }

  // ---------------------------------------------------------------------------
  // The WithPersist variant.

  /**
   * DEFER DATA goes to the store with the duration forced to "DEFER", which
   * selects the defer tier; a store error becomes one "defer data" report.
   */
  lemma DeferDataUsesDeferTier(env: Env, s: State, args: map<string, Value>)
    requires env.variant == WithPersist
    ensures var args' := args["duration" := Str("DEFER")];
      var out := Persist.AddOutcome(Config(env), s.store, args', env.now);
      var s1 := s.(history := SetLast(s.history, Obj(args')), store := out.state);
      var r := DeferData(env, s, args);
      Persist.StorageForDuration(Get(args', "duration")) == Persist.Defer &&
      (out.thrown.None? ==> r == s1) &&
      (out.thrown.Some? ==> OneReport(env, s1, r, "defer data", MessageOf(out.thrown.value), out.thrown.value, Undefined, Undefined))
  {
    var args' := args["duration" := Str("DEFER")];
    var out := Persist.AddOutcome(Config(env), s.store, args', env.now);
    if out.thrown.Some? {
      var s1 := s.(history := SetLast(s.history, Obj(args')), store := out.state);
      LogErrorReports(env, s1, "defer data", MessageOf(out.thrown.value), out.thrown.value, Undefined, Undefined);
    }
  }

  /** PERSIST DATA goes to the store; a store error becomes one "persist data" report, never a thrown error. */
  lemma PersistDataUsesStore(env: Env, s: State, args: map<string, Value>)
    requires env.variant == WithPersist
    ensures var out := Persist.AddOutcome(Config(env), s.store, args, env.now);
      var s1 := s.(store := out.state);
      var r := PersistData(env, s, args);
      (out.thrown.None? ==> r == s1) &&
      (out.thrown.Some? ==> OneReport(env, s1, r, "persist data", MessageOf(out.thrown.value), out.thrown.value, Undefined, Undefined))
  {
    var out := Persist.AddOutcome(Config(env), s.store, args, env.now);
    if out.thrown.Some? {
      LogErrorReports(env, s.(store := out.state), "persist data", MessageOf(out.thrown.value), out.thrown.value, Undefined, Undefined);
    }
  }

  /** A "deq error" event (by loose equality) bypasses the store, so it consumes no deferred data. */
  lemma ErrorEventSkipsStore(env: Env, s: State, args: map<string, Value>)
    requires env.variant == WithPersist && Coerce.LooseEqualsString(Get(args, "name"), DeqError)
    ensures AddEvent(env, s, args).store == s.store
  {
    if ValidEventInput(args) {
      AddEventOriginAppends(env, s, args);
    } else {
      AddEventOriginRejects(env, s, args);
    }
  }

  /** An event whose name is not a string makes the lookup throw: one report, no event. */
  lemma LookupFailureDropsEvent(env: Env, s: State, args: map<string, Value>)
    requires env.variant == WithPersist && !Coerce.LooseEqualsString(Get(args, "name"), DeqError) && !Get(args, "name").Str?
    ensures var e := WithProp(Persist.Thrown(Persist.InvalidMatchEvent), "deq_event", Get(args, "name"));
      OneReport(env, s, AddEvent(env, s, args), "add event", Str("invalid event object"), e, Undefined, Undefined)
  {
    PersistProps.GetRejects(Config(env), s.store, Get(args, "name"), env.matches, env.now);
    var e := WithProp(Persist.Thrown(Persist.InvalidMatchEvent), "deq_event", Get(args, "name"));
    LogErrorReports(env, s, "add event", Str("invalid event object"), e, Undefined, Undefined);
  }

  /** The command WithPersist hands to the queue's own addEvent: the store's properties under the caller's data. */
  function WithStoredProps(props: map<string, Value>, args: map<string, Value>): map<string, Value>
  {
    args["data" := Obj(MergeObj([Obj(props), Get(args, "data")]))]
  }

  /** For an event other than "deq error" with a string name, the lookup succeeds and the event goes on with the merged data. */
  lemma LookupThenOrigin(env: Env, s: State, args: map<string, Value>)
    requires env.variant == WithPersist && !Coerce.LooseEqualsString(Get(args, "name"), DeqError) && Get(args, "name").Str?
    ensures var got := Persist.GetOutcome(Config(env), s.store, Get(args, "name"), env.matches, env.now);
      var args' := WithStoredProps(got.props, args);
      got.thrown.None? &&
      AddEvent(env, s, args) == AddEventOrigin(env, s.(store := got.state, history := SetLast(s.history, Obj(args'))), args')
  {
    PersistProps.GetRejects(Config(env), s.store, Get(args, "name"), env.matches, env.now);
  }

  /** In the merged data a caller's leaf wins, and a stored leaf shows through where the caller has no such key. */
  lemma CallerOverStored(props: map<string, Value>, data: Value, key: string)
    ensures var merged := MergeObj([Obj(props), data]);
      ((data.Obj? && key in data.fields && !data.fields[key].Obj?) ==> key in merged && merged[key] == data.fields[key]) &&
      ((key in props && !props[key].Obj? && !(data.Obj? && key in data.fields)) ==> key in merged && merged[key] == props[key])
  {
    if data.Obj? && key in data.fields && !data.fields[key].Obj? {
      MergeLeafFromLastHolder([Obj(props), data], 1, key);
    } else if key in props && !props[key].Obj? && !(data.Obj? && key in data.fields) {
      MergeLeafFromLastHolder([Obj(props), data], 0, key);
    }
  }

  /**
   * Other events get the store's properties merged under the caller's data:
   * a caller's leaf wins, and a stored leaf shows through where the caller
   * has no such key.
   */
  lemma StoredPropsUnderCallerData(env: Env, s: State, args: map<string, Value>, key: string)
    requires env.variant == WithPersist && !Coerce.LooseEqualsString(Get(args, "name"), DeqError)
    requires ValidEventInput(args) && key != "deq_event" && key != "deq_event_ts"
    ensures var name := Get(args, "name").s;
      var props := Persist.GetOutcome(Config(env), s.store, Get(args, "name"), env.matches, env.now).props;
      var data := Get(args, "data");
      var r := AddEvent(env, s, args);
      |r.events| > |s.events| && r.events[|s.events|].name == name &&
      ((data.Obj? && key in data.fields && !data.fields[key].Obj?) ==>
        key in r.events[|s.events|].data && r.events[|s.events|].data[key] == data.fields[key]) &&
      ((key in props && !props[key].Obj? && !(data.Obj? && key in data.fields)) ==>
        key in r.events[|s.events|].data && r.events[|s.events|].data[key] == props[key])
  {
    var name := Get(args, "name");
    var got := Persist.GetOutcome(Config(env), s.store, name, env.matches, env.now);
    var merged := MergeObj([Obj(got.props), Get(args, "data")]);
    var s1 := s.(store := got.state, history := SetLast(s.history, Obj(WithStoredProps(got.props, args))));
    StoredEvent(env, s, args);
    EventDataLayers(env, s1, name.s, Obj(merged), key);
    CallerOverStored(got.props, Get(args, "data"), key);
  }

  /** The event the WithPersist ADD EVENT appends: the queue's layering over the merged data, seen after the lookup. */
  lemma StoredEvent(env: Env, s: State, args: map<string, Value>)
    requires env.variant == WithPersist && !Coerce.LooseEqualsString(Get(args, "name"), DeqError) && ValidEventInput(args)
    ensures var name := Get(args, "name");
      var got := Persist.GetOutcome(Config(env), s.store, name, env.matches, env.now);
      var args' := WithStoredProps(got.props, args);
      var s1 := s.(store := got.state, history := SetLast(s.history, Obj(args')));
      var r := AddEvent(env, s, args);
      |r.events| > |s.events| &&
      r.events[|s.events|] == Event(name.s, EventData(env, s1, name.s, Obj(MergeObj([Obj(got.props), Get(args, "data")]))))
  {
    var name := Get(args, "name");
    var got := Persist.GetOutcome(Config(env), s.store, name, env.matches, env.now);
    var args' := WithStoredProps(got.props, args);
    var s1 := s.(store := got.state, history := SetLast(s.history, Obj(args')));
    LookupThenOrigin(env, s, args);
    var merged := Obj(MergeObj([Obj(got.props), Get(args, "data")]));
    assert Get(args', "name") == name && Get(args', "data") == merged;
    AddEventOriginAppends(env, s1, args');
    var r := AddEventOrigin(env, s1, args');
    var ev := Event(name.s, EventData(env, s1, name.s, merged));
    assert r.events[..|s.events| + 1] == s.events + [ev];
    assert r.events[|s.events|] == (s.events + [ev])[|s.events|];
  }
}
