/**
 * The four-tier persisted property store, `PersistInterface`
 * (src/PersistInterface.js:11-14, 339-489): the functions below say what
 * loading, saving, addProperties and getProperties do to the four stores and
 * the cookie jar; class `PersistInterface` runs the source's sequence of
 * store calls and is proved to compute them.
 */
module Persist {
  import opened Values
  import opened Storage
  import Stores
  import Coerce
  import PersistMerge

  /** LASTING_COOKIE_LIFETIME: two years, in seconds. */
  const LastingCookieLifetime: int := 2 * 365 * 24 * 60 * 60

  const InvalidData := "Invalid input for data property"
  const InvalidMatchEvent := "Invalid input for matchEvent property"

  datatype Tier = Pageload | Session | Lasting | Defer

  /**
   * The four stores (their in-memory `storage`), the memory store's backend
   * and the cookie jar the three cookie stores write to.
   */
  datatype PState = PState(pageload: Slots, backend: Slots, session: Slots, lasting: Slots, defer: Slots, jar: Stores.Jar)

  /** The queue name the interface was created with, and the page's hostname. */
  datatype Config = Config(postfix: string, host: string)

  /** What addProperties and getProperties leave behind: the new state, the error thrown if any, and the properties returned. */
  datatype Outcome = Outcome(state: PState, thrown: Option<Value>, props: map<string, Value>)

  function StorePostFix(c: Config): string { "deq_pers_" + c.postfix }
  function SessionCookie(c: Config): string { StorePostFix(c) + "_s" }
  function LastingCookie(c: Config): string { StorePostFix(c) + "_l" }
  function DeferCookie(c: Config): string { StorePostFix(c) + "_d" }

  /** `new Error(message)`. */
  function Thrown(message: string): Value
  {
    Error(message, map[])
  }

  function TierOf(ps: PState, t: Tier): Slots
  {
    match t
    case Pageload => ps.pageload
    case Session => ps.session
    case Lasting => ps.lasting
    case Defer => ps.defer
  }

  function WithTier(ps: PState, t: Tier, s: Slots): PState
  {
    match t
    case Pageload => ps.(pageload := s)
    case Session => ps.(session := s)
    case Lasting => ps.(lasting := s)
    case Defer => ps.(defer := s)
  }

  /** loadStores: each store loads from its backend and sweeps, lasting first. */
  function LoadAll(c: Config, ps: PState, now: int): PState
  {
    ps.(
      lasting := Sweep(Stores.Loaded(Stores.CookieBackend, ps.lasting, [], ps.jar, LastingCookie(c)), now),
      session := Sweep(Stores.Loaded(Stores.CookieBackend, ps.session, [], ps.jar, SessionCookie(c)), now),
      pageload := Sweep(Stores.Loaded(Stores.MemoryBackend, ps.pageload, ps.backend, ps.jar, ""), now),
      defer := Sweep(Stores.Loaded(Stores.CookieBackend, ps.defer, [], ps.jar, DeferCookie(c)), now))
  }

  /** saveStores: the lasting cookie lives two years, the session and defer cookies are session cookies. */
  function SaveAll(c: Config, ps: PState): PState
  {
    ps.(
      jar := ps.jar[LastingCookie(c) := Stores.CookieOf(ps.lasting, Some(LastingCookieLifetime), c.host)]
                   [SessionCookie(c) := Stores.CookieOf(ps.session, None, c.host)]
                   [DeferCookie(c) := Stores.CookieOf(ps.defer, None, c.host)],
      backend := ps.pageload)
  }

  /** getStorageForDuration: three exact names, then any integer-parsable duration is lasting, the rest session. */
  function StorageForDuration(duration: Value): Tier
  {
    if duration == Str("DEFER") then Defer
    else if duration == Str("PAGELOAD") then Pageload
    else if duration == Str("SESSION") then Session
    else if Coerce.ParseInt(duration).Some? then Lasting
    else Session
  }

  /** The choice StorageForDuration makes, one branch at a time. */
  lemma DurationBranches(duration: Value)
    ensures duration == Str("DEFER") ==> StorageForDuration(duration) == Defer
    ensures duration == Str("PAGELOAD") ==> StorageForDuration(duration) == Pageload
    ensures duration == Str("SESSION") ==> StorageForDuration(duration) == Session
    ensures duration != Str("DEFER") && duration != Str("PAGELOAD") && duration != Str("SESSION") ==>
      StorageForDuration(duration) == if Coerce.ParseInt(duration).Some? then Lasting else Session
  {
  }

  /** deletePropertyWithKey: remove the key from every store. */
  function DeleteEverywhere(ps: PState, key: string): PState
  {
    ps.(
      pageload := RemoveEverywhere(ps.pageload, key),
      session := RemoveEverywhere(ps.session, key),
      lasting := RemoveEverywhere(ps.lasting, key),
      defer := RemoveEverywhere(ps.defer, key))
  }

  /** deleteProperties over the given keys, in order. */
  function DeleteKeys(ps: PState, keys: seq<string>): PState
    decreases |keys|
  {
    if keys == [] then ps else DeleteEverywhere(DeleteKeys(ps, keys[..|keys| - 1]), keys[|keys| - 1])
  }

  /** deletePropertyWithKey as written: remove(key) on every store, with its truthiness test. */
  function DeleteEverywhereAsWritten(ps: PState, key: string): PState
  {
    ps.(
      pageload := RemoveAsWritten(ps.pageload, key, None),
      session := RemoveAsWritten(ps.session, key, None),
      lasting := RemoveAsWritten(ps.lasting, key, None),
      defer := RemoveAsWritten(ps.defer, key, None))
  }

  /** deleteProperties as written. */
  function DeleteKeysAsWritten(ps: PState, keys: seq<string>): PState
    decreases |keys|
  {
    if keys == [] then ps else DeleteEverywhereAsWritten(DeleteKeysAsWritten(ps, keys[..|keys| - 1]), keys[|keys| - 1])
  }

  /** loadStores as written: each store's sweep removes with the truthiness test. */
  function LoadAllAsWritten(c: Config, ps: PState, now: int): PState
  {
    ps.(
      lasting := SweepAsWritten(Stores.Loaded(Stores.CookieBackend, ps.lasting, [], ps.jar, LastingCookie(c)), now),
      session := SweepAsWritten(Stores.Loaded(Stores.CookieBackend, ps.session, [], ps.jar, SessionCookie(c)), now),
      pageload := SweepAsWritten(Stores.Loaded(Stores.MemoryBackend, ps.pageload, ps.backend, ps.jar, ""), now),
      defer := SweepAsWritten(Stores.Loaded(Stores.CookieBackend, ps.defer, [], ps.jar, DeferCookie(c)), now))
  }

  /** PERSIST.addProperties as written: AddOutcome with the sweep and the deletions as written. */
  function AddOutcomeAsWritten(c: Config, ps: PState, args: map<string, Value>, now: int): Outcome
  {
    var data := Get(args, "data");
    var matchEvent := Get(args, "matchEvent");
    if !("data" in args && TypeofObject(data)) then Outcome(ps, Some(Thrown(InvalidData)), map[])
    else if !("matchEvent" in args && matchEvent.Str?) then Outcome(ps, Some(Thrown(InvalidMatchEvent)), map[])
    else
      var loaded := LoadAllAsWritten(c, ps, now);
      match Coerce.ObjectProps(data)
      case None => Outcome(loaded, Some(Thrown(Coerce.KeysOfNothing)), map[])
      case Some(props) =>
        var cleared := DeleteKeysAsWritten(loaded, Coerce.KeysOfProps(props));
        var t := StorageForDuration(Get(args, "duration"));
        var added := Add(TierOf(cleared, t), matchEvent.s, props, Get(args, "duration"), Get(args, "renew"), now);
        Outcome(SaveAll(c, WithTier(cleared, t, added)), None, map[])
  }

  /** `typeof v == "object"`: objects, arrays, errors and null. */
  predicate TypeofObject(v: Value)
  {
    v.Obj? || v.Arr? || v.Error? || v.Null?
  }

  /**
   * PERSIST.addProperties(args): check the input, load every store, delete
   * each key of `data` from every store, add the properties to the store
   * chosen by `duration` under `matchEvent`, and save. `Object.keys(null)`
   * throws after the stores were loaded, before anything is saved.
   */
  function AddOutcome(c: Config, ps: PState, args: map<string, Value>, now: int): Outcome
  {
    var data := Get(args, "data");
    var matchEvent := Get(args, "matchEvent");
    if !("data" in args && TypeofObject(data)) then Outcome(ps, Some(Thrown(InvalidData)), map[])
    else if !("matchEvent" in args && matchEvent.Str?) then Outcome(ps, Some(Thrown(InvalidMatchEvent)), map[])
    else
      var loaded := LoadAll(c, ps, now);
      match Coerce.ObjectProps(data)
      case None => Outcome(loaded, Some(Thrown(Coerce.KeysOfNothing)), map[])
      case Some(props) =>
        var cleared := DeleteKeys(loaded, Coerce.KeysOfProps(props));
        var t := StorageForDuration(Get(args, "duration"));
        var added := Add(TierOf(cleared, t), matchEvent.s, props, Get(args, "duration"), Get(args, "renew"), now);
        Outcome(SaveAll(c, WithTier(cleared, t, added)), None, map[])
  }

  /** The result of getProperties from the four loaded stores: lasting, session, pageload, defer, later winning. */
  function Layered(ps: PState, name: string, matches: Matcher): map<string, Value>
  {
    MergeObj([Obj(Collect(ps.lasting, name, matches)), Obj(Collect(ps.session, name, matches)),
              Obj(Collect(ps.pageload, name, matches)), Obj(Collect(ps.defer, name, matches))])
  }

  /**
   * PERSIST.getProperties({matchEvent}): a non-string matchEvent throws;
   * otherwise load, collect the matches of all four stores, let the defer
   * store drop what it returned, save, and merge the four results.
   */
  function GetOutcome(c: Config, ps: PState, matchEvent: Value, matches: Matcher, now: int): Outcome
  {
    if !matchEvent.Str? then Outcome(ps, Some(Thrown(InvalidMatchEvent)), map[])
    else
      var loaded := LoadAll(c, ps, now);
      var consumed := loaded.(defer := Consume(loaded.defer, matchEvent.s, matches));
      Outcome(SaveAll(c, consumed), None, Layered(loaded, matchEvent.s, matches))
  }

  // ---------------------------------------------------------------------------
  // The interface object.

  class PersistInterface {
    const config: Config
    const pageloadStore: Stores.PersistStore
    const sessionStore: Stores.PersistStore
    const lastingStore: Stores.PersistStore
    const deferStore: Stores.PersistStore
    /** The cookies of the page, as far as the stores use them. */
    var jar: Stores.Jar
    ghost const Repr: set<object>

    ghost predicate Valid()
    {
      Repr == {this, pageloadStore, sessionStore, lastingStore, deferStore} &&
      pageloadStore != sessionStore && pageloadStore != lastingStore && pageloadStore != deferStore &&
      sessionStore != lastingStore && sessionStore != deferStore && lastingStore != deferStore &&
      pageloadStore.backend == Stores.MemoryBackend &&
      sessionStore.backend == Stores.CookieBackend && sessionStore.cookieName == SessionCookie(config) &&
      lastingStore.backend == Stores.CookieBackend && lastingStore.cookieName == LastingCookie(config) &&
      deferStore.backend == Stores.CookieBackend && deferStore.cookieName == DeferCookie(config) &&
      sessionStore.lifetime == None && lastingStore.lifetime == Some(LastingCookieLifetime) && deferStore.lifetime == None
    }

    function State(): PState
      reads this, pageloadStore, sessionStore, lastingStore, deferStore
    {
      PState(pageloadStore.storage, pageloadStore.memory, sessionStore.storage, lastingStore.storage, deferStore.storage, jar)
    }

    /** `new PersistInterface(storePostfix)` on a page whose cookies are `jar`: four empty stores. */
    constructor(postfix: string, host: string, jar: Stores.Jar)
      ensures Valid() && fresh(Repr - {this})
      ensures config == Config(postfix, host)
      ensures State() == PState([], [], [], [], [], jar)
    {
      config := Config(postfix, host);
      pageloadStore := new Stores.PersistStore(Stores.MemoryBackend, "", None);
      sessionStore := new Stores.PersistStore(Stores.CookieBackend, "deq_pers_" + postfix + "_s", None);
      lastingStore := new Stores.PersistStore(Stores.CookieBackend, "deq_pers_" + postfix + "_l", Some(LastingCookieLifetime));
      deferStore := new Stores.PersistStore(Stores.CookieBackend, "deq_pers_" + postfix + "_d", None);
      this.jar := jar;
      Repr := {this, pageloadStore, sessionStore, lastingStore, deferStore};
    }

    function StoreOf(t: Tier): Stores.PersistStore
    {
      match t
      case Pageload => pageloadStore
      case Session => sessionStore
      case Lasting => lastingStore
      case Defer => deferStore
    }

    /** loadStores */
    method LoadStores(now: int)
      requires Valid()
      modifies pageloadStore, sessionStore, lastingStore, deferStore
      ensures State() == LoadAll(config, old(State()), now)
    {
      lastingStore.LoadProperties(jar, now);
      sessionStore.LoadProperties(jar, now);
      pageloadStore.LoadProperties(jar, now);
      deferStore.LoadProperties(jar, now);
    }

    /** saveStores */
    method SaveStores()
      requires Valid()
      modifies this, pageloadStore, sessionStore, lastingStore, deferStore
      ensures State() == SaveAll(config, old(State()))
    {
      jar := lastingStore.SaveProperties(jar, config.host);
      jar := sessionStore.SaveProperties(jar, config.host);
      jar := pageloadStore.SaveProperties(jar, config.host);
      jar := deferStore.SaveProperties(jar, config.host);
    }

    /** getStorageForDuration */
    method GetStorageForDuration(duration: Value) returns (store: Stores.PersistStore)
      ensures store == StoreOf(StorageForDuration(duration))
    {
      DurationBranches(duration);
      if duration == Str("DEFER") {
        return deferStore;
      }
      if duration == Str("PAGELOAD") {
        return pageloadStore;
      }
      if duration == Str("SESSION") {
        return sessionStore;
      }
      var parsed := Coerce.ParseInt(duration);
      if parsed.Some? {
        return lastingStore;
      }
      return sessionStore;
    }

    /** deletePropertyWithKey: pageload, session, lasting, then defer. */
    method DeletePropertyWithKey(key: string)
      requires Valid()
      modifies pageloadStore, sessionStore, lastingStore, deferStore
      ensures State() == DeleteEverywhere(old(State()), key)
    {
      pageloadStore.Remove(key, None);
      sessionStore.Remove(key, None);
      lastingStore.Remove(key, None);
      deferStore.Remove(key, None);
    }

    /** deleteProperties(data): `Object.keys(data)` throws for undefined and null. */
    method DeleteProperties(data: Value) returns (thrown: Option<Value>)
      requires Valid()
      modifies pageloadStore, sessionStore, lastingStore, deferStore
      ensures Coerce.ObjectProps(data).None? ==> thrown == Some(Thrown(Coerce.KeysOfNothing)) && State() == old(State())
      ensures Coerce.ObjectProps(data).Some? ==>
        thrown == None && State() == DeleteKeys(old(State()), Coerce.KeysOfProps(Coerce.ObjectProps(data).value))
    {
      var props := Coerce.ObjectProps(data);
      if props.None? {
        return Some(Thrown(Coerce.KeysOfNothing));
      }
      DeleteAll(Coerce.KeysOfProps(props.value));
      thrown := None;
    }

    /** The loop of deleteProperties: deletePropertyWithKey for each key, in order. */
    method DeleteAll(keys: seq<string>)
      requires Valid()
      modifies pageloadStore, sessionStore, lastingStore, deferStore
      ensures State() == DeleteKeys(old(State()), keys)
    {
      var i := 0;
      while i < |keys|
        invariant i <= |keys|
        invariant State() == DeleteKeys(old(State()), keys[..i])
      {
        assert keys[..i + 1][..i] == keys[..i];
        DeletePropertyWithKey(keys[i]);
        i := i + 1;
      }
      assert keys[..i] == keys;
    }

    /** `getStorageForDuration(duration).addProperties(...)`: the chosen store, and only it, receives the properties. */
    method AddToTier(duration: Value, pattern: string, props: seq<Coerce.Prop>, renew: Value, now: int)
      requires Valid()
      modifies pageloadStore, sessionStore, lastingStore, deferStore
      ensures State() == WithTier(old(State()), StorageForDuration(duration),
                                  Add(TierOf(old(State()), StorageForDuration(duration)), pattern, props, duration, renew, now))
    {
      var store := GetStorageForDuration(duration);
      store.AddProperties(pattern, props, duration, renew, now);
    }

    /** PERSIST.addProperties(args) */
    method AddProperties(args: map<string, Value>, now: int) returns (thrown: Option<Value>)
      requires Valid()
      modifies this, pageloadStore, sessionStore, lastingStore, deferStore
      ensures State() == AddOutcome(config, old(State()), args, now).state
      ensures thrown == AddOutcome(config, old(State()), args, now).thrown
    {
      var data := Get(args, "data");
      if !("data" in args && TypeofObject(data)) {
        return Some(Thrown(InvalidData));
      }
      var matchEvent := Get(args, "matchEvent");
      if !("matchEvent" in args && matchEvent.Str?) {
        return Some(Thrown(InvalidMatchEvent));
      }
      LoadStores(now);
      thrown := DeleteProperties(data);
      if thrown.Some? {
        return;
      }
      ghost var cleared := State();
      var props := Coerce.ObjectProps(data).value;
      AddToTier(Get(args, "duration"), matchEvent.s, props, Get(args, "renew"), now);
      ghost var added := State();
      SaveStores();
      assert State() == SaveAll(config, added);
    }

    /** PERSIST.getProperties({matchEvent}) */
    method GetProperties(matchEvent: Value, matches: Matcher, now: int) returns (thrown: Option<Value>, result: map<string, Value>)
      requires Valid()
      modifies this, pageloadStore, sessionStore, lastingStore, deferStore
      ensures State() == GetOutcome(config, old(State()), matchEvent, matches, now).state
      ensures thrown == GetOutcome(config, old(State()), matchEvent, matches, now).thrown
      ensures result == GetOutcome(config, old(State()), matchEvent, matches, now).props
    {
      if !matchEvent.Str? {
        return Some(Thrown(InvalidMatchEvent)), map[];
      }
      LoadStores(now);
      ghost var loaded := State();
      var fromPageload := pageloadStore.GetProperties(matchEvent.s, matches);
      var fromSession := sessionStore.GetProperties(matchEvent.s, matches);
      var fromLasting := lastingStore.GetProperties(matchEvent.s, matches);
      var fromDefer := deferStore.DeferGetProperties(matchEvent.s, matches);
      SaveStores();
      result := PersistMerge.Merge([Obj(fromLasting), Obj(fromSession), Obj(fromPageload), Obj(fromDefer)]);
      thrown := None;
    }
  }
}
