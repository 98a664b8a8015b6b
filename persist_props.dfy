/**
 * What PersistInterface promises its callers: where addProperties puts each
 * property, which inputs it rejects, the order in which getProperties layers
 * the four stores, that deferred properties are handed out once, and that
 * the stores survive a save and a load.
 */
module PersistProps {
  import opened Values
  import opened Storage
  import opened Persist
  import Stores
  import Coerce

  /** No pattern of `s` holds `key`. */
  predicate Absent(s: Slots, key: string)
  {
    forall i :: 0 <= i < |s| ==> key !in s[i].entry.data
  }

  /** Two stores with the same patterns, position by position. */
  predicate SamePatterns(s: Slots, t: Slots)
  {
    |s| == |t| && forall i :: 0 <= i < |s| ==> s[i].pattern == t[i].pattern
  }

  // ---------------------------------------------------------------------------
  // Choosing a store.

  /**
   * Only the exact upper-case names choose the defer and pageload stores;
   * "session" in lower case, like any other name parseInt fails on, and a
   * missing duration end up in the session store.
   */
  lemma DurationNames()
    ensures StorageForDuration(Str("DEFER")) == Defer
    ensures StorageForDuration(Str("PAGELOAD")) == Pageload
    ensures StorageForDuration(Str("session")) == Session
    ensures StorageForDuration(Undefined) == Session
  {
    Coerce.WordIsNotParsable("session");
    UndefinedDurationIsSession();
  }

  /**
   * Any number, 0 and negative ones included, and any string of decimal
   * digits make a property lasting.
   */
  lemma DurationNumbers(n: int, d: string)
    ensures StorageForDuration(Num(n)) == Lasting
    ensures d != [] && Coerce.AllDigits(d) ==> StorageForDuration(Str(d)) == Lasting
  {
    ParsedDurationIsLasting(Num(n));
    if d != [] && Coerce.AllDigits(d) {
      DigitsParse(d);
      NotAStoreName(d);
      ParsedDurationIsLasting(Str(d));
    }
  }

  /** A duration parseInt reads, other than the three store names, chooses the lasting store. */
  lemma ParsedDurationIsLasting(v: Value)
    requires v != Str("DEFER") && v != Str("PAGELOAD") && v != Str("SESSION")
    requires Coerce.ParseInt(v).Some?
    ensures StorageForDuration(v) == Lasting
  {
  }

  /** A string of digits is read by parseInt. */
  lemma DigitsParse(d: string)
    requires d != [] && Coerce.AllDigits(d)
    ensures Coerce.ParseInt(Str(d)).Some?
  {
    Coerce.DigitsRead(d);
    assert Coerce.ToStr(Str(d)) == d;
  }

  /** A string that parseInt reads is none of the three store names. */
  lemma NotAStoreName(d: string)
    requires d != [] && Coerce.AllDigits(d)
    ensures d != "DEFER" && d != "PAGELOAD" && d != "SESSION"
  {
    assert Coerce.IsDigit(d[0]);
  }

  // ---------------------------------------------------------------------------
  // addProperties: rejected inputs.

  /**
   * addProperties throws exactly when `data` is missing or not of type
   * object, when `matchEvent` is missing or not a string, or when `data` is
   * null. The first two leave everything as it was; null data throws after the
   * stores were loaded and swept, before anything is deleted or saved.
   */
  lemma AddRejects(c: Config, ps: PState, args: map<string, Value>, now: int)
    ensures AddOutcome(c, ps, args, now).thrown.Some? <==>
      !("data" in args && TypeofObject(args["data"])) || !("matchEvent" in args && args["matchEvent"].Str?) || args["data"] == Null
    ensures !("data" in args && TypeofObject(args["data"])) ==>
      AddOutcome(c, ps, args, now) == Outcome(ps, Some(Error(InvalidData, map[])), map[])
    ensures "data" in args && TypeofObject(args["data"]) && !("matchEvent" in args && args["matchEvent"].Str?) ==>
      AddOutcome(c, ps, args, now) == Outcome(ps, Some(Error(InvalidMatchEvent, map[])), map[])
    ensures "data" in args && args["data"] == Null && "matchEvent" in args && args["matchEvent"].Str? ==>
      AddOutcome(c, ps, args, now).state == LoadAll(c, ps, now) && LoadAll(c, ps, now).jar == ps.jar
  {
  }

  // ---------------------------------------------------------------------------
  // addProperties: placement.

  /** deleteProperties leaves none of the keys in any store, and keeps every pattern and the cookies. */
  lemma {:induction false} DeleteKeysClears(ps: PState, keys: seq<string>)
    ensures var r := DeleteKeys(ps, keys);
      r.jar == ps.jar && r.backend == ps.backend &&
      (forall t :: SamePatterns(TierOf(ps, t), TierOf(r, t))) &&
      (forall t, k :: k in keys ==> Absent(TierOf(r, t), k))
    decreases |keys|
  {
    if keys != [] {
      var pre := keys[..|keys| - 1];
      var key := keys[|keys| - 1];
      DeleteKeysClears(ps, pre);
      var mid := DeleteKeys(ps, pre);
      var r := DeleteKeys(ps, keys);
      assert r == DeleteEverywhere(mid, key);
      forall t
        ensures SamePatterns(TierOf(ps, t), TierOf(r, t))
        ensures forall k :: k in keys ==> Absent(TierOf(r, t), k)
      {
        assert TierOf(r, t) == RemoveEverywhere(TierOf(mid, t), key);
        RemoveEverywhereClears(TierOf(mid, t), key);
        forall k | k in keys
          ensures Absent(TierOf(r, t), k)
        {
          if k != key {
            assert k in pre;
          }
        }
      }
    }
  }

  /** Replacing one store leaves the other three. */
  lemma WithTierOthers(ps: PState, t: Tier, s: Slots)
    ensures TierOf(WithTier(ps, t, s), t) == s
    ensures forall u :: u != t ==> TierOf(WithTier(ps, t, s), u) == TierOf(ps, u)
    ensures WithTier(ps, t, s).jar == ps.jar
  {
  }

  /** Saving keeps the four stores and writes the three cookies. */
  lemma SaveAllKeepsStores(c: Config, ps: PState)
    ensures forall t :: TierOf(SaveAll(c, ps), t) == TierOf(ps, t)
    ensures SaveAll(c, ps).backend == ps.pageload
  {
  }

  /**
   * After a successful addProperties, every property of `data` is held by
   * the `matchEvent` pattern of the store its duration chooses, with its
   * value from `data` and the attributes determineExpiry and the renew rule
   * give it; no other pattern of that store, and no pattern of the other
   * three stores, holds the key. (For a plain object the properties are
   * exactly its fields: Storage.PropsMapOfMap.)
   */
  lemma AddPlacement(c: Config, ps: PState, args: map<string, Value>, now: int, k: string)
    requires AddOutcome(c, ps, args, now).thrown.None?
    requires k in PropsMap(Coerce.ObjectProps(args["data"]).value)
    ensures var t := StorageForDuration(Get(args, "duration"));
      var r := TierOf(AddOutcome(c, ps, args, now).state, t);
      exists i :: 0 <= i < |r| && r[i].pattern == args["matchEvent"].s &&
        k in r[i].entry.data && r[i].entry.data[k] == PropsMap(Coerce.ObjectProps(args["data"]).value)[k] &&
        k in r[i].entry.attrs &&
        r[i].entry.attrs[k] == Attr(DetermineExpiry(Get(args, "duration"), now), RenewValue(Get(args, "duration"), Get(args, "renew"))) &&
        forall j :: 0 <= j < |r| && j != i ==> k !in r[j].entry.data
    ensures forall u :: u != StorageForDuration(Get(args, "duration")) ==>
      Absent(TierOf(AddOutcome(c, ps, args, now).state, u), k)
  {
    var data := args["data"];
    var props := Coerce.ObjectProps(data).value;
    var duration := Get(args, "duration");
    var t := StorageForDuration(duration);
    var loaded := LoadAll(c, ps, now);
    var cleared := DeleteKeys(loaded, Coerce.KeysOfProps(props));
    var base := TierOf(cleared, t);
    var added := Add(base, args["matchEvent"].s, props, duration, Get(args, "renew"), now);
    assert AddOutcome(c, ps, args, now).state == SaveAll(c, WithTier(cleared, t, added));
    PropsMapKeys(props);
    DeleteKeysClears(loaded, Coerce.KeysOfProps(props));
    WithTierOthers(cleared, t, added);
    SaveAllKeepsStores(c, WithTier(cleared, t, added));
    var i := AddPlaces(base, args["matchEvent"].s, props, duration, Get(args, "renew"), now);
    assert Absent(base, k);
    forall j | 0 <= j < |added| && j != i
      ensures k !in added[j].entry.data
    {
      assert added[j] == base[j];
    }
  }

  // ---------------------------------------------------------------------------
  // Every key in one place.

  /** Across the four stores, each key is held by one pattern at most. */
  predicate OneHome(ps: PState)
  {
    forall t, u, i, j, k ::
      (0 <= i < |TierOf(ps, t)| && 0 <= j < |TierOf(ps, u)| && (t != u || i != j) &&
       k in TierOf(ps, t)[i].entry.data) ==> k !in TierOf(ps, u)[j].entry.data
  }

  /**
   * The counterexample for addProperties: a key held under the pattern "" in
   * the lasting store is not deleted first, so adding it again under another
   * pattern leaves it in two stores; the corrected addProperties keeps it in
   * one.
   */
  lemma AddAsWrittenSplitsHome()
    ensures var c := Config("q", "localhost");
      var ps := PState([], [], [], [Slot("", Entry(map["a" := Num(1)], map["a" := Attr(Undefined, Bool(false))]))], [], map[]);
      var args := map["data" := Obj(map["a" := Num(2)]), "matchEvent" := Str("x")];
      AddOutcome(c, ps, args, 0).thrown.None? && OneHome(AddOutcome(c, ps, args, 0).state) &&
      AddOutcomeAsWritten(c, ps, args, 0).thrown.None? && !OneHome(AddOutcomeAsWritten(c, ps, args, 0).state)
  {
    var c := Config("q", "localhost");
    var l := [Slot("", Entry(map["a" := Num(1)], map["a" := Attr(Undefined, Bool(false))]))];
    var ps := PState([], [], [], l, [], map[]);
    var args := map["data" := Obj(map["a" := Num(2)]), "matchEvent" := Str("x")];
    CounterexampleLoads(c, ps, l);
    CounterexampleArgs(args);
    assert OneHome(LoadAll(c, ps, 0)) by { OneSlotOneHome(ps); }
    AddKeepsOneHome(c, ps, args, 0);
    CounterexampleAsWritten(c, ps, l, args);
  }

  /** Loading the counterexample's stores changes nothing, with either sweep. */
  lemma CounterexampleLoads(c: Config, ps: PState, l: Slots)
    requires l == [Slot("", Entry(map["a" := Num(1)], map["a" := Attr(Undefined, Bool(false))]))]
    requires ps == PState([], [], [], l, [], map[])
    ensures LoadAll(c, ps, 0) == ps && LoadAllAsWritten(c, ps, 0) == ps
  {
    SweepKeepsLasting(l);
  }

  /** The counterexample's arguments: one property "a", stored in the session store. */
  lemma CounterexampleArgs(args: map<string, Value>)
    requires args == map["data" := Obj(map["a" := Num(2)]), "matchEvent" := Str("x")]
    ensures Coerce.ObjectProps(args["data"]) == Some([Coerce.Prop("a", Num(2))])
    ensures Coerce.KeysOfProps([Coerce.Prop("a", Num(2))]) == ["a"]
    ensures StorageForDuration(Get(args, "duration")) == Session
    ensures "data" in args && TypeofObject(Get(args, "data")) && "matchEvent" in args && Get(args, "matchEvent") == Str("x")
  {
    assert Get(args, "duration") == Undefined;
    UndefinedDurationIsSession();
    OneFieldProps("a", Num(2));
  }

  /** A missing duration chooses the session store: parseInt(undefined) is NaN. */
  lemma UndefinedDurationIsSession()
    ensures StorageForDuration(Undefined) == Session
  {
    Coerce.WordIsNotParsable("undefined");
    assert Coerce.ParseInt(Undefined).None?;
  }

  /** addProperties as written on the counterexample: "a" ends in the lasting and the session store. */
  lemma CounterexampleAsWritten(c: Config, ps: PState, l: Slots, args: map<string, Value>)
    requires l == [Slot("", Entry(map["a" := Num(1)], map["a" := Attr(Undefined, Bool(false))]))]
    requires ps == PState([], [], [], l, [], map[])
    requires args == map["data" := Obj(map["a" := Num(2)]), "matchEvent" := Str("x")]
    ensures AddOutcomeAsWritten(c, ps, args, 0).thrown.None? && !OneHome(AddOutcomeAsWritten(c, ps, args, 0).state)
  {
    var props := [Coerce.Prop("a", Num(2))];
    var added := Add([], "x", props, Undefined, Undefined, 0);
    CounterexampleAsWrittenState(c, ps, l, args);
    var i := AddPlaces([], "x", props, Undefined, Undefined, 0);
    assert "a" in PropsMap(props);
    TwoHomes(AddOutcomeAsWritten(c, ps, args, 0).state, i);
  }

  /** The outcome of addProperties as written on the counterexample. */
  lemma CounterexampleAsWrittenState(c: Config, ps: PState, l: Slots, args: map<string, Value>)
    requires l == [Slot("", Entry(map["a" := Num(1)], map["a" := Attr(Undefined, Bool(false))]))]
    requires ps == PState([], [], [], l, [], map[])
    requires args == map["data" := Obj(map["a" := Num(2)]), "matchEvent" := Str("x")]
    ensures var o := AddOutcomeAsWritten(c, ps, args, 0);
      o.thrown.None? && o.state.lasting == l && o.state.session == Add([], "x", [Coerce.Prop("a", Num(2))], Undefined, Undefined, 0)
  {
    CounterexampleLoads(c, ps, l);
    CounterexampleArgs(args);
    CounterexampleNotDeleted(ps, l);
    AddOutcomeAsWrittenSteps(c, ps, args, 0, [Coerce.Prop("a", Num(2))]);
  }

  /** The steps of a successful addProperties as written. */
  lemma AddOutcomeAsWrittenSteps(c: Config, ps: PState, args: map<string, Value>, now: int, props: seq<Coerce.Prop>)
    requires "data" in args && TypeofObject(args["data"]) && "matchEvent" in args && args["matchEvent"].Str?
    requires Coerce.ObjectProps(args["data"]) == Some(props)
    ensures var cleared := DeleteKeysAsWritten(LoadAllAsWritten(c, ps, now), Coerce.KeysOfProps(props));
      var t := StorageForDuration(Get(args, "duration"));
      var added := Add(TierOf(cleared, t), args["matchEvent"].s, props, Get(args, "duration"), Get(args, "renew"), now);
      AddOutcomeAsWritten(c, ps, args, now) == Outcome(SaveAll(c, WithTier(cleared, t, added)), None, map[])
  {
  }

  /** deleteProperties as written leaves the counterexample's stores as they are. */
  lemma CounterexampleNotDeleted(ps: PState, l: Slots)
    requires l == [Slot("", Entry(map["a" := Num(1)], map["a" := Attr(Undefined, Bool(false))]))]
    requires ps == PState([], [], [], l, [], map[])
    ensures DeleteKeysAsWritten(ps, ["a"]) == ps
  {
    assert RemoveAsWritten([], "a", None) == [];
    assert FirstHolder(l, "a") == Some(0);
    assert RemoveAsWritten(l, "a", None) == l;
    assert DeleteEverywhereAsWritten(ps, "a") == ps;
    assert ["a"][..0] == [];
  }

  /** A state whose lasting store holds "a" under "" and whose session store holds it too keeps "a" in two places. */
  lemma TwoHomes(r: PState, i: nat)
    requires r.lasting == [Slot("", Entry(map["a" := Num(1)], map["a" := Attr(Undefined, Bool(false))]))]
    requires i < |r.session| && "a" in r.session[i].entry.data
    ensures !OneHome(r)
  {
    assert "a" in TierOf(r, Lasting)[0].entry.data && "a" in TierOf(r, Session)[i].entry.data;
  }

  /** The lasting store of the counterexample: nothing in it expires or renews. */
  lemma SweepKeepsLasting(l: Slots)
    requires l == [Slot("", Entry(map["a" := Num(1)], map["a" := Attr(Undefined, Bool(false))]))]
    ensures Sweep(l, 0) == l && SweepAsWritten(l, 0) == l
  {
    Storage.OneKeySorted("a");
    assert !Expired(l[0].entry.attrs["a"], 0) && !Renewable(l[0].entry.attrs["a"]);
    assert SweepEntry(l[0].entry, 0) == l[0].entry;
    assert SweepKeyAsWritten(l, 0, "a", 0) == l;
    assert SweepKeysAsWritten(l, 0, ["a"], 0) == l;
    assert SweepFromAsWritten(l, 1, 0) == l;
  }

  /** The properties of a one-field object. */
  lemma OneFieldProps(k: string, v: Value)
    ensures Coerce.ObjectProps(Obj(map[k := v])) == Some([Coerce.Prop(k, v)])
  {
    assert map[k := v].Keys == {k};
    Storage.OneKeySorted(k);
    var ps := Coerce.MapProps(map[k := v]);
    assert |ps| == 1 && ps[0].key == k;
    assert ps == [Coerce.Prop(k, v)];
  }

  /** Stores holding one pattern between them keep every key in one place. */
  lemma OneSlotOneHome(ps: PState)
    requires ps.pageload == [] && ps.session == [] && ps.defer == [] && |ps.lasting| == 1
    ensures OneHome(ps)
  {
  }

  /** Saving and loading again keeps every key in one place: the sweep only removes keys. */
  lemma LoadAfterSaveKeepsOneHome(c: Config, ps: PState, now: int)
    requires OneHome(ps)
    ensures OneHome(LoadAll(c, SaveAll(c, ps), now))
  {
    var r := LoadAll(c, SaveAll(c, ps), now);
    SaveLoadRoundTrip(c, ps, now);
    forall t
      ensures |TierOf(r, t)| == |TierOf(ps, t)|
      ensures forall i :: 0 <= i < |TierOf(ps, t)| ==> TierOf(r, t)[i].entry.data.Keys <= TierOf(ps, t)[i].entry.data.Keys
    {
      SweepShrinks(TierOf(ps, t), now);
    }
    ShrunkOneHome(ps, r);
  }

  /** Stores that only lost keys, slot by slot, still keep every key in one place. */
  lemma ShrunkOneHome(ps: PState, r: PState)
    requires OneHome(ps)
    requires forall t :: |TierOf(r, t)| == |TierOf(ps, t)|
    requires forall t, i :: 0 <= i < |TierOf(ps, t)| ==> TierOf(r, t)[i].entry.data.Keys <= TierOf(ps, t)[i].entry.data.Keys
    ensures OneHome(r)
  {
    forall u, v, i, j, k |
      0 <= i < |TierOf(r, u)| && 0 <= j < |TierOf(r, v)| && (u != v || i != j) && k in TierOf(r, u)[i].entry.data
      ensures k !in TierOf(r, v)[j].entry.data
    {
      assert k in TierOf(ps, u)[i].entry.data;
      assert k !in TierOf(ps, v)[j].entry.data;
    }
  }

  /** The successful addProperties, step by step: load, delete the keys, add to one store, save. */
  lemma AddOutcomeSteps(c: Config, ps: PState, args: map<string, Value>, now: int)
    requires AddOutcome(c, ps, args, now).thrown.None?
    ensures "data" in args && "matchEvent" in args && args["matchEvent"].Str? && Coerce.ObjectProps(args["data"]).Some?
    ensures var props := Coerce.ObjectProps(args["data"]).value;
      var t := StorageForDuration(Get(args, "duration"));
      var cleared := DeleteKeys(LoadAll(c, ps, now), Coerce.KeysOfProps(props));
      AddOutcome(c, ps, args, now).state ==
        SaveAll(c, WithTier(cleared, t, Add(TierOf(cleared, t), args["matchEvent"].s, props, Get(args, "duration"), Get(args, "renew"), now)))
  {
  }

  /**
   * addProperties keeps every key in one place: when the loaded stores hold
   * each key once at most, so do the stores it saves.
   */
  lemma AddKeepsOneHome(c: Config, ps: PState, args: map<string, Value>, now: int)
    requires AddOutcome(c, ps, args, now).thrown.None?
    requires OneHome(LoadAll(c, ps, now))
    ensures OneHome(AddOutcome(c, ps, args, now).state)
  {
    AddOutcomeSteps(c, ps, args, now);
    var props := Coerce.ObjectProps(args["data"]).value;
    var t := StorageForDuration(Get(args, "duration"));
    var loaded := LoadAll(c, ps, now);
    var cleared := DeleteKeys(loaded, Coerce.KeysOfProps(props));
    var base := TierOf(cleared, t);
    var added := Add(base, args["matchEvent"].s, props, Get(args, "duration"), Get(args, "renew"), now);
    PropsMapKeys(props);
    DeleteKeysKeepsOneHome(loaded, Coerce.KeysOfProps(props));
    DeleteKeysClears(loaded, Coerce.KeysOfProps(props));
    assert forall x, k :: k in PropsMap(props).Keys ==> Absent(TierOf(cleared, x), k);
    AddKeepsData(base, args["matchEvent"].s, props, Get(args, "duration"), Get(args, "renew"), now);
    AddedOneHome(cleared, t, base, added, AddIndex(base, args["matchEvent"].s), PropsMap(props).Keys);
    SaveKeepsOneHome(c, WithTier(cleared, t, added));
  }

  lemma SaveKeepsOneHome(c: Config, ps: PState)
    requires OneHome(ps)
    ensures OneHome(SaveAll(c, ps))
  {
    SaveAllKeepsStores(c, ps);
  }

  /** The facts about the store's addProperties that keep every key in one place. */
  predicate AddedBy(cleared: PState, t: Tier, base: Slots, added: Slots, at: nat, ks: set<string>)
  {
    base == TierOf(cleared, t) && at <= |base| && |added| == (if at < |base| then |base| else |base| + 1) &&
    (forall j :: 0 <= j < |base| && j != at ==> added[j] == base[j]) &&
    (at == |base| ==> added[at].entry.data.Keys == ks) &&
    (at < |base| ==> added[at].entry.data.Keys == base[at].entry.data.Keys + ks) &&
    forall x, k :: k in ks ==> Absent(TierOf(cleared, x), k)
  }

  /** Where a key can be held once the properties are added. */
  lemma HeldAfterAdd(cleared: PState, t: Tier, base: Slots, added: Slots, at: nat, ks: set<string>, u: Tier, i: nat, k: string)
    requires AddedBy(cleared, t, base, added, at, ks)
    requires i < |TierOf(WithTier(cleared, t, added), u)| && k in TierOf(WithTier(cleared, t, added), u)[i].entry.data
    ensures (k in ks && u == t && i == at) || (k !in ks && i < |TierOf(cleared, u)| && k in TierOf(cleared, u)[i].entry.data)
  {
    WithTierOthers(cleared, t, added);
    if u == t && i != at {
      assert added[i] == base[i];
    }
  }

  lemma AddedOneHome(cleared: PState, t: Tier, base: Slots, added: Slots, at: nat, ks: set<string>)
    requires AddedBy(cleared, t, base, added, at, ks) && OneHome(cleared)
    ensures OneHome(WithTier(cleared, t, added))
  {
    var r := WithTier(cleared, t, added);
    forall u, v, i, j, k |
      0 <= i < |TierOf(r, u)| && 0 <= j < |TierOf(r, v)| && (u != v || i != j) && k in TierOf(r, u)[i].entry.data
      ensures k !in TierOf(r, v)[j].entry.data
    {
      HeldAfterAdd(cleared, t, base, added, at, ks, u, i, k);
      if k in TierOf(r, v)[j].entry.data {
        HeldAfterAdd(cleared, t, base, added, at, ks, v, j, k);
      }
    }
  }

  /** Where the store's addProperties puts the properties: the pattern's slot, or a new one at the end. */
  function AddIndex(s: Slots, pattern: string): nat
  {
    match Find(s, pattern)
    case Some(j) => j
    case None => |s|
  }

  /** The data keys the store's addProperties leaves under the pattern, and the slots it leaves alone. */
  lemma AddKeepsData(s: Slots, pattern: string, ps: seq<Coerce.Prop>, duration: Value, renew: Value, now: int)
    ensures var at := AddIndex(s, pattern);
      var r := Add(s, pattern, ps, duration, renew, now);
      at <= |s| && |r| == (if at < |s| then |s| else |s| + 1) &&
      (forall j :: 0 <= j < |s| && j != at ==> r[j] == s[j]) &&
      (at == |s| ==> r[at].entry.data.Keys == PropsMap(ps).Keys) &&
      (at < |s| ==> r[at].entry.data.Keys == s[at].entry.data.Keys + PropsMap(ps).Keys)
  {
    var i := AddPlaces(s, pattern, ps, duration, renew, now);
  }

  /** deleteProperties keeps every key in one place. */
  lemma {:induction false} DeleteKeysKeepsOneHome(ps: PState, keys: seq<string>)
    requires OneHome(ps)
    ensures OneHome(DeleteKeys(ps, keys))
    ensures forall t, i, k :: 0 <= i < |TierOf(DeleteKeys(ps, keys), t)| && k in TierOf(DeleteKeys(ps, keys), t)[i].entry.data ==>
      i < |TierOf(ps, t)| && k in TierOf(ps, t)[i].entry.data
    decreases |keys|
  {
    if keys != [] {
      var pre := keys[..|keys| - 1];
      var key := keys[|keys| - 1];
      DeleteKeysKeepsOneHome(ps, pre);
      DeleteKeysClears(ps, pre);
      var mid := DeleteKeys(ps, pre);
      forall t
        ensures TierOf(DeleteKeys(ps, keys), t) == RemoveEverywhere(TierOf(mid, t), key)
      {
      }
      forall t
        ensures forall i, k :: 0 <= i < |TierOf(mid, t)| && k in RemoveEverywhere(TierOf(mid, t), key)[i].entry.data ==>
          k in TierOf(mid, t)[i].entry.data
      {
        RemoveEverywhereClears(TierOf(mid, t), key);
      }
    }
  }

  // ---------------------------------------------------------------------------
  // getProperties.

  /**
   * getProperties with a non-string matchEvent throws and changes nothing;
   * with a string it never throws.
   */
  lemma GetRejects(c: Config, ps: PState, matchEvent: Value, matches: Matcher, now: int)
    ensures GetOutcome(c, ps, matchEvent, matches, now).thrown.Some? <==> !matchEvent.Str?
    ensures !matchEvent.Str? ==> GetOutcome(c, ps, matchEvent, matches, now).state == ps
  {
  }

  /**
   * The result holds the keys of every matching pattern of every store; a
   * plain (non-object) value comes from the last of lasting, session,
   * pageload and defer that holds the key: defer wins over pageload, pageload
   * over session, session over lasting.
   */
  lemma GetLayering(ps: PState, name: string, matches: Matcher, i: nat, k: string)
    requires i < 4
    requires var srcs := [Collect(ps.lasting, name, matches), Collect(ps.session, name, matches),
                          Collect(ps.pageload, name, matches), Collect(ps.defer, name, matches)];
      k in srcs[i] && !srcs[i][k].Obj? && forall j :: i < j < 4 ==> k !in srcs[j]
    ensures k in Layered(ps, name, matches)
    ensures Layered(ps, name, matches)[k] == [Collect(ps.lasting, name, matches), Collect(ps.session, name, matches),
                          Collect(ps.pageload, name, matches), Collect(ps.defer, name, matches)][i][k]
  {
    var maps := [Collect(ps.lasting, name, matches), Collect(ps.session, name, matches),
                 Collect(ps.pageload, name, matches), Collect(ps.defer, name, matches)];
    var srcs := [Obj(maps[0]), Obj(maps[1]), Obj(maps[2]), Obj(maps[3])];
    assert forall j :: 0 <= j < 4 ==> srcs[j] == Obj(maps[j]);
    MergeLeafFromLastHolder(srcs, i, k);
  }

  /** The result's keys are the keys of the four stores' matches. */
  lemma GetKeys(ps: PState, name: string, matches: Matcher)
    ensures Layered(ps, name, matches).Keys ==
      Collect(ps.lasting, name, matches).Keys + Collect(ps.session, name, matches).Keys +
      Collect(ps.pageload, name, matches).Keys + Collect(ps.defer, name, matches).Keys
  {
    var srcs := [Obj(Collect(ps.lasting, name, matches)), Obj(Collect(ps.session, name, matches)),
                 Obj(Collect(ps.pageload, name, matches)), Obj(Collect(ps.defer, name, matches))];
    MergeObjKeys(srcs);
    assert srcs[..3] == [srcs[0], srcs[1], srcs[2]];
    assert srcs[..3][..2] == [srcs[0], srcs[1]];
    assert srcs[..3][..2][..1] == [srcs[0]];
    assert srcs[..3][..2][..1][..0] == [];
    assert KeysOf([srcs[0]]) == srcs[0].fields.Keys;
    assert KeysOf([srcs[0], srcs[1]]) == srcs[0].fields.Keys + srcs[1].fields.Keys;
    assert KeysOf([srcs[0], srcs[1], srcs[2]]) == srcs[0].fields.Keys + srcs[1].fields.Keys + srcs[2].fields.Keys;
  }

  // ---------------------------------------------------------------------------
  // Saving and loading.

  lemma CookieNamesDistinct(c: Config)
    ensures LastingCookie(c) != SessionCookie(c) && LastingCookie(c) != DeferCookie(c) && SessionCookie(c) != DeferCookie(c)
  {
    var p := StorePostFix(c);
    assert LastingCookie(c)[|p| + 1] == 'l';
    assert SessionCookie(c)[|p| + 1] == 's';
    assert DeferCookie(c)[|p| + 1] == 'd';
  }

  /**
   * saveStores followed by loadStores gives every store back as it was,
   * swept of what has expired since: the cookies and the memory backend hold
   * exactly what the stores held.
   */
  lemma SaveLoadRoundTrip(c: Config, ps: PState, now: int)
    ensures var r := LoadAll(c, SaveAll(c, ps), now);
      r.lasting == Sweep(ps.lasting, now) && r.session == Sweep(ps.session, now) &&
      r.pageload == Sweep(ps.pageload, now) && r.defer == Sweep(ps.defer, now) &&
      r.jar == SaveAll(c, ps).jar && r.backend == ps.pageload
  {
    CookieNamesDistinct(c);
  }

  /** The sweep only removes keys. */
  lemma SweepShrinks(s: Slots, now: int)
    ensures forall i :: 0 <= i < |s| ==> Sweep(s, now)[i].entry.data.Keys <= s[i].entry.data.Keys
    ensures forall i :: 0 <= i < |s| ==> Sweep(s, now)[i].pattern == s[i].pattern
  {
  }

  /**
   * Deferred properties are handed out once: after getProperties for an
   * event name, loading again (at any later time) finds nothing in the defer
   * store for that name.
   */
  lemma DeferHandedOutOnce(c: Config, ps: PState, name: string, matches: Matcher, now: int, later: int)
    ensures var after := GetOutcome(c, ps, Str(name), matches, now).state;
      Collect(LoadAll(c, after, later).defer, name, matches) == map[]
  {
    var loaded := LoadAll(c, ps, now);
    var consumed := loaded.(defer := Consume(loaded.defer, name, matches));
    var after := GetOutcome(c, ps, Str(name), matches, now).state;
    assert after == SaveAll(c, consumed);
    SaveLoadRoundTrip(c, consumed, later);
    var d := Consume(loaded.defer, name, matches);
    SweepShrinks(d, later);
    CollectOfEmptyMatches(Sweep(d, later), name, matches);
  }
}
