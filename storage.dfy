/**
 * The contents of one persist store (`DEQPersistStore.storage`,
 * src/PersistInterface.js:112-248) and what the store's operations do to
 * them, as functions on values. The class `Stores.PersistStore` runs the
 * source's loops and is proved to compute these functions.
 *
 * A store maps each pattern (a `matchEvent`) to `{data, dataAttributes}`.
 * The patterns are kept in insertion order. `Object.keys(this.storage)`
 * visits them in that order, except that it lists integer-like patterns
 * (such as "7") first; the model does not give them that place (see
 * `CollectSingleHolderValue` for why it makes no difference while every key
 * has one holder).
 */
module Storage {
  import opened Values
  import Coerce
  import Keys

  /** The `dataAttributes` entry of one key. */
  datatype Attr = Attr(expiry: Value, renew: Value)

  /** `{data, dataAttributes}` stored under one pattern. */
  datatype Entry = Entry(data: map<string, Value>, attrs: map<string, Attr>)

  datatype Slot = Slot(pattern: string, entry: Entry)

  type Slots = seq<Slot>

  /** `name.match(new RegExp("^" + pattern + "$", "i"))`, as a parameter: (pattern, name). */
  type Matcher = (string, string) -> bool

  const EmptyEntry := Entry(map[], map[])

  /** No pattern appears twice, as in a JavaScript object. */
  predicate UniquePatterns(s: Slots)
  {
    forall i, j :: 0 <= i < j < |s| ==> s[i].pattern != s[j].pattern
  }

  /** `storage[pattern]`: the index of `pattern`, if present. */
  function Find(s: Slots, pattern: string): (r: Option<nat>)
    ensures r.Some? ==> r.value < |s| && s[r.value].pattern == pattern
    ensures r.Some? ==> forall j :: 0 <= j < r.value ==> s[j].pattern != pattern
    ensures r.None? ==> forall j :: 0 <= j < |s| ==> s[j].pattern != pattern
    decreases |s|
  {
    if s == [] then None
    else if s[0].pattern == pattern then Some(0)
    else match Find(s[1..], pattern)
      case None => None
      case Some(i) => Some(i + 1)
  }

  // ---------------------------------------------------------------------------
  // Expiry (determineExpiry, checkAndUpdateExpiryAttributes).

  /**
   * determineExpiry: a truthy numeric duration (in seconds) gives the
   * timestamp `now + 1000 * parseInt(duration)`; a truthy non-numeric duration
   * (such as "SESSION") is kept as it is; a falsy duration is returned as it
   * is. When parseInt fails on a numeric duration (`true`, `[]`), the source
   * computes NaN; the model writes null, which behaves the same way in every
   * later test (never expired, never renewed by itself).
   */
  function DetermineExpiry(duration: Value, now: int): Value
  {
    if Truthy(duration) then
      if Coerce.IsNaN(duration) then duration
      else match Coerce.ParseInt(duration)
        case None => Null
        case Some(secs) => Num(now + 1000 * secs)
    else duration
  }

  /** `!isNaN(expiry) && parseInt(expiry) < now`. */
  predicate Expired(a: Attr, now: int)
  {
    !Coerce.IsNaN(a.expiry) && Coerce.ParseInt(a.expiry).Some? && Coerce.ParseInt(a.expiry).value < now
  }

  /** `renew && !isNaN(renew)`. */
  predicate Renewable(a: Attr)
  {
    Truthy(a.renew) && !Coerce.IsNaN(a.renew)
  }

  /** An attribute that survives the sweep: its expiry pushed forward when it renews. */
  function Renewed(a: Attr, now: int): Attr
  {
    if Renewable(a) then a.(expiry := DetermineExpiry(a.renew, now)) else a
  }

  /** The sweep of one pattern's entry: expired keys go, the others are renewed. */
  function SweepEntry(e: Entry, now: int): Entry
  {
    Entry(
      map k | k in e.data && !(k in e.attrs && Expired(e.attrs[k], now)) :: e.data[k],
      map k | k in e.attrs && !Expired(e.attrs[k], now) :: Renewed(e.attrs[k], now))
  }

  /** checkAndUpdateExpiryAttributes on a whole store. */
  function Sweep(s: Slots, now: int): (r: Slots)
    ensures |r| == |s|
  {
    seq(|s|, i requires 0 <= i < |s| => Slot(s[i].pattern, SweepEntry(s[i].entry, now)))
  }

  // ---------------------------------------------------------------------------
  // Removal (findEventMatchForKey, remove).

  /** `delete data[key]; delete dataAttributes[key]`. */
  function DeleteKey(e: Entry, key: string): Entry
  {
    Entry(e.data - {key}, e.attrs - {key})
  }

  function RemoveAt(s: Slots, i: nat, key: string): (r: Slots)
    requires i < |s|
    ensures |r| == |s|
  {
    s[i := Slot(s[i].pattern, DeleteKey(s[i].entry, key))]
  }

  /** findEventMatchForKey: the first pattern whose data holds `key`. */
  function FirstHolder(s: Slots, key: string): (r: Option<nat>)
    ensures r.Some? ==> r.value < |s| && key in s[r.value].entry.data
    ensures r.Some? ==> forall j :: 0 <= j < r.value ==> key !in s[j].entry.data
    ensures r.None? ==> forall j :: 0 <= j < |s| ==> key !in s[j].entry.data
    decreases |s|
  {
    if s == [] then None
    else if key in s[0].entry.data then Some(0)
    else match FirstHolder(s[1..], key)
      case None => None
      case Some(i) => Some(i + 1)
  }

  /** How many patterns hold `key` in their data. */
  function Holders(s: Slots, key: string): nat
    decreases |s|
  {
    if s == [] then 0 else (if key in s[0].entry.data then 1 else 0) + Holders(s[1..], key)
  }

  /** `key` is deleted from every pattern that holds it. */
  function RemoveEverywhere(s: Slots, key: string): (r: Slots)
    ensures |r| == |s|
  {
    seq(|s|, i requires 0 <= i < |s| =>
      if key in s[i].entry.data then Slot(s[i].pattern, DeleteKey(s[i].entry, key)) else s[i])
  }

  /**
   * remove(key, specificEventMatch) as intended: with a pattern, delete `key`
   * under that pattern; without one, delete it under every pattern holding
   * it. A given pattern must be in the store (the source would throw a
   * TypeError otherwise; its callers only pass patterns they just read).
   */
  function Remove(s: Slots, key: string, specific: Option<string>): (r: Slots)
    requires specific.Some? ==> Find(s, specific.value).Some?
    ensures |r| == |s|
  {
    if specific.Some? then RemoveAt(s, Find(s, specific.value).value, key) else RemoveEverywhere(s, key)
  }

  /**
   * remove(key, specificEventMatch) as written: both the pattern argument and
   * the pattern returned by findEventMatchForKey are checked for truthiness,
   * so the pattern "" counts as no pattern at all.
   */
  function RemoveAsWritten(s: Slots, key: string, specific: Option<string>): (r: Slots)
    requires specific.Some? ==> Find(s, specific.value).Some?
    ensures |r| == |s| && forall j :: 0 <= j < |s| ==> r[j].pattern == s[j].pattern
  {
    if specific.Some? && specific.value != "" then RemoveAt(s, Find(s, specific.value).value, key)
    else RemoveHoldersAsWritten(s, key)
  }

  /** The while loop of remove without a pattern, as written: it stops at a holder named "". */
  function RemoveHoldersAsWritten(s: Slots, key: string): (r: Slots)
    ensures |r| == |s| && forall j :: 0 <= j < |s| ==> r[j].pattern == s[j].pattern
    decreases Holders(s, key)
  {
    match FirstHolder(s, key)
    case None => s
    case Some(i) =>
      if s[i].pattern == "" then s
      else
        HoldersAfterRemoveAt(s, i, key);
        RemoveHoldersAsWritten(RemoveAt(s, i, key), key)
  }

  // ---------------------------------------------------------------------------
  // The sweep and the defer consumption as written: both call remove(key,
  // pattern), whose truthiness test treats the pattern "" as no pattern.

  /** One step of checkAndUpdateExpiryAttributes as written: key `k` under the `i`-th pattern. */
  function SweepKeyAsWritten(s: Slots, i: nat, k: string, now: int): (r: Slots)
    requires i < |s|
    ensures |r| == |s| && forall j :: 0 <= j < |s| ==> r[j].pattern == s[j].pattern
  {
    if k !in s[i].entry.attrs then s
    else
      var a := s[i].entry.attrs[k];
      if Expired(a, now) then RemoveAsWritten(s, k, Some(s[i].pattern))
      else if Renewable(a) then s[i := Slot(s[i].pattern, Entry(s[i].entry.data, s[i].entry.attrs[k := Renewed(a, now)]))]
      else s
  }

  /** The inner loop as written, over the keys of the `i`-th pattern's attributes. */
  function SweepKeysAsWritten(s: Slots, i: nat, keys: seq<string>, now: int): (r: Slots)
    requires i < |s|
    ensures |r| == |s| && forall j :: 0 <= j < |s| ==> r[j].pattern == s[j].pattern
    decreases |keys|
  {
    if keys == [] then s else SweepKeysAsWritten(SweepKeyAsWritten(s, i, keys[0], now), i, keys[1..], now)
  }

  /** The outer loop as written, from the `i`-th pattern on. */
  function SweepFromAsWritten(s: Slots, i: nat, now: int): (r: Slots)
    ensures |r| == |s|
    decreases |s| - i
  {
    if i >= |s| then s
    else SweepFromAsWritten(SweepKeysAsWritten(s, i, Keys.Sorted(s[i].entry.attrs.Keys), now), i + 1, now)
  }

  /** checkAndUpdateExpiryAttributes as written. */
  function SweepAsWritten(s: Slots, now: int): (r: Slots)
    ensures |r| == |s|
  {
    SweepFromAsWritten(s, 0, now)
  }

  /** The deletions of DeferStore.getProperties as written, for the keys of the `i`-th pattern. */
  function ConsumeKeysAsWritten(s: Slots, i: nat, keys: seq<string>): (r: Slots)
    requires i < |s|
    ensures |r| == |s| && forall j :: 0 <= j < |s| ==> r[j].pattern == s[j].pattern
    decreases |keys|
  {
    if keys == [] then s else ConsumeKeysAsWritten(RemoveAsWritten(s, keys[0], Some(s[i].pattern)), i, keys[1..])
  }

  /** DeferStore.getProperties' loop over the patterns as written, from the `i`-th on. */
  function ConsumeFromAsWritten(s: Slots, i: nat, name: string, matches: Matcher): (r: Slots)
    ensures |r| == |s|
    decreases |s| - i
  {
    if i >= |s| then s
    else
      var s' := if matches(s[i].pattern, name) then ConsumeKeysAsWritten(s, i, Keys.Sorted(s[i].entry.data.Keys)) else s;
      ConsumeFromAsWritten(s', i + 1, name, matches)
  }

  /** The deletions of DeferStore.getProperties as written. */
  function ConsumeAsWritten(s: Slots, name: string, matches: Matcher): (r: Slots)
    ensures |r| == |s|
  {
    ConsumeFromAsWritten(s, 0, name, matches)
  }

  // ---------------------------------------------------------------------------
  // Adding (addProperties).

  /** The properties written by `for (key of Object.keys(data)) data[key] = ...`: a later duplicate wins. */
  function PropsMap(ps: seq<Coerce.Prop>): map<string, Value>
    decreases |ps|
  {
    if ps == [] then map[] else PropsMap(ps[..|ps| - 1])[ps[|ps| - 1].key := ps[|ps| - 1].val]
  }

  /** `renew && !isNaN(duration) ? duration : false`. */
  function RenewValue(duration: Value, renew: Value): Value
  {
    if Truthy(renew) && !Coerce.IsNaN(duration) then duration else Bool(false)
  }

  /** The attribute addProperties stores with every key. */
  function NewAttr(duration: Value, renew: Value, now: int): Attr
  {
    Attr(DetermineExpiry(duration, now), RenewValue(duration, renew))
  }

  /** The same attribute for every key of `keys`. */
  function SameAttr(keys: set<string>, a: Attr): map<string, Attr>
  {
    map k | k in keys :: a
  }

  function AddToEntry(e: Entry, ps: seq<Coerce.Prop>, duration: Value, renew: Value, now: int): Entry
  {
    Entry(e.data + PropsMap(ps), e.attrs + SameAttr(PropsMap(ps).Keys, NewAttr(duration, renew, now)))
  }

  /** The store's addProperties: the entry under `pattern` (created at the end if new) gets every property. */
  function Add(s: Slots, pattern: string, ps: seq<Coerce.Prop>, duration: Value, renew: Value, now: int): (r: Slots)
    ensures |r| == |s| || |r| == |s| + 1
  {
    match Find(s, pattern)
    case Some(i) => s[i := Slot(pattern, AddToEntry(s[i].entry, ps, duration, renew, now))]
    case None => s + [Slot(pattern, AddToEntry(EmptyEntry, ps, duration, renew, now))]
  }

  // ---------------------------------------------------------------------------
  // Reading (getProperties, DeferStore.getProperties).

  /** getProperties: `result = mergeObj(result, data)` for every matching pattern, in order. */
  function Collect(s: Slots, name: string, matches: Matcher): map<string, Value>
    decreases |s|
  {
    if s == [] then map[]
    else
      var r := Collect(s[..|s| - 1], name, matches);
      var last := s[|s| - 1];
      if matches(last.pattern, name) then MergeObj([Obj(r), Obj(last.entry.data)]) else r
  }

  /** The deletions of DeferStore.getProperties: each matching pattern loses every key of its data. */
  function Consume(s: Slots, name: string, matches: Matcher): (r: Slots)
    ensures |r| == |s|
  {
    seq(|s|, i requires 0 <= i < |s| =>
      if matches(s[i].pattern, name)
      then Slot(s[i].pattern, Entry(map[], s[i].entry.attrs - s[i].entry.data.Keys))
      else s[i])
  }

  // ---------------------------------------------------------------------------
  // Invariants.

  /** Every key is held by at most one pattern. */
  predicate SingleHolder(s: Slots)
  {
    forall i, j, k :: 0 <= i < |s| && 0 <= j < |s| && i != j && k in s[i].entry.data ==> k !in s[j].entry.data
  }

  /** Data keys and attribute keys agree under every pattern. */
  predicate AttrsMatchData(s: Slots)
  {
    forall i :: 0 <= i < |s| ==> s[i].entry.data.Keys == s[i].entry.attrs.Keys
  }

  // ---------------------------------------------------------------------------
  // Lemmas: removal.

  lemma {:induction false} HoldersAfterRemoveAt(s: Slots, i: nat, key: string)
    requires i < |s| && key in s[i].entry.data
    ensures Holders(RemoveAt(s, i, key), key) == Holders(s, key) - 1
    decreases |s|
  {
    if i > 0 {
      HoldersAfterRemoveAt(s[1..], i - 1, key);
      assert RemoveAt(s, i, key)[1..] == RemoveAt(s[1..], i - 1, key);
    } else {
      assert RemoveAt(s, i, key)[1..] == s[1..];
    }
  }

  lemma {:induction false} NoHolders(s: Slots, key: string)
    requires forall j :: 0 <= j < |s| ==> key !in s[j].entry.data
    ensures Holders(s, key) == 0
    decreases |s|
  {
    if s != [] {
      NoHolders(s[1..], key);
    }
  }

  /**
   * remove(key) without a pattern deletes `key` from the data and attributes
   * of every pattern that held it, and changes nothing else.
   */
  lemma RemoveEverywhereClears(s: Slots, key: string)
    ensures forall i :: 0 <= i < |s| ==> RemoveEverywhere(s, key)[i].pattern == s[i].pattern
    ensures forall i :: 0 <= i < |s| ==> key !in RemoveEverywhere(s, key)[i].entry.data
    ensures forall i :: 0 <= i < |s| && key in s[i].entry.data ==> key !in RemoveEverywhere(s, key)[i].entry.attrs
    ensures forall i, k :: 0 <= i < |s| && k != key ==>
      (k in RemoveEverywhere(s, key)[i].entry.data <==> k in s[i].entry.data) &&
      (k in s[i].entry.data ==> RemoveEverywhere(s, key)[i].entry.data[k] == s[i].entry.data[k]) &&
      (k in RemoveEverywhere(s, key)[i].entry.attrs <==> k in s[i].entry.attrs)
  {
  }

  /** Given a pattern, remove touches that pattern only. */
  lemma RemoveAtTouchesOnePattern(s: Slots, i: nat, key: string)
    requires i < |s|
    ensures key !in RemoveAt(s, i, key)[i].entry.data && key !in RemoveAt(s, i, key)[i].entry.attrs
    ensures forall j :: 0 <= j < |s| && j != i ==> RemoveAt(s, i, key)[j] == s[j]
  {
  }

  /** When no holder is named "", the source's loop removes `key` from every holder, as intended. */
  lemma {:induction false} RemoveAsWrittenAgrees(s: Slots, key: string)
    requires forall j :: 0 <= j < |s| && key in s[j].entry.data ==> s[j].pattern != ""
    ensures RemoveHoldersAsWritten(s, key) == RemoveEverywhere(s, key)
    decreases Holders(s, key)
  {
    match FirstHolder(s, key)
    case None =>
      assert RemoveEverywhere(s, key) == s;
    case Some(i) =>
      HoldersAfterRemoveAt(s, i, key);
      var s' := RemoveAt(s, i, key);
      RemoveAsWrittenAgrees(s', key);
      assert RemoveEverywhere(s', key) == RemoveEverywhere(s, key);
  }

  /** The counterexample: a key stored under the pattern "" survives remove(key). */
  lemma RemoveAsWrittenMissesEmptyPattern()
    ensures var s := [Slot("", Entry(map["a" := Num(1)], map["a" := Attr(Undefined, Bool(false))]))];
      RemoveAsWritten(s, "a", None) == s && "a" in RemoveAsWritten(s, "a", None)[0].entry.data &&
      "a" !in Remove(s, "a", None)[0].entry.data
  {
    var s := [Slot("", Entry(map["a" := Num(1)], map["a" := Attr(Undefined, Bool(false))]))];
    assert FirstHolder(s, "a") == Some(0);
  }

  /**
   * The counterexample for the sweep: a key stored under the pattern "" whose
   * expiry has passed survives checkAndUpdateExpiryAttributes as written,
   * while the corrected sweep drops it.
   */
  lemma SweepAsWrittenKeepsExpiredKey()
    ensures var s := [Slot("", Entry(map["a" := Num(1)], map["a" := Attr(Num(0), Bool(false))]))];
      Expired(s[0].entry.attrs["a"], 1) &&
      "a" in SweepAsWritten(s, 1)[0].entry.data && "a" !in Sweep(s, 1)[0].entry.data
  {
    var s := [Slot("", Entry(map["a" := Num(1)], map["a" := Attr(Num(0), Bool(false))]))];
    OneKeySorted("a");
    assert Expired(s[0].entry.attrs["a"], 1);
    RemoveAsWrittenIgnoresEmptySpecificPattern();
    assert SweepKeyAsWritten(s, 0, "a", 1) == s;
    assert SweepKeysAsWritten(s, 0, ["a"], 1) == s;
    assert SweepFromAsWritten(s, 1, 1) == s;
  }

  /**
   * The counterexample for the defer store: data deferred under the pattern
   * "" is not removed when it is handed out, so every later lookup of the
   * event name "" gets it again; the corrected consumption empties it.
   */
  lemma DeferAsWrittenHandsOutAgain(matches: Matcher)
    requires matches("", "")
    ensures var s := [Slot("", Entry(map["a" := Num(1)], map[]))];
      ConsumeAsWritten(s, "", matches) == s && "a" in Collect(ConsumeAsWritten(s, "", matches), "", matches) &&
      Collect(Consume(s, "", matches), "", matches) == map[]
  {
    var s := [Slot("", Entry(map["a" := Num(1)], map[]))];
    OneKeySorted("a");
    assert FirstHolder(s, "a") == Some(0);
    assert Find(s, "") == Some(0);
    assert RemoveAsWritten(s, "a", Some("")) == s;
    assert ConsumeKeysAsWritten(s, 0, ["a"]) == s;
    assert ConsumeFromAsWritten(s, 1, "", matches) == s;
    CollectKeys(s, "", matches);
    DeferOneShot(s, "", matches);
  }

  /** The keys of a one-key map, in order. */
  lemma OneKeySorted(k: string)
    ensures Keys.Sorted({k}) == [k]
  {
    var ks := Keys.Sorted({k});
    assert ks[0] in {k};
  }

  /** The same with the pattern given: the sweep and the defer store pass "" and remove nothing. */
  lemma RemoveAsWrittenIgnoresEmptySpecificPattern()
    ensures var s := [Slot("", Entry(map["a" := Num(1)], map["a" := Attr(Num(0), Bool(false))]))];
      RemoveAsWritten(s, "a", Some("")) == s && Remove(s, "a", Some(""))[0].entry.data == map[]
  {
    var s := [Slot("", Entry(map["a" := Num(1)], map["a" := Attr(Num(0), Bool(false))]))];
    assert FirstHolder(s, "a") == Some(0);
    assert Find(s, "") == Some(0);
  }

  // ---------------------------------------------------------------------------
  // Lemmas: adding.

  lemma {:induction false} PropsMapKeys(ps: seq<Coerce.Prop>)
    ensures forall k :: k in PropsMap(ps) <==> k in Coerce.KeysOfProps(ps)
    decreases |ps|
  {
    if ps != [] {
      PropsMapKeys(ps[..|ps| - 1]);
      assert Coerce.KeysOfProps(ps) == Coerce.KeysOfProps(ps[..|ps| - 1]) + [ps[|ps| - 1].key];
    }
  }

  /** A property whose key no later property repeats is written with its own value. */
  lemma {:induction false} PropsMapValue(ps: seq<Coerce.Prop>, i: nat)
    requires i < |ps| && forall j :: i < j < |ps| ==> ps[j].key != ps[i].key
    ensures ps[i].key in PropsMap(ps) && PropsMap(ps)[ps[i].key] == ps[i].val
    decreases |ps|
  {
    if i < |ps| - 1 {
      PropsMapValue(ps[..|ps| - 1], i);
    }
  }

  /** Writing the properties of a map, one by one, writes that map. */
  lemma PropsMapOfMap(m: map<string, Value>)
    ensures PropsMap(Coerce.MapProps(m)) == m
  {
    var ps := Coerce.MapProps(m);
    PropsMapKeys(ps);
    forall k | k in PropsMap(ps)
      ensures k in m
    {
      assert k in Coerce.KeysOfProps(ps);
    }
    forall k | k in m
      ensures k in PropsMap(ps) && PropsMap(ps)[k] == m[k]
    {
      PropsMapOfMapAt(m, k);
    }
  }

  lemma PropsMapOfMapAt(m: map<string, Value>, k: string)
    requires k in m
    ensures k in PropsMap(Coerce.MapProps(m)) && PropsMap(Coerce.MapProps(m))[k] == m[k]
  {
    var ps := Coerce.MapProps(m);
    var ks := Coerce.KeysOfProps(ps);
    assert k in ks;
    var i :| 0 <= i < |ks| && ks[i] == k;
    PropsMapValue(ps, i);
  }

  /**
   * After the store's addProperties, the pattern holds every added key with
   * its value, an expiry from determineExpiry and the renew rule; every other
   * pattern is untouched, and patterns stay unique.
   */
  lemma AddPlaces(s: Slots, pattern: string, ps: seq<Coerce.Prop>, duration: Value, renew: Value, now: int)
    returns (i: nat)
    ensures i < |Add(s, pattern, ps, duration, renew, now)|
    ensures Add(s, pattern, ps, duration, renew, now)[i].pattern == pattern
    ensures forall k :: k in PropsMap(ps) ==>
      k in Add(s, pattern, ps, duration, renew, now)[i].entry.data &&
      Add(s, pattern, ps, duration, renew, now)[i].entry.data[k] == PropsMap(ps)[k] &&
      k in Add(s, pattern, ps, duration, renew, now)[i].entry.attrs &&
      Add(s, pattern, ps, duration, renew, now)[i].entry.attrs[k] == Attr(DetermineExpiry(duration, now), RenewValue(duration, renew))
    ensures forall j :: 0 <= j < |s| && j != i ==> Add(s, pattern, ps, duration, renew, now)[j] == s[j]
    ensures UniquePatterns(s) ==> UniquePatterns(Add(s, pattern, ps, duration, renew, now))
  {
    match Find(s, pattern)
    case Some(j) => i := j;
    case None => i := |s|;
  }

  /** The renew rule: a truthy `renew` keeps a numeric duration, anything else stores `false`. */
  lemma RenewRule(duration: Value, renew: Value)
    ensures Truthy(renew) && !Coerce.IsNaN(duration) ==> RenewValue(duration, renew) == duration
    ensures !Truthy(renew) || Coerce.IsNaN(duration) ==> RenewValue(duration, renew) == Bool(false)
    ensures !Renewable(Attr(Undefined, RenewValue(duration, renew))) ==> !Truthy(renew) || Coerce.IsNaN(duration) || !Truthy(duration)
  {
  }

  // ---------------------------------------------------------------------------
  // Lemmas: expiry.

  /** A non-numeric expiry ("SESSION", undefined, a word) never expires. */
  lemma NonNumericNeverExpires(a: Attr, now: int)
    requires Coerce.IsNaN(a.expiry)
    ensures !Expired(a, now)
  {
  }

  /** Once expired, always expired. */
  lemma ExpiredStaysExpired(a: Attr, now: int, later: int)
    requires Expired(a, now) && now <= later
    ensures Expired(a, later)
  {
  }

  /** A numeric duration gives an expiry `1000 * duration` milliseconds after now, which has not yet passed. */
  lemma NumericDurationExpiry(secs: int, now: int)
    requires secs != 0
    ensures DetermineExpiry(Num(secs), now) == Num(now + 1000 * secs)
    ensures secs > 0 ==> !Expired(Attr(DetermineExpiry(Num(secs), now), Undefined), now)
    ensures Expired(Attr(DetermineExpiry(Num(secs), now), Undefined), now + 1000 * secs + 1)
  {
  }

  /**
   * The sweep: an expired key disappears from the data and the attributes of
   * its pattern; any other key stays with its value, its attribute renewed
   * (sliding expiry) when renew is numeric.
   */
  lemma SweepEffect(s: Slots, now: int, i: nat, k: string)
    requires i < |s| && k in s[i].entry.attrs
    ensures Sweep(s, now)[i].pattern == s[i].pattern
    ensures Expired(s[i].entry.attrs[k], now) ==>
      k !in Sweep(s, now)[i].entry.data && k !in Sweep(s, now)[i].entry.attrs
    ensures !Expired(s[i].entry.attrs[k], now) ==>
      k in Sweep(s, now)[i].entry.attrs && Sweep(s, now)[i].entry.attrs[k] == Renewed(s[i].entry.attrs[k], now) &&
      (k in s[i].entry.data ==> k in Sweep(s, now)[i].entry.data && Sweep(s, now)[i].entry.data[k] == s[i].entry.data[k])
  {
  }

  /** A renewed attribute with a positive numeric renew does not expire at the time of renewal. */
  lemma RenewedIsFresh(a: Attr, now: int)
    requires a.renew.Num? && a.renew.n > 0
    ensures Renewable(a)
    ensures Renewed(a, now).expiry == Num(now + 1000 * a.renew.n)
    ensures !Expired(Renewed(a, now), now)
  {
  }

  // ---------------------------------------------------------------------------
  // Lemmas: reading and consuming.

  /** The keys getProperties returns are exactly the data keys of the matching patterns. */
  lemma {:induction false} CollectKeys(s: Slots, name: string, matches: Matcher)
    ensures forall k :: k in Collect(s, name, matches) <==>
      exists i :: 0 <= i < |s| && matches(s[i].pattern, name) && k in s[i].entry.data
    decreases |s|
  {
    if s != [] {
      var pre := s[..|s| - 1];
      var last := s[|s| - 1];
      CollectKeys(pre, name, matches);
      var r := Collect(pre, name, matches);
      if matches(last.pattern, name) {
        MergeObjKeys([Obj(r), Obj(last.entry.data)]);
        assert [Obj(r), Obj(last.entry.data)][..1] == [Obj(r)];
        assert [Obj(r)][..0] == [];
        assert KeysOf([Obj(r)]) == r.Keys;
        assert Collect(s, name, matches).Keys == r.Keys + last.entry.data.Keys;
      } else {
        assert Collect(s, name, matches) == r;
      }
      forall k | k in Collect(s, name, matches)
        ensures exists i :: 0 <= i < |s| && matches(s[i].pattern, name) && k in s[i].entry.data
      {
        if k in r {
          var i :| 0 <= i < |pre| && matches(pre[i].pattern, name) && k in pre[i].entry.data;
          assert s[i] == pre[i];
        } else {
          assert matches(s[|s| - 1].pattern, name) && k in s[|s| - 1].entry.data;
        }
      }
      forall k | exists i :: 0 <= i < |s| && matches(s[i].pattern, name) && k in s[i].entry.data
        ensures k in Collect(s, name, matches)
      {
        var i :| 0 <= i < |s| && matches(s[i].pattern, name) && k in s[i].entry.data;
        if i < |s| - 1 {
          assert pre[i] == s[i];
        }
      }
    }
  }

  /** Nothing matches in a store whose matching patterns are all empty. */
  lemma {:induction false} CollectOfEmptyMatches(s: Slots, name: string, matches: Matcher)
    requires forall i :: 0 <= i < |s| && matches(s[i].pattern, name) ==> s[i].entry.data == map[]
    ensures Collect(s, name, matches) == map[]
    decreases |s|
  {
    if s != [] {
      CollectOfEmptyMatches(s[..|s| - 1], name, matches);
      var last := s[|s| - 1];
      if matches(last.pattern, name) {
        MergePairIsMergeFields(Obj(map[]), Obj(map[]));
      }
    }
  }

  /**
   * With every key under one pattern, getProperties returns each matching
   * key's stored value; the order in which the patterns are visited then
   * makes no difference to the result.
   */
  lemma {:induction false} CollectSingleHolderValue(s: Slots, name: string, matches: Matcher, i: nat, k: string)
    requires SingleHolder(s)
    requires i < |s| && matches(s[i].pattern, name) && k in s[i].entry.data
    ensures k in Collect(s, name, matches) && Collect(s, name, matches)[k] == s[i].entry.data[k]
    decreases |s|
  {
    var pre := s[..|s| - 1];
    var last := s[|s| - 1];
    var r := Collect(pre, name, matches);
    assert forall j :: 0 <= j < |pre| ==> pre[j] == s[j];
    if i == |s| - 1 {
      CollectKeys(pre, name, matches);
      assert k !in r;
      MergePairIsMergeFields(Obj(r), Obj(last.entry.data));
      DeepCopyIsIdentity(last.entry.data[k]);
    } else {
      CollectSingleHolderValue(pre, name, matches, i, k);
      if matches(last.pattern, name) {
        assert k !in last.entry.data;
        MergePairIsMergeFields(Obj(r), Obj(last.entry.data));
      }
    }
  }

  /** The defer store is one-shot: asking again for the same event returns `{}`. */
  lemma DeferOneShot(s: Slots, name: string, matches: Matcher)
    ensures Collect(Consume(s, name, matches), name, matches) == map[]
  {
    CollectOfEmptyMatches(Consume(s, name, matches), name, matches);
  }

  /** Consuming leaves the patterns that do not match exactly as they were. */
  lemma ConsumeKeepsOthers(s: Slots, name: string, matches: Matcher)
    ensures forall i :: 0 <= i < |s| && !matches(s[i].pattern, name) ==> Consume(s, name, matches)[i] == s[i]
    ensures forall i :: 0 <= i < |s| ==> Consume(s, name, matches)[i].pattern == s[i].pattern
  {
  }

  // ---------------------------------------------------------------------------
  // Lemmas: at most one holder per key.

  lemma RemoveEverywhereSingleHolder(s: Slots, key: string)
    requires SingleHolder(s)
    ensures SingleHolder(RemoveEverywhere(s, key))
  {
  }

  lemma SweepSingleHolder(s: Slots, now: int)
    requires SingleHolder(s)
    ensures SingleHolder(Sweep(s, now))
  {
  }

  lemma ConsumeSingleHolder(s: Slots, name: string, matches: Matcher)
    requires SingleHolder(s)
    ensures SingleHolder(Consume(s, name, matches))
  {
  }

  /**
   * Adding keys that no pattern holds keeps every key at one pattern: the
   * reason addProperties removes each key everywhere first.
   */
  lemma AddSingleHolder(s: Slots, pattern: string, ps: seq<Coerce.Prop>, duration: Value, renew: Value, now: int)
    requires SingleHolder(s)
    requires forall i, k :: 0 <= i < |s| && k in PropsMap(ps) ==> k !in s[i].entry.data
    ensures SingleHolder(Add(s, pattern, ps, duration, renew, now))
  {
    var r := Add(s, pattern, ps, duration, renew, now);
    var at := AddPlaces(s, pattern, ps, duration, renew, now);
    assert at < |s| ==> r[at].entry.data == s[at].entry.data + PropsMap(ps);
    assert at == |s| ==> r[at].entry.data == PropsMap(ps);
    assert forall j :: 0 <= j < |s| && j != at ==> r[j] == s[j];
    GrownSingleHolder(s, r, at, PropsMap(ps));
  }

  /**
   * A store that differs from `s` only at position `at`, where it holds the
   * keys it held before plus keys `s` holds nowhere, keeps every key at one
   * pattern.
   */
  lemma GrownSingleHolder(s: Slots, r: Slots, at: nat, m: map<string, Value>)
    requires SingleHolder(s)
    requires at <= |s| && |r| == if at < |s| then |s| else |s| + 1
    requires forall j :: 0 <= j < |s| && j != at ==> r[j] == s[j]
    requires at < |s| ==> r[at].entry.data.Keys <= s[at].entry.data.Keys + m.Keys
    requires at == |s| ==> r[at].entry.data.Keys <= m.Keys
    requires forall i, k :: 0 <= i < |s| && k in m ==> k !in s[i].entry.data
    ensures SingleHolder(r)
  {
    forall i, j, k | 0 <= i < |r| && 0 <= j < |r| && i != j && k in r[i].entry.data
      ensures k !in r[j].entry.data
    {
      if i == at {
        assert j < |s| && r[j] == s[j];
        if k !in m {
          assert k in s[at].entry.data;
        }
      } else if j == at {
        assert i < |s| && r[i] == s[i];
        assert k !in m;
        if at < |s| {
          assert k !in s[at].entry.data;
        }
      } else {
        assert r[i] == s[i] && r[j] == s[j];
      }
    }
  }
}
