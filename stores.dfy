/**
 * `DEQPersistStore`, `MemoryStore` and `DeferStore`
 * (src/PersistInterface.js:112-333) as a class whose methods run the
 * source's loops over `this.storage` and are proved to compute the functions
 * of module Storage.
 */
module Stores {
  import opened Values
  import opened Storage
  import Coerce
  import Domain
  import PersistMerge

  /**
   * What setCookie leaves in the browser under one name: the store's contents
   * (the JSON round trip is the identity here), the lifetime in seconds when
   * one is given, and the domain attribute.
   */
  datatype StoredCookie = StoredCookie(content: Slots, lifetime: Option<int>, domain: Option<string>)

  type Jar = map<string, StoredCookie>

  /** A store saves to a cookie (DEQPersistStore, DeferStore) or to memory (MemoryStore). */
  datatype Backend = CookieBackend | MemoryBackend

  /**
   * loadPropertiesFromBackend: a memory store copies its backend storage; a
   * cookie store reads its cookie, and keeps what it has when there is none.
   */
  function Loaded(backend: Backend, storage: Slots, memory: Slots, jar: Jar, name: string): Slots
  {
    match backend
    case MemoryBackend => memory
    case CookieBackend => if name in jar then jar[name].content else storage
  }

  /** The cookie saveProperties writes, on the domain derived from the page's hostname. */
  function CookieOf(storage: Slots, lifetime: Option<int>, host: string): StoredCookie
  {
    StoredCookie(storage, lifetime, Domain.CookieDomain(host))
  }

  /** The state of the expiry sweep once the keys in `done` have been visited. */
  function SweepOn(e: Entry, done: set<string>, now: int): Entry
  {
    Entry(
      map k | k in e.data && !(k in done && k in e.attrs && Expired(e.attrs[k], now)) :: e.data[k],
      map k | k in e.attrs && !(k in done && Expired(e.attrs[k], now)) ::
        if k in done then Renewed(e.attrs[k], now) else e.attrs[k])
  }

  lemma SweepOnNone(e: Entry, now: int)
    ensures SweepOn(e, {}, now) == e
  {
  }

  lemma SweepOnAll(e: Entry, now: int)
    ensures SweepOn(e, e.attrs.Keys, now) == SweepEntry(e, now)
  {
  }

  lemma AttrsSnoc(base: map<string, Attr>, m: map<string, Value>, key: string, v: Value, a: Attr)
    ensures base + SameAttr(m[key := v].Keys, a) == (base + SameAttr(m.Keys, a))[key := a]
  {
  }

  /** The entry the store's addProperties has built after the first properties. */
  lemma AddToEntrySnoc(e: Entry, ps: seq<Coerce.Prop>, p: Coerce.Prop, duration: Value, renew: Value, now: int)
    ensures AddToEntry(e, ps + [p], duration, renew, now) ==
      var cur := AddToEntry(e, ps, duration, renew, now);
      Entry(cur.data[p.key := p.val], cur.attrs[p.key := NewAttr(duration, renew, now)])
  {
    var a := NewAttr(duration, renew, now);
    PropsMapSnoc(ps, p);
    DataSnoc(e.data, PropsMap(ps), p.key, p.val);
    AttrsSnoc(e.attrs, PropsMap(ps), p.key, p.val, a);
  }

  lemma DataSnoc(base: map<string, Value>, m: map<string, Value>, key: string, v: Value)
    ensures base + m[key := v] == (base + m)[key := v]
  {
  }

  lemma RemoveEverywhereAfterRemoveAt(s: Slots, i: nat, key: string)
    requires i < |s| && key in s[i].entry.data
    ensures RemoveEverywhere(RemoveAt(s, i, key), key) == RemoveEverywhere(s, key)
  {
  }

  lemma RemoveEverywhereOfNoHolder(s: Slots, key: string)
    requires forall j :: 0 <= j < |s| ==> key !in s[j].entry.data
    ensures RemoveEverywhere(s, key) == s
  {
  }

  /** `s` is `t` with slot `i` replaced by `slot`. */
  predicate ChangedAt(s: Slots, t: Slots, i: nat, slot: Slot)
  {
    |s| == |t| && i < |s| && s[i] == slot && forall j :: 0 <= j < |s| && j != i ==> s[j] == t[j]
  }

  lemma ChangedAtIsUpdate(s: Slots, t: Slots, i: nat, slot: Slot)
    requires ChangedAt(s, t, i, slot)
    ensures s == t[i := slot]
  {
  }

  lemma PropsMapSnoc(ps: seq<Coerce.Prop>, p: Coerce.Prop)
    ensures PropsMap(ps + [p]) == PropsMap(ps)[p.key := p.val]
  {
    assert (ps + [p])[..|ps|] == ps;
  }

  class PersistStore {
    /** `this.storage`: pattern -> {data, dataAttributes}, in insertion order (integer-like patterns included). */
    var storage: Slots
    /** MemoryStore's `backendStorage`; a cookie store does not use it. */
    var memory: Slots
    const backend: Backend
    /** COOKIE_NAME */
    const cookieName: string
    /** COOKIE_LIFETIME, in seconds; `None` for a session cookie. */
    const lifetime: Option<int>

    constructor(backend: Backend, cookieName: string, lifetime: Option<int>)
      ensures storage == [] && memory == []
      ensures this.backend == backend && this.cookieName == cookieName && this.lifetime == lifetime
    {
      storage := [];
      memory := [];
      this.backend := backend;
      this.cookieName := cookieName;
      this.lifetime := lifetime;
    }

    /** `this.storage[pattern]`: the index of the pattern's entry. */
    method IndexOf(pattern: string) returns (r: Option<nat>)
      ensures r == Find(storage, pattern)
    {
      var i := 0;
      while i < |storage|
        invariant i <= |storage|
        invariant forall j :: 0 <= j < i ==> storage[j].pattern != pattern
      {
        if storage[i].pattern == pattern {
          return Some(i);
        }
        i := i + 1;
      }
      return None;
    }

    /** findEventMatchForKey: the index of the first pattern whose data holds `key`. */
    method FindEventMatchForKey(key: string) returns (r: Option<nat>)
      ensures r == FirstHolder(storage, key)
    {
      var i := 0;
      while i < |storage|
        invariant i <= |storage|
        invariant forall j :: 0 <= j < i ==> key !in storage[j].entry.data
      {
        if key in storage[i].entry.data {
          return Some(i);
        }
        i := i + 1;
      }
      return None;
    }

    /** `delete data[key]; delete dataAttributes[key]` under one pattern. */
    method DeleteAt(i: nat, key: string)
      requires i < |storage|
      modifies this
      ensures storage == RemoveAt(old(storage), i, key)
      ensures memory == old(memory)
    {
      storage := storage[i := Slot(storage[i].pattern, DeleteKey(storage[i].entry, key))];
    }

    /**
     * remove(key, specificEventMatch), with the pattern tests written as
     * presence tests: with a pattern, `key` goes from that pattern; without
     * one, the loop deletes it from the first holder until no pattern holds it.
     */
    method Remove(key: string, specific: Option<string>)
      requires specific.Some? ==> Find(storage, specific.value).Some?
      modifies this
      ensures storage == Storage.Remove(old(storage), key, specific)
      ensures memory == old(memory)
    {
      if specific.Some? {
        var i := IndexOf(specific.value);
        DeleteAt(i.value, key);
      } else {
        var cur := FindEventMatchForKey(key);
        while cur.Some?
          invariant cur == FirstHolder(storage, key)
          invariant |storage| == |old(storage)|
          invariant RemoveEverywhere(storage, key) == RemoveEverywhere(old(storage), key)
          invariant memory == old(memory)
          decreases Holders(storage, key)
        {
          HoldersAfterRemoveAt(storage, cur.value, key);
          RemoveEverywhereAfterRemoveAt(storage, cur.value, key);
          DeleteAt(cur.value, key);
          cur := FindEventMatchForKey(key);
        }
        RemoveEverywhereOfNoHolder(storage, key);
      }
    }

    /** loadPropertiesFromBackend (MemoryStore's override included). */
    method LoadPropertiesFromBackend(jar: Jar)
      modifies this
      ensures storage == Loaded(backend, old(storage), memory, jar, cookieName)
      ensures memory == old(memory)
    {
      if backend == MemoryBackend {
        storage := memory;
      } else if cookieName in jar {
        storage := jar[cookieName].content;
      }
    }

    /** The inner loop of checkAndUpdateExpiryAttributes, over the keys of one pattern's dataAttributes. */
    method SweepPattern(i: nat, now: int)
      requires i < |storage|
      modifies this
      ensures storage == old(storage)[i := Slot(old(storage)[i].pattern, SweepEntry(old(storage)[i].entry, now))]
      ensures memory == old(memory)
    {
      var e0 := storage[i].entry;
      var pattern := storage[i].pattern;
      var todo := e0.attrs.Keys;
      SweepOnNone(e0, now);
      assert e0.attrs.Keys - todo == {};
      while todo != {}
        invariant todo <= e0.attrs.Keys
        invariant ChangedAt(storage, old(storage), i, Slot(pattern, SweepOn(e0, e0.attrs.Keys - todo, now)))
        invariant memory == old(memory)
        decreases todo
      {
        var k :| k in todo;
        ghost var done := e0.attrs.Keys - todo;
        var attr := storage[i].entry.attrs[k];
        assert attr == e0.attrs[k];
        if Expired(attr, now) {
          DeleteAt(i, k);
        } else if Renewable(attr) {
          var e := storage[i].entry;
          storage := storage[i := Slot(pattern, Entry(e.data, e.attrs[k := Renewed(attr, now)]))];
        }
        todo := todo - {k};
        assert e0.attrs.Keys - todo == done + {k};
        assert storage[i].entry == SweepOn(e0, done + {k}, now);
      }
      SweepOnAll(e0, now);
      ChangedAtIsUpdate(storage, old(storage), i, Slot(pattern, SweepEntry(e0, now)));
    }

    /** checkAndUpdateExpiryAttributes: expired keys go, renewable ones get a new expiry. */
    method CheckAndUpdateExpiryAttributes(now: int)
      modifies this
      ensures storage == Sweep(old(storage), now)
      ensures memory == old(memory)
    {
      var i := 0;
      while i < |storage|
        invariant i <= |storage| == |old(storage)|
        invariant forall j :: 0 <= j < i ==> storage[j] == Sweep(old(storage), now)[j]
        invariant forall j :: i <= j < |storage| ==> storage[j] == old(storage)[j]
        invariant memory == old(memory)
      {
        SweepPattern(i, now);
        i := i + 1;
      }
      assert storage == Sweep(old(storage), now);
    }

    /** loadProperties: load from the backend, then sweep. */
    method LoadProperties(jar: Jar, now: int)
      modifies this
      ensures storage == Sweep(Loaded(backend, old(storage), memory, jar, cookieName), now)
      ensures memory == old(memory)
    {
      LoadPropertiesFromBackend(jar);
      CheckAndUpdateExpiryAttributes(now);
    }

    /**
     * saveProperties (MemoryStore's override included): a memory store copies
     * its storage to its backend; a cookie store writes its cookie.
     */
    method SaveProperties(jar: Jar, host: string) returns (jar': Jar)
      modifies this
      ensures storage == old(storage)
      ensures backend == MemoryBackend ==> memory == storage && jar' == jar
      ensures backend == CookieBackend ==> memory == old(memory) && jar' == jar[cookieName := CookieOf(storage, lifetime, host)]
    {
      if backend == MemoryBackend {
        memory := storage;
        jar' := jar;
      } else {
        jar' := jar[cookieName := CookieOf(storage, lifetime, host)];
      }
    }

    /**
     * The store's addProperties: every property goes into the entry of
     * `pattern` (created if missing) with its expiry and renew attributes.
     */
    method AddProperties(pattern: string, props: seq<Coerce.Prop>, duration: Value, renew: Value, now: int)
      modifies this
      ensures storage == Add(old(storage), pattern, props, duration, renew, now)
      ensures memory == old(memory)
    {
      var at := IndexOf(pattern);
      var start := if at.Some? then storage[at.value].entry else EmptyEntry;
      var current := BuildEntry(start, props, duration, renew, now);
      if at.Some? {
        storage := storage[at.value := Slot(pattern, current)];
      } else {
        storage := storage + [Slot(pattern, current)];
      }
    }

    /** The `forEach` of addProperties: each property and its attribute go into the entry, later ones winning. */
    static method BuildEntry(start: Entry, props: seq<Coerce.Prop>, duration: Value, renew: Value, now: int) returns (current: Entry)
      ensures current == AddToEntry(start, props, duration, renew, now)
    {
      current := start;
      var i := 0;
      assert props[..0] == [];
      while i < |props|
        invariant i <= |props|
        invariant current == AddToEntry(start, props[..i], duration, renew, now)
      {
        var p := props[i];
        AddToEntrySnoc(start, props[..i], p, duration, renew, now);
        assert props[..i + 1] == props[..i] + [p];
        current := Entry(current.data[p.key := p.val], current.attrs[p.key := NewAttr(duration, renew, now)]);
        i := i + 1;
      }
      assert props[..i] == props;
    }

    /** getProperties: the data of every matching pattern merged, in order, with PersistInterface's mergeObj. */
    method GetProperties(name: string, matches: Matcher) returns (result: map<string, Value>)
      ensures result == Collect(storage, name, matches)
    {
      result := map[];
      var i := 0;
      while i < |storage|
        invariant i <= |storage|
        invariant result == Collect(storage[..i], name, matches)
      {
        assert storage[..i + 1][..i] == storage[..i];
        if matches(storage[i].pattern, name) {
          result := PersistMerge.Merge([Obj(result), Obj(storage[i].entry.data)]);
        }
        i := i + 1;
      }
      assert storage[..i] == storage;
    }

    /** The deletions of DeferStore.getProperties for one matching pattern: every key of its data. */
    method ConsumePattern(i: nat)
      requires i < |storage|
      modifies this
      ensures storage == old(storage)[i := Slot(old(storage)[i].pattern,
        Entry(map[], old(storage)[i].entry.attrs - old(storage)[i].entry.data.Keys))]
      ensures memory == old(memory)
    {
      var e0 := storage[i].entry;
      var pattern := storage[i].pattern;
      var todo := e0.data.Keys;
      assert e0.data - (e0.data.Keys - todo) == e0.data;
      assert e0.attrs - (e0.data.Keys - todo) == e0.attrs;
      while todo != {}
        invariant todo <= e0.data.Keys
        invariant ChangedAt(storage, old(storage), i, Slot(pattern, Entry(e0.data - (e0.data.Keys - todo), e0.attrs - (e0.data.Keys - todo))))
        invariant memory == old(memory)
        decreases todo
      {
        var k :| k in todo;
        ghost var done := e0.data.Keys - todo;
        DeleteAt(i, k);
        todo := todo - {k};
        assert e0.data.Keys - todo == done + {k};
        assert storage[i].entry.data == e0.data - (done + {k});
        assert storage[i].entry.attrs == e0.attrs - (done + {k});
      }
      assert e0.data - e0.data.Keys == map[];
      ChangedAtIsUpdate(storage, old(storage), i, Slot(pattern, Entry(map[], e0.attrs - e0.data.Keys)));
    }

    /**
     * DeferStore.getProperties: like getProperties, and every key returned is
     * removed from the pattern it came from.
     */
    method DeferGetProperties(name: string, matches: Matcher) returns (result: map<string, Value>)
      modifies this
      ensures result == Collect(old(storage), name, matches)
      ensures storage == Consume(old(storage), name, matches)
      ensures memory == old(memory)
    {
      result := map[];
      var i := 0;
      while i < |storage|
        invariant i <= |storage| == |old(storage)|
        invariant forall j :: 0 <= j < i ==> storage[j] == Consume(old(storage), name, matches)[j]
        invariant forall j :: i <= j < |storage| ==> storage[j] == old(storage)[j]
        invariant result == Collect(old(storage)[..i], name, matches)
        invariant memory == old(memory)
      {
        assert old(storage)[..i + 1][..i] == old(storage)[..i];
        if matches(storage[i].pattern, name) {
          result := PersistMerge.Merge([Obj(result), Obj(storage[i].entry.data)]);
          ConsumePattern(i);
        }
        i := i + 1;
      }
      assert old(storage)[..i] == old(storage);
      assert storage == Consume(old(storage), name, matches);
    }
  }
}
