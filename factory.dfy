/**
 * Where queues come from: the constructor's table of queues by name
 * (src/DEQcore.js:3-10, src/DigitalEventQueue.js:3-11), which hands back an
 * existing queue instead of building a second one, and DEQFactory's
 * get-or-create table (src/DEQFactory.js:20-51), which builds queues of the
 * WithPersist variant.
 */
module Factory {
  import opened Values
  import Storage
  import Stores
  import opened Bus
  import opened Queue

  /** The queues of a table are sound, named by their key and share no object. */
  ghost predicate Separate(queues: map<string, EventQueue>)
  {
    (forall n :: n in queues ==> queues[n].Valid() && queues[n].name == n) &&
    (forall n, m :: n in queues && m in queues && n != m ==> queues[n].Repr !! queues[m].Repr)
  }

  /** pushBulk of an optional array of commands: nothing when it is undefined. */
  ghost function Bulk(env: Env, s: State, commands: Option<seq<Value>>): (r: State)
    ensures Grows(s, r)
    ensures commands.None? ==> r == s
  {
    if commands.Some? then Bus.PushAll(env, s, commands.value) else s
  }

  /** A table stays separate when a queue sharing no object with it is added under a new name. */
  lemma SeparateAdd(queues: map<string, EventQueue>, name: string, q: EventQueue)
    requires Separate(queues) && name !in queues && q.Valid() && q.name == name
    requires forall n :: n in queues ==> queues[n].Repr !! q.Repr
    ensures Separate(queues[name := q])
  {
  }

  /** A new queue that has replayed `commands` when they are given. */
  method Spawn(name: string, variant: Variant, matches: Storage.Matcher, handlers: Handlers, host: string,
               jar: Stores.Jar, restored: Restored, commands: Option<seq<Value>>, now: int)
    returns (q: EventQueue, thrown: Option<Value>)
    ensures q.Valid() && fresh(q.Repr) && q.name == name && q.variant == variant
    ensures q.Snapshot() == Bulk(q.EnvAt(now), StartState(variant, jar, restored), commands)
    ensures thrown.Some? <==> commands.Some? && exists i :: 0 <= i < |commands.value| && PushThrows(q.EnvAt(now), commands.value[i])
  {
    q := new EventQueue(name, variant, matches, handlers, host, jar, restored);
    thrown := None;
    if commands.Some? {
      thrown := q.PushAll(commands.value, now);
    }
  }

  /** pushBulk on the queue under `name` when commands are given; the table's other queues do not change. */
  method Feed(queues: map<string, EventQueue>, name: string, commands: Option<seq<Value>>, now: int)
    requires Separate(queues) && name in queues
    modifies queues[name].Repr
    ensures queues[name].Snapshot() == Bulk(queues[name].EnvAt(now), old(queues[name].Snapshot()), commands)
    ensures forall n :: n in queues && n != name ==> unchanged(queues[n].Repr)
  {
    var q := queues[name];
    if commands.Some? {
      var _ := q.PushAll(commands.value, now);
    }
  }

  /** `DigitalEventQueue.queue`, consulted and filled by the queue constructor. */
  class Registry {
    var queues: map<string, EventQueue>

    ghost predicate Valid()
      reads this
    {
      Separate(queues) && forall n :: n in queues ==> this !in queues[n].Repr
    }

    constructor()
      ensures Valid() && queues == map[]
    {
      queues := map[];
    }

    /**
     * `new DigitalEventQueue(name, previous_commands)`: an existing queue of
     * that name is returned untouched; otherwise a new empty queue is
     * registered and then replays `previous_commands` when it is an array.
     */
    method Construct(name: string, variant: Variant, matches: Storage.Matcher, handlers: Handlers, host: string,
                     jar: Stores.Jar, restored: Restored, previous: Option<seq<Value>>, now: int)
      returns (q: EventQueue, thrown: Option<Value>)
      requires Valid()
      modifies this
      ensures Valid()
      ensures name in old(queues) ==> q == old(queues[name]) && queues == old(queues) && thrown == None
      ensures name !in old(queues) ==>
        fresh(q.Repr) && queues == old(queues)[name := q] && q.variant == variant &&
        q.Snapshot() == Bulk(q.EnvAt(now), StartState(variant, jar, restored), previous)
      ensures name !in old(queues) ==> (thrown.Some? <==> previous.Some? && exists i :: 0 <= i < |previous.value| && PushThrows(q.EnvAt(now), previous.value[i]))
    {
      thrown := None;
      if name in queues {
        q := queues[name];
        return;
      }
      q, thrown := Spawn(name, variant, matches, handlers, host, jar, restored, previous, now);
      SeparateAdd(queues, name, q);
      queues := queues[name := q];
    }
  }

  /** DEQFactory: a name-to-queue table with get-or-create. */
  class QueueFactory {
    /** `_queueList`: every name `get` has been asked for, with its queue. */
    var table: map<string, EventQueue>

    ghost predicate Valid()
      reads this
    {
      Separate(table) &&
      forall n :: n in table ==> this !in table[n].Repr && table[n].variant == WithPersist
    }

    constructor()
      ensures Valid() && table == map[]
    {
      table := map[];
    }

    /**
     * get(name, arrayRef): creates a queue only for a name not yet in the
     * table (replaying `arrayRef`); for a known name it bulk-pushes `arrayRef`
     * when it is defined. Either way the queue under `name` is returned and
     * no other queue changes.
     */
    method Get(name: string, arrayRef: Option<seq<Value>>, matches: Storage.Matcher, handlers: Handlers, host: string,
               jar: Stores.Jar, restored: Restored, now: int)
      returns (q: EventQueue)
      requires Valid()
      modifies this, if name in table then table[name].Repr else {}
      ensures Valid()
      ensures name in table && q == table[name] && table.Keys == old(table).Keys + {name}
      ensures name in old(table) ==> table == old(table) && q.Snapshot() == Bulk(q.EnvAt(now), old(q.Snapshot()), arrayRef)
      ensures name !in old(table) ==>
        table == old(table)[name := q] && fresh(q.Repr) && q.Snapshot() == Bulk(q.EnvAt(now), StartState(WithPersist, jar, restored), arrayRef)
      ensures forall n :: n in old(table) && n != name ==> unchanged(old(table)[n].Repr)
    {
      if name !in table {
        q := Insert(name, arrayRef, matches, handlers, host, jar, restored, now);
      } else {
        q := table[name];
        Feed(table, name, arrayRef, now);
        assert table.Keys == old(table).Keys + {name};
      }
    }

    /** The first `get` for a name: a new queue that replays `arrayRef`, entered in the table. */
    method Insert(name: string, arrayRef: Option<seq<Value>>, matches: Storage.Matcher, handlers: Handlers, host: string,
                  jar: Stores.Jar, restored: Restored, now: int)
      returns (q: EventQueue)
      requires Valid() && name !in table
      modifies this
      ensures Valid()
      ensures table == old(table)[name := q] && fresh(q.Repr) && q.Snapshot() == Bulk(q.EnvAt(now), StartState(WithPersist, jar, restored), arrayRef)
      ensures forall n :: n in old(table) ==> unchanged(old(table)[n].Repr)
    {
      var ignored;
      q, ignored := Spawn(name, WithPersist, matches, handlers, host, jar, restored, arrayRef, now);
      ghost var snapshot := q.Snapshot();
      SeparateAdd(table, name, q);
      ghost var p := q.persistence;
      assert this !in {q, p, p.pageloadStore, p.sessionStore, p.lastingStore, p.deferStore};
      table := table[name := q];
      assert q.Snapshot() == snapshot;
    }

    /** getAll */
    method GetAll() returns (all: map<string, EventQueue>)
      requires Valid()
      ensures all == table
    {
      all := table;
    }
  }
}
