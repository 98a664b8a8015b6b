/**
 * PersistInterface's own `mergeObj` and `copyObj` (src/PersistInterface.js:17-47).
 *
 * This copy of mergeObj is written differently from the queue's: it takes
 * its arguments off the front of a list in a while loop, walks each source
 * with `for (p in src)`, merges a nested object into `dst[p] || {}` and
 * assigns every other value as it is, without copying it. The method below
 * follows that loop and is proved to compute the same map as
 * `Values.MergeObj`, so the two copies of mergeObj agree.
 */
module PersistMerge {
  import opened Values

  /** `v` nests plain objects at most `n` levels deep. */
  predicate DepthAtMost(v: Value, n: nat)
    decreases v
  {
    v.Obj? ==> n > 0 && forall k :: k in v.fields ==> DepthAtMost(v.fields[k], n - 1)
  }

  function Max(a: nat, b: nat): nat
  {
    if a < b then b else a
  }

  /** How deeply `v` nests plain objects. */
  ghost function Height(v: Value): nat
    decreases v, 1
  {
    if v.Obj? then 1 + FieldsHeight(v, v.fields.Keys) else 0
  }

  ghost function FieldsHeight(v: Value, ks: set<string>): nat
    requires v.Obj? && ks <= v.fields.Keys
    decreases v, 0, ks
  {
    if ks == {} then 0
    else
      var k :| k in ks;
      Max(Height(v.fields[k]), FieldsHeight(v, ks - {k}))
  }

  /** The largest height among the arguments. */
  ghost function MaxHeight(args: seq<Value>): nat
    decreases |args|
  {
    if args == [] then 0 else Max(Height(args[0]), MaxHeight(args[1..]))
  }

  lemma {:induction false} FieldsHeightBound(v: Value, ks: set<string>, k: string)
    requires v.Obj? && ks <= v.fields.Keys && k in ks
    ensures Height(v.fields[k]) <= FieldsHeight(v, ks)
    decreases ks
  {
    var k' :| k' in ks && FieldsHeight(v, ks) == Max(Height(v.fields[k']), FieldsHeight(v, ks - {k'}));
    if k' != k {
      FieldsHeightBound(v, ks - {k'}, k);
      assert Height(v.fields[k]) <= FieldsHeight(v, ks - {k'});
      assert FieldsHeight(v, ks - {k'}) <= Max(Height(v.fields[k']), FieldsHeight(v, ks - {k'}));
    } else {
      assert Height(v.fields[k']) <= Max(Height(v.fields[k']), FieldsHeight(v, ks - {k'}));
    }
  }

  lemma {:induction false} DepthAtMostMonotone(v: Value, n: nat, m: nat)
    requires DepthAtMost(v, n) && n <= m
    ensures DepthAtMost(v, m)
    decreases v
  {
    if v.Obj? {
      forall k | k in v.fields
        ensures DepthAtMost(v.fields[k], m - 1)
      {
        DepthAtMostMonotone(v.fields[k], n - 1, m - 1);
      }
    }
  }

  /** Every value has a height. */
  lemma {:induction false} HeightBound(v: Value)
    ensures DepthAtMost(v, Height(v))
    decreases v
  {
    if v.Obj? {
      forall k | k in v.fields
        ensures DepthAtMost(v.fields[k], Height(v) - 1)
      {
        HeightBound(v.fields[k]);
        FieldsHeightBound(v, v.fields.Keys, k);
        DepthAtMostMonotone(v.fields[k], Height(v.fields[k]), Height(v) - 1);
      }
    }
  }

  lemma {:induction false} MaxHeightBound(args: seq<Value>)
    ensures forall a :: a in args ==> DepthAtMost(a, 1 + MaxHeight(args))
    decreases |args|
  {
    if args != [] {
      MaxHeightBound(args[1..]);
      HeightBound(args[0]);
      DepthAtMostMonotone(args[0], Height(args[0]), 1 + MaxHeight(args));
      forall a | a in args[1..]
        ensures DepthAtMost(a, 1 + MaxHeight(args))
      {
        DepthAtMostMonotone(a, 1 + MaxHeight(args[1..]), 1 + MaxHeight(args));
      }
      assert forall a :: a in args ==> a == args[0] || a in args[1..];
    }
  }

  /** The value MergeFields stores at `k`, for `k` a key of `src`. */
  function MergedAt(dst: map<string, Value>, src: Value, k: string): Value
    requires src.Obj? && k in src.fields
  {
    if k in dst && dst[k].Obj? && src.fields[k].Obj? then Obj(MergeFields(dst[k].fields, src.fields[k]))
    else DeepCopy(src.fields[k])
  }

  /** MergeFields restricted to the keys of `src` in `done`: the state of the `for (p in src)` loop. */
  function MergeFieldsOn(dst: map<string, Value>, src: Value, done: set<string>): map<string, Value>
    requires src.Obj?
  {
    map k | k in dst.Keys + (src.fields.Keys * done) ::
      if k in done && k in src.fields then MergedAt(dst, src, k) else dst[k]
  }

  /** One more key of `src` processed by the `for (p in src)` loop. */
  lemma MergeFieldsOnStep(start: map<string, Value>, src: Value, seen: set<string>, p: string)
    requires src.Obj? && p in src.fields && p !in seen
    ensures MergeFieldsOn(start, src, seen)[p := MergedAt(start, src, p)] == MergeFieldsOn(start, src, seen + {p})
  {
  }

  /** When every key of `src` is processed, the loop has computed MergeFields. */
  lemma MergeFieldsOnAll(start: map<string, Value>, src: Value)
    requires src.Obj?
    ensures MergeFieldsOn(start, src, src.fields.Keys) == MergeFields(start, src)
  {
  }

  /** Folding one more argument into mergeObj. */
  lemma MergeObjSnoc(done: seq<Value>, src: Value)
    ensures MergeObj(done + [src]) == MergeSource(MergeObj(done), src)
  {
    assert (done + [src])[..|done|] == done;
  }

  lemma DepthOfField(dst: map<string, Value>, p: string, n: nat)
    requires DepthAtMost(Obj(dst), n)
    ensures p in dst ==> DepthAtMost(dst[p], n - 1)
  {
  }

  lemma DepthOfUpdate(dst: map<string, Value>, p: string, v: Value, n: nat)
    requires n > 0 && DepthAtMost(Obj(dst), n) && DepthAtMost(v, n - 1)
    ensures DepthAtMost(Obj(dst[p := v]), n)
  {
  }

  /** Merging a source into a non-object, or into `{}`, is copying it. */
  lemma MergeIntoNothing(base: Value, src: Value)
    requires src.Obj? && (!base.Obj? || base == Obj(map[]))
    ensures Obj(MergeObj([base, src])) == DeepCopy(src)
  {
    assert [base, src][..1] == [base];
    assert [base][..0] == [];
    assert MergeObj([base]) == map[] by {
      if base.Obj? {
        MergeIntoEmptyIsIdentity(base);
      }
    }
    assert MergeObj([base, src]) == MergeFields(MergeObj([base]), src);
  }

  /**
   * PersistInterface's `mergeObj(args...)`. `n` bounds the nesting of the
   * arguments; it only serves to show that the recursion ends.
   */
  method MergeObjects(args: seq<Value>, ghost n: nat) returns (dst: map<string, Value>)
    requires n > 0 && forall a :: a in args ==> DepthAtMost(a, n)
    ensures dst == MergeObj(args)
    ensures DepthAtMost(Obj(dst), n)
    decreases n, 1
  {
    dst := map[];
    var rest := args;
    ghost var done: seq<Value> := [];
    while |rest| > 0
      invariant done + rest == args
      invariant dst == MergeObj(done)
      invariant DepthAtMost(Obj(dst), n)
      decreases |rest|
    {
      var src := rest[0];
      rest := rest[1..];
      assert src in args;
      MergeObjSnoc(done, src);
      if src.Obj? {
        dst := MergeSourceInto(dst, src, n);
      }
      done := done + [src];
    }
    assert done == args;
  }

  /** The `for (p in src)` loop of mergeObj, for one plain-object argument `src`. */
  method MergeSourceInto(dst0: map<string, Value>, src: Value, ghost n: nat) returns (dst: map<string, Value>)
    requires n > 0 && src.Obj? && DepthAtMost(src, n) && DepthAtMost(Obj(dst0), n)
    ensures dst == MergeFields(dst0, src)
    ensures DepthAtMost(Obj(dst), n)
    decreases n, 0
  {
    dst := dst0;
    var todo := src.fields.Keys;
    while todo != {}
      invariant todo <= src.fields.Keys
      invariant dst == MergeFieldsOn(dst0, src, src.fields.Keys - todo)
      invariant DepthAtMost(Obj(dst), n)
      decreases todo
    {
      var p :| p in todo;
      ghost var seen := src.fields.Keys - todo;
      MergeFieldsOnStep(dst0, src, seen, p);
      var v := src.fields[p];
      var value: Value;
      if v.Obj? {
        var base := if p in dst && Truthy(dst[p]) then dst[p] else Obj(map[]);
        DepthOfField(dst, p, n);
        var merged := MergeObjects([base, v], n - 1);
        if p in dst0 && dst0[p].Obj? {
          MergePairIsMergeFields(dst0[p], v);
        } else {
          MergeIntoNothing(base, v);
        }
        value := Obj(merged);
      } else {
        DeepCopyIsIdentity(v);
        value := v;
      }
      assert value == MergedAt(dst0, src, p);
      DepthOfUpdate(dst, p, value, n);
      dst := dst[p := value];
      todo := todo - {p};
      assert src.fields.Keys - todo == seen + {p};
    }
    MergeFieldsOnAll(dst0, src);
  }

  /** `mergeObj` on any arguments. */
  method Merge(args: seq<Value>) returns (dst: map<string, Value>)
    ensures dst == MergeObj(args)
  {
    MaxHeightBound(args);
    dst := MergeObjects(args, 1 + MaxHeight(args));
  }

  /** `copyObj(obj) = mergeObj({}, obj)`: an object equal to `obj`, or `{}` for a non-object. */
  method CopyObject(obj: Value) returns (r: map<string, Value>)
    ensures r == (if obj.Obj? then obj.fields else map[])
  {
    r := Merge([Obj(map[]), obj]);
    assert [Obj(map[]), obj][..1] == [Obj(map[])];
    assert [Obj(map[])][..0] == [];
    assert MergeObj([Obj(map[])]) == map[];
    if obj.Obj? {
      MergeIntoEmptyIsIdentity(obj);
    }
  }
}
