/**
 * JSON-like JavaScript values and the merge/copy helpers every queue file
 * repeats: `isObject`, `mergeObj`, `deepCopy` and `copyObj`
 * (src/DEQcore.js:45-93, src/DigitalEventQueue.js:86-129).
 */
module Values {

  /**
   * A JavaScript value as the queue sees it. Numbers are integers. `Func`
   * stands for a function (a listener handler), identified by `id`. `Error` is
   * an Error object: it is not a plain object, so `isObject` is false for it.
   */
  datatype Value =
    | Undefined
    | Null
    | Bool(b: bool)
    | Num(n: int)
    | Str(s: string)
    | Arr(items: seq<Value>)
    | Obj(fields: map<string, Value>)
    | Func(id: nat)
    | Error(message: string, props: map<string, Value>)

  /** An optional value: `None` stands for an absent result or for NaN. */
  datatype Option<T> = None | Some(value: T)

  /** `o[key]` on a plain object: a missing key reads as undefined. */
  function Get(fields: map<string, Value>, key: string): Value
  {
    if key in fields then fields[key] else Undefined
  }

  /** `Object.prototype.toString.call(v) == "[object Object]"`: plain objects only. */
  predicate IsObject(v: Value)
  {
    v.Obj?
  }

  /** JavaScript truthiness. */
  predicate Truthy(v: Value)
  {
    match v
    case Undefined => false
    case Null => false
    case Bool(b) => b
    case Num(n) => n != 0
    case Str(s) => s != ""
    case _ => true
  }

  /**
   * deepCopy: a plain object is copied through copyObj (which is mergeObj of
   * that one object), an array element by element, anything else is returned.
   */
  function DeepCopy(v: Value): Value
    decreases v, 1
  {
    match v
    case Obj(_) => Obj(MergeFields(map[], v))
    case Arr(items) => Arr(seq(|items|, i requires 0 <= i < |items| => DeepCopy(items[i])))
    case _ => v
  }

  /**
   * The key loop of mergeObj for one object source `src`: a key held by both
   * `dst` and `src` as plain objects is merged recursively (the source's
   * `mergeObj(dst[key], src[key])`, see MergePairIsMergeFields); any other key
   * of `src` overwrites `dst` with a deep copy; keys only in `dst` stay.
   */
  function MergeFields(dst: map<string, Value>, src: Value): map<string, Value>
    requires src.Obj?
    decreases src, 0
  {
    map k | k in dst.Keys + src.fields.Keys ::
      if k !in src.fields then dst[k]
      else if k in dst && dst[k].Obj? && src.fields[k].Obj? then Obj(MergeFields(dst[k].fields, src.fields[k]))
      else DeepCopy(src.fields[k])
  }

  /** One argument of mergeObj: arguments that are not plain objects are skipped. */
  function MergeSource(dst: map<string, Value>, src: Value): map<string, Value>
  {
    if src.Obj? then MergeFields(dst, src) else dst
  }

  /** mergeObj(srcs...): start from `{}` and fold the arguments in, left to right. */
  function MergeObj(srcs: seq<Value>): map<string, Value>
    decreases |srcs|
  {
    if srcs == [] then map[] else MergeSource(MergeObj(srcs[..|srcs| - 1]), srcs[|srcs| - 1])
  }

  /** copyObj(obj) = mergeObj(obj). */
  function CopyObj(v: Value): map<string, Value>
  {
    MergeObj([v])
  }

  /** The keys of every plain-object argument. */
  function KeysOf(srcs: seq<Value>): set<string>
    decreases |srcs|
  {
    if srcs == [] then {}
    else KeysOf(srcs[..|srcs| - 1]) + (if srcs[|srcs| - 1].Obj? then srcs[|srcs| - 1].fields.Keys else {})
  }

  // ---------------------------------------------------------------------------
  // Copies are structurally equal to their originals.

  /** deepCopy returns a value equal to its input. */
  lemma {:induction false} DeepCopyIsIdentity(v: Value)
    ensures DeepCopy(v) == v
    decreases v, 1
  {
    match v
    case Obj(_) =>
      MergeIntoEmptyIsIdentity(v);
    case Arr(items) =>
      forall i | 0 <= i < |items|
        ensures DeepCopy(items[i]) == items[i]
      {
        DeepCopyIsIdentity(items[i]);
      }
      assert DeepCopy(v).items == items;
    case _ =>
  }

  /** Merging one object into `{}` rebuilds exactly that object. */
  lemma {:induction false} MergeIntoEmptyIsIdentity(v: Value)
    requires v.Obj?
    ensures MergeFields(map[], v) == v.fields
    decreases v, 0
  {
    forall k | k in v.fields
      ensures MergeFields(map[], v)[k] == v.fields[k]
    {
      DeepCopyIsIdentity(v.fields[k]);
    }
  }

  /** copyObj of a plain object is an equal object; of anything else, `{}`. */
  lemma CopyObjIsIdentity(v: Value)
    ensures CopyObj(v) == (if v.Obj? then v.fields else map[])
  {
    assert [v][..0] == [];
    if v.Obj? {
      MergeIntoEmptyIsIdentity(v);
    }
  }

  /**
   * mergeObj(a, b) of two plain objects is MergeFields(a, b): the recursive
   * step of MergeFields is exactly the source's `mergeObj(dst[key], src[key])`.
   */
  lemma MergePairIsMergeFields(a: Value, b: Value)
    requires a.Obj? && b.Obj?
    ensures MergeObj([a, b]) == MergeFields(a.fields, b)
  {
    assert [a, b][..1] == [a];
    assert [a][..0] == [];
    assert MergeObj([a]) == MergeFields(map[], a);
    MergeIntoEmptyIsIdentity(a);
    assert MergeObj([a, b]) == MergeFields(MergeObj([a]), b);
  }

  // ---------------------------------------------------------------------------
  // The merge laws.

  /** The result holds exactly the keys of the plain-object arguments. */
  lemma {:induction false} MergeObjKeys(srcs: seq<Value>)
    ensures MergeObj(srcs).Keys == KeysOf(srcs)
    decreases |srcs|
  {
    if srcs != [] {
      MergeObjKeys(srcs[..|srcs| - 1]);
    }
  }

  /**
   * Later sources win on leaves: when argument `i` holds a non-object value at
   * `key` and no later plain-object argument holds `key`, the result holds
   * that value.
   */
  lemma {:induction false} MergeLeafFromLastHolder(srcs: seq<Value>, i: nat, key: string)
    requires i < |srcs| && srcs[i].Obj? && key in srcs[i].fields && !srcs[i].fields[key].Obj?
    requires forall j :: i < j < |srcs| && srcs[j].Obj? ==> key !in srcs[j].fields
    ensures key in MergeObj(srcs) && MergeObj(srcs)[key] == srcs[i].fields[key]
    decreases |srcs|
  {
    var pre := srcs[..|srcs| - 1];
    if i == |srcs| - 1 {
      DeepCopyIsIdentity(srcs[i].fields[key]);
    } else {
      MergeLeafFromLastHolder(pre, i, key);
    }
  }

  /**
   * Nested objects merge: when the merge of the earlier arguments and the last
   * argument both hold a plain object at `key`, the result holds the merge of
   * the two, earlier keys kept and extended.
   */
  lemma MergeNestedObjects(srcs: seq<Value>, key: string)
    requires |srcs| > 0 && srcs[|srcs| - 1].Obj?
    requires key in MergeObj(srcs[..|srcs| - 1]) && MergeObj(srcs[..|srcs| - 1])[key].Obj?
    requires key in srcs[|srcs| - 1].fields && srcs[|srcs| - 1].fields[key].Obj?
    ensures key in MergeObj(srcs)
    ensures MergeObj(srcs)[key] == Obj(MergeObj([MergeObj(srcs[..|srcs| - 1])[key], srcs[|srcs| - 1].fields[key]]))
  {
    MergePairIsMergeFields(MergeObj(srcs[..|srcs| - 1])[key], srcs[|srcs| - 1].fields[key]);
  }

  /** Arguments that are not plain objects make no difference. */
  lemma {:induction false} MergeSkipsNonObject(srcs: seq<Value>, i: nat)
    requires i < |srcs| && !srcs[i].Obj?
    ensures MergeObj(srcs) == MergeObj(srcs[..i] + srcs[i + 1..])
    decreases |srcs|
  {
    var rest := srcs[..i] + srcs[i + 1..];
    if i == |srcs| - 1 {
      assert rest == srcs[..|srcs| - 1];
    } else {
      var pre := srcs[..|srcs| - 1];
      MergeSkipsNonObject(pre, i);
      assert rest[..|rest| - 1] == pre[..i] + pre[i + 1..];
      assert rest[|rest| - 1] == srcs[|srcs| - 1];
    }
  }

  /** Merging a plain object into itself changes nothing. */
  lemma {:induction false} MergeFieldsIdempotent(v: Value)
    requires v.Obj?
    ensures MergeFields(v.fields, v) == v.fields
    decreases v
  {
    forall k | k in v.fields
      ensures MergeFields(v.fields, v)[k] == v.fields[k]
    {
      if v.fields[k].Obj? {
        MergeFieldsIdempotent(v.fields[k]);
      } else {
        DeepCopyIsIdentity(v.fields[k]);
      }
    }
  }

  /** mergeObj(x, x) is a copy of x. */
  lemma MergeObjIdempotent(v: Value)
    requires v.Obj?
    ensures MergeObj([v, v]) == v.fields
  {
    MergePairIsMergeFields(v, v);
    MergeFieldsIdempotent(v);
  }
}
