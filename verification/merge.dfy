/**
 The structural merge behind `MergingProvider`: `assign` (a shallow own-key
 copy) and `deepAssign` (a recursive merge in which the parent, `target`,
 wins wherever it holds a defined non-object value).

 `DeepMerge` is the specification of `deepAssign`; the methods `Assign` and
 `DeepAssign` follow the source's loops and are proved against it.
 */
module Merge {
  import opened Values

  /** The value `deepAssign(target, source)` produces. */
  function DeepMerge(target: Value, source: Value): (r: Value)
    decreases source
  {
    if IsObject(target) && IsObject(source) then
      Plain(map k | k in target.fields.Keys + source.fields.Keys ::
              if k in source.fields then DeepMerge(Get(target, k), source.fields[k])
              else target.fields[k])
    else if IsDefined(target) then target
    else source
  }

  /** `assign(obj, props)`: copies every own key of `props` into `obj`, overwriting, and yields `obj`. */
  method Assign(obj: map<string, Value>, props: map<string, Value>) returns (r: map<string, Value>)
    ensures r.Keys == obj.Keys + props.Keys
    ensures forall k | k in props :: r[k] == props[k]
    ensures forall k | k in obj && k !in props :: r[k] == obj[k]
  {
    r := obj;
    var todo := props.Keys;
    while todo != {}
      invariant todo <= props.Keys
      invariant r.Keys == obj.Keys + (props.Keys - todo)
      invariant forall k | k in props && k !in todo :: r[k] == props[k]
      invariant forall k | k in obj && k !in props :: r[k] == obj[k]
      invariant forall k | k in obj && k in todo :: r[k] == obj[k]
      decreases todo
    {
      var i :| i in todo;
      r := r[i := props[i]];
      todo := todo - {i};
    }
  }

  /** `deepAssign(target, source)`: a shallow copy of `target` into a fresh object, then each own key of `source` merged recursively. */
  method DeepAssign(target: Value, source: Value) returns (r: Value)
    ensures r == DeepMerge(target, source)
    decreases source
  {
    if !(IsObject(target) && IsObject(source)) {
      return if IsDefined(target) then target else source;
    }
    var out := Assign(map[], target.fields);
    var todo := source.fields.Keys;
    while todo != {}
      invariant todo <= source.fields.Keys
      invariant out.Keys == target.fields.Keys + (source.fields.Keys - todo)
      invariant forall k | k in source.fields && k !in todo ::
                  out[k] == DeepMerge(Get(target, k), source.fields[k])
      invariant forall k | k in target.fields && k in todo :: out[k] == target.fields[k]
      invariant forall k | k in target.fields && k !in source.fields :: out[k] == target.fields[k]
      decreases todo
    {
      var i :| i in todo;
      var merged := DeepAssign(Get(target, i), source.fields[i]);
      out := out[i := merged];
      todo := todo - {i};
    }
    r := Plain(out);
  }

  /** When either side is not an object, a defined target wins outright; only an undefined one lets the source through. */
  lemma ScalarCase(target: Value, source: Value)
    requires !IsObject(target) || !IsObject(source)
    ensures IsDefined(target) ==> DeepMerge(target, source) == target
    ensures !IsDefined(target) ==> DeepMerge(target, source) == source
  {
  }

  /** `null`, `0`, `false` and `""` in the parent block whatever the child supplies. */
  lemma FalsyParentBlocks(source: Value)
    ensures DeepMerge(Null, source) == Null
    ensures DeepMerge(Num(0), source) == Num(0)
    ensures DeepMerge(Bool(false), source) == Bool(false)
    ensures DeepMerge(Str(""), source) == Str("")
  {
  }

  /** Undefined is an identity on either side. */
  lemma UndefinedIdentity(v: Value)
    ensures DeepMerge(v, Undefined) == v
    ensures DeepMerge(Undefined, v) == v
  {
  }

  /** The result is undefined only when both sides are. */
  lemma DefinedIfEither(target: Value, source: Value)
    ensures IsDefined(DeepMerge(target, source)) <==> IsDefined(target) || IsDefined(source)
  {
  }

  /**
   Two objects merge into a fresh plain object (arrays included, index by
   index) whose keys are those of both sides; a key only the target has
   keeps the target's value, and a key of the source holds the merge of the
   two sub-values.
   */
  lemma ObjectCase(target: Value, source: Value)
    requires IsObject(target) && IsObject(source)
    ensures var r := DeepMerge(target, source);
      && r.Obj? && !r.isArray
      && r.fields.Keys == target.fields.Keys + source.fields.Keys
      && (forall k | k in target.fields && k !in source.fields :: r.fields[k] == target.fields[k])
      && (forall k | k in source.fields :: r.fields[k] == DeepMerge(Get(target, k), source.fields[k]))
  {
  }

  /** Objects with disjoint keys merge into their union. */
  lemma DisjointUnion(a: map<string, Value>, b: map<string, Value>, aIsArray: bool, bIsArray: bool)
    requires a.Keys !! b.Keys
    ensures DeepMerge(Obj(a, aIsArray), Obj(b, bIsArray)) == Plain(a + b)
  {
  }

  /** Parent precedence: a defined non-object value at any path of the target is found unchanged at that path of the result. */
  lemma {:induction false} ParentLeafWins(target: Value, source: Value, path: seq<string>)
    requires IsDefined(At(target, path)) && !IsObject(At(target, path))
    ensures At(DeepMerge(target, source), path) == At(target, path)
    decreases |path|
  {
    if path == [] {
      return;
    }
    var k, rest := path[0], path[1..];
    if !IsObject(target) {
      AtUndefined(rest);
      assert false;
    }
    if !IsObject(source) {
      return;
    }
    if k !in target.fields {
      AtUndefined(rest);
      assert false;
    }
    var r := DeepMerge(target, source);
    if k in source.fields {
      ParentLeafWins(target.fields[k], source.fields[k], rest);
      assert Get(r, k) == DeepMerge(target.fields[k], source.fields[k]);
    } else {
      assert Get(r, k) == target.fields[k];
    }
  }

  /** Parent precedence, the other way round: wherever the target holds an object, the source can only add keys, never remove one. */
  lemma {:induction false} TargetKeysKept(target: Value, source: Value, path: seq<string>)
    requires IsObject(At(target, path))
    ensures IsObject(At(DeepMerge(target, source), path))
    ensures At(target, path).fields.Keys <= At(DeepMerge(target, source), path).fields.Keys
    decreases |path|
  {
    if path == [] {
      return;
    }
    var k, rest := path[0], path[1..];
    if !IsObject(target) || k !in target.fields {
      AtUndefined(rest);
      assert false;
    }
    if !IsObject(source) {
      return;
    }
    var r := DeepMerge(target, source);
    if k in source.fields {
      TargetKeysKept(target.fields[k], source.fields[k], rest);
      assert Get(r, k) == DeepMerge(target.fields[k], source.fields[k]);
    } else {
      assert Get(r, k) == target.fields[k];
    }
  }

  /** Merging a value with itself gives it back, provided it holds no array (a merge turns arrays into plain objects). */
  lemma {:induction false} SelfMerge(v: Value)
    requires NoArrays(v)
    ensures DeepMerge(v, v) == v
    decreases v
  {
    if v.Obj? {
      var r := DeepMerge(v, v);
      forall k | k in v.fields
        ensures r.fields[k] == v.fields[k]
      {
        SelfMerge(v.fields[k]);
      }
      assert r.fields == v.fields;
    }
  }

  /** An array merged with an object is no longer an array, yet keeps every index key: the copy starts from `{}`. */
  lemma ArrayBecomesObject(target: Value, source: Value)
    requires IsArray(target) && IsObject(source)
    ensures !IsArray(DeepMerge(target, source))
    ensures target.fields.Keys <= DeepMerge(target, source).fields.Keys
  {
  }
}
