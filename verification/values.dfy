/**
 The JavaScript values that flow through props and context.

 Only what the context helpers can observe is kept: whether a value is
 `undefined`, whether it is a non-null object (`typeof v === 'object'`
 and truthy), its own enumerable keys, whether `Array.isArray` holds of it,
 and strict equality. A JavaScript array is an object whose own keys are
 its index strings, so it is an `Obj` with `isArray` set; functions are not
 objects for `typeof`, so they are scalars.
 */
module Values {

  datatype Value =
    | Undefined
    | Null
    | Bool(b: bool)
    | Num(n: int)
    | Str(s: string)
    | Func(name: string)
    | Obj(fields: map<string, Value>, isArray: bool)

  /** A plain object literal `{ ... }`. */
  function Plain(fields: map<string, Value>): (v: Value)
    ensures v.Obj? && v.fields == fields && !v.isArray
  {
    Obj(fields, false)
  }

  /** `typeof v !== 'undefined'` */
  predicate IsDefined(v: Value) {
    !v.Undefined?
  }

  /** `v && typeof v === 'object'`: objects and arrays, but not null or functions. */
  predicate IsObject(v: Value) {
    v.Obj?
  }

  /** `Array.isArray(v)` */
  predicate IsArray(v: Value) {
    v.Obj? && v.isArray
  }

  /** Own-property read `v[k]` on an object; a missing key (or a non-object) reads as undefined. */
  function Get(v: Value, k: string): (r: Value)
    ensures IsDefined(r) ==> v.Obj? && k in v.fields && r == v.fields[k]
  {
    if v.Obj? && k in v.fields then v.fields[k] else Undefined
  }

  /** Reading a key of a context or props map: `ctx[k]`, undefined when absent. */
  function Lookup(m: map<string, Value>, k: string): (r: Value)
    ensures k !in m ==> r == Undefined
    ensures k in m ==> r == m[k]
  {
    if k in m then m[k] else Undefined
  }

  /** `arr.indexOf(k) !== -1` for an array `arr` and a string `k` (strict equality). */
  predicate Includes(arr: Value, k: string)
    requires IsArray(arr)
  {
    Str(k) in arr.fields.Values
  }

  /** The value reached from `v` by reading the keys of `path` in turn (undefined once a step is missing). */
  function At(v: Value, path: seq<string>): Value
    decreases |path|
  {
    if path == [] then v else At(Get(v, path[0]), path[1..])
  }

  lemma {:induction false} AtUndefined(path: seq<string>)
    ensures At(Undefined, path) == Undefined
    decreases |path|
  {
    if path != [] {
      AtUndefined(path[1..]);
    }
  }

  /** No array anywhere inside `v`: arrays are the one kind of object a merge does not reproduce. */
  predicate NoArrays(v: Value)
    decreases v
  {
    match v
    case Obj(fields, isArray) => !isArray && forall k | k in fields :: NoArrays(fields[k])
    case _ => true
  }
}
