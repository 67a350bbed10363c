/**
 The JSON-like values a winston `info` object is made of, and the two
 read-only views of them the formatters rely on: property lookup along a
 path (lodash `_.get`) and path presence.
 */
module JsValue {

  datatype Option<T> = None | Some(value: T)

  /** A property key: a string, or the `LEVEL` symbol of the triple-beam package. */
  datatype Key = Str(name: string) | LevelSym

  /** A JavaScript value as far as the formatters can tell values apart:
      plain objects are maps, everything else is a leaf. */
  datatype Value =
    | Obj(fields: map<Key, Value>)
    | Text(s: string)
    | Num(n: int)
    | Boolean(b: bool)
    | Null
    | Undefined

  /** A winston `info` object. */
  type Record = map<Key, Value>

  /** A property path already split into keys, never empty
      (`'req.headers["x-auth-token"]'` is `[Str("req"), Str("headers"), Str("x-auth-token")]`). */
  type Path = p: seq<Key> | |p| > 0 witness [LevelSym]

  function Lookup(m: Record, k: Key): (r: Option<Value>) {
    if k in m then Some(m[k]) else None
  }

  /** `m[k]` in JavaScript: `undefined` for a missing property. */
  function ValueAt(m: Record, k: Key): (r: Value)
    ensures k !in m ==> r == Undefined
    ensures k in m ==> r == m[k]
  {
    if k in m then m[k] else Undefined
  }

  /** The string keys of an object: the keys `for ... in` enumerates. */
  function StrKeys(m: Record): (ks: set<Key>)
    ensures ks <= m.Keys
    ensures forall k :: k in m && k.Str? <==> k in ks
  {
    set k | k in m && k.Str?
  }

  /** The property named by the last key of `path` exists in the plain object
      that the rest of `path` leads to. */
  predicate Has(v: Value, path: seq<Key>)
    decreases |path|
  {
    && |path| > 0
    && v.Obj?
    && path[0] in v.fields
    && (|path| == 1 || Has(v.fields[path[0]], path[1..]))
  }

  /** `_.get(v, path)`: descends through plain objects; a property that is not
      present, or a leaf on the way, yields `undefined` rather than a failure. */
  function Get(v: Value, path: seq<Key>): (r: Value)
    ensures |path| > 0 && !Has(v, path) ==> r == Undefined
    decreases |path|
  {
    if |path| == 0 then v
    else if v.Obj? && path[0] in v.fields then Get(v.fields[path[0]], path[1..])
    else Undefined
  }

  /** No plain object anywhere inside `v` has a symbol key. */
  predicate SymbolFree(v: Value) {
    match v
    case Obj(m) => forall k :: k in m ==> k.Str? && SymbolFree(m[k])
    case _ => true
  }

  /** The copy of a value that `_.merge` builds when it merges it into a fresh
      object: plain objects are copied through their string keys only, so
      symbol-keyed properties are dropped at every depth; leaves are shared. */
  function Clone(v: Value): (r: Value)
    ensures SymbolFree(r)
    ensures !v.Obj? ==> r == v
    ensures v.Obj? ==> r.Obj? && r.fields.Keys == StrKeys(v.fields)
  {
    match v
    case Obj(m) => Obj(map k | k in m && k.Str? :: Clone(m[k]))
    case _ => v
  }

  /** Cloning changes nothing in a value without symbol keys. */
  lemma {:induction false} CloneOfSymbolFree(v: Value)
    requires SymbolFree(v)
    ensures Clone(v) == v
  {
    match v
    case Obj(m) =>
      forall k | k in m
        ensures Clone(m[k]) == m[k]
      {
        CloneOfSymbolFree(m[k]);
      }
      assert Clone(v).fields == m;
    case _ =>
  }
}
