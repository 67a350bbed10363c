/**
 The four lodash operations the formatters are built from, on values:
 `_.pick` with plain key names, `_.merge` (deep, into plain objects),
 `_.unset` of one path and `_.omit` of a list of paths.
 */
module Lodash {
  import opened JsValue

  /** `_.pick(m, names)` for dot-free names: the named string properties that
      are present (even when their value is `undefined`), values shared. */
  function Pick(m: Record, names: seq<string>): (r: Record)
    ensures r.Keys <= m.Keys
    ensures forall k :: k in r <==> k in m && k.Str? && k.name in names
    ensures forall k :: k in r ==> r[k] == m[k]
  {
    map k | k in m && k.Str? && k.name in names :: m[k]
  }

  /** The value `_.merge` leaves at a key whose current value is `current` (`None`
      when the key is absent) when the source holds `src` there. A plain object
      is merged into the current value if that is a plain object, otherwise
      into a fresh object; `undefined` never overwrites a present key; any
      other leaf replaces what was there. Only string keys of the source are
      visited. */
  function MergeValue(current: Option<Value>, src: Value): (r: Value)
    ensures src.Obj? ==> r.Obj?
    ensures src.Obj? && current.Some? && current.value.Obj? ==>
              r.fields.Keys == current.value.fields.Keys + StrKeys(src.fields)
    decreases src
  {
    match src
    case Obj(sm) =>
      var base := if current.Some? && current.value.Obj? then current.value.fields else map[];
      Obj(map k | k in base.Keys + StrKeys(sm) ::
            if k in sm && k.Str? then MergeValue(Lookup(base, k), sm[k]) else base[k])
    case Undefined => if current.Some? then current.value else Undefined
    case _ => src
  }

  /** `_.merge(dst, src)`: the destination object after the merge. */
  function Merge(dst: Record, src: Record): (r: Record)
    ensures r.Keys == dst.Keys + StrKeys(src)
  {
    MergeValue(Some(Obj(dst)), Obj(src)).fields
  }

  /** Merge touches only the string keys of the source, each as `MergeValue` says. */
  lemma MergeAt(dst: Record, src: Record, k: Key)
    requires k in dst || k in StrKeys(src)
    ensures k in Merge(dst, src)
    ensures k in StrKeys(src) ==> Merge(dst, src)[k] == MergeValue(Lookup(dst, k), src[k])
    ensures k !in StrKeys(src) ==> Merge(dst, src)[k] == dst[k]
  {
  }

  /** A source `undefined` never overwrites a present value. */
  lemma MergeUndefinedKeeps(c: Value)
    ensures MergeValue(Some(c), Undefined) == c
  {
  }

  /** Any other source leaf replaces what was there. */
  lemma MergeLeafReplaces(current: Option<Value>, src: Value)
    requires !src.Obj? && !src.Undefined?
    ensures MergeValue(current, src) == src
  {
  }

  /** Merging into an absent key, or into a leaf, builds a fresh copy: the
      source cloned through its string keys. */
  lemma {:induction false} MergeIntoFreshIsClone(current: Option<Value>, v: Value)
    requires current.None? || !current.value.Obj?
    requires v.Obj? || current.None?
    ensures MergeValue(current, v) == Clone(v)
    decreases v
  {
    match v
    case Obj(m) =>
      var r := MergeValue(current, v);
      forall k | k in m && k.Str?
        ensures MergeValue(None, m[k]) == Clone(m[k])
      {
        MergeIntoFreshIsClone(None, m[k]);
      }
      assert r.fields == Clone(v).fields;
    case _ =>
  }

  /** `_.unset(v, path)`: deletes the last key of `path` from the plain object
      the rest of `path` leads to; when there is no such object nothing changes. */
  function Unset(v: Value, path: Path): (r: Value)
    ensures v.Obj? <==> r.Obj?
    ensures v.Obj? ==> r.fields.Keys <= v.fields.Keys
    decreases |path|
  {
    if !v.Obj? then v
    else if |path| == 1 then Obj(v.fields - {path[0]})
    else if path[0] in v.fields then
      Obj(v.fields[path[0] := Unset(v.fields[path[0]], path[1..])])
    else v
  }

  /** `_.omit(v, paths)`: a copy of `v` with every path unset, last path first. */
  function OmitPaths(v: Value, paths: seq<Path>): (r: Value)
    ensures v.Obj? <==> r.Obj?
    ensures v.Obj? ==> r.fields.Keys <= v.fields.Keys
    decreases |paths|
  {
    if |paths| == 0 then v
    else OmitPaths(Unset(v, paths[|paths| - 1]), paths[..|paths| - 1])
  }

  /** `_.omit` of a record: it never adds a property. */
  function Omit(m: Record, paths: seq<Path>): (r: Record)
    ensures r.Keys <= m.Keys
  {
    OmitPaths(Obj(m), paths).fields
  }

  /** The one-key paths naming top-level properties. */
  function TopLevelPaths(names: seq<string>): (ps: seq<Path>) {
    seq(|names|, i requires 0 <= i < |names| => [Str(names[i])])
  }

  function KeysNamed(names: seq<string>): (ks: set<Key>) {
    set n | n in names :: Str(n)
  }

  /** After an unset the path is gone. */
  lemma {:induction false} UnsetRemoves(v: Value, path: Path)
    ensures !Has(Unset(v, path), path)
    decreases |path|
  {
    if v.Obj? && |path| > 1 && path[0] in v.fields {
      UnsetRemoves(v.fields[path[0]], path[1..]);
    }
  }

  /** Unsetting a path that is not there changes nothing. */
  lemma {:induction false} UnsetMissing(v: Value, path: Path)
    requires !Has(v, path)
    ensures Unset(v, path) == v
    decreases |path|
  {
    if v.Obj? && |path| > 1 && path[0] in v.fields {
      UnsetMissing(v.fields[path[0]], path[1..]);
      assert v.fields[path[0] := v.fields[path[0]]] == v.fields;
    }
  }

  /** Unsetting never makes a missing path appear. */
  lemma {:induction false} UnsetKeepsMissing(v: Value, path: Path, q: Path)
    requires !Has(v, q)
    ensures !Has(Unset(v, path), q)
    decreases |path|
  {
    if v.Obj? && |path| > 1 && path[0] in v.fields && |q| > 1 && q[0] == path[0] {
      UnsetKeepsMissing(v.fields[path[0]], path[1..], q[1..]);
    }
  }

  lemma {:induction false} OmitKeepsMissing(v: Value, paths: seq<Path>, q: Path)
    requires !Has(v, q)
    ensures !Has(OmitPaths(v, paths), q)
    decreases |paths|
  {
    if |paths| > 0 {
      UnsetKeepsMissing(v, paths[|paths| - 1], q);
      OmitKeepsMissing(Unset(v, paths[|paths| - 1]), paths[..|paths| - 1], q);
    }
  }

  /** After an omit none of the omitted paths is present. */
  lemma {:induction false} OmitRemoves(v: Value, paths: seq<Path>)
    ensures forall i :: 0 <= i < |paths| ==> !Has(OmitPaths(v, paths), paths[i])
    decreases |paths|
  {
    if |paths| > 0 {
      var n := |paths| - 1;
      var u := Unset(v, paths[n]);
      OmitRemoves(u, paths[..n]);
      UnsetRemoves(v, paths[n]);
      OmitKeepsMissing(u, paths[..n], paths[n]);
      forall i | 0 <= i < |paths| ensures !Has(OmitPaths(v, paths), paths[i]) {
        if i < n {
          assert paths[..n][i] == paths[i];
        }
      }
    }
  }

  /** Omitting paths none of which is present changes nothing. */
  lemma {:induction false} OmitMissing(v: Value, paths: seq<Path>)
    requires forall i :: 0 <= i < |paths| ==> !Has(v, paths[i])
    ensures OmitPaths(v, paths) == v
    decreases |paths|
  {
    if |paths| > 0 {
      var n := |paths| - 1;
      UnsetMissing(v, paths[n]);
      assert forall i :: 0 <= i < n ==> paths[..n][i] == paths[i];
      OmitMissing(v, paths[..n]);
    }
  }

  /** Omitting the same paths twice is the same as omitting them once. */
  lemma OmitIdempotent(v: Value, paths: seq<Path>)
    ensures OmitPaths(OmitPaths(v, paths), paths) == OmitPaths(v, paths)
  {
    OmitRemoves(v, paths);
    OmitMissing(OmitPaths(v, paths), paths);
  }

  /** Omitting a concatenated list omits the later part first. */
  lemma {:induction false} OmitAppend(v: Value, a: seq<Path>, b: seq<Path>)
    ensures OmitPaths(v, a + b) == OmitPaths(OmitPaths(v, b), a)
    decreases |b|
  {
    if |b| == 0 {
      assert a + b == a;
    } else {
      var n := |b| - 1;
      assert (a + b)[|a + b| - 1] == b[n];
      assert (a + b)[..|a + b| - 1] == a + b[..n];
      OmitAppend(Unset(v, b[n]), a, b[..n]);
    }
  }

  /** Omitting one-key paths removes exactly those top-level keys. */
  lemma {:induction false} OmitTopLevel(m: Record, names: seq<string>)
    ensures Omit(m, TopLevelPaths(names)) == m - KeysNamed(names)
    decreases |names|
  {
    if |names| > 0 {
      var n := |names| - 1;
      var init := names[..n];
      assert TopLevelPaths(names)[..n] == TopLevelPaths(init);
      OmitTopLevel(m - {Str(names[n])}, init);
      assert KeysNamed(names) == KeysNamed(init) + {Str(names[n])} by {
        assert names == init + [names[n]];
      }
      assert m - {Str(names[n])} - KeysNamed(init) == m - KeysNamed(names);
    }
  }
}
