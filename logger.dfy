/**
 The winston formatters of the service's logging standard, and the two format
 chains built from them. Each formatter turns one `info` record into the next;
 the chains end with a record of exactly two properties, the `LEVEL` symbol
 and `rpk`, that winston then serialises.

   { [LEVEL]: ..., rpk: { log: { type, level, message, ... }, req: ..., res: ... } }
 */
module RpkLogger {
  import opened JsValue
  import opened Lodash

  /** The properties the common formatter moves under `log` when present. */
  const RemappedKeys: seq<string> := ["level", "timestamp", "message", "line", "file", "threadID"]

  /** The request headers the request/response formatter strips. */
  const SensitiveHeaders: seq<string> := ["authorization", "cookie", "x-auth-token", "x-consumer-profile"]

  /** The paths the request/response formatter omits, in the order they are listed. */
  const RedactedPaths: seq<Path> := [
    [Str("meta")],
    [Str("req"), Str("headers"), Str("authorization")],
    [Str("req"), Str("headers"), Str("cookie")],
    [Str("req"), Str("headers"), Str("x-auth-token")],
    [Str("req"), Str("headers"), Str("x-consumer-profile")]
  ]

  const MetaReq: seq<Key> := [Str("meta"), Str("req")]
  const MetaRes: seq<Key> := [Str("meta"), Str("res")]

  //
  // The formatters
  //

  /** Nests the remapped properties, plus `type`, under `log`, and drops them
      from the top level. */
  function CommonLogInfo(info: Record, logType: string): (r: Record)
    ensures r.Keys == (info.Keys - RemappedKeySet()) + {Str("log")}
    ensures r[Str("log")].Obj?
  {
    var logInfoToNest := Merge(Pick(info, RemappedKeys), map[Str("type") := Text(logType)]);
    var src := map[Str("log") := Obj(logInfoToNest)];
    assert StrKeys(src) == {Str("log")};
    MergeAt(info, src, Str("log"));
    OmitTopLevel(Merge(info, src), RemappedKeys);
    LogNotRemapped();
    Omit(Merge(info, src), TopLevelPaths(RemappedKeys))
  }

  /** Lifts `meta.req` and `meta.res` to the top level, then omits `meta` and
      the sensitive request headers. */
  function LiftRequestResponse(info: Record): (r: Record)
    ensures r.Keys == (info.Keys - {Str("meta")}) + {Str("req"), Str("res")}
  {
    var src := map[Str("req") := Get(Obj(info), MetaReq), Str("res") := Get(Obj(info), MetaRes)];
    assert StrKeys(src) == {Str("req"), Str("res")};
    OmitRedacted(Merge(info, src));
    Omit(Merge(info, src), RedactedPaths)
  }

  /** Wraps the whole record as `rpk`, keeping the `LEVEL` symbol beside it. */
  function PackageAsRpk(info: Record): (r: Record)
    ensures r.Keys == {LevelSym, Str("rpk")}
    ensures r[Str("rpk")] == Obj(info)
    ensures r[LevelSym] == (if LevelSym in info then info[LevelSym] else Undefined)
  {
    map[LevelSym := ValueAt(info, LevelSym), Str("rpk") := Obj(info)]
  }

  /** The access-log chain of the HTTP middleware logger. */
  function AccessFormat(info: Record): (r: Record)
    ensures r.Keys == {LevelSym, Str("rpk")}
    ensures r[Str("rpk")].Obj?
    ensures var rpk := r[Str("rpk")].fields;
      Str("log") in rpk && Str("req") in rpk && Str("res") in rpk && Str("meta") !in rpk
  {
    PackageAsRpk(LiftRequestResponse(CommonLogInfo(info, "access")))
  }

  /** The application-log chain. */
  function AppFormat(info: Record): (r: Record)
    ensures r.Keys == {LevelSym, Str("rpk")}
    ensures r[Str("rpk")].Obj?
    ensures var rpk := r[Str("rpk")].fields;
      Str("log") in rpk && rpk[Str("log")].Obj?
  {
    PackageAsRpk(CommonLogInfo(info, "app"))
  }

  //
  // Reference definitions
  //

  ghost function RemappedKeySet(): (ks: set<Key>) {
    KeysNamed(RemappedKeys)
  }

  /** A request with the named headers removed, when it is a plain object
      whose `headers` is a plain object; any other value as it is. */
  function DropHeaders(req: Value, names: set<Key>): (r: Value)
    ensures req.Obj? <==> r.Obj?
    ensures req.Obj? ==> r.fields.Keys == req.fields.Keys
    ensures req.Obj? ==> forall k :: k in req.fields && k != Str("headers") ==> r.fields[k] == req.fields[k]
    ensures forall n :: n in names ==> !Has(r, [Str("headers"), n])
    ensures forall n :: n !in names && Has(req, [Str("headers"), n]) ==>
              Has(r, [Str("headers"), n]) && Get(r, [Str("headers"), n]) == Get(req, [Str("headers"), n])
  {
    if req.Obj? && Str("headers") in req.fields && req.fields[Str("headers")].Obj? then
      Obj(req.fields[Str("headers") := Obj(req.fields[Str("headers")].fields - names)])
    else req
  }

  /** `req.headers` holds none of the sensitive headers. */
  predicate Redacted(r: Record) {
    forall i :: 0 <= i < |SensitiveHeaders| ==>
      !Has(Obj(r), [Str("req"), Str("headers"), Str(SensitiveHeaders[i])])
  }

  /** Property `k` is in `after` exactly when it was in `before`, with the same value. */
  predicate Carried(before: Record, after: Record, k: Key) {
    (k in after <==> k in before) && (k in before ==> after[k] == before[k])
  }

  /** The header paths for the given names, under `req.headers`. */
  function HeaderPaths(names: seq<string>): (ps: seq<Path>) {
    seq(|names|, i requires 0 <= i < |names| => [Str("req"), Str("headers"), Str(names[i])])
  }

  //
  // Common formatter
  //

  lemma RemappedKeySetIs()
    ensures RemappedKeySet() ==
      {Str("level"), Str("timestamp"), Str("message"), Str("line"), Str("file"), Str("threadID")}
  {
  }

  lemma SensitiveKeySetIs()
    ensures KeysNamed(SensitiveHeaders) ==
      {Str("authorization"), Str("cookie"), Str("x-auth-token"), Str("x-consumer-profile")}
  {
  }

  lemma LogNotRemapped()
    ensures Str("log") !in RemappedKeySet()
    ensures LevelSym !in RemappedKeySet()
    ensures Str("type") !in RemappedKeySet()
    ensures Str("meta") !in RemappedKeySet()
    ensures Str("req") !in RemappedKeySet() && Str("res") !in RemappedKeySet()
  {
  }

  /** The record `log` is built from: the present remapped properties and `type`. */
  lemma LogInfoToNest(info: Record, logType: string)
    ensures var nest := Merge(Pick(info, RemappedKeys), map[Str("type") := Text(logType)]);
      && nest.Keys == (info.Keys * RemappedKeySet()) + {Str("type")}
      && nest[Str("type")] == Text(logType)
      && forall k :: k in info && k in RemappedKeySet() ==> nest[k] == info[k]
  {
    var picked := Pick(info, RemappedKeys);
    var nest := Merge(picked, map[Str("type") := Text(logType)]);
    LogNotRemapped();
    assert picked.Keys == info.Keys * RemappedKeySet();
    MergeAt(picked, map[Str("type") := Text(logType)], Str("type"));
    forall k | k in info && k in RemappedKeySet() ensures nest[k] == info[k] {
      MergeAt(picked, map[Str("type") := Text(logType)], k);
    }
  }

  /** The common formatter, top level: the remapped properties are gone, `log`
      is there, and every other property keeps its value. */
  lemma CommonTopLevel(info: Record, logType: string)
    ensures var out := CommonLogInfo(info, logType);
      && out.Keys == (info.Keys - RemappedKeySet()) + {Str("log")}
      && forall k :: k in info && k !in RemappedKeySet() && k != Str("log") ==> out[k] == info[k]
  {
    var nest := Merge(Pick(info, RemappedKeys), map[Str("type") := Text(logType)]);
    var merged := Merge(info, map[Str("log") := Obj(nest)]);
    OmitTopLevel(merged, RemappedKeys);
    LogNotRemapped();
    forall k | k in info && k !in RemappedKeySet() && k != Str("log")
      ensures CommonLogInfo(info, logType)[k] == info[k]
    {
      MergeAt(info, map[Str("log") := Obj(nest)], k);
    }
  }

  /** The common formatter leaves the `LEVEL` symbol alone. */
  lemma CommonKeepsLevel(info: Record, logType: string)
    ensures Carried(info, CommonLogInfo(info, logType), LevelSym)
  {
    CommonTopLevel(info, logType);
    LogNotRemapped();
  }

  /** The `log` the common formatter produces, in terms of what was there before. */
  lemma CommonLogAt(info: Record, logType: string)
    ensures var out := CommonLogInfo(info, logType);
      && Str("log") in out
      && out[Str("log")] == MergeValue(Lookup(info, Str("log")),
           Obj(Merge(Pick(info, RemappedKeys), map[Str("type") := Text(logType)])))
  {
    var nest := Merge(Pick(info, RemappedKeys), map[Str("type") := Text(logType)]);
    var merged := Merge(info, map[Str("log") := Obj(nest)]);
    OmitTopLevel(merged, RemappedKeys);
    LogNotRemapped();
    MergeAt(info, map[Str("log") := Obj(nest)], Str("log"));
  }

  /** `log.type` always comes from the formatter's option, whatever the record
      held, and every present remapped property ends up inside `log`. */
  lemma CommonLogType(info: Record, logType: string)
    ensures var out := CommonLogInfo(info, logType);
      && Str("log") in out && out[Str("log")].Obj?
      && Str("type") in out[Str("log")].fields
      && out[Str("log")].fields[Str("type")] == Text(logType)
      && info.Keys * RemappedKeySet() <= out[Str("log")].fields.Keys
  {
    var nest := Merge(Pick(info, RemappedKeys), map[Str("type") := Text(logType)]);
    CommonLogAt(info, logType);
    LogInfoToNest(info, logType);
    var cur := Lookup(info, Str("log"));
    var base := if cur.Some? && cur.value.Obj? then cur.value.fields else map[];
    assert MergeValue(cur, Obj(nest)).fields[Str("type")] == MergeValue(Lookup(base, Str("type")), Text(logType));
  }

  /** A `log` object already in the record is merged into, not replaced: its
      properties stay, and only the remapped ones and `type` are written over. */
  lemma CommonLogKeepsExisting(info: Record, logType: string)
    requires Str("log") in info && info[Str("log")].Obj?
    ensures var out := CommonLogInfo(info, logType);
      && Str("log") in out && out[Str("log")].Obj?
      && out[Str("log")].fields.Keys ==
           info[Str("log")].fields.Keys + (info.Keys * RemappedKeySet()) + {Str("type")}
      && forall k :: k in info[Str("log")].fields && k !in RemappedKeySet() && k != Str("type") ==>
           out[Str("log")].fields[k] == info[Str("log")].fields[k]
  {
    var nest := Merge(Pick(info, RemappedKeys), map[Str("type") := Text(logType)]);
    CommonLogAt(info, logType);
    LogInfoToNest(info, logType);
    assert StrKeys(nest) == nest.Keys;
  }

  /** For a record without a plain-object `log`, `log` holds exactly the present
      remapped properties (copied as `_.merge` copies them) and `type`. */
  lemma CommonLogFresh(info: Record, logType: string)
    requires Str("log") !in info || !info[Str("log")].Obj?
    ensures var out := CommonLogInfo(info, logType);
      && Str("log") in out && out[Str("log")].Obj?
      && out[Str("log")].fields.Keys == (info.Keys * RemappedKeySet()) + {Str("type")}
      && out[Str("log")].fields[Str("type")] == Text(logType)
      && forall k :: k in info && k in RemappedKeySet() ==> out[Str("log")].fields[k] == Clone(info[k])
  {
    var nest := Merge(Pick(info, RemappedKeys), map[Str("type") := Text(logType)]);
    CommonLogAt(info, logType);
    LogInfoToNest(info, logType);
    MergeIntoFreshIsClone(Lookup(info, Str("log")), Obj(nest));
  }

  /** With no symbol keys inside the remapped values, `log` holds them unchanged. */
  lemma CommonLogFreshSymbolFree(info: Record, logType: string)
    requires Str("log") !in info || !info[Str("log")].Obj?
    requires forall k :: k in info && k in RemappedKeySet() ==> SymbolFree(info[k])
    ensures var out := CommonLogInfo(info, logType);
      && Str("log") in out && out[Str("log")].Obj?
      && info.Keys * RemappedKeySet() <= out[Str("log")].fields.Keys
      && forall k :: k in info && k in RemappedKeySet() ==> out[Str("log")].fields[k] == info[k]
  {
    CommonLogFresh(info, logType);
    var log := CommonLogInfo(info, logType)[Str("log")].fields;
    forall k | k in info && k in RemappedKeySet() ensures log[k] == info[k] {
      assert log[k] == Clone(info[k]);
      CloneOfSymbolFree(info[k]);
    }
  }

  /** The remapped properties present in a record. */
  ghost function RemappedOf(info: Record): (r: Record)
    ensures r.Keys == info.Keys * RemappedKeySet()
  {
    map k | k in info && k in RemappedKeySet() :: info[k]
  }

  lemma CommonLogFreshLog(info: Record, logType: string)
    requires Str("log") !in info || !info[Str("log")].Obj?
    requires forall k :: k in info && k in RemappedKeySet() ==> SymbolFree(info[k])
    ensures var out := CommonLogInfo(info, logType);
      Str("log") in out && out[Str("log")] == Obj(RemappedOf(info)[Str("type") := Text(logType)])
  {
    var expected := RemappedOf(info)[Str("type") := Text(logType)];
    LogNotRemapped();
    CommonLogFreshSymbolFree(info, logType);
    CommonLogFresh(info, logType);
    var log := CommonLogInfo(info, logType)[Str("log")].fields;
    assert log.Keys == expected.Keys;
    assert log == expected;
  }

  /** For a record without a plain-object `log` and with no symbol keys inside
      the remapped values, the whole output: the remapped properties move,
      unchanged and joined by `type`, under `log`; everything else stays. */
  lemma CommonLogFreshShape(info: Record, logType: string)
    requires Str("log") !in info || !info[Str("log")].Obj?
    requires forall k :: k in info && k in RemappedKeySet() ==> SymbolFree(info[k])
    ensures CommonLogInfo(info, logType) ==
      (info - RemappedKeySet())[Str("log") := Obj(RemappedOf(info)[Str("type") := Text(logType)])]
  {
    var out := CommonLogInfo(info, logType);
    var whole := (info - RemappedKeySet())[Str("log") := Obj(RemappedOf(info)[Str("type") := Text(logType)])];
    CommonLogFreshLog(info, logType);
    CommonTopLevel(info, logType);
    assert out.Keys == whole.Keys;
    assert out == whole;
  }

  //
  // Request/response formatter
  //

  lemma DropNoHeaders(req: Value)
    ensures DropHeaders(req, {}) == req
  {
    if req.Obj? && Str("headers") in req.fields && req.fields[Str("headers")].Obj? {
      assert req.fields[Str("headers")].fields - {} == req.fields[Str("headers")].fields;
      assert req.fields[Str("headers") := req.fields[Str("headers")]] == req.fields;
    }
  }

  /** Unsetting one header path is dropping that header. */
  lemma UnsetHeader(req: Value, name: Key)
    ensures Unset(req, [Str("headers"), name]) == DropHeaders(req, {name})
  {
    if req.Obj? && Str("headers") in req.fields && !req.fields[Str("headers")].Obj? {
      assert req.fields[Str("headers") := req.fields[Str("headers")]] == req.fields;
    }
  }

  lemma DropHeadersTwice(req: Value, a: set<Key>, b: set<Key>)
    ensures DropHeaders(DropHeaders(req, a), b) == DropHeaders(req, a + b)
  {
    if req.Obj? && Str("headers") in req.fields && req.fields[Str("headers")].Obj? {
      var h := req.fields[Str("headers")].fields;
      assert h - a - b == h - (a + b);
    }
  }

  /** Omitting `req.headers` paths drops those headers from the top-level `req`. */
  lemma {:induction false} OmitHeaders(m: Record, names: seq<string>)
    requires Str("req") in m
    ensures OmitPaths(Obj(m), HeaderPaths(names)) ==
            Obj(m[Str("req") := DropHeaders(m[Str("req")], KeysNamed(names))])
    decreases |names|
  {
    if |names| == 0 {
      assert KeysNamed(names) == {};
      DropNoHeaders(m[Str("req")]);
      assert m[Str("req") := m[Str("req")]] == m;
    } else {
      var n := |names| - 1;
      var init := names[..n];
      var last := Str(names[n]);
      assert HeaderPaths(names)[..n] == HeaderPaths(init);
      UnsetHeader(m[Str("req")], last);
      var m' := m[Str("req") := DropHeaders(m[Str("req")], {last})];
      assert Unset(Obj(m), HeaderPaths(names)[n]) == Obj(m');
      OmitHeaders(m', init);
      DropHeadersTwice(m[Str("req")], {last}, KeysNamed(init));
      assert KeysNamed(names) == {last} + KeysNamed(init) by {
        assert names == init + [names[n]];
      }
      assert m'[Str("req") := DropHeaders(m'[Str("req")], KeysNamed(init))] ==
             m[Str("req") := DropHeaders(m[Str("req")], KeysNamed(names))];
    }
  }

  /** The redaction list is `meta` followed by the sensitive header paths. */
  lemma RedactedPathsSplit()
    ensures RedactedPaths == [[Str("meta")]] + HeaderPaths(SensitiveHeaders)
  {
    assert HeaderPaths(SensitiveHeaders) == RedactedPaths[1..];
  }

  lemma OmitMeta(m: Record)
    ensures OmitPaths(Obj(m), [[Str("meta")]]) == Obj(m - {Str("meta")})
  {
  }

  /** Omitting the redaction list removes `meta` and the sensitive headers of
      the top-level `req`, and nothing else. */
  lemma OmitRedacted(m: Record)
    requires Str("req") in m
    ensures Omit(m, RedactedPaths) ==
            (m - {Str("meta")})[Str("req") := DropHeaders(m[Str("req")], KeysNamed(SensitiveHeaders))]
  {
    RedactedPathsSplit();
    OmitMetaAndHeaders(m, RedactedPaths);
  }

  lemma OmitMetaAndHeaders(m: Record, paths: seq<Path>)
    requires Str("req") in m
    requires paths == [[Str("meta")]] + HeaderPaths(SensitiveHeaders)
    ensures Omit(m, paths) ==
            (m - {Str("meta")})[Str("req") := DropHeaders(m[Str("req")], KeysNamed(SensitiveHeaders))]
  {
    OmitAppend(Obj(m), [[Str("meta")]], HeaderPaths(SensitiveHeaders));
    OmitHeaders(m, SensitiveHeaders);
    var m' := m[Str("req") := DropHeaders(m[Str("req")], KeysNamed(SensitiveHeaders))];
    OmitMeta(m');
  }


  /** The record `_.merge` leaves before the omit: `req` and `res` merged, the rest untouched. */
  lemma Lifted(info: Record)
    ensures var lifted := Merge(info, map[Str("req") := Get(Obj(info), MetaReq),
                                          Str("res") := Get(Obj(info), MetaRes)]);
      && lifted.Keys == info.Keys + {Str("req"), Str("res")}
      && lifted[Str("req")] == MergeValue(Lookup(info, Str("req")), Get(Obj(info), MetaReq))
      && lifted[Str("res")] == MergeValue(Lookup(info, Str("res")), Get(Obj(info), MetaRes))
      && forall k :: k in info && k != Str("req") && k != Str("res") ==> lifted[k] == info[k]
  {
    var src := map[Str("req") := Get(Obj(info), MetaReq), Str("res") := Get(Obj(info), MetaRes)];
    assert StrKeys(src) == {Str("req"), Str("res")};
    MergeAt(info, src, Str("req"));
    MergeAt(info, src, Str("res"));
    forall k | k in info && k != Str("req") && k != Str("res")
      ensures Merge(info, src)[k] == info[k]
    {
      MergeAt(info, src, k);
    }
  }

  /** The request/response formatter, completely: `meta` is gone; `req` and
      `res` are the values under `meta` merged into whatever was there, with
      the sensitive headers dropped from `req`; nothing else changes. */
  lemma LiftShape(info: Record)
    ensures LiftRequestResponse(info) ==
      (info - {Str("meta")})
        [Str("req") := DropHeaders(MergeValue(Lookup(info, Str("req")), Get(Obj(info), MetaReq)),
                                   KeysNamed(SensitiveHeaders))]
        [Str("res") := MergeValue(Lookup(info, Str("res")), Get(Obj(info), MetaRes))]
  {
    var lifted := Merge(info, map[Str("req") := Get(Obj(info), MetaReq),
                                  Str("res") := Get(Obj(info), MetaRes)]);
    var req := DropHeaders(MergeValue(Lookup(info, Str("req")), Get(Obj(info), MetaReq)),
                           KeysNamed(SensitiveHeaders));
    var res := MergeValue(Lookup(info, Str("res")), Get(Obj(info), MetaRes));
    Lifted(info);
    assert (lifted - {Str("meta")})[Str("req") := DropHeaders(lifted[Str("req")], KeysNamed(SensitiveHeaders))] ==
           (info - {Str("meta")})[Str("req") := req][Str("res") := res];
    OmitRedacted(lifted);
  }

  /** The request/response formatter keeps every property other than `meta`,
      `req` and `res`, and always yields `req` and `res`. */
  lemma LiftKeeps(info: Record)
    ensures var out := LiftRequestResponse(info);
      && out.Keys == (info.Keys - {Str("meta")}) + {Str("req"), Str("res")}
      && forall k :: k in info && k != Str("meta") && k != Str("req") && k != Str("res") ==> out[k] == info[k]
  {
    LiftShape(info);
  }

  /** A `req` already in the record, with nothing under `meta.req`, stays:
      merging `undefined` does not overwrite it; only its sensitive headers go. */
  lemma LiftKeepsReq(info: Record)
    requires Str("req") in info && !Has(Obj(info), MetaReq)
    ensures Str("req") in LiftRequestResponse(info)
    ensures LiftRequestResponse(info)[Str("req")] == DropHeaders(info[Str("req")], KeysNamed(SensitiveHeaders))
  {
    LiftShape(info);
  }

  /** Likewise a `res` already in the record, with nothing under `meta.res`,
      stays as it is. */
  lemma LiftKeepsRes(info: Record)
    requires Str("res") in info && !Has(Obj(info), MetaRes)
    ensures Str("res") in LiftRequestResponse(info)
    ensures LiftRequestResponse(info)[Str("res")] == info[Str("res")]
  {
    LiftShape(info);
  }

  /** The request/response formatter leaves the `LEVEL` symbol alone. */
  lemma LiftKeepsLevel(info: Record)
    ensures Carried(info, LiftRequestResponse(info), LevelSym)
  {
    LiftKeeps(info);
  }

  /** For a record without top-level `req` and `res`, they become copies of
      `meta.req` and `meta.res` (`undefined` when missing), `req` without its
      sensitive headers. */
  lemma LiftFresh(info: Record)
    requires Str("req") !in info && Str("res") !in info
    ensures var out := LiftRequestResponse(info);
      && out.Keys == (info.Keys - {Str("meta")}) + {Str("req"), Str("res")}
      && out[Str("req")] == DropHeaders(Clone(Get(Obj(info), MetaReq)), KeysNamed(SensitiveHeaders))
      && out[Str("res")] == Clone(Get(Obj(info), MetaRes))
      && forall k :: k in info && k != Str("meta") ==> out[k] == info[k]
  {
    LiftShape(info);
    MergeIntoFreshIsClone(None, Get(Obj(info), MetaReq));
    MergeIntoFreshIsClone(None, Get(Obj(info), MetaRes));
  }

  /** When the values under `meta` have no symbol keys, `req` and `res` are those
      very values, `req` less its sensitive headers. */
  lemma LiftFreshSymbolFree(info: Record)
    requires Str("req") !in info && Str("res") !in info
    requires SymbolFree(Get(Obj(info), MetaReq)) && SymbolFree(Get(Obj(info), MetaRes))
    ensures LiftRequestResponse(info) ==
      (info - {Str("meta")})
        [Str("req") := DropHeaders(Get(Obj(info), MetaReq), KeysNamed(SensitiveHeaders))]
        [Str("res") := Get(Obj(info), MetaRes)]
  {
    LiftShape(info);
    MergeIntoFreshIsClone(None, Get(Obj(info), MetaReq));
    MergeIntoFreshIsClone(None, Get(Obj(info), MetaRes));
    CloneOfSymbolFree(Get(Obj(info), MetaReq));
    CloneOfSymbolFree(Get(Obj(info), MetaRes));
  }

  /** A record with no `meta`, `req` or `res` gains `req` and `res` set to
      `undefined`, and is otherwise unchanged: nothing fails on the missing paths. */
  lemma LiftWithoutMeta(info: Record)
    requires Str("meta") !in info && Str("req") !in info && Str("res") !in info
    ensures LiftRequestResponse(info) == info[Str("req") := Undefined][Str("res") := Undefined]
  {
    LiftFresh(info);
    assert Get(Obj(info), MetaReq) == Undefined;
    assert Get(Obj(info), MetaRes) == Undefined;
  }

  /** The formatter's output has no `meta` and no sensitive header under `req.headers`. */
  lemma LiftRedacts(info: Record)
    ensures Str("meta") !in LiftRequestResponse(info)
    ensures Redacted(LiftRequestResponse(info))
  {
    var lifted := Merge(info, map[Str("req") := Get(Obj(info), MetaReq),
                                  Str("res") := Get(Obj(info), MetaRes)]);
    OmitRemoves(Obj(lifted), RedactedPaths);
    assert !Has(OmitPaths(Obj(lifted), RedactedPaths), RedactedPaths[0]);
    forall i | 0 <= i < |SensitiveHeaders|
      ensures !Has(Obj(LiftRequestResponse(info)), [Str("req"), Str("headers"), Str(SensitiveHeaders[i])])
    {
      assert RedactedPaths[i + 1] == [Str("req"), Str("headers"), Str(SensitiveHeaders[i])];
    }
  }

  /** Redaction is idempotent: omitting the list from an already-redacted
      record gives the same record. */
  lemma RedactionIdempotent(r: Record)
    ensures Omit(Omit(r, RedactedPaths), RedactedPaths) == Omit(r, RedactedPaths)
  {
    OmitIdempotent(Obj(r), RedactedPaths);
  }

  /** The formatter's output is already redacted. */
  lemma LiftOutputRedacted(info: Record)
    ensures Omit(LiftRequestResponse(info), RedactedPaths) == LiftRequestResponse(info)
  {
    var lifted := Merge(info, map[Str("req") := Get(Obj(info), MetaReq),
                                  Str("res") := Get(Obj(info), MetaRes)]);
    OmitIdempotent(Obj(lifted), RedactedPaths);
  }

  //
  // The chains
  //

  /** The access chain: `LEVEL` and `rpk` only; `rpk.log.type` is "access";
      `rpk` holds `req` and `res`, no `meta` and no sensitive header. */
  lemma AccessChain(info: Record)
    ensures var out := AccessFormat(info);
      && out.Keys == {LevelSym, Str("rpk")}
      && out[LevelSym] == ValueAt(info, LevelSym)
      && out[Str("rpk")].Obj?
      && var rpk := out[Str("rpk")].fields;
      && Str("log") in rpk && rpk[Str("log")].Obj?
      && Str("type") in rpk[Str("log")].fields
      && rpk[Str("log")].fields[Str("type")] == Text("access")
      && Str("req") in rpk && Str("res") in rpk
      && Str("meta") !in rpk
      && Redacted(rpk)
  {
    var common := CommonLogInfo(info, "access");
    CommonKeepsLevel(info, "access");
    LiftKeepsLevel(common);
    CommonLogType(info, "access");
    LiftKeeps(common);
    LiftRedacts(common);
  }

  /** The app chain: `LEVEL` and `rpk` only; `rpk.log.type` is "app"; `req`,
      `res` and `meta` are in `rpk` exactly when the record had them, unchanged. */
  lemma AppChain(info: Record)
    ensures var out := AppFormat(info);
      && out.Keys == {LevelSym, Str("rpk")}
      && out[LevelSym] == ValueAt(info, LevelSym)
      && out[Str("rpk")].Obj?
      && var rpk := out[Str("rpk")].fields;
      && Str("log") in rpk && rpk[Str("log")].Obj?
      && Str("type") in rpk[Str("log")].fields
      && rpk[Str("log")].fields[Str("type")] == Text("app")
      && Carried(info, rpk, Str("req")) && Carried(info, rpk, Str("res"))
      && Carried(info, rpk, Str("meta"))
  {
    CommonKeepsLevel(info, "app");
    CommonTopLevel(info, "app");
    CommonLogType(info, "app");
    LogNotRemapped();
  }

  /** Stage order matters: packaging before lifting leaves `meta`, sensitive
      headers included, inside `rpk`. */
  lemma PackagingFirstLeaks(info: Record)
    requires Has(Obj(info), [Str("meta"), Str("req"), Str("headers"), Str("authorization")])
    ensures Has(Obj(LiftRequestResponse(PackageAsRpk(CommonLogInfo(info, "access")))),
                [Str("rpk"), Str("meta"), Str("req"), Str("headers"), Str("authorization")])
  {
    var common := CommonLogInfo(info, "access");
    CommonTopLevel(info, "access");
    LogNotRemapped();
    assert common[Str("meta")] == info[Str("meta")];
    var packaged := PackageAsRpk(common);
    LiftShape(packaged);
  }
}
