/**
 Two worked records through the chains, each carrying the `LEVEL` symbol as
 winston's records do: an access log whose request has an `authorization`
 header, and an application error log.
 */
module LoggerScenarios {
  import opened JsValue
  import opened Lodash
  import opened RpkLogger

  const Res: Value := Obj(map[Str("statusCode") := Num(200)])
  const RedactedReq: Value := Obj(map[Str("headers") := Obj(map[Str("host") := Text("a")])])
  const AccessLog: Record :=
    map[Str("type") := Text("access"), Str("level") := Text("info"), Str("message") := Text("hit")]

  function Headers(authorization: string): Record {
    map[Str("authorization") := Text(authorization), Str("host") := Text("a")]
  }

  function Req(authorization: string): Value {
    Obj(map[Str("headers") := Obj(Headers(authorization))])
  }

  function Meta(authorization: string): Value {
    Obj(map[Str("req") := Req(authorization), Str("res") := Res])
  }

  /** `{[LEVEL]: "info", level: "info", message: "hit", meta: {req: {headers:
      {authorization: ..., host: "a"}}, res: {statusCode: 200}}}` */
  function AccessInput(authorization: string): Record {
    map[LevelSym := Text("info"), Str("level") := Text("info"), Str("message") := Text("hit"),
        Str("meta") := Meta(authorization)]
  }

  lemma AccessInputParts(authorization: string)
    ensures AccessInput(authorization) - RemappedKeySet() ==
            map[LevelSym := Text("info"), Str("meta") := Meta(authorization)]
    ensures RemappedOf(AccessInput(authorization))[Str("type") := Text("access")] == AccessLog
  {
    var info := AccessInput(authorization);
    RemappedKeySetIs();
    assert info.Keys == {LevelSym, Str("level"), Str("message"), Str("meta")};
    assert info.Keys * RemappedKeySet() == {Str("level"), Str("message")};
    assert RemappedOf(info) == map[Str("level") := Text("info"), Str("message") := Text("hit")];
  }

  lemma AccessScenarioCommon(authorization: string)
    ensures CommonLogInfo(AccessInput(authorization), "access") ==
            map[LevelSym := Text("info"), Str("meta") := Meta(authorization), Str("log") := Obj(AccessLog)]
  {
    AccessInputParts(authorization);
    CommonLogFreshShape(AccessInput(authorization), "access");
  }

  lemma ScenarioRequestRedacted(authorization: string)
    ensures SymbolFree(Req(authorization)) && SymbolFree(Res)
    ensures DropHeaders(Req(authorization), KeysNamed(SensitiveHeaders)) == RedactedReq
  {
    var headers := Headers(authorization);
    assert SymbolFree(Obj(headers));
    SensitiveKeySetIs();
    assert headers - KeysNamed(SensitiveHeaders) == map[Str("host") := Text("a")];
  }

  lemma AccessScenarioLift(authorization: string)
    ensures LiftRequestResponse(
              map[LevelSym := Text("info"), Str("meta") := Meta(authorization), Str("log") := Obj(AccessLog)]) ==
            map[LevelSym := Text("info"), Str("log") := Obj(AccessLog), Str("req") := RedactedReq, Str("res") := Res]
  {
    var common := map[LevelSym := Text("info"), Str("meta") := Meta(authorization), Str("log") := Obj(AccessLog)];
    var lifted := map[LevelSym := Text("info"), Str("log") := Obj(AccessLog),
                      Str("req") := RedactedReq, Str("res") := Res];
    assert (common - {Str("meta")})[Str("req") := RedactedReq][Str("res") := Res] == lifted;
    assert Get(Obj(common), MetaReq) == Req(authorization);
    assert Get(Obj(common), MetaRes) == Res;
    ScenarioRequestRedacted(authorization);
    LiftFreshSymbolFree(common);
  }

  /** The access record through the access chain: the `authorization` header
      is gone, the response status survives, `meta` does not. */
  lemma AccessScenario(authorization: string)
    ensures AccessFormat(AccessInput(authorization)) == map[
      LevelSym := Text("info"),
      Str("rpk") := Obj(map[LevelSym := Text("info"), Str("log") := Obj(AccessLog),
                            Str("req") := RedactedReq, Str("res") := Res])]
  {
    var lifted := map[LevelSym := Text("info"), Str("log") := Obj(AccessLog),
                      Str("req") := RedactedReq, Str("res") := Res];
    assert PackageAsRpk(lifted) == map[LevelSym := Text("info"), Str("rpk") := Obj(lifted)];
    AccessScenarioCommon(authorization);
    AccessScenarioLift(authorization);
  }

  const AppLog: Record :=
    map[Str("type") := Text("app"), Str("level") := Text("error"), Str("message") := Text("boom"),
        Str("line") := Num(42)]

  /** `{[LEVEL]: "error", level: "error", message: "boom", line: 42}` */
  function AppInput(): Record {
    map[LevelSym := Text("error"), Str("level") := Text("error"), Str("message") := Text("boom"),
        Str("line") := Num(42)]
  }

  /** The application record through the app chain: `log` is `{type: "app",
      level: "error", message: "boom", line: 42}`, and there is no `req` or `res`. */
  lemma AppInputParts()
    ensures AppInput() - RemappedKeySet() == map[LevelSym := Text("error")]
    ensures RemappedOf(AppInput())[Str("type") := Text("app")] == AppLog
  {
    RemappedKeySetIs();
    assert AppInput().Keys == {LevelSym, Str("level"), Str("message"), Str("line")};
    assert AppInput().Keys * RemappedKeySet() == {Str("level"), Str("message"), Str("line")};
    assert RemappedOf(AppInput()) ==
      map[Str("level") := Text("error"), Str("message") := Text("boom"), Str("line") := Num(42)];
  }

  lemma AppScenario()
    ensures AppFormat(AppInput()) == map[
      LevelSym := Text("error"),
      Str("rpk") := Obj(map[LevelSym := Text("error"), Str("log") := Obj(AppLog)])]
  {
    AppInputParts();
    CommonLogFreshShape(AppInput(), "app");
  }
}
