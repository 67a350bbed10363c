# Log reshaping of the standard logging format

The service logs through winston. `src/config/logger.js` defines three custom
formatters and two format chains. Together they reshape winston's `info`
record into the layout the service's logging standard asks for:

    { [LEVEL]: <level>, rpk: { log: { type, level, message, ... }, req: ..., res: ... } }

- The **common formatter** (`commonLogInfoFormatter`) picks `level`,
  `timestamp`, `message`, `line`, `file` and `threadID` when they are present.
  It adds `type` from its option, merges the result under `log`, and drops
  those six properties from the top level.
- The **request/response formatter** (`middlewareRequestResponseFormatter`)
  merges `meta.req` and `meta.res` into top-level `req` and `res`. It then
  omits `meta` and the four sensitive request headers: `authorization`,
  `cookie`, `x-auth-token` and `x-consumer-profile`.
- The **packager** (`packageAsRpkPayloadFormatter`) wraps the record as
  `rpk` and keeps triple-beam's `LEVEL` symbol beside it.
- The **access chain** of the HTTP middleware logger runs common (`type:
  "access"`), then request/response, then the packager.
- The **application chain** runs common (`type: "app"`), then the packager.

Modules:

- `JsValue` (`value.dfy`) holds the values a record is made of:
  - plain objects, and leaves;
  - keys that are strings or the `LEVEL` symbol;
  - `_.get` along a path, path presence, and the copy `_.merge` builds.
- `Lodash` (`lodash.dfy`) holds `_.pick`, `_.merge`, `_.unset` and `_.omit`,
  written the way lodash behaves:
  - `_.merge` is deep and visits only string keys;
  - `undefined` does not overwrite a present property;
  - `_.omit` unsets its paths last first;
  - unsetting through a missing or non-object parent does nothing.
- `RpkLogger` (`logger.dfy`) holds the formatters, the chains, and what they
  guarantee.
- `LoggerScenarios` (`scenarios.dfy`) holds two concrete records worked
  through the chains.

Two consequences of the code are worth stating:

- `_.merge` is deep. An existing `log`, `req` or `res` object is merged
  into, not replaced (see `CommonLogKeepsExisting`, `LiftShape`,
  `LiftKeepsReq`).
- Only these exact paths are removed: top-level `meta`, and
  `req.headers.<name>` for the four header names. A `meta` nested
  elsewhere stays.

## Model

| member | source | states |
|---|---|---|
| JsValue.Get | src/config/logger.js:59-60 | `_.get` of a path that is not present yields `undefined`, with no failure |
| JsValue.Clone | src/config/logger.js:57-62 | the fresh copy `_.merge` builds keeps an object's string keys only, has no symbol key at any depth, and shares leaves |
| JsValue.CloneOfSymbolFree | src/config/logger.js:57-62 | a value without symbol keys is copied unchanged |
| Lodash.Pick | src/config/logger.js:38-39 | `_.pick` keeps exactly the present string properties whose names are listed, each with its value |
| Lodash.MergeValue | src/config/logger.js:57-62 | merging an object gives an object; merged into an object, its keys are the old keys plus the source's string keys |
| Lodash.MergeUndefinedKeeps | src/config/logger.js:57-62 | a source `undefined` never overwrites a present value |
| Lodash.MergeLeafReplaces | src/config/logger.js:57-62 | any other source leaf replaces what was there |
| Lodash.Merge | src/config/logger.js:57-62 | after `_.merge` the keys are the destination's plus the source's string keys |
| Lodash.MergeAt | src/config/logger.js:57-62 | each source string key holds the value merged from the source; every other key keeps the destination's value |
| Lodash.MergeIntoFreshIsClone | src/config/logger.js:57-62 | merging into an absent key or a leaf yields the source copied through its string keys |
| Lodash.Unset | src/config/logger.js:63-69 | unsetting keeps a plain object a plain object, and a leaf a leaf, and never adds a top-level key |
| Lodash.OmitPaths | src/config/logger.js:63-69 | omitting keeps a plain object a plain object and never adds a top-level key |
| Lodash.Omit | src/config/logger.js:45 | `_.omit` of a record never adds a property |
| Lodash.UnsetRemoves | src/config/logger.js:63-69 | after an unset, the path is not present |
| Lodash.UnsetMissing | src/config/logger.js:63-69 | unsetting a path that is not present changes nothing |
| Lodash.UnsetKeepsMissing | src/config/logger.js:63-69 | an unset never makes a missing path appear |
| Lodash.OmitKeepsMissing | src/config/logger.js:63-69 | an omit never makes a missing path appear |
| Lodash.OmitRemoves | src/config/logger.js:63-69 | after an omit, none of the omitted paths is present |
| Lodash.OmitMissing | src/config/logger.js:63-69 | omitting paths that are all absent changes nothing |
| Lodash.OmitIdempotent | src/config/logger.js:63-69 | omitting the same paths twice equals omitting them once |
| Lodash.OmitAppend | src/config/logger.js:63-69 | omitting a concatenated path list omits the later part first |
| Lodash.OmitTopLevel | src/config/logger.js:45 | omitting one-key paths removes exactly those top-level properties |
| RpkLogger.CommonLogInfo | src/config/logger.js:33-47 | the common formatter's output has the input's keys minus the six remapped ones, plus `log`, which is a plain object |
| RpkLogger.LogInfoToNest | src/config/logger.js:38-41 | the nested record has exactly the present remapped properties, with their values, plus `type` from the option |
| RpkLogger.CommonTopLevel | src/config/logger.js:43-46 | the output's keys are the input's minus the six remapped ones, plus `log`; every other property keeps its value |
| RpkLogger.CommonKeepsLevel | src/config/logger.js:43-46 | the `LEVEL` symbol is present after the common formatter exactly when it was before, with the same value |
| RpkLogger.CommonLogAt | src/config/logger.js:43-44 | `log` is the nested record merged into whatever `log` held before |
| RpkLogger.CommonLogType | src/config/logger.js:38-44 | `log.type` is always the option's type, and every present remapped property is inside `log` |
| RpkLogger.CommonLogKeepsExisting | src/config/logger.js:43-44 | an existing `log` object keeps its properties; the remapped properties and `type` are merged into it |
| RpkLogger.CommonLogFresh | src/config/logger.js:33-46 | with no plain-object `log` before, `log` has exactly the present remapped properties (as copies) and `type` |
| RpkLogger.CommonLogFreshSymbolFree | src/config/logger.js:38-44 | with no symbols inside the remapped values, `log` holds them unchanged |
| RpkLogger.CommonLogFreshLog | src/config/logger.js:38-44 | in that case `log` is exactly the remapped properties plus `type` |
| RpkLogger.CommonLogFreshShape | src/config/logger.js:33-47 | in that case, the whole output: the input less the remapped properties, plus `log` holding them and `type` |
| RpkLogger.DropHeaders | src/config/logger.js:65-68 | a request keeps its keys and every property but `headers`; the named headers are gone; every other header stays with its value |
| RpkLogger.UnsetHeader | src/config/logger.js:65-68 | unsetting one `headers.<name>` path in a request drops that header and nothing else |
| RpkLogger.OmitHeaders | src/config/logger.js:65-68 | omitting the header paths drops exactly those headers from the top-level `req.headers` |
| RpkLogger.OmitRedacted | src/config/logger.js:63-69 | the redaction list removes top-level `meta` and the four sensitive headers of `req`, and nothing else |
| RpkLogger.LiftRequestResponse | src/config/logger.js:55-71 | the request/response formatter's output has the input's keys minus `meta`, plus `req` and `res` |
| RpkLogger.Lifted | src/config/logger.js:56-62 | the merge adds `req` and `res` (the values from `meta` merged into any existing ones) and leaves every other property alone |
| RpkLogger.LiftShape | src/config/logger.js:55-71 | the formatter's whole output: the input without `meta`, with `req` and `res` merged from `meta`, and `req` without the sensitive headers |
| RpkLogger.LiftKeeps | src/config/logger.js:55-71 | the output's keys are the input's minus `meta`, plus `req` and `res`; every other property keeps its value |
| RpkLogger.LiftKeepsReq | src/config/logger.js:57-69 | an existing `req` with nothing under `meta.req` survives, without its sensitive headers |
| RpkLogger.LiftKeepsRes | src/config/logger.js:57-62 | an existing `res` with nothing under `meta.res` survives unchanged |
| RpkLogger.LiftKeepsLevel | src/config/logger.js:55-71 | the `LEVEL` symbol is preserved through the request/response formatter |
| RpkLogger.LiftFresh | src/config/logger.js:57-69 | with no top-level `req` or `res`, they become copies of `meta.req` and `meta.res`, and `req` loses its sensitive headers |
| RpkLogger.LiftFreshSymbolFree | src/config/logger.js:57-69 | with no symbols under `meta`, `req` and `res` are the `meta` values themselves, with `req` redacted |
| RpkLogger.LiftWithoutMeta | src/config/logger.js:57-69 | a record without `meta`, `req` or `res` only gains `req` and `res` set to `undefined` |
| RpkLogger.LiftRedacts | src/config/logger.js:63-69 | the output has no `meta`, and no sensitive header under `req.headers` |
| RpkLogger.RedactionIdempotent | src/config/logger.js:63-69 | applying the redaction list twice equals applying it once |
| RpkLogger.LiftOutputRedacted | src/config/logger.js:63-69 | redacting the formatter's output again changes nothing |
| RpkLogger.PackageAsRpk | src/config/logger.js:79-82 | the packaged record has exactly the keys `LEVEL` and `rpk`; `rpk` is the whole input; `LEVEL` is the input's (or `undefined`) |
| RpkLogger.AccessFormat | src/config/logger.js:88-95 | the access output has exactly the keys `LEVEL` and `rpk`; `rpk` holds `log`, `req` and `res`, and no `meta` |
| RpkLogger.AppFormat | src/config/logger.js:108-113 | the app output has exactly the keys `LEVEL` and `rpk`; `rpk` holds a plain-object `log` |
| RpkLogger.AccessChain | src/config/logger.js:88-95 | the access output has exactly `LEVEL` (the input's) and `rpk`; `rpk.log.type` is "access"; `rpk` has `req` and `res`, no `meta`, and no sensitive header |
| RpkLogger.AppChain | src/config/logger.js:108-113 | the app output has exactly `LEVEL` (the input's) and `rpk`; `rpk.log.type` is "app"; `req`, `res` and `meta` pass through unchanged |
| RpkLogger.PackagingFirstLeaks | src/config/logger.js:89-95 | packaging before the request/response formatter would leave `rpk.meta.req.headers.authorization` in place, so the chain's order is needed |
| LoggerScenarios.AccessScenario | src/config/logger.js:88-95 | a concrete access record becomes `{LEVEL, rpk: {LEVEL, log: {type: "access", level, message}, req: <headers without authorization>, res}}` |
| LoggerScenarios.AppScenario | src/config/logger.js:108-113 | a concrete application record becomes `{LEVEL, rpk: {LEVEL, log: {type: "app", level, message, line}}}` |

## Left out

- Arrays, functions and dates are not represented at all: a value is a plain object or a primitive leaf, so the theorems cover only records made of those. Lodash's index-by-index merge of arrays is not modelled, and neither is its handling of typed arrays and buffers. A request or response `body` that is a JSON array lies outside the model.
- Path strings are given already split into keys. Lodash's parser for `'req.headers["x-auth-token"]'` is not modelled, and neither is its rule for a key that literally contains a dot.
- `winston.format.timestamp()` and `winston.format.json()` are not modelled. `timestamp` is an ordinary optional input property, and the model does not serialise, escape or handle cycles.
- express-winston's capture of the request and response, and its whitelists, are not modelled. `meta` is part of the given input.
- Console transports, logger construction and `expressFormat` are not modelled. They perform I/O.
- `_.merge` mutates the caller's `info`, and any existing `log`, `req` or `res` object, in place. The model returns new values, so aliasing is not captured.
- Inherited (prototype-chain) properties, and lodash's special handling of `__proto__` and `constructor`, are not modelled.
- `_.get` through a string leaf (such as `length`) is not modelled. Every leaf yields `undefined`.
- Of triple-beam's symbols, only `LEVEL` is modelled, and `MESSAGE` and `SPLAT` are not. A symbol-keyed property is never picked, and it is dropped from every copy `_.merge` makes.
- winston's `combine` stops when a formatter returns a falsy value. None of these formatters ever does, so that path is absent.
- `src/index.js`, `src/config/vars.js` and the routes are not part of this model.
