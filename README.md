# winston transport for Application Insights, modelled in Dafny

This project models the winston transport `AzureApplicationInsightsLogger`. The transport
forwards winston log calls to an Application Insights telemetry client. The model covers:

- the mapping from winston level names to Application Insights severities (Critical 4,
  Error 3, Warning 2, Informational 1, Verbose 0);
- the constructor, which resolves the client in priority order (`client`, then
  `insights.client`, then the SDK's client after `setup(key).start()`), throws when no
  client results, and fills in defaults for `level`, `silent` and `treatErrorsAsExceptions`;
- `log(level, msg, meta, callback)`. It detects a callback in the metadata position,
  returns at once when silent, and calls `trackException` for error-level calls when
  configured to. It turns an `Error` given as metadata into a plain property bag, calls
  `trackTrace`, and finishes with `callback(null, true)`.

Files:

- `js_values.dfy`: the JavaScript values the transport inspects. An `Error` is a property
  map (what `e[key]` reads) plus the key sequence `for...in` visits.
- `telemetry.dfy`: the telemetry client, as a class whose ghost `calls` list records every
  `trackTrace` / `trackException` call with its positional arguments.
- `winston_azure_application_insights.dfy`: the level table, the options, client
  resolution, the specification functions of `log`, and the class
  `AzureApplicationInsightsLogger`. The class has the constructor and an imperative `Log`
  whose loop over the error's fields carries an invariant tying it to `FlattenError`.
- `log_properties.dfy`: the properties of `log` and of client resolution, proved as lemmas.
- `wrappers.dfy`: `Option` and `Result`.

The model follows the library code where the bundled tests expect something else:

- The library calls `trackTrace(msg, aiLevel, meta)` and `trackException(error)` with
  positional arguments (lib lines 124 and 148). The tests expect object payloads such as
  `{ message, severity, properties }` (test line 152) and `{ exception, properties }`
  (test lines 234-237). The model records the positional form.
- In the library, a call that tracks an exception still goes on to `trackTrace` (lines
  114-126 fall through to 148). The test at line 222 expects no trace on that path. The
  model records both calls: the exception first, then the trace.
- The library reads the SDK's client as `appInsights.client` (line 64), while the tests
  mock `appInsights.defaultClient`. The model takes the outcome of the SDK setup as an
  input, so this depends only on which SDK version is installed.

## Model

| member | source | states |
|---|---|---|
| WinstonAzureApplicationInsights.MessageLevel | lib/winston-azure-application-insights.js:14-34 | The severity is 4 exactly for emerg/alert/crit, 3 exactly for error, 2 exactly for warning/warn and 0 exactly for verbose/debug/silly. Any name outside the table gets the `info` severity 1, so the result is always in 0..4. |
| WinstonAzureApplicationInsights.MessageLevelAsWritten | lib/winston-azure-application-insights.js:33 | The lookup as written with `in`: names inherited from `Object.prototype` (and only those) give a prototype member instead of a severity. Every other name gives the same severity as `MessageLevel`. |
| LogProperties.PrototypeNameEscapesTable | lib/winston-azure-application-insights.js:33 | For the level "toString", the lookup as written gives no severity, while the intended mapping gives the `info` severity 1. |
| LogProperties.ErrorThreshold | lib/winston-azure-application-insights.js:115 | A level reaches the severity of `error` exactly when it is emerg, alert, crit or error. |
| WinstonAzureApplicationInsights.ResolveClient | lib/winston-azure-application-insights.js:43-69 | A truthy `client` option is always the result. A failure happens only when no `client` option is given, and its message is either the constructor's own "Could not get an Application Insights client instance" or the SDK setup's error (only when `insights` is also absent). When neither option is given and the SDK setup throws, the result is exactly the SDK's own error. |
| LogProperties.SetupOnlyAsLastResort | lib/winston-azure-application-insights.js:43-65 | When `client` or `insights` is given, the SDK setup has no influence on the outcome. |
| LogProperties.ResolutionFailsIff | lib/winston-azure-application-insights.js:43-69 | Construction fails exactly when there is no `client` option and the source consulted next yields none: `insights.client` is falsy, or, without `insights`, the SDK setup throws or exposes no client. |
| LogProperties.ResolvedClientSource | lib/winston-azure-application-insights.js:43-65 | A resolved client is the `client` option, or else `insights.client`, or else (with neither option) the client the SDK exposes after setup with `options.key`. |
| WinstonAzureApplicationInsights.AzureApplicationInsightsLogger.constructor | lib/winston-azure-application-insights.js:71-74 | The name is "applicationinsightslogger". `level` is `options.level` when truthy, else "info". `silent` is `options.silent` when truthy, else `false`. `treatErrorsAsExceptions` is exactly the truthiness of its option. |
| WinstonAzureApplicationInsights.AzureApplicationInsightsLogger.Create | lib/winston-azure-application-insights.js:37-77 | `new AzureApplicationInsightsLogger(options)` with a missing `options` treated as `{}`. It fails exactly when `ResolveClient` fails, with the same message, and then produces no object. Otherwise it returns a fresh logger holding the resolved client and the defaulted options. |
| WinstonAzureApplicationInsights.AzureApplicationInsightsLogger.Log | lib/winston-azure-application-insights.js:99-151 | The client's recorded calls grow by exactly `LogCalls(silent, treatErrorsAsExceptions, level, msg, meta)`. The call ends with `callback(null, true)` on the detected callback. The field loop is proved against `FlattenError` by its invariant. |
| Telemetry.TelemetryClient.TrackTrace | lib/winston-azure-application-insights.js:148 | Appends one trace record with the message, severity and properties passed. |
| Telemetry.TelemetryClient.TrackException | lib/winston-azure-application-insights.js:124 | Appends one exception record with the error passed. |
| LogProperties.CallbackDetection | lib/winston-azure-application-insights.js:101-106 | A function in the metadata position becomes the callback and the metadata becomes `{}`. Otherwise the metadata is unchanged. The no-op callback is used exactly when there is no function metadata and the callback is falsy. A user callback is always truthy. |
| LogProperties.SilentRecordsNothing | lib/winston-azure-application-insights.js:108-110 | A silent transport records no client call. |
| LogProperties.TraceIsLastAndUnique | lib/winston-azure-application-insights.js:112-148 | A non-silent call records one or two calls. Exactly one of them is a trace, it is the last call, and its severity is `MessageLevel(level)`. |
| LogProperties.ExceptionTrackedIff | lib/winston-azure-application-insights.js:108-126 | `trackException` is recorded exactly once when the transport is not silent, `treatErrorsAsExceptions` is set and the level is emerg/alert/crit/error, and never otherwise. |
| LogProperties.ExceptionArgumentChoice | lib/winston-azure-application-insights.js:116-124 | On the exception path, the exception is the first of two calls. Its argument is `msg` if that is an Error, else `meta` if that is an Error, else `Error(msg)`. |
| LogProperties.PlainMetaPassesThrough | lib/winston-azure-application-insights.js:128-148 | Metadata that is neither an Error nor a function reaches `trackTrace` unchanged, together with the unchanged message. |
| LogProperties.FlattenStepPreserves | lib/winston-azure-application-insights.js:134-143 | One iteration of the field loop leaves the predicted final message and kept keys unchanged, and keeps every bag entry equal to the error's value. |
| LogProperties.FlattenFromContents | lib/winston-azure-application-insights.js:134-143 | Over any distinct remaining fields, the loop consumes `message` exactly when the message is falsy and a `message` field remains. It adds every remaining field except `constructor` and a consumed `message`, and every entry equals the error's own value. |
| LogProperties.FlattenErrorContents | lib/winston-azure-application-insights.js:128-146 | The bag built from an Error holds `stack`, `name` and every enumerable field except `constructor`. It never holds `constructor`. It holds `message` exactly when `message` is enumerable and the log message was truthy. Each entry is the error's value. A falsy log message becomes the error's `message`. |
| LogProperties.ErrorMetaIsFlattened | lib/winston-azure-application-insights.js:128-148 | With an Error as metadata, the final `trackTrace` carries the flattened bag as a plain object, and the error's message replaces a falsy log message. |
| LogProperties.ExtendedErrorWithoutMessage | test/winston-azure-application-insights.test.js:311-326 | An extended error logged at `error` with an empty message gives one trace. Its message is "errormessage", its severity is 3, and its properties are arg1, arg2, name and stack. |
| LogProperties.ExtendedErrorWithMessage | test/winston-azure-application-insights.test.js:328-345 | The same error logged with message "message" gives one trace with that message, severity 3, and properties arg1, arg2, message, name and stack. |

## Findings

| source | as written | input that shows it | evidently intended | confidence | as-written member | corrected member |
|---|---|---|---|---|---|---|
| lib/winston-azure-application-insights.js:33 | `winstonLevel in levels` is also true for names the object literal inherits from `Object.prototype`. For those names, `levels[winstonLevel]` returns a prototype member, such as a function, instead of a severity. | the level name "toString" (also "constructor", "valueOf", "__proto__", ...) | any name outside the table gets the `info` severity 1, so a severity in 0..4 is always sent | high, by the semantics of the JavaScript `in` operator; not executed | WinstonAzureApplicationInsights.MessageLevelAsWritten (shown by LogProperties.PrototypeNameEscapesTable) | WinstonAzureApplicationInsights.MessageLevel, which the rest of the model uses |

## Left out

- `appInsights.setup(options.key).start()` and its `APPINSIGHTS_INSTRUMENTATIONKEY` environment lookup (lib lines 60-64) are foreign SDK and environment calls. They are the parameter `setup: Value -> SdkOutcome`: the SDK either throws or starts and exposes a client, possibly none.
- What the telemetry client does with the calls it receives (batching, delivery, network) is not modelled. The client only records the calls in its ghost `calls` list.
- `winston.Transport.call(this, options)`, `util.inherits` and the global `winston.transports.AzureApplicationInsightsLogger = ...` (lib lines 41, 82 and 88) are framework plumbing and global registration, so they are not modelled. So is winston's own level filtering, which reads the `level` field before `log` is called.
- The prototype chain behind `instanceof Error` and `for...in` is not modelled. An Error is a tagged value with its properties already resolved and an explicit key sequence in visiting order. The lemmas about flattening require that sequence to have no repeats, which `for...in` guarantees.
- The `client` and `insights.client` options are modelled as "a telemetry client or a falsy value". A truthy value that is not a client (a string, say) is not modelled: JavaScript accepts it and fails at its first client call (the `trackException` of lib line 124 or the `trackTrace` of line 148), and never while `silent`. A truthy `options` argument that is not an object is left out for the same reason.
- Numbers are integers only: `NaN` and fractions are not modelled, so `Truthy` treats only `0` as a falsy number.
- `Error(msg)` on the exception path is recorded as `Wrapped(msg)`. The stack trace the runtime attaches to it is not modelled.
- WinstonAzureApplicationInsights.AzureApplicationInsightsLogger.Log: a truthy callback that is not a function (such as the string "done") is not modelled as an error. JavaScript throws `TypeError: callback is not a function` when it calls it, at lib line 109 when silent (before any client call) or at line 150 after the trace. The model records a normal completion instead.
- WinstonAzureApplicationInsights.AzureApplicationInsightsLogger.Log: it uses the corrected `MessageLevel`, which is the "## Findings" row. For the 12 names inherited from `Object.prototype` ("toString", "constructor", ...), the library at lib lines 112 and 148 hands `trackTrace` a prototype member as the severity. `Log` and `LogCalls` record severity 1 instead.
- `Log` returns a description of the final `callback(null, true)` call (which callback, with which arguments). The callback's own return value, which JavaScript passes back to the caller, is not modelled.
- A formatter option and the stringification of nested metadata objects are not modelled, because the code has neither.
- The demo script and the mocking test suite are not part of this model. The two scenario lemmas restate the tests' expectations about flattened errors, in the library's positional form.
- WinstonAzureApplicationInsights.ResolveClient: its own contract states the priority of the `client` option, where failures come from, and that an SDK setup error is rethrown unchanged. Which client results and exactly when resolution fails are stated in the lemmas `ResolutionFailsIff`, `ResolvedClientSource` and `SetupOnlyAsLastResort`.
