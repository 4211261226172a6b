/**
 * The winston transport that forwards log calls to an Application Insights
 * telemetry client: the level table, the constructor's client resolution and
 * defaults, and the `log` dispatch with its flattening of `Error` metadata.
 */
module WinstonAzureApplicationInsights {
  import opened Wrappers
  import opened JsValues
  import opened Telemetry

  const LoggerName := "applicationinsightslogger"
  const DefaultLevel := "info"
  const NoClientError := "Could not get an Application Insights client instance"

  // ---------------------------------------------------------------------------
  // Level mapping
  // ---------------------------------------------------------------------------

  /** winston level names and their Application Insights severities (Critical 4 ... Verbose 0). */
  const LevelTable: map<string, nat> := map[
    "emerg" := 4, "alert" := 4, "crit" := 4,
    "error" := 3,
    "warning" := 2, "warn" := 2,
    "notice" := 1, "info" := 1,
    "verbose" := 0, "debug" := 0, "silly" := 0
  ]

  /** The level names whose severity reaches that of `error`. */
  const ErrorLevels: set<string> := {"emerg", "alert", "crit", "error"}

  /**
   * The severity of a winston level: a lookup in the table, with unknown names
   * taking the severity of `info`. The result is always one of 0..4.
   */
  function MessageLevel(winstonLevel: string): (severity: nat)
    ensures severity <= 4
    ensures severity == 4 <==> winstonLevel in {"emerg", "alert", "crit"}
    ensures severity == 3 <==> winstonLevel == "error"
    ensures severity == 2 <==> winstonLevel in {"warning", "warn"}
    ensures severity == 0 <==> winstonLevel in {"verbose", "debug", "silly"}
    ensures winstonLevel !in LevelTable ==> severity == LevelTable[DefaultLevel]
  {
    if winstonLevel in LevelTable then LevelTable[winstonLevel] else LevelTable[DefaultLevel]
  }

  /**
   * Names every object literal inherits from `Object.prototype`, so that
   * `name in levels` holds for them although the table does not list them.
   */
  const PrototypeNames: set<string> := {
    "constructor", "hasOwnProperty", "isPrototypeOf", "propertyIsEnumerable",
    "toLocaleString", "toString", "valueOf", "__proto__",
    "__defineGetter__", "__defineSetter__", "__lookupGetter__", "__lookupSetter__"
  }

  /** What `levels[name]` yields as written: a table severity, or an inherited prototype member. */
  datatype LevelLookup = Severity(value: nat) | PrototypeMember(name: string)

  /**
   * The lookup exactly as the source writes it, with the `in` operator, which
   * also sees inherited prototype members. For those names the result is no
   * severity at all.
   */
  function MessageLevelAsWritten(winstonLevel: string): (r: LevelLookup)
    ensures r.PrototypeMember? <==> winstonLevel in PrototypeNames
    ensures r.Severity? ==> r.value == MessageLevel(winstonLevel)
  {
    if winstonLevel in LevelTable then Severity(LevelTable[winstonLevel])
    else if winstonLevel in PrototypeNames then PrototypeMember(winstonLevel)
    else Severity(LevelTable[DefaultLevel])
  }

  // ---------------------------------------------------------------------------
  // Construction
  // ---------------------------------------------------------------------------

  /** An `applicationinsights` module object passed as `options.insights`; `None` is a falsy `.client`. */
  datatype Insights = Insights(client: Option<TelemetryClient>)

  /**
   * The constructor's options. `client` and `insights` are `None` when the
   * option is falsy; the other options are arbitrary values.
   */
  datatype Options = Options(
    client: Option<TelemetryClient>,
    insights: Option<Insights>,
    key: Value,
    level: Value,
    silent: Value,
    treatErrorsAsExceptions: Value)

  /** `{}`, used when no options are given. */
  const EmptyOptions := Options(None, None, Undefined, Undefined, Undefined, Undefined)

  /**
   * The outcome of `appInsights.setup(key).start()` followed by reading
   * `appInsights.client`: the SDK may throw (no key and no environment
   * key), or start and expose a client, or expose nothing.
   */
  datatype SdkOutcome = Started(client: Option<TelemetryClient>) | SetupFailed(message: string)

  /**
   * The client the constructor ends up with, or the error it throws. An
   * explicit client wins; the SDK is set up only when neither `client` nor
   * `insights` is given; a failure always means no client option was given,
   * and an error the SDK's setup throws surfaces unchanged.
   */
  function ResolveClient(options: Options, setup: Value -> SdkOutcome): (r: Result<TelemetryClient, string>)
    ensures options.client.Some? ==> r == Success(options.client.value)
    ensures r.Failure? ==> options.client.None?
    ensures r.Failure? && r.error != NoClientError ==>
      options.insights.None? && setup(options.key) == SetupFailed(r.error)
    ensures options.client.None? && options.insights.None? && setup(options.key).SetupFailed? ==>
      r == Failure(setup(options.key).message)
  {
    var candidate :=
      if options.client.Some? then Started(options.client)
      else if options.insights.Some? then Started(options.insights.value.client)
      else setup(options.key);
    match candidate
    case SetupFailed(message) => Failure(message)
    case Started(client) => if client.Some? then Success(client.value) else Failure(NoClientError)
  }

  // ---------------------------------------------------------------------------
  // Per-call specification of `log`
  // ---------------------------------------------------------------------------

  /** The callback `log` finishes with: the user's function, or the no-op default. */
  datatype Callback = UserCallback(f: Value) | NoOp

  /** `callback(error, result)`, the call `log` returns with. */
  datatype Completion = Completion(callback: Callback, error: Value, result: bool)

  /** The callback after detecting a function in the metadata position and defaulting a missing one. */
  function EffectiveCallback(meta: Value, callback: Value): Callback
  {
    var cb := if meta.Function? then meta else callback;
    if Truthy(cb) then UserCallback(cb) else NoOp
  }

  /** The metadata after a function in its position is taken as the callback. */
  function EffectiveMeta(meta: Value): Value
  {
    if meta.Function? then Object(map[]) else meta
  }

  /** The error `trackException` receives: `msg` if it is an `Error`, else `meta` if it is one, else `Error(msg)`. */
  function ExceptionArgument(msg: Value, meta: Value): ExceptionArg
  {
    if msg.ErrorObject? then Existing(msg.error)
    else if meta.ErrorObject? then Existing(meta.error)
    else Wrapped(msg)
  }

  /** The property bag an `Error` metadata value starts from: its `stack` and `name`. */
  function InitialErrorMeta(e: ErrorObj): map<string, Value>
  {
    map["stack" := Get(e, "stack"), "name" := Get(e, "name")]
  }

  /**
   * One iteration of the `for...in` loop over an `Error`'s fields: `message`
   * replaces a falsy log message, `constructor` is skipped, anything else is
   * copied into the bag.
   */
  function FlattenStep(e: ErrorObj, msg: Value, bag: map<string, Value>, field: string): (Value, map<string, Value>)
  {
    if field == "message" && !Truthy(msg) then (Get(e, field), bag)
    else if field == "constructor" then (msg, bag)
    else (msg, bag[field := Get(e, field)])
  }

  /** The loop run over the remaining `fields`, from log message `msg` and bag `bag`. */
  function FlattenFrom(e: ErrorObj, msg: Value, bag: map<string, Value>, fields: seq<string>): (Value, map<string, Value>)
    decreases |fields|
  {
    if fields == [] then (msg, bag)
    else
      var next := FlattenStep(e, msg, bag, fields[0]);
      FlattenFrom(e, next.0, next.1, fields[1..])
  }

  /** The log message and property bag that flattening the `Error` metadata `e` produces. */
  function FlattenError(msg: Value, e: ErrorObj): (Value, map<string, Value>)
  {
    FlattenFrom(e, msg, InitialErrorMeta(e), e.enumerable)
  }

  /** The keys of `fields` that end up in the bag: all but `constructor`, and `message` when it was consumed. */
  function KeptKeys(fields: seq<string>, consumed: bool): set<string>
  {
    set k | k in fields && k != "constructor" && !(consumed && k == "message")
  }

  /** The `trackTrace` call for level `level`, message `msg` and (already normalised) metadata `meta`. */
  function TraceOf(level: string, msg: Value, meta: Value): ClientCall
  {
    if meta.ErrorObject? then
      var flat := FlattenError(msg, meta.error);
      Trace(flat.0, MessageLevel(level), Object(flat.1))
    else
      Trace(msg, MessageLevel(level), meta)
  }

  /** The client calls one `log(level, msg, meta, callback)` makes, in order. */
  function LogCalls(silent: Value, treatErrorsAsExceptions: bool, level: string, msg: Value, meta: Value): seq<ClientCall>
  {
    if Truthy(silent) then []
    else
      var meta' := EffectiveMeta(meta);
      var exception :=
        if treatErrorsAsExceptions && MessageLevel(level) >= MessageLevel("error")
        then [Exception(ExceptionArgument(msg, meta'))]
        else [];
      exception + [TraceOf(level, msg, meta')]
  }

  // ---------------------------------------------------------------------------
  // The transport object
  // ---------------------------------------------------------------------------

  class AzureApplicationInsightsLogger {
    var client: TelemetryClient
    var name: string
    var level: Value
    var silent: Value
    var treatErrorsAsExceptions: bool

    /** The assignments after a client has been resolved: name and option defaults. */
    constructor (client: TelemetryClient, options: Options)
      ensures this.client == client && name == LoggerName
      ensures Truthy(level)
      ensures Truthy(options.level) ==> level == options.level
      ensures !Truthy(options.level) ==> level == Str(DefaultLevel)
      ensures Truthy(silent) == Truthy(options.silent)
      ensures Truthy(options.silent) ==> silent == options.silent
      ensures !Truthy(options.silent) ==> silent == Bool(false)
      ensures treatErrorsAsExceptions == Truthy(options.treatErrorsAsExceptions)
    {
      this.client := client;
      name := LoggerName;
      level := Or(options.level, Str(DefaultLevel));
      silent := Or(options.silent, Bool(false));
      treatErrorsAsExceptions := Truthy(options.treatErrorsAsExceptions);
    }

    /**
     * `new AzureApplicationInsightsLogger(options)`: resolves the client in
     * priority order and throws when none results; otherwise a fresh logger.
     */
    static method Create(options: Option<Options>, setup: Value -> SdkOutcome)
      returns (r: Result<AzureApplicationInsightsLogger, string>)
      ensures var o := if options.Some? then options.value else EmptyOptions;
        && (r.Success? <==> ResolveClient(o, setup).Success?)
        && (r.Failure? ==> r.error == ResolveClient(o, setup).error)
        && (r.Success? ==>
              && fresh(r.value)
              && r.value.client == ResolveClient(o, setup).value
              && r.value.name == LoggerName
              && r.value.level == Or(o.level, Str(DefaultLevel))
              && r.value.silent == Or(o.silent, Bool(false))
              && r.value.treatErrorsAsExceptions == Truthy(o.treatErrorsAsExceptions))
    {
      var o := if options.Some? then options.value else EmptyOptions;
      var client: Option<TelemetryClient>;
      if o.client.Some? {
        client := o.client;
      } else if o.insights.Some? {
        client := o.insights.value.client;
      } else {
        var outcome := setup(o.key);
        if outcome.SetupFailed? {
          return Failure(outcome.message);
        }
        client := outcome.client;
      }
      if client.None? {
        return Failure(NoClientError);
      }
      var logger := new AzureApplicationInsightsLogger(client.value, o);
      return Success(logger);
    }

    /**
     * `log(level, msg, meta, callback)`: records on the client exactly the
     * calls `LogCalls` lists, and finishes with `callback(null, true)`.
     */
    method Log(level: string, msg: Value, meta: Value, callback: Value) returns (done: Completion)
      modifies client
      ensures client.calls == old(client.calls) + LogCalls(silent, treatErrorsAsExceptions, level, msg, meta)
      ensures done == Completion(EffectiveCallback(meta, callback), Null, true)
    {
      var message, metadata, cbValue := msg, meta, callback;
      if metadata.Function? {
        cbValue := metadata;
        metadata := Object(map[]);
      }
      var cb := if Truthy(cbValue) then UserCallback(cbValue) else NoOp;

      if Truthy(silent) {
        return Completion(cb, Null, true);
      }

      var aiLevel := MessageLevel(level);

      if treatErrorsAsExceptions {
        if aiLevel >= MessageLevel("error") {
          var error: ExceptionArg;
          if message.ErrorObject? {
            error := Existing(message.error);
          } else if metadata.ErrorObject? {
            error := Existing(metadata.error);
          } else {
            error := Wrapped(message);
          }
          client.TrackException(error);
        }
      }
      ghost var afterException := client.calls;

      if metadata.ErrorObject? {
        var e := metadata.error;
        var errorMeta := map["stack" := Get(e, "stack"), "name" := Get(e, "name")];
        for i := 0 to |e.enumerable|
          invariant FlattenFrom(e, message, errorMeta, e.enumerable[i..]) == FlattenError(msg, e)
        {
          assert e.enumerable[i..][1..] == e.enumerable[i + 1..];
          var field := e.enumerable[i];
          if field == "message" && !Truthy(message) {
            message := Get(e, field);
            continue;
          } else if field == "constructor" {
            continue;
          }
          errorMeta := errorMeta[field := Get(e, field)];
        }
        metadata := Object(errorMeta);
      }

      client.TrackTrace(message, aiLevel, metadata);
      assert client.calls == afterException + [TraceOf(level, msg, EffectiveMeta(meta))];
      done := Completion(cb, Null, true);
    }
  }
}
