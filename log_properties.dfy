/**
 * What the transport promises about the client calls one `log` makes, the
 * property bag built from `Error` metadata, the callback it completes with,
 * and which option decides the client.
 */
module LogProperties {
  import opened Wrappers
  import opened JsValues
  import opened Telemetry
  import opened WinstonAzureApplicationInsights

  // ---------------------------------------------------------------------------
  // Levels
  // ---------------------------------------------------------------------------

  /** A call reaches the exception threshold exactly for emerg, alert, crit and error. */
  lemma ErrorThreshold(level: string)
    ensures MessageLevel(level) >= MessageLevel("error") <==> level in ErrorLevels
  {
  }

  /**
   * The lookup as written leaves the severity range for an inherited name:
   * `log("toString", ...)` gets no severity, where the table's default would be 1.
   */
  lemma PrototypeNameEscapesTable()
    ensures MessageLevelAsWritten("toString") == PrototypeMember("toString")
    ensures !MessageLevelAsWritten("toString").Severity?
    ensures MessageLevel("toString") == MessageLevel("info") == 1
  {
  }

  // ---------------------------------------------------------------------------
  // Client resolution
  // ---------------------------------------------------------------------------

  /** The SDK's setup is consulted only when neither `client` nor `insights` is given. */
  lemma SetupOnlyAsLastResort(options: Options, setup1: Value -> SdkOutcome, setup2: Value -> SdkOutcome)
    requires options.client.Some? || options.insights.Some?
    ensures ResolveClient(options, setup1) == ResolveClient(options, setup2)
  {
  }

  /** Construction fails exactly when the chosen source yields no client. */
  lemma ResolutionFailsIff(options: Options, setup: Value -> SdkOutcome)
    ensures ResolveClient(options, setup).Failure? <==>
      && options.client.None?
      && (options.insights.Some? ==> options.insights.value.client.None?)
      && (options.insights.None? ==> !(setup(options.key).Started? && setup(options.key).client.Some?))
  {
  }

  /** A resolved client is the first truthy source in priority order. */
  lemma ResolvedClientSource(options: Options, setup: Value -> SdkOutcome)
    requires ResolveClient(options, setup).Success?
    ensures var c := ResolveClient(options, setup).value;
      || options.client == Some(c)
      || (options.client.None? && options.insights == Some(Insights(Some(c))))
      || (options.client.None? && options.insights.None? && setup(options.key) == Started(Some(c)))
  {
  }

  // ---------------------------------------------------------------------------
  // Callback and metadata detection
  // ---------------------------------------------------------------------------

  /**
   * A function in the metadata position becomes the callback and the
   * metadata becomes `{}`; otherwise the callback argument is used when
   * truthy, and the no-op default when not.
   */
  lemma CallbackDetection(meta: Value, callback: Value)
    ensures meta.Function? ==> EffectiveCallback(meta, callback) == UserCallback(meta) && EffectiveMeta(meta) == Object(map[])
    ensures !meta.Function? ==> EffectiveMeta(meta) == meta
    ensures EffectiveCallback(meta, callback) == NoOp <==> !meta.Function? && !Truthy(callback)
    ensures EffectiveCallback(meta, callback).UserCallback? ==> Truthy(EffectiveCallback(meta, callback).f)
  {
  }

  // ---------------------------------------------------------------------------
  // Shape of the calls
  // ---------------------------------------------------------------------------

  /** A silent transport records no client call at all. */
  lemma SilentRecordsNothing(silent: Value, treat: bool, level: string, msg: Value, meta: Value)
    requires Truthy(silent)
    ensures LogCalls(silent, treat, level, msg, meta) == []
  {
  }

  /**
   * A non-silent call records exactly one `trackTrace`, as its last call and
   * with the level's severity, and at most one call before it.
   */
  lemma TraceIsLastAndUnique(silent: Value, treat: bool, level: string, msg: Value, meta: Value)
    requires !Truthy(silent)
    ensures var calls := LogCalls(silent, treat, level, msg, meta);
      && 1 <= |calls| <= 2
      && calls[|calls| - 1].Trace?
      && calls[|calls| - 1].severity == MessageLevel(level)
      && TraceCount(calls) == 1
  {
    var calls := LogCalls(silent, treat, level, msg, meta);
    var last := [calls[|calls| - 1]];
    CountsAppend(calls[..|calls| - 1], last);
    assert calls[..|calls| - 1] + last == calls;
    assert TraceCount(last) == 1 by {
      assert last[1..] == [];
    }
    if |calls| == 2 {
      assert calls[..1][1..] == [];
    }
  }

  /**
   * `trackException` is recorded exactly once when the transport is not
   * silent, treats errors as exceptions and the level is emerg, alert, crit
   * or error; never otherwise.
   */
  lemma ExceptionTrackedIff(silent: Value, treat: bool, level: string, msg: Value, meta: Value)
    ensures ExceptionCount(LogCalls(silent, treat, level, msg, meta)) ==
      if !Truthy(silent) && treat && level in ErrorLevels then 1 else 0
  {
    ErrorThreshold(level);
    if !Truthy(silent) {
      var meta' := EffectiveMeta(meta);
      var trace := [TraceOf(level, msg, meta')];
      assert trace[1..] == [];
      if treat && level in ErrorLevels {
        var exception := [Exception(ExceptionArgument(msg, meta'))];
        assert exception[1..] == [];
        CountsAppend(exception, trace);
      } else {
        assert LogCalls(silent, treat, level, msg, meta) == [] + trace;
        CountsAppend([], trace);
      }
    }
  }

  /**
   * When an exception is tracked it comes first, and it is `msg` if that is an
   * `Error`, else the metadata if that is one, else `Error(msg)`.
   */
  lemma ExceptionArgumentChoice(silent: Value, treat: bool, level: string, msg: Value, meta: Value)
    requires !Truthy(silent) && treat && level in ErrorLevels
    ensures var calls := LogCalls(silent, treat, level, msg, meta);
      && |calls| == 2
      && calls[0] == Exception(
           if msg.ErrorObject? then Existing(msg.error)
           else if meta.ErrorObject? then Existing(meta.error)
           else Wrapped(msg))
  {
    ErrorThreshold(level);
  }

  /** Metadata that is neither an `Error` nor a function reaches `trackTrace` unchanged, and so does the message. */
  lemma PlainMetaPassesThrough(silent: Value, treat: bool, level: string, msg: Value, meta: Value)
    requires !Truthy(silent) && !meta.ErrorObject? && !meta.Function?
    ensures var calls := LogCalls(silent, treat, level, msg, meta);
      calls[|calls| - 1] == Trace(msg, MessageLevel(level), meta)
  {
  }

  // ---------------------------------------------------------------------------
  // Flattening of Error metadata
  // ---------------------------------------------------------------------------

  /** The kept keys of a field list, one field at a time. */
  lemma KeptKeysCons(f: string, rest: seq<string>, consumed: bool)
    ensures KeptKeys([f] + rest, consumed) ==
      (if f != "constructor" && !(consumed && f == "message") then {f} else {}) + KeptKeys(rest, consumed)
  {
  }

  /** Without a `message` field, whether a message was consumed does not change the kept keys. */
  lemma KeptKeysWithoutMessage(fields: seq<string>)
    requires "message" !in fields
    ensures KeptKeys(fields, true) == KeptKeys(fields, false)
  {
  }

  /** A field list without repetitions: its head does not recur and its tail has none either. */
  lemma DistinctKeysCons(fields: seq<string>)
    requires fields != [] && DistinctKeys(fields)
    ensures DistinctKeys(fields[1..]) && fields[0] !in fields[1..]
  {
    var rest := fields[1..];
    forall i, j | 0 <= i < j < |rest| ensures rest[i] != rest[j] {
      assert rest[i] == fields[i + 1] && rest[j] == fields[j + 1];
    }
    forall j | 0 <= j < |rest| ensures rest[j] != fields[0] {
      assert rest[j] == fields[j + 1];
    }
  }

  /** The bag's entries read as on the error: the invariant the flattening loop keeps. */
  ghost predicate AgreesWith(bag: map<string, Value>, e: ErrorObj)
  {
    forall k :: k in bag ==> bag[k] == Get(e, k)
  }

  /**
   * One iteration of the loop keeps the final outcome unchanged: the message
   * and kept keys predicted before the field equal those predicted after it.
   */
  lemma FlattenStepPreserves(e: ErrorObj, msg: Value, bag: map<string, Value>, f: string, rest: seq<string>)
    requires f !in rest
    requires AgreesWith(bag, e)
    ensures var next := FlattenStep(e, msg, bag, f);
      var consumed := !Truthy(msg) && "message" in [f] + rest;
      var consumed' := !Truthy(next.0) && "message" in rest;
      && (if consumed' then Get(e, "message") else next.0) == (if consumed then Get(e, "message") else msg)
      && next.1.Keys + KeptKeys(rest, consumed') == bag.Keys + KeptKeys([f] + rest, consumed)
      && AgreesWith(next.1, e)
  {
    var consumed := !Truthy(msg) && "message" in [f] + rest;
    KeptKeysCons(f, rest, consumed);
    if f == "message" {
      KeptKeysWithoutMessage(rest);
    } else {
      assert consumed == (!Truthy(msg) && "message" in rest);
    }
  }

  /**
   * The loop over the remaining fields, from any bag whose entries already
   * agree with the error: the message is consumed iff it was falsy and a
   * `message` field remains; the bag gains every remaining field but
   * `constructor` and a consumed `message`; every entry reads as on the error.
   */
  lemma {:induction false} FlattenFromContents(e: ErrorObj, msg: Value, bag: map<string, Value>, fields: seq<string>)
    requires DistinctKeys(fields)
    requires AgreesWith(bag, e)
    ensures var r := FlattenFrom(e, msg, bag, fields);
      var consumed := !Truthy(msg) && "message" in fields;
      && r.0 == (if consumed then Get(e, "message") else msg)
      && r.1.Keys == bag.Keys + KeptKeys(fields, consumed)
      && AgreesWith(r.1, e)
    decreases |fields|
  {
    if fields != [] {
      var f, rest := fields[0], fields[1..];
      assert fields == [f] + rest;
      DistinctKeysCons(fields);
      var next := FlattenStep(e, msg, bag, f);
      FlattenStepPreserves(e, msg, bag, f, rest);
      FlattenFromContents(e, next.0, next.1, rest);
    }
  }

  /**
   * The bag built from an `Error`: it holds `stack` and `name`, every
   * enumerable field but `constructor`, and `message` exactly when the log
   * message was not falsy; each entry is the error's own value. A falsy log
   * message is replaced by the error's `message` when that field is enumerable.
   */
  lemma FlattenErrorContents(msg: Value, e: ErrorObj)
    requires DistinctKeys(e.enumerable)
    ensures var r := FlattenError(msg, e);
      var consumed := !Truthy(msg) && "message" in e.enumerable;
      && r.0 == (if consumed then Get(e, "message") else msg)
      && r.1.Keys == {"stack", "name"} + KeptKeys(e.enumerable, consumed)
      && "stack" in r.1 && "name" in r.1 && "constructor" !in r.1
      && ("message" in r.1 <==> "message" in e.enumerable && !consumed)
      && AgreesWith(r.1, e)
  {
    FlattenFromContents(e, msg, InitialErrorMeta(e), e.enumerable);
  }

  /**
   * An `Error` as metadata reaches `trackTrace` as a plain bag with the
   * contents `FlattenErrorContents` describes, and with the error's message
   * in place of a falsy log message.
   */
  lemma ErrorMetaIsFlattened(silent: Value, treat: bool, level: string, msg: Value, meta: Value)
    requires !Truthy(silent) && meta.ErrorObject? && DistinctKeys(meta.error.enumerable)
    ensures var calls := LogCalls(silent, treat, level, msg, meta);
      var last := calls[|calls| - 1];
      var e := meta.error;
      var consumed := !Truthy(msg) && "message" in e.enumerable;
      && last.Trace?
      && last.message == (if consumed then Get(e, "message") else msg)
      && last.properties.Object?
      && last.properties.props.Keys == {"stack", "name"} + KeptKeys(e.enumerable, consumed)
      && forall k :: k in last.properties.props ==> last.properties.props[k] == Get(e, k)
  {
    FlattenErrorContents(msg, meta.error);
  }

  // ---------------------------------------------------------------------------
  // Scenarios
  // ---------------------------------------------------------------------------

  /** An error with a custom prototype: own enumerable message, name, arg1, arg2, and an inherited enumerable constructor. */
  function ExtendedError(): ErrorObj
  {
    ErrorObj(
      map["message" := Str("errormessage"), "name" := Str("ExtendedError"),
          "arg1" := Str("arg1"), "arg2" := Str("arg2"),
          "stack" := Str("ExtendedError: errormessage"), "constructor" := Function(1)],
      ["message", "name", "arg1", "arg2", "constructor"])
  }

  /** Logging an extended error with an empty message: the error's message becomes the log message. */
  lemma ExtendedErrorWithoutMessage()
    ensures LogCalls(Bool(false), false, "error", Str(""), ErrorObject(ExtendedError())) ==
      [Trace(Str("errormessage"), 3, Object(map[
        "arg1" := Str("arg1"), "arg2" := Str("arg2"),
        "name" := Str("ExtendedError"), "stack" := Str("ExtendedError: errormessage")]))]
  {
    var e := ExtendedError();
    var fields := e.enumerable;
    var bag := InitialErrorMeta(e);
    assert FlattenError(Str(""), e) == FlattenFrom(e, Str("errormessage"), bag, fields[1..]);
    assert fields[1..][1..] == fields[2..] && fields[2..][1..] == fields[3..];
    assert fields[3..][1..] == fields[4..] && fields[4..][1..] == [];
    var flat := bag["name" := Str("ExtendedError")]["arg1" := Str("arg1")]["arg2" := Str("arg2")];
    assert FlattenError(Str(""), e) == (Str("errormessage"), flat);
    assert flat == map["arg1" := Str("arg1"), "arg2" := Str("arg2"),
      "name" := Str("ExtendedError"), "stack" := Str("ExtendedError: errormessage")];
    assert LogCalls(Bool(false), false, "error", Str(""), ErrorObject(e)) == [] + [TraceOf("error", Str(""), ErrorObject(e))];
  }

  /** Logging an extended error with a message: the message stays and the error's message joins the bag. */
  lemma ExtendedErrorWithMessage()
    ensures LogCalls(Bool(false), false, "error", Str("message"), ErrorObject(ExtendedError())) ==
      [Trace(Str("message"), 3, Object(map[
        "arg1" := Str("arg1"), "arg2" := Str("arg2"), "message" := Str("errormessage"),
        "name" := Str("ExtendedError"), "stack" := Str("ExtendedError: errormessage")]))]
  {
    var e := ExtendedError();
    var fields := e.enumerable;
    var bag := InitialErrorMeta(e);
    assert fields[1..][1..] == fields[2..] && fields[2..][1..] == fields[3..];
    assert fields[3..][1..] == fields[4..] && fields[4..][1..] == [];
    var flat := bag["message" := Str("errormessage")]["name" := Str("ExtendedError")]["arg1" := Str("arg1")]["arg2" := Str("arg2")];
    assert FlattenError(Str("message"), e) == (Str("message"), flat);
    assert flat == map["arg1" := Str("arg1"), "arg2" := Str("arg2"), "message" := Str("errormessage"),
      "name" := Str("ExtendedError"), "stack" := Str("ExtendedError: errormessage")];
    assert LogCalls(Bool(false), false, "error", Str("message"), ErrorObject(e)) == [] + [TraceOf("error", Str("message"), ErrorObject(e))];
  }
}
