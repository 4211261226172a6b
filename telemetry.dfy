/**
 * The Application Insights telemetry client, seen from the transport: an object
 * whose `trackTrace` and `trackException` calls are recorded, in order, in a
 * ghost list. What the client then does with them (batching, network
 * delivery) is not part of this model.
 */
module Telemetry {
  import opened JsValues

  /** The error handed to `trackException`: an existing `Error`, or `Error(msg)` built on the spot. */
  datatype ExceptionArg = Existing(error: ErrorObj) | Wrapped(message: Value)

  /** One recorded client call, with its positional arguments. */
  datatype ClientCall =
    | Trace(message: Value, severity: nat, properties: Value)
    | Exception(exception: ExceptionArg)

  class TelemetryClient {
    ghost var calls: seq<ClientCall>

    constructor ()
      ensures calls == []
    {
      calls := [];
    }

    /** `client.trackTrace(message, severity, properties)` */
    method TrackTrace(message: Value, severity: nat, properties: Value)
      modifies this
      ensures calls == old(calls) + [Trace(message, severity, properties)]
    {
      calls := calls + [Trace(message, severity, properties)];
    }

    /** `client.trackException(error)` */
    method TrackException(error: ExceptionArg)
      modifies this
      ensures calls == old(calls) + [Exception(error)]
    {
      calls := calls + [Exception(error)];
    }
  }

  /** Number of `trackException` calls in a call list. */
  function ExceptionCount(calls: seq<ClientCall>): nat
  {
    if calls == [] then 0
    else (if calls[0].Exception? then 1 else 0) + ExceptionCount(calls[1..])
  }

  /** Number of `trackTrace` calls in a call list. */
  function TraceCount(calls: seq<ClientCall>): nat
  {
    if calls == [] then 0
    else (if calls[0].Trace? then 1 else 0) + TraceCount(calls[1..])
  }

  /** Both counts distribute over concatenation of call lists. */
  lemma {:induction false} CountsAppend(a: seq<ClientCall>, b: seq<ClientCall>)
    ensures ExceptionCount(a + b) == ExceptionCount(a) + ExceptionCount(b)
    ensures TraceCount(a + b) == TraceCount(a) + TraceCount(b)
  {
    if a == [] {
      assert a + b == b;
    } else {
      assert (a + b)[1..] == a[1..] + b;
      CountsAppend(a[1..], b);
    }
  }
}
