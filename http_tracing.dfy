/**
 * The HTTP tracing middleware of package otel/trace: option handling with
 * fallbacks to the global tracer provider and propagators, and the
 * `recordingResponseWriter` that remembers the status of a response as fixed
 * by the first `Write` or `WriteHeader` while forwarding every call.
 */
module HttpTracing {
  import opened Wrappers
  import opened Strings

  /** A tracer provider or propagator: the process-wide default, or one given by name. */
  datatype Provider = Global | Named(name: string)

  /** An option; its argument may be nil, which clears what earlier options set. */
  datatype MiddlewareOption = WithPropagators(propagators: Option<string>) | WithTracerProvider(provider: Option<string>)

  const InstrumentationName :=
    "go.opentelemetry.io/contrib/instrumentation/github.com/tochemey/gopack/httptracer"

  /** What `Middleware` wraps each handler with. */
  datatype TraceWrapper = TraceWrapper(serverName: string, tracerProvider: Provider, instrumentation: string, propagators: Provider)

  /** The tracer provider the options leave in the configuration: the last one set, nil included. */
  function LastTracerProvider(opts: seq<MiddlewareOption>): Option<string>
  {
    if |opts| == 0 then None
    else if opts[|opts| - 1].WithTracerProvider? then opts[|opts| - 1].provider
    else LastTracerProvider(opts[..|opts| - 1])
  }

  /** The propagators the options leave in the configuration. */
  function LastPropagators(opts: seq<MiddlewareOption>): Option<string>
  {
    if |opts| == 0 then None
    else if opts[|opts| - 1].WithPropagators? then opts[|opts| - 1].propagators
    else LastPropagators(opts[..|opts| - 1])
  }

  function OrGlobal(v: Option<string>): Provider
  {
    if v.Some? then Named(v.value) else Global
  }

  /** `Middleware`: applies the options in order, then falls back to the globals for what is unset. */
  method Middleware(serverName: string, opts: seq<MiddlewareOption>) returns (w: TraceWrapper)
    ensures w == TraceWrapper(serverName, OrGlobal(LastTracerProvider(opts)), InstrumentationName,
                              OrGlobal(LastPropagators(opts)))
  {
    var tracerProvider: Option<string> := None;
    var propagators: Option<string> := None;
    var i := 0;
    while i < |opts|
      invariant 0 <= i <= |opts|
      invariant tracerProvider == LastTracerProvider(opts[..i])
      invariant propagators == LastPropagators(opts[..i])
    {
      assert opts[..i + 1][..i] == opts[..i];
      match opts[i] {
        case WithPropagators(p) => propagators := p;
        case WithTracerProvider(p) => tracerProvider := p;
      }
      i := i + 1;
    }
    assert opts[..i] == opts;
    var provider := if tracerProvider.Some? then Named(tracerProvider.value) else Global;
    var props := if propagators.Some? then Named(propagators.value) else Global;
    w := TraceWrapper(serverName, provider, InstrumentationName, props);
  }

  /**
   * The provider left configured is `Some(p)` exactly when some option set it
   * to `p` and no later option set a provider.
   */
  lemma {:induction false} LastTracerProviderWins(opts: seq<MiddlewareOption>, p: string)
    ensures LastTracerProvider(opts) == Some(p) <==>
      exists i :: 0 <= i < |opts| && opts[i] == WithTracerProvider(Some(p))
                  && forall j :: i < j < |opts| ==> !opts[j].WithTracerProvider?
  {
    if |opts| > 0 {
      var last := |opts| - 1;
      var init := opts[..last];
      LastTracerProviderWins(init, p);
      if !opts[last].WithTracerProvider? {
        if LastTracerProvider(opts) == Some(p) {
          var i :| 0 <= i < |init| && init[i] == WithTracerProvider(Some(p))
                   && forall j :: i < j < |init| ==> !init[j].WithTracerProvider?;
          assert opts[i] == init[i];
          assert forall j :: i < j < |opts| ==> !opts[j].WithTracerProvider? by {
            forall j | i < j < |opts| ensures !opts[j].WithTracerProvider? {
              if j < last { assert opts[j] == init[j]; }
            }
          }
        }
        if exists i :: 0 <= i < |opts| && opts[i] == WithTracerProvider(Some(p))
                       && forall j :: i < j < |opts| ==> !opts[j].WithTracerProvider? {
          var i :| 0 <= i < |opts| && opts[i] == WithTracerProvider(Some(p))
                   && forall j :: i < j < |opts| ==> !opts[j].WithTracerProvider?;
          assert i < last;
          assert init[i] == opts[i];
          assert forall j :: i < j < |init| ==> init[j] == opts[j];
        }
      }
    }
  }

  /** An option whose argument is nil: it sets nothing. */
  predicate SetsNothing(o: MiddlewareOption)
  {
    match o
    case WithPropagators(p) => p.None?
    case WithTracerProvider(p) => p.None?
  }

  /** Options that never name a provider or propagators leave the global ones in place. */
  lemma {:induction false} NoOptionsMeansGlobals(opts: seq<MiddlewareOption>)
    requires forall i :: 0 <= i < |opts| ==> SetsNothing(opts[i])
    ensures OrGlobal(LastTracerProvider(opts)) == Global && OrGlobal(LastPropagators(opts)) == Global
  {
    if |opts| > 0 {
      NoOptionsMeansGlobals(opts[..|opts| - 1]);
    }
  }

  const StatusOK: int := 200

  /** A call made on the response writer and forwarded to the wrapped one. */
  datatype WriterCall = WriteCall(body: seq<uint8>) | WriteHeaderCall(statusCode: int)

  /** The status a response ends up with: fixed by its first call, 200 for a body, 0 before any call. */
  function RecordedStatus(calls: seq<WriterCall>): int
  {
    if |calls| == 0 then 0
    else match calls[0]
      case WriteCall(_) => StatusOK
      case WriteHeaderCall(code) => code
  }

  class RecordingResponseWriter {
    var written: bool
    var status: int
    /** Every call made through this writer, as passed on to the wrapped writer. */
    var forwarded: seq<WriterCall>

    ghost predicate Valid()
      reads this
    {
      written == (|forwarded| > 0) && status == RecordedStatus(forwarded)
    }

    /** `getRRW` on a fresh writer: nothing written, status 0. */
    constructor ()
      ensures Valid() && !written && status == 0 && forwarded == []
    {
      written, status, forwarded := false, 0, [];
    }

    /** `getRRW` on a writer taken from the pool: its state is reset for the new response. */
    method Reset()
      modifies this
      ensures Valid() && !written && status == 0 && forwarded == []
    {
      written, status, forwarded := false, 0, [];
    }

    /** The `Write` hook: the first call of a response fixes the status at 200; the bytes are always forwarded. */
    method Write(body: seq<uint8>, next: seq<uint8> -> (int, Option<string>)) returns (n: int, err: Option<string>)
      requires Valid()
      modifies this
      ensures Valid() && written
      ensures forwarded == old(forwarded) + [WriteCall(body)]
      ensures status == if old(written) then old(status) else StatusOK
      ensures (n, err) == next(body)
    {
      if !written {
        written := true;
        status := StatusOK;
      }
      forwarded := forwarded + [WriteCall(body)];
      n, err := next(body).0, next(body).1;
    }

    /** The `WriteHeader` hook: the first call of a response fixes the status; the call is always forwarded. */
    method WriteHeader(statusCode: int)
      requires Valid()
      modifies this
      ensures Valid() && written
      ensures forwarded == old(forwarded) + [WriteHeaderCall(statusCode)]
      ensures status == if old(written) then old(status) else statusCode
    {
      if !written {
        written := true;
        status := statusCode;
      }
      forwarded := forwarded + [WriteHeaderCall(statusCode)];
    }
  }

  /** Once something was written, later calls never change the recorded status. */
  lemma {:induction false} FirstCallFixesStatus(calls: seq<WriterCall>, more: seq<WriterCall>)
    requires |calls| > 0
    ensures RecordedStatus(calls + more) == RecordedStatus(calls)
  {
    assert (calls + more)[0] == calls[0];
  }
}
