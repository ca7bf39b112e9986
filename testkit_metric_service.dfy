/**
 * `MetricService` of package testkit (and its copy `metricService` in package
 * trace): the OTLP metrics endpoint of a test collector. The first
 * `|errors|` exports fail with the injected errors in turn and store nothing;
 * later exports record the incoming metadata and store the metrics. Every
 * export counts as a request, and every export returns an (empty) response.
 */
module TestkitMetricService {
  import opened Wrappers
  import opened GoContext
  import opened TestkitMetricsStorage

  /** The empty `ExportMetricsServiceResponse`. */
  datatype ExportResponse = ExportResponse

  /** The injected error for the export numbered `requests` (from 0), if any. */
  function InjectedError(errors: seq<string>, requests: nat): (err: Option<string>)
    ensures err.Some? <==> requests < |errors|
    ensures err.Some? ==> err.value == errors[requests]
  {
    if requests < |errors| then Some(errors[requests]) else None
  }

  class MetricService {
    var requests: nat
    const errors: seq<string>
    var headers: Option<Metadata>
    const storage: MetricsStorage

    /** The service a new test collector starts with: no requests, no headers, empty storage. */
    constructor (errors: seq<string>)
      ensures this.errors == errors && requests == 0 && headers.None?
      ensures fresh(storage) && storage.metrics == []
    {
      this.errors := errors;
      requests := 0;
      headers := None;
      storage := new MetricsStorage();
    }

    /** `GetHeaders`: the metadata of the last stored export, nil before one. */
    function GetHeaders(): (md: Option<Metadata>)
      reads this
      ensures md == headers
    {
      headers
    }

    /** `GetMetrics`: a copy of the stored metrics. */
    method GetMetrics() returns (m: seq<Metric>)
      ensures m == storage.metrics
    {
      m := storage.GetMetrics();
    }

    /** `Export`, with the optional delay before it left out. */
    method Export(ctx: Context, request: ExportRequest) returns (reply: ExportResponse, err: Option<string>)
      modifies this, storage
      ensures requests == old(requests) + 1
      ensures err == InjectedError(errors, old(requests))
      ensures err.Some? ==> headers == old(headers) && storage.metrics == old(storage.metrics)
      ensures err.None? ==> headers == ctx.incoming
                            && storage.metrics == old(storage.metrics) + FirstScopeMetrics(request.resourceMetrics)
    {
      reply := ExportResponse;
      if requests < |errors| {
        err := Some(errors[requests]);
        requests := requests + 1;
        return;
      }
      headers := ctx.incoming;
      storage.AddMetrics(request);
      err := None;
      requests := requests + 1;
    }
  }
}
