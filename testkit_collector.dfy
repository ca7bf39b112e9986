/**
 * The test collector of package testkit: a metric service plus the endpoint,
 * listener and stop function a started collector is given, and a `stop` that
 * runs the stop function at most once.
 */
module TestkitCollector {
  import opened Wrappers
  import opened GoContext
  import opened TestkitMetricsStorage
  import opened TestkitMetricService

  const ErrAlreadyStopped := "already stopped"

  /** The listener a collector serves on, by address. */
  datatype Listener = Listener(addr: string)

  /** `TestCollectorConfig`: only the errors reach a new collector; the endpoint is set when it starts. */
  datatype Config = Config(errors: seq<string>, endpoint: string)

  class Collector {
    const metricSvc: MetricService
    var endpoint: string
    var ln: Option<Listener>
    var stopFunc: Option<string>
    var stopped: bool
    /** The stop functions that have run, in order. */
    var stopCalls: seq<string>

    /** The stop function ran at most once, and only as part of the first stop. */
    ghost predicate Valid()
      reads this
    {
      |stopCalls| <= 1 && (|stopCalls| == 1 ==> stopped)
    }

    /** `NewTestCollector`: an empty endpoint and a metric service with the configured errors. */
    constructor (config: Config)
      ensures Valid() && endpoint == "" && ln.None? && stopFunc.None? && !stopped && stopCalls == []
      ensures fresh(metricSvc) && fresh(metricSvc.storage)
      ensures metricSvc.errors == config.errors && metricSvc.requests == 0 && metricSvc.headers.None?
      ensures metricSvc.storage.metrics == []
    {
      metricSvc := new MetricService(config.errors);
      endpoint, ln, stopFunc := "", None, None;
      stopped, stopCalls := false, [];
    }

    method SetEndPoint(e: string)
      modifies this
      ensures endpoint == e && ln == old(ln) && stopFunc == old(stopFunc)
      ensures stopped == old(stopped) && stopCalls == old(stopCalls)
    {
      endpoint := e;
    }

    method SetStopFn(f: string)
      modifies this
      ensures stopFunc == Some(f) && endpoint == old(endpoint) && ln == old(ln)
      ensures stopped == old(stopped) && stopCalls == old(stopCalls)
    {
      stopFunc := Some(f);
    }

    method SetListener(l: Listener)
      modifies this
      ensures ln == Some(l) && endpoint == old(endpoint) && stopFunc == old(stopFunc)
      ensures stopped == old(stopped) && stopCalls == old(stopCalls)
    {
      ln := Some(l);
    }

    function Listener(): (l: Option<Listener>)
      reads this
      ensures l == ln
    {
      ln
    }

    function GetEndPoint(): (e: string)
      reads this
      ensures e == endpoint
    {
      endpoint
    }

    function GetHeaders(): (md: Option<Metadata>)
      reads this, metricSvc
      ensures md == metricSvc.headers
    {
      metricSvc.GetHeaders()
    }

    method GetMetrics() returns (m: seq<Metric>)
      ensures m == metricSvc.storage.metrics
    {
      m := metricSvc.GetMetrics();
    }

    /** `Stop`: the first call succeeds and runs the stop function if one is set; later calls fail. */
    method Stop() returns (err: Option<string>)
      requires Valid()
      modifies this
      ensures Valid() && stopped
      ensures !old(stopped) ==> err.None?
                                && stopCalls == old(stopCalls) + (if stopFunc.Some? then [stopFunc.value] else [])
      ensures old(stopped) ==> err == Some(ErrAlreadyStopped) && stopCalls == old(stopCalls)
      ensures endpoint == old(endpoint) && ln == old(ln) && stopFunc == old(stopFunc)
    {
      err := Some(ErrAlreadyStopped);
      if !stopped {
        stopped := true;
        err := None;
        if stopFunc.Some? {
          stopCalls := stopCalls + [stopFunc.value];
        }
      }
    }
  }

  /** Stopping a collector twice: nil, then "already stopped", with the stop function run once. */
  method StopTwice(c: Collector, f: string) returns (first: Option<string>, second: Option<string>)
    requires c.Valid() && !c.stopped && c.stopCalls == []
    modifies c
    ensures first.None? && second == Some(ErrAlreadyStopped)
    ensures c.stopFunc.Some? ==> c.stopCalls == [c.stopFunc.value]
    ensures c.stopFunc.None? ==> c.stopCalls == []
  {
    first := c.Stop();
    second := c.Stop();
  }
}
