/**
 * `MetricsStorage` of package testkit (and its copy in package trace): an
 * append-only list of the metrics a test collector received, keeping only
 * the first scope of each resource in an export request.
 */
module TestkitMetricsStorage {
  /** The parts of an OTLP metrics export request the storage looks at. */
  datatype Metric = Metric(name: string)
  datatype ScopeMetrics = ScopeMetrics(metrics: seq<Metric>)
  datatype ResourceMetrics = ResourceMetrics(scopeMetrics: seq<ScopeMetrics>)
  datatype ExportRequest = ExportRequest(resourceMetrics: seq<ResourceMetrics>)

  /** What one resource contributes: the metrics of its first scope, or nothing. */
  function Contribution(rm: ResourceMetrics): seq<Metric>
  {
    if |rm.scopeMetrics| > 0 then rm.scopeMetrics[0].metrics else []
  }

  /** What a request contributes, resource by resource. */
  function FirstScopeMetrics(rms: seq<ResourceMetrics>): seq<Metric>
  {
    if |rms| == 0 then [] else FirstScopeMetrics(rms[..|rms| - 1]) + Contribution(rms[|rms| - 1])
  }

  /** Storing two batches of resources in turn stores the same as storing them at once. */
  lemma {:induction false} FirstScopeMetricsAppend(a: seq<ResourceMetrics>, b: seq<ResourceMetrics>)
    ensures FirstScopeMetrics(a + b) == FirstScopeMetrics(a) + FirstScopeMetrics(b)
    decreases |b|
  {
    if |b| > 0 {
      var b' := b[..|b| - 1];
      assert (a + b)[..|a + b| - 1] == a + b';
      FirstScopeMetricsAppend(a, b');
    } else {
      assert a + b == a;
    }
  }

  /** Resources without scopes contribute nothing. */
  lemma {:induction false} NoScopesNoMetrics(rms: seq<ResourceMetrics>)
    requires forall i :: 0 <= i < |rms| ==> |rms[i].scopeMetrics| == 0
    ensures FirstScopeMetrics(rms) == []
  {
    if |rms| > 0 {
      NoScopesNoMetrics(rms[..|rms| - 1]);
    }
  }

  /** Every stored metric comes from the first scope of some resource of the request. */
  lemma {:induction false} StoredMetricsComeFromFirstScopes(rms: seq<ResourceMetrics>, m: Metric)
    requires m in FirstScopeMetrics(rms)
    ensures exists i :: 0 <= i < |rms| && |rms[i].scopeMetrics| > 0 && m in rms[i].scopeMetrics[0].metrics
  {
    var last := |rms| - 1;
    if m in FirstScopeMetrics(rms[..last]) {
      StoredMetricsComeFromFirstScopes(rms[..last], m);
      var i :| 0 <= i < last && |rms[..last][i].scopeMetrics| > 0 && m in rms[..last][i].scopeMetrics[0].metrics;
      assert rms[..last][i] == rms[i];
    } else {
      assert m in Contribution(rms[last]);
    }
  }

  class MetricsStorage {
    var metrics: seq<Metric>

    /** `NewMetricsStorage`: nothing stored. */
    constructor ()
      ensures metrics == []
    {
      metrics := [];
    }

    /** `AddMetrics`: appends the request's first-scope metrics after what is already stored. */
    method AddMetrics(request: ExportRequest)
      modifies this
      ensures metrics == old(metrics) + FirstScopeMetrics(request.resourceMetrics)
    {
      var rms := request.resourceMetrics;
      var i := 0;
      while i < |rms|
        invariant 0 <= i <= |rms|
        invariant metrics == old(metrics) + FirstScopeMetrics(rms[..i])
      {
        assert rms[..i + 1][..i] == rms[..i];
        if |rms[i].scopeMetrics| > 0 {
          metrics := metrics + rms[i].scopeMetrics[0].metrics;
        }
        i := i + 1;
      }
      assert rms[..i] == rms;
    }

    /** `GetMetrics`: a copy with the stored contents, in order. */
    method GetMetrics() returns (m: seq<Metric>)
      ensures m == metrics
    {
      m := metrics;
    }
  }

  /** Storage is append-only: what was stored before an `AddMetrics` stays, in place. */
  method AddMetricsKeepsStored(s: MetricsStorage, request: ExportRequest) returns (before: seq<Metric>, after: seq<Metric>)
    modifies s
    ensures |before| <= |after| && after[..|before|] == before
  {
    before := s.GetMetrics();
    s.AddMetrics(request);
    after := s.GetMetrics();
  }
}
