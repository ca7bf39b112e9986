/**
 * The collector kit of package trace. Its metric service, metrics storage and
 * stop-once logic are the same code as the test collector of package testkit,
 * so the kit is that collector; only its constructor is its own.
 */
module TraceCollectorKit {
  import opened TestkitCollector

  /** `NewCollectorKit`: an empty endpoint, no metrics, and the configured errors to inject. */
  method NewCollectorKit(config: Config) returns (kit: Collector)
    ensures fresh(kit) && fresh(kit.metricSvc) && fresh(kit.metricSvc.storage)
    ensures kit.Valid() && kit.GetEndPoint() == "" && !kit.stopped && kit.stopFunc.None?
    ensures kit.metricSvc.errors == config.errors && kit.metricSvc.requests == 0
    ensures kit.metricSvc.storage.metrics == [] && kit.GetHeaders().None?
  {
    kit := new Collector(config);
  }
}
