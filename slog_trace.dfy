/**
 * `OtelTraceIdExtractor` of package logger: the trace and span IDs of the
 * context's span as lower-case hexadecimal, or a nil map when the trace ID
 * is not valid. An ID is valid when it is not all zero bytes.
 */
module SlogTrace {
  import opened Wrappers
  import opened Strings
  import opened GoContext

  predicate ValidTraceId(t: TraceId)
  {
    t != seq(16, _ => 0)
  }

  predicate ValidSpanId(s: SpanId)
  {
    s != seq(8, _ => 0)
  }

  function OtelTraceIdExtractor(ctx: Context): (r: Option<map<string, string>>)
    ensures r.Some? <==> ValidTraceId(SpanContextOf(ctx).traceId)
    ensures r.Some? ==> r.value.Keys == {"traceId", "spanId"}
    ensures r.Some? ==> (r.value["spanId"] == "" <==> !ValidSpanId(SpanContextOf(ctx).spanId))
  {
    var sc := SpanContextOf(ctx);
    var traceId := if ValidTraceId(sc.traceId) then HexEncode(sc.traceId) else "";
    var spanId := if ValidSpanId(sc.spanId) then HexEncode(sc.spanId) else "";
    if traceId == "" then None else Some(map["traceId" := traceId, "spanId" := spanId])
  }

  /** The extracted IDs read back as the span context's own IDs. */
  lemma ExtractedIdsRoundTrip(ctx: Context)
    requires OtelTraceIdExtractor(ctx).Some?
    ensures |OtelTraceIdExtractor(ctx).value["traceId"]| == 32
    ensures HexDecode(OtelTraceIdExtractor(ctx).value["traceId"]) == Some(SpanContextOf(ctx).traceId)
    ensures ValidSpanId(SpanContextOf(ctx).spanId) ==>
              HexDecode(OtelTraceIdExtractor(ctx).value["spanId"]) == Some(SpanContextOf(ctx).spanId)
  {
    HexRoundTrip(SpanContextOf(ctx).traceId);
    HexRoundTrip(SpanContextOf(ctx).spanId);
  }

  /** A context without a span yields no trace fields. */
  lemma NoSpanNoTraceFields(ctx: Context)
    requires ctx.span.None?
    ensures OtelTraceIdExtractor(ctx).None?
  {
  }
}
