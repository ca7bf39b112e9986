/**
 * Go's `context.Context` as the library uses it: a key/value store
 * (`context.WithValue`, `ctx.Value`), the gRPC incoming and outgoing metadata
 * attached to it, and the OpenTelemetry span context it may carry.
 * `context.WithValue` shadows an earlier value under the same key, which a
 * map update states directly.
 */
module GoContext {
  import opened Wrappers
  import opened Strings

  /** gRPC metadata: each key holds a list of values. */
  type Metadata = map<string, seq<string>>

  /** Keys stored in a context: the request-ID key type of package requestid, or any other key. */
  datatype Key = RequestIdKey | OtherKey(name: string)

  /** A stored value: a Go string, or a value of some other dynamic type. */
  datatype Value = StringValue(s: string) | OtherValue(description: string)

  /** OpenTelemetry's 16-byte trace ID and 8-byte span ID. */
  type TraceId = b: seq<uint8> | |b| == 16 witness seq(16, _ => 0)
  type SpanId = b: seq<uint8> | |b| == 8 witness seq(8, _ => 0)

  datatype SpanContext = SpanContext(traceId: TraceId, spanId: SpanId)

  datatype Context = Context(
    values: map<Key, Value>,
    incoming: Option<Metadata>,
    outgoing: Option<Metadata>,
    span: Option<SpanContext>)

  /** `context.Background()`. */
  const Background := Context(map[], None, None, None)

  /** `context.WithValue(ctx, key, value)`. */
  function WithValue(ctx: Context, key: Key, value: Value): (r: Context)
    ensures key in r.values && r.values[key] == value
    ensures forall k :: k != key ==> (k in r.values <==> k in ctx.values)
    ensures forall k :: k != key && k in ctx.values ==> r.values[k] == ctx.values[k]
    ensures r.incoming == ctx.incoming && r.outgoing == ctx.outgoing && r.span == ctx.span
  {
    ctx.(values := ctx.values[key := value])
  }

  /** `metadata.NewOutgoingContext(ctx, md)`. */
  function NewOutgoingContext(ctx: Context, md: Metadata): (r: Context)
    ensures r.outgoing == Some(md)
    ensures r.values == ctx.values && r.incoming == ctx.incoming && r.span == ctx.span
  {
    ctx.(outgoing := Some(md))
  }

  /**
   * `md.Copy()` on the metadata `metadata.FromOutgoingContext` returned: a copy of
   * the metadata, or an empty one when the context had none (a nil `MD` copies
   * to an empty map).
   */
  function CopyMetadata(md: Option<Metadata>): (r: Metadata)
    ensures md.Some? ==> r == md.value
    ensures md.None? ==> r == map[]
  {
    match md
    case Some(m) => m
    case None => map[]
  }

  /**
   * `trace.SpanFromContext(ctx).SpanContext()`: the carried span context, or the
   * all-zero one of the no-op span when there is none.
   */
  function SpanContextOf(ctx: Context): SpanContext
  {
    match ctx.span
    case Some(sc) => sc
    case None => SpanContext(seq(16, _ => 0), seq(8, _ => 0))
  }
}
