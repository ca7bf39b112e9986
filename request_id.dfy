/**
 * Package requestid: reading the request ID stored in a context and making sure
 * a context carries one. UUID generation is a parameter: `freshId` stands for
 * the string `uuid.NewString()` returns, which is never empty.
 */
module RequestId {
  import opened GoContext

  /** The gRPC metadata key that carries the request ID on the wire. */
  const XRequestIdMetadataKey := "x-request-id"

  /**
   * `FromContext`: the string stored under the request-ID key, or "" when no
   * value is stored there or the stored value is not a string.
   */
  function FromContext(ctx: Context): (id: string)
    ensures RequestIdKey in ctx.values && ctx.values[RequestIdKey].StringValue? ==>
              id == ctx.values[RequestIdKey].s
    ensures RequestIdKey !in ctx.values || !ctx.values[RequestIdKey].StringValue? ==> id == ""
  {
    if RequestIdKey in ctx.values then
      match ctx.values[RequestIdKey]
      case StringValue(s) => s
      case OtherValue(_) => ""
    else ""
  }

  /**
   * `Context`: the same context when it already carries a non-empty request ID,
   * otherwise a child context holding the fresh ID under the request-ID key.
   */
  function Context(ctx: GoContext.Context, freshId: string): (r: GoContext.Context)
    requires freshId != ""
    ensures FromContext(ctx) != "" ==> r == ctx
    ensures FromContext(ctx) == "" ==> r == WithValue(ctx, RequestIdKey, StringValue(freshId))
    ensures FromContext(r) != ""
  {
    if FromContext(ctx) != "" then ctx
    else WithValue(ctx, RequestIdKey, StringValue(freshId))
  }

  /** A context that gets a new ID carries exactly that ID; the parent still carries none. */
  lemma ContextSetsFreshId(ctx: GoContext.Context, freshId: string)
    requires freshId != ""
    requires FromContext(ctx) == ""
    ensures FromContext(Context(ctx, freshId)) == freshId
    ensures FromContext(ctx) == ""
  {
  }

  /** Everything but the request-ID entry passes through unchanged. */
  lemma ContextKeepsOtherValues(ctx: GoContext.Context, freshId: string, k: Key)
    requires freshId != "" && k != RequestIdKey
    ensures var r := Context(ctx, freshId);
      (k in r.values <==> k in ctx.values) && (k in ctx.values ==> r.values[k] == ctx.values[k])
    ensures Context(ctx, freshId).incoming == ctx.incoming
    ensures Context(ctx, freshId).outgoing == ctx.outgoing
  {
  }

  /** `Context` is idempotent: a second call, whatever ID it would draw, changes nothing. */
  lemma ContextIdempotent(ctx: GoContext.Context, freshId: string, otherId: string)
    requires freshId != "" && otherId != ""
    ensures Context(Context(ctx, freshId), otherId) == Context(ctx, freshId)
  {
  }
}
