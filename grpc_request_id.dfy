/**
 * The request-ID interceptors of package grpc. A server interceptor takes the
 * ID from the incoming metadata (or draws a fresh one) and stores it in the
 * context handed to the handler; a client interceptor does the same from the
 * outgoing metadata and re-attaches a copy of that metadata for the invoker.
 * Handlers, invokers and streamers are function parameters; `freshId` is the
 * result of `uuid.NewString()`.
 */
module GrpcRequestId {
  import opened Wrappers
  import opened GoContext
  import RequestId

  /**
   * The rule shared by `getServerRequestID` and `getClientRequestID`: the first
   * value under "x-request-id" when there is metadata, the key is present, the
   * list is non-empty and its first value is non-empty; a fresh ID otherwise.
   */
  function RequestIdFromMetadata(md: Option<Metadata>, freshId: string): (id: string)
    requires freshId != ""
    ensures id != ""
    ensures id != freshId ==>
              md.Some? && RequestId.XRequestIdMetadataKey in md.value
              && |md.value[RequestId.XRequestIdMetadataKey]| > 0
              && id == md.value[RequestId.XRequestIdMetadataKey][0]
    ensures md.Some? && RequestId.XRequestIdMetadataKey in md.value
            && |md.value[RequestId.XRequestIdMetadataKey]| > 0
            && md.value[RequestId.XRequestIdMetadataKey][0] != "" ==>
              id == md.value[RequestId.XRequestIdMetadataKey][0]
  {
    match md
    case None => freshId
    case Some(m) =>
      if RequestId.XRequestIdMetadataKey !in m || |m[RequestId.XRequestIdMetadataKey]| == 0 then freshId
      else
        var requestId := m[RequestId.XRequestIdMetadataKey][0];
        if requestId == "" then freshId else requestId
  }

  /** `getServerRequestID`: the rule applied to the incoming metadata. */
  function GetServerRequestId(ctx: Context, freshId: string): (id: string)
    requires freshId != ""
    ensures id != ""
    ensures id != freshId ==> ctx.incoming.Some? && RequestId.XRequestIdMetadataKey in ctx.incoming.value
  {
    RequestIdFromMetadata(ctx.incoming, freshId)
  }

  /** `getClientRequestID`: the same rule applied to the outgoing metadata. */
  function GetClientRequestId(ctx: Context, freshId: string): (id: string)
    requires freshId != ""
    ensures id != ""
    ensures id != freshId ==> ctx.outgoing.Some? && RequestId.XRequestIdMetadataKey in ctx.outgoing.value
  {
    RequestIdFromMetadata(ctx.outgoing, freshId)
  }

  /** The context a server handler receives: the caller's, plus the request ID. */
  function ServerCallContext(ctx: Context, freshId: string): (r: Context)
    requires freshId != ""
    ensures RequestId.FromContext(r) == GetServerRequestId(ctx, freshId)
    ensures RequestId.FromContext(r) != ""
    ensures r.incoming == ctx.incoming && r.outgoing == ctx.outgoing && r.span == ctx.span
    ensures forall k :: k != RequestIdKey ==> (k in r.values <==> k in ctx.values)
  {
    WithValue(ctx, RequestIdKey, StringValue(GetServerRequestId(ctx, freshId)))
  }

  /**
   * The context an invoker or streamer receives: the request ID stored as a
   * value, and the outgoing metadata replaced by a copy of the original one.
   */
  function ClientCallContext(ctx: Context, freshId: string): (r: Context)
    requires freshId != ""
    ensures RequestId.FromContext(r) == GetClientRequestId(ctx, freshId)
    ensures r.outgoing == Some(CopyMetadata(ctx.outgoing))
    ensures r.incoming == ctx.incoming && r.span == ctx.span
  {
    NewOutgoingContext(WithValue(ctx, RequestIdKey, StringValue(GetClientRequestId(ctx, freshId))),
                       CopyMetadata(ctx.outgoing))
  }

  /** `NewRequestIDUnaryServerInterceptor`: one handler call, its result returned unchanged. */
  function UnaryServerInterceptor<Req, Resp>(ctx: Context, req: Req, handler: (Context, Req) -> Resp, freshId: string): (r: Resp)
    requires freshId != ""
    ensures r == handler(ServerCallContext(ctx, freshId), req)
  {
    handler(ServerCallContext(ctx, freshId), req)
  }

  /** A gRPC server stream; `WithContext` is `serverStreamWithContext`, whose `Context()` is its own `ctx`. */
  datatype ServerStream = BaseStream(ctx: Context, id: nat) | WithContext(inner: ServerStream, ctx: Context)

  /** `newServerStreamWithContext`. */
  function NewServerStreamWithContext(ctx: Context, stream: ServerStream): (s: ServerStream)
    ensures s.ctx == ctx && s.WithContext? && s.inner == stream
  {
    WithContext(stream, ctx)
  }

  /** `NewRequestIDStreamServerInterceptor`: the handler gets the stream wrapped with the ID-carrying context. */
  function StreamServerInterceptor<Srv, Err>(srv: Srv, ss: ServerStream, handler: (Srv, ServerStream) -> Err, freshId: string): (r: Err)
    requires freshId != ""
    ensures r == handler(srv, NewServerStreamWithContext(ServerCallContext(ss.ctx, freshId), ss))
  {
    handler(srv, NewServerStreamWithContext(ServerCallContext(ss.ctx, freshId), ss))
  }

  /** `NewRequestIDUnaryClientInterceptor`. */
  function UnaryClientInterceptor<Err>(ctx: Context, fullMethod: string, invoker: (Context, string) -> Err, freshId: string): (r: Err)
    requires freshId != ""
    ensures r == invoker(ClientCallContext(ctx, freshId), fullMethod)
  {
    invoker(ClientCallContext(ctx, freshId), fullMethod)
  }

  /** `NewRequestIDStreamClientInterceptor`. */
  function StreamClientInterceptor<Stream>(ctx: Context, fullMethod: string, streamer: (Context, string) -> Stream, freshId: string): (r: Stream)
    requires freshId != ""
    ensures r == streamer(ClientCallContext(ctx, freshId), fullMethod)
  {
    streamer(ClientCallContext(ctx, freshId), fullMethod)
  }

  /** The server handler sees the incoming ID when one is present and non-empty, and some non-empty ID always. */
  lemma ServerHandlerSeesIncomingId(ctx: Context, freshId: string, id: string)
    requires freshId != "" && id != ""
    requires ctx.incoming.Some? && RequestId.XRequestIdMetadataKey in ctx.incoming.value
    requires |ctx.incoming.value[RequestId.XRequestIdMetadataKey]| > 0
    requires ctx.incoming.value[RequestId.XRequestIdMetadataKey][0] == id
    ensures RequestId.FromContext(ServerCallContext(ctx, freshId)) == id
  {
  }

  /** Without incoming metadata the handler sees the fresh ID. */
  lemma ServerHandlerGetsFreshIdWithoutMetadata(ctx: Context, freshId: string)
    requires freshId != "" && ctx.incoming.None?
    ensures RequestId.FromContext(ServerCallContext(ctx, freshId)) == freshId
  {
  }

  /** A wrapped stream reports the ID-carrying context and still wraps the original stream. */
  lemma StreamHandlerSeesId(ss: ServerStream, freshId: string)
    requires freshId != ""
    ensures var s := NewServerStreamWithContext(ServerCallContext(ss.ctx, freshId), ss);
      RequestId.FromContext(s.ctx) == GetServerRequestId(ss.ctx, freshId) && s.inner == ss
  {
  }
}
