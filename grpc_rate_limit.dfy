/**
 * The rate-limiting interceptors of package grpc. A `Limiter` is a function
 * from the call's context to "reject this call"; when it says so the
 * interceptor answers with a ResourceExhausted status naming the method and
 * does not call the next handler, otherwise it returns exactly what the next
 * handler returns.
 */
module GrpcRateLimit {
  import opened Wrappers
  import opened Strings
  import opened GoContext
  import GrpcRequestId

  /** gRPC status code `codes.ResourceExhausted`. */
  const ResourceExhausted: nat := 8

  const RejectionSuffix := " have been rejected by rate limiting."

  datatype Status = Status(code: nat, message: string)

  /** What a unary handler, or a stream creator, returns: a value or nil, and an error or nil. */
  datatype Reply<R> = Reply(value: Option<R>, err: Option<Status>)

  /** The status every interceptor answers a rejected call with. */
  function Rejection(fullMethod: string): (s: Status)
    ensures s.code == ResourceExhausted
    ensures RejectedMethod(s.message) == Some(fullMethod)
  {
    var msg := fullMethod + RejectionSuffix;
    assert msg[..|fullMethod|] == fullMethod && msg[|fullMethod|..] == RejectionSuffix;
    Status(ResourceExhausted, msg)
  }

  /** Reads the method name back out of a rejection message. */
  function RejectedMethod(message: string): Option<string>
  {
    if |message| >= |RejectionSuffix| && message[|message| - |RejectionSuffix|..] == RejectionSuffix
    then Some(message[..|message| - |RejectionSuffix|])
    else None
  }

  /**
   * `RateLimiter.Check`: `waitError` is what `rate.Limiter.Wait` returned; the
   * call is rejected exactly when waiting failed.
   */
  function Check(waitError: Option<string>): (rejected: bool)
    ensures rejected <==> waitError.Some?
  {
    waitError.Some?
  }

  /** `NewRateLimitUnaryServerInterceptor`. */
  function UnaryServerInterceptor<Req, R>(
    ctx: Context, req: Req, fullMethod: string,
    limiter: Context -> bool, handler: (Context, Req) -> Reply<R>): (r: Reply<R>)
    ensures limiter(ctx) ==> r == Reply(None, Some(Rejection(fullMethod)))
    ensures !limiter(ctx) ==> r == handler(ctx, req)
  {
    if limiter(ctx) then Reply(None, Some(Rejection(fullMethod))) else handler(ctx, req)
  }

  /** `NewRateLimitStreamServerInterceptor`: the limiter sees the stream's context. */
  function StreamServerInterceptor<Srv>(
    srv: Srv, stream: GrpcRequestId.ServerStream, fullMethod: string,
    limiter: Context -> bool, handler: (Srv, GrpcRequestId.ServerStream) -> Option<Status>): (r: Option<Status>)
    ensures limiter(stream.ctx) ==> r == Some(Rejection(fullMethod))
    ensures !limiter(stream.ctx) ==> r == handler(srv, stream)
  {
    if limiter(stream.ctx) then Some(Rejection(fullMethod)) else handler(srv, stream)
  }

  /** `NewRateLimitUnaryClientInterceptor`: the rejection names the invoked method. */
  function UnaryClientInterceptor(
    ctx: Context, fullMethod: string,
    limiter: Context -> bool, invoker: (Context, string) -> Option<Status>): (r: Option<Status>)
    ensures limiter(ctx) ==> r == Some(Rejection(fullMethod))
    ensures !limiter(ctx) ==> r == invoker(ctx, fullMethod)
  {
    if limiter(ctx) then Some(Rejection(fullMethod)) else invoker(ctx, fullMethod)
  }

  /** `NewRateLimitStreamClientInterceptor`: a rejected call gets no stream. */
  function StreamClientInterceptor<S>(
    ctx: Context, fullMethod: string,
    limiter: Context -> bool, streamer: (Context, string) -> Reply<S>): (r: Reply<S>)
    ensures limiter(ctx) ==> r.value.None? && r.err == Some(Rejection(fullMethod))
    ensures !limiter(ctx) ==> r == streamer(ctx, fullMethod)
  {
    if limiter(ctx) then Reply(None, Some(Rejection(fullMethod))) else streamer(ctx, fullMethod)
  }

  /** Two calls are rejected with the same message only when they name the same method. */
  lemma RejectionDistinguishesMethods(m1: string, m2: string)
    requires Rejection(m1).message == Rejection(m2).message
    ensures m1 == m2
  {
    assert RejectedMethod(Rejection(m1).message) == Some(m1);
  }

  /** A unary server call that passes the limiter is indistinguishable from calling the handler directly. */
  lemma UnaryServerPassThrough<Req, R>(
    ctx: Context, req: Req, fullMethod: string, limiter: Context -> bool, handler: (Context, Req) -> Reply<R>)
    requires !limiter(ctx)
    ensures UnaryServerInterceptor(ctx, req, fullMethod, limiter, handler) == handler(ctx, req)
  {
  }
}
