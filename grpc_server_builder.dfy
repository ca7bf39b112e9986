/**
 * `ServerBuilder` of package grpc: a mutable builder whose setters assign one
 * field each and return the builder itself, and whose `Build` may succeed only
 * once. What `Build` produces is described by a `Server` value (address,
 * options, services, tracing provider settings); creating the real gRPC
 * server, registering services and starting a trace exporter are not modelled.
 */
module GrpcServerBuilder {
  import opened Wrappers
  import opened Strings

  /** Go's `int32`. */
  newtype int32 = x: int | -0x8000_0000 <= x < 0x8000_0000

  /** Durations in nanoseconds, as Go's `time.Duration`. */
  const Second: int := 1_000_000_000
  const MaxConnectionAge: int := 600 * Second
  const MaxConnectionAgeGrace: int := 60 * Second
  const KeepAliveTime: int := 1200 * Second
  const DefaultGrpcPort: int := 50051

  datatype KeepaliveParams = KeepaliveParams(
    maxConnectionIdle: int, maxConnectionAge: int, maxConnectionAgeGrace: int, time: int, timeout: int)

  /** Interceptors by name: the library's own and any the caller supplies. */
  datatype Interceptor = RequestIdInterceptor | MetricInterceptor | RecoveryInterceptor | CustomInterceptor(name: string)

  /** The server options the builder can accumulate. */
  datatype ServerOption =
    | KeepaliveOption(params: KeepaliveParams)
    | ChainUnary(unary: seq<Interceptor>)
    | ChainStream(stream: seq<Interceptor>)
    | TlsCredentials(certificate: string)
    | ServerTracingStatsHandler
    | CustomOption(name: string)

  datatype BuildError = ErrMissingTraceUrl | ErrMissingServiceName | ErrCannotUseSameBuilder
  {
    function Message(): string
    {
      match this
      case ErrMissingTraceUrl => "trace URL is not defined"
      case ErrMissingServiceName => "service name is not defined"
      case ErrCannotUseSameBuilder => "cannot use the same builder to build more than once"
    }
  }

  /** What a successful `Build` returns. */
  datatype Server = Server(
    addr: string,
    options: seq<ServerOption>,
    services: seq<string>,
    reflection: bool,
    healthCheck: bool,
    traceProvider: Option<(string, string)>,
    shutdownHook: Option<string>)

  /** The builder's fields, as one value. */
  datatype BuilderState = BuilderState(
    options: seq<ServerOption>,
    services: seq<string>,
    enableReflection: bool,
    enableHealthCheck: bool,
    metricsEnabled: bool,
    tracingEnabled: bool,
    serviceName: string,
    grpcPort: int,
    grpcHost: string,
    traceUrl: string,
    shutdownHook: Option<string>,
    isBuilt: bool)

  /** `grpc.Config`, the input of `NewServerBuilderFromConfig`. */
  datatype Config = Config(
    serviceName: string, grpcHost: string, grpcPort: int32, traceEnabled: bool,
    traceUrl: string, enableReflection: bool, metricsEnabled: bool, metricsPort: int)

  /** `fmt.Sprintf("%s:%d", host, port)`. */
  function Address(host: string, port: int): (addr: string)
    ensures SplitHostPort(addr) == Some((host, port))
  {
    AddressRoundTrip(host, port);
    host + ":" + IntToString(port)
  }

  /** Splits an address at its last colon and reads the port back. */
  function SplitHostPort(addr: string): Option<(string, int)>
  {
    match LastIndexOf(addr, ':')
    case None => None
    case Some(i) =>
      match ParseInt(addr[i + 1..])
      case None => None
      case Some(port) => Some((addr[..i], port))
  }

  lemma {:induction false} AddressRoundTrip(host: string, port: int)
    ensures SplitHostPort(host + ":" + IntToString(port)) == Some((host, port))
  {
    var digits := IntToString(port);
    var addr := host + ":" + digits;
    assert addr[|host|] == ':';
    assert forall i :: |host| < i < |addr| ==> addr[i] == digits[i - |host| - 1];
    var r := LastIndexOf(addr, ':');
    assert r == Some(|host|);
    assert addr[..|host|] == host && addr[|host| + 1..] == digits;
    IntToStringRoundTrip(port);
  }

  class ServerBuilder {
    var options: seq<ServerOption>
    var services: seq<string>
    var enableReflection: bool
    var enableHealthCheck: bool
    var metricsEnabled: bool
    var tracingEnabled: bool
    var serviceName: string
    var grpcPort: int
    var grpcHost: string
    var traceUrl: string
    var shutdownHook: Option<string>
    var isBuilt: bool

    function State(): BuilderState
      reads this
    {
      BuilderState(options, services, enableReflection, enableHealthCheck, metricsEnabled, tracingEnabled,
                   serviceName, grpcPort, grpcHost, traceUrl, shutdownHook, isBuilt)
    }

    /** `NewServerBuilder`: port 50051, not yet built, everything else empty. */
    constructor ()
      ensures State() == BuilderState([], [], false, false, false, false, "", DefaultGrpcPort, "", "", None, false)
    {
      options, services := [], [];
      enableReflection, enableHealthCheck, metricsEnabled, tracingEnabled := false, false, false, false;
      serviceName, grpcPort, grpcHost, traceUrl := "", DefaultGrpcPort, "", "";
      shutdownHook, isBuilt := None, false;
    }

    method WithShutdownHook(hook: string) returns (r: ServerBuilder)
      modifies this
      ensures r == this && State() == old(State()).(shutdownHook := Some(hook))
    {
      shutdownHook := Some(hook);
      r := this;
    }

    method WithPort(port: int) returns (r: ServerBuilder)
      modifies this
      ensures r == this && State() == old(State()).(grpcPort := port)
    {
      grpcPort := port;
      r := this;
    }

    method WithHost(host: string) returns (r: ServerBuilder)
      modifies this
      ensures r == this && State() == old(State()).(grpcHost := host)
    {
      grpcHost := host;
      r := this;
    }

    method WithMetricsEnabled(enabled: bool) returns (r: ServerBuilder)
      modifies this
      ensures r == this && State() == old(State()).(metricsEnabled := enabled)
    {
      metricsEnabled := enabled;
      r := this;
    }

    method WithTracingEnabled(enabled: bool) returns (r: ServerBuilder)
      modifies this
      ensures r == this && State() == old(State()).(tracingEnabled := enabled)
    {
      tracingEnabled := enabled;
      r := this;
    }

    method WithTraceUrl(url: string) returns (r: ServerBuilder)
      modifies this
      ensures r == this && State() == old(State()).(traceUrl := url)
    {
      traceUrl := url;
      r := this;
    }

    /** Appends one option; earlier options keep their order. */
    method WithOption(o: ServerOption) returns (r: ServerBuilder)
      modifies this
      ensures r == this && State() == old(State()).(options := old(options) + [o])
    {
      options := options + [o];
      r := this;
    }

    method WithService(service: string) returns (r: ServerBuilder)
      modifies this
      ensures r == this && State() == old(State()).(services := old(services) + [service])
    {
      services := services + [service];
      r := this;
    }

    method WithServiceName(name: string) returns (r: ServerBuilder)
      modifies this
      ensures r == this && State() == old(State()).(serviceName := name)
    {
      serviceName := name;
      r := this;
    }

    method WithReflection(enabled: bool) returns (r: ServerBuilder)
      modifies this
      ensures r == this && State() == old(State()).(enableReflection := enabled)
    {
      enableReflection := enabled;
      r := this;
    }

    method WithHealthCheck(enabled: bool) returns (r: ServerBuilder)
      modifies this
      ensures r == this && State() == old(State()).(enableHealthCheck := enabled)
    {
      enableHealthCheck := enabled;
      r := this;
    }

    method WithKeepAlive(params: KeepaliveParams) returns (r: ServerBuilder)
      modifies this
      ensures r == this && State() == old(State()).(options := old(options) + [KeepaliveOption(params)])
    {
      r := WithOption(KeepaliveOption(params));
    }

    /** Keep-alive with the package's default connection ages and ping period. */
    method WithDefaultKeepAlive() returns (r: ServerBuilder)
      modifies this
      ensures r == this
      ensures State() == old(State()).(options := old(options) +
                [KeepaliveOption(KeepaliveParams(0, MaxConnectionAge, MaxConnectionAgeGrace, KeepAliveTime, 0))])
    {
      r := WithKeepAlive(KeepaliveParams(0, MaxConnectionAge, MaxConnectionAgeGrace, KeepAliveTime, 0));
    }

    method WithStreamInterceptors(interceptors: seq<Interceptor>) returns (r: ServerBuilder)
      modifies this
      ensures r == this && State() == old(State()).(options := old(options) + [ChainStream(interceptors)])
    {
      r := WithOption(ChainStream(interceptors));
    }

    method WithUnaryInterceptors(interceptors: seq<Interceptor>) returns (r: ServerBuilder)
      modifies this
      ensures r == this && State() == old(State()).(options := old(options) + [ChainUnary(interceptors)])
    {
      r := WithOption(ChainUnary(interceptors));
    }

    method WithTlsCert(certificate: string) returns (r: ServerBuilder)
      modifies this
      ensures r == this && State() == old(State()).(options := old(options) + [TlsCredentials(certificate)])
    {
      r := WithOption(TlsCredentials(certificate));
    }

    /** Request-ID, metric and recovery interceptors chained in that order, then the tracing stats handler. */
    method WithDefaultUnaryInterceptors() returns (r: ServerBuilder)
      modifies this
      ensures r == this
      ensures State() == old(State()).(options := old(options) +
                [ChainUnary([RequestIdInterceptor, MetricInterceptor, RecoveryInterceptor]), ServerTracingStatsHandler])
    {
      r := WithUnaryInterceptors([RequestIdInterceptor, MetricInterceptor, RecoveryInterceptor]);
      r := r.WithOption(ServerTracingStatsHandler);
    }

    method WithDefaultStreamInterceptors() returns (r: ServerBuilder)
      modifies this
      ensures r == this
      ensures State() == old(State()).(options := old(options) +
                [ChainStream([RequestIdInterceptor, MetricInterceptor, RecoveryInterceptor]), ServerTracingStatsHandler])
    {
      r := WithStreamInterceptors([RequestIdInterceptor, MetricInterceptor, RecoveryInterceptor]);
      r := r.WithOption(ServerTracingStatsHandler);
    }

    /**
     * `Build`: refuses a builder that has already built; with tracing enabled
     * it needs a trace URL (checked first) and a service name, and a failure
     * there leaves the builder unbuilt. A success marks the builder built.
     */
    method Build() returns (server: Option<Server>, err: Option<BuildError>)
      modifies this
      ensures old(isBuilt) ==> server.None? && err == Some(ErrCannotUseSameBuilder) && State() == old(State())
      ensures !old(isBuilt) && tracingEnabled && traceUrl == "" ==>
                server.None? && err == Some(ErrMissingTraceUrl) && State() == old(State())
      ensures !old(isBuilt) && tracingEnabled && traceUrl != "" && serviceName == "" ==>
                server.None? && err == Some(ErrMissingServiceName) && State() == old(State())
      ensures !old(isBuilt) && (!tracingEnabled || (traceUrl != "" && serviceName != "")) ==>
                err.None? && State() == old(State()).(isBuilt := true)
                && server == Some(Server(Address(grpcHost, grpcPort), options, services, enableReflection,
                                         enableHealthCheck,
                                         if tracingEnabled then Some((traceUrl, serviceName)) else None,
                                         shutdownHook))
    {
      if isBuilt {
        return None, Some(ErrCannotUseSameBuilder);
      }
      var addr := Address(grpcHost, grpcPort);
      var traceProvider: Option<(string, string)> := None;
      if tracingEnabled {
        if traceUrl == "" {
          return None, Some(ErrMissingTraceUrl);
        }
        if serviceName == "" {
          return None, Some(ErrMissingServiceName);
        }
        traceProvider := Some((traceUrl, serviceName));
      }
      isBuilt := true;
      server := Some(Server(addr, options, services, enableReflection, enableHealthCheck, traceProvider, shutdownHook));
      err := None;
    }
  }

  /** `NewServerBuilderFromConfig`: the setter chain applied to a fresh builder. */
  method NewServerBuilderFromConfig(cfg: Config) returns (sb: ServerBuilder)
    ensures fresh(sb)
    ensures sb.State() == BuilderState(
              [ChainUnary([RequestIdInterceptor, MetricInterceptor, RecoveryInterceptor]), ServerTracingStatsHandler,
               ChainStream([RequestIdInterceptor, MetricInterceptor, RecoveryInterceptor]), ServerTracingStatsHandler],
              [], cfg.enableReflection, false, false, cfg.traceEnabled, cfg.serviceName, cfg.grpcPort as int,
              cfg.grpcHost, cfg.traceUrl, None, false)
  {
    sb := new ServerBuilder();
    sb := sb.WithReflection(cfg.enableReflection);
    sb := sb.WithDefaultUnaryInterceptors();
    sb := sb.WithDefaultStreamInterceptors();
    sb := sb.WithTracingEnabled(cfg.traceEnabled);
    sb := sb.WithTraceUrl(cfg.traceUrl);
    sb := sb.WithServiceName(cfg.serviceName);
    sb := sb.WithPort(cfg.grpcPort as int);
    sb := sb.WithHost(cfg.grpcHost);
  }

  /** A builder used twice: once a build succeeds, another build is refused and changes nothing. */
  method BuildTwice(sb: ServerBuilder) returns (first: Option<BuildError>, second: Option<BuildError>)
    requires !sb.isBuilt && (!sb.tracingEnabled || (sb.traceUrl != "" && sb.serviceName != ""))
    modifies sb
    ensures first.None? && second == Some(ErrCannotUseSameBuilder)
    ensures sb.State() == old(sb.State()).(isBuilt := true)
  {
    var s1, e1 := sb.Build();
    var s2, e2 := sb.Build();
    first, second := e1, e2;
  }

  /** A build that fails its tracing checks leaves the builder unbuilt, so building again fails the same way. */
  method FailedBuildRepeats(sb: ServerBuilder) returns (first: Option<BuildError>, second: Option<BuildError>)
    requires !sb.isBuilt && sb.tracingEnabled && (sb.traceUrl == "" || sb.serviceName == "")
    modifies sb
    ensures first == second && second != Some(ErrCannotUseSameBuilder)
    ensures second == Some(if sb.traceUrl == "" then ErrMissingTraceUrl else ErrMissingServiceName)
    ensures sb.State() == old(sb.State())
  {
    var s1, e1 := sb.Build();
    var s2, e2 := sb.Build();
    first, second := e1, e2;
  }
}
