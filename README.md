# gopack core, modelled in Dafny

This project models the decidable core of the gopack Go toolkit and proves properties of it. It covers:

- request-ID propagation through contexts and gRPC interceptors;
- gRPC rate limiting;
- the gRPC server builder;
- the Postgres connection string, error handling and transaction runner;
- the cron job registry;
- the OpenTelemetry test collectors (metric storage, export and stop-once);
- the HTTP tracing middleware and its recording response writer;
- the structured logger and its `log/slog` handler;
- the LLM tool box and the OpenAI helpers;
- the Pub/Sub configuration, subscriber and publisher;
- the concurrent slice.

Each source file is modelled in its own form:

- Pure Go code (closures, lookups, value construction) becomes functions over datatypes.
- Types whose methods update fields in place become classes. `ServerBuilder`, `JobsScheduler`, `TxRunner`, `MetricsStorage`, `MetricService`, the collector, the recording response writer, `ToolBox`, the Pub/Sub `Subscriber` and `Slice` are modelled this way. Their methods have `modifies` clauses.
- The logger never updates a field: `WithMap`, `WithCtx` and `WithFields` return new loggers. It is a class with only constant fields, for object identity alone, since `WithMap` of an empty map and `WithCtx` without context fields return the same logger.
- Go loops are methods with loop invariants, proved against a specification function.

Go's `nil` is `Option`, and a `(value, error)` pair is a tuple or a `Result`. `errors.Wrap` and `errors.Is` are the `Wrapped` error and its `Is` function.

Go map iteration order is unspecified. Loops over maps pick an arbitrary remaining key, and their results are specified up to order, by `GoMaps.Enumerates`.

Several things the code calls are not available to the model, so they become parameters:

- foreign libraries: the UUID generator, `rate.Limiter`, the cron parser and gocron, `sql.DB`/`sql.Tx`, the tiktoken encoder, JPEG and base64 encoding, and the Pub/Sub client;
- the clock.

Go's `context.Context` is a value holding a key/value map, the gRPC incoming and outgoing metadata, and an optional span context (`GoContext`).

The `trace` package repeats the metric service, metric storage and collector of `otel/testkit`, with the same behaviour (trace/collector_kit.go:43-75, 111-135, 242-265). The same classes model both copies.

The source files disagree with each other in places, and each file is modelled as written:

- `pubsub.SubscriberConfig` is validated on the `Name` and `Topic` of its subscription config, as gcp/pubsub/config.go does.
- The subscriber also reads the `SubscriptionID` that gcp/pubsub/subscriber.go uses. config.go's struct lacks that field, and the model carries it.

## Model

| member | source | states |
|---|---|---|
| RequestId.FromContext | requestid/request_id.go:42-48 | the string stored under the request-ID key; "" when nothing is stored or the value is not a string |
| RequestId.Context | requestid/request_id.go:53-64 | a context that already has a non-empty ID is returned unchanged; otherwise the child carries the fresh ID; the result always has a non-empty ID |
| RequestId.ContextSetsFreshId | requestid/request_id.go:61-63 | a context without an ID gets exactly the fresh ID, and the parent still has none |
| RequestId.ContextKeepsOtherValues | requestid/request_id.go:53-64 | all other stored values and the metadata pass through unchanged |
| RequestId.ContextIdempotent | requestid/request_id.go:53-64 | a second `Context` call, whatever ID it would draw, returns the same context |
| GrpcRequestId.RequestIdFromMetadata | grpc/request_id_interceptors.go:111-129 | the ID is non-empty; it is the first "x-request-id" value when metadata, key, list and value are all present and non-empty, and the fresh ID otherwise |
| GrpcRequestId.GetServerRequestId | grpc/request_id_interceptors.go:111-129 | the rule above applied to the incoming metadata; a non-fresh ID always comes from it |
| GrpcRequestId.GetClientRequestId | grpc/request_id_interceptors.go:133-151 | the rule above applied to the outgoing metadata |
| GrpcRequestId.ServerCallContext | grpc/request_id_interceptors.go:48-50 | the handler's context carries the server request ID, keeps the metadata, span and every other value |
| GrpcRequestId.ClientCallContext | grpc/request_id_interceptors.go:79-86 | the invoker's context carries the client request ID and a copy of the original outgoing metadata (empty when there was none) |
| GrpcRequestId.UnaryServerInterceptor | grpc/request_id_interceptors.go:40-53 | the handler is called once with the ID-carrying context and its reply is returned |
| GrpcRequestId.NewServerStreamWithContext | grpc/request_id_interceptors.go:155-171 | the wrapper reports the given context and wraps the original stream |
| GrpcRequestId.StreamServerInterceptor | grpc/request_id_interceptors.go:58-73 | the handler gets the stream wrapped with the ID-carrying context built from the stream's own context |
| GrpcRequestId.UnaryClientInterceptor | grpc/request_id_interceptors.go:77-90 | the invoker is called with the client call context and the same method |
| GrpcRequestId.StreamClientInterceptor | grpc/request_id_interceptors.go:94-107 | the streamer is called with the client call context and the same method |
| GrpcRequestId.ServerHandlerSeesIncomingId | grpc/request_id_interceptors.go:119-127 | a non-empty incoming first value is the ID the handler reads |
| GrpcRequestId.ServerHandlerGetsFreshIdWithoutMetadata | grpc/request_id_interceptors.go:113-116 | without incoming metadata the handler reads the fresh ID |
| GrpcRequestId.StreamHandlerSeesId | grpc/request_id_interceptors.go:65-71 | the wrapped stream's context carries a non-empty request ID |
| GrpcRateLimit.Rejection | grpc/ratelimiter.go:67-77 | a rejection has code ResourceExhausted and its message names the method, which can be read back |
| GrpcRateLimit.Check | grpc/ratelimiter.go:50-57 | a call is rejected exactly when waiting on the limiter fails |
| GrpcRateLimit.UnaryServerInterceptor | grpc/ratelimiter.go:67-77 | rejected: no reply and the rejection status; accepted: exactly the handler's result |
| GrpcRateLimit.StreamServerInterceptor | grpc/ratelimiter.go:80-90 | the limiter is asked with the stream's context; rejected: the rejection; accepted: the handler's error |
| GrpcRateLimit.UnaryClientInterceptor | grpc/ratelimiter.go:93-103 | rejected: the rejection; accepted: the invoker's error |
| GrpcRateLimit.StreamClientInterceptor | grpc/ratelimiter.go:106-116 | rejected: no stream and the rejection; accepted: the streamer's result |
| GrpcRateLimit.RejectionDistinguishesMethods | grpc/ratelimiter.go:72-74 | equal rejection messages mean the same method |
| GrpcRateLimit.UnaryServerPassThrough | grpc/ratelimiter.go:67-77 | a call the limiter lets through cannot be told from a direct handler call |
| GrpcServerBuilder.Address | grpc/server_builder.go:250 | the "host:port" address splits back into exactly that host and port |
| GrpcServerBuilder.AddressRoundTrip | grpc/server_builder.go:250 | splitting "host:port" at its last colon gives back the host and the port, whatever the host contains |
| GrpcServerBuilder.ServerBuilder.constructor | grpc/server_builder.go:85-90 | a new builder has no options or services, all flags off, port 50051, and is not built |
| GrpcServerBuilder.ServerBuilder.WithShutdownHook | grpc/server_builder.go:107-111 | sets the hook, returns the builder, changes nothing else |
| GrpcServerBuilder.ServerBuilder.WithPort | grpc/server_builder.go:113-117 | sets the port only |
| GrpcServerBuilder.ServerBuilder.WithHost | grpc/server_builder.go:119-123 | sets the host only |
| GrpcServerBuilder.ServerBuilder.WithMetricsEnabled | grpc/server_builder.go:125-129 | sets the metrics flag only |
| GrpcServerBuilder.ServerBuilder.WithTracingEnabled | grpc/server_builder.go:131-135 | sets the tracing flag only |
| GrpcServerBuilder.ServerBuilder.WithTraceUrl | grpc/server_builder.go:137-141 | sets the trace URL only |
| GrpcServerBuilder.ServerBuilder.WithOption | grpc/server_builder.go:143-147 | appends the option last, keeping earlier options in order |
| GrpcServerBuilder.ServerBuilder.WithService | grpc/server_builder.go:149-153 | appends the service last |
| GrpcServerBuilder.ServerBuilder.WithServiceName | grpc/server_builder.go:155-163 | sets the service name only |
| GrpcServerBuilder.ServerBuilder.WithReflection | grpc/server_builder.go:165-169 | sets the reflection flag only |
| GrpcServerBuilder.ServerBuilder.WithHealthCheck | grpc/server_builder.go:171-175 | sets the health-check flag only |
| GrpcServerBuilder.ServerBuilder.WithKeepAlive | grpc/server_builder.go:177-182 | appends a keepalive option with the given parameters |
| GrpcServerBuilder.ServerBuilder.WithDefaultKeepAlive | grpc/server_builder.go:184-195 | appends keepalive with max age 600s, grace 60s and ping time 1200s |
| GrpcServerBuilder.ServerBuilder.WithStreamInterceptors | grpc/server_builder.go:197-204 | appends one chained stream-interceptor option holding the interceptors in order |
| GrpcServerBuilder.ServerBuilder.WithUnaryInterceptors | grpc/server_builder.go:206-211 | appends one chained unary-interceptor option |
| GrpcServerBuilder.ServerBuilder.WithTlsCert | grpc/server_builder.go:213-217 | appends a TLS credentials option |
| GrpcServerBuilder.ServerBuilder.WithDefaultUnaryInterceptors | grpc/server_builder.go:219-226 | appends request-ID, metric and recovery interceptors in that order, then the tracing stats handler |
| GrpcServerBuilder.ServerBuilder.WithDefaultStreamInterceptors | grpc/server_builder.go:228-235 | the same for stream interceptors |
| GrpcServerBuilder.ServerBuilder.Build | grpc/server_builder.go:237-288 | a built builder refuses; with tracing on, a missing trace URL and then a missing service name are refused with the builder unchanged; otherwise the server has the formatted address, the options and services, and the builder becomes built |
| GrpcServerBuilder.NewServerBuilderFromConfig | grpc/server_builder.go:93-104 | the builder starts from the config's host, port, service name, trace URL and flags |
| GrpcServerBuilder.BuildTwice | grpc/server_builder.go:242-244 | after a successful Build, another Build is refused with "cannot use the same builder" and changes nothing |
| GrpcServerBuilder.FailedBuildRepeats | grpc/server_builder.go:273-285 | a Build that fails the trace-URL or service-name check leaves the builder unbuilt, so the next Build fails with the same error, not the reuse error |
| Postgres.Wrap | postgres/postgres.go:84 | the wrapped message is "msg: cause" and every error the cause is still is the wrapped error |
| Postgres.BaseInfoIsJoined | postgres/postgres.go:112 | the fixed part is the space-joined host, port, user, dbname and sslmode settings |
| Postgres.AppendSetting | postgres/postgres.go:115-121 | appending " key=value" to the string appends the setting to the joined list |
| Postgres.ConnectionString | postgres/postgres.go:111-124 | the string starts with the fixed host, port, user, dbname and sslmode part, and is exactly that part when neither password nor schema is set |
| Postgres.ConnectionStringIsJoinedSettings | postgres/postgres.go:111-124 | the connection string is exactly the space-joined key=value settings |
| Postgres.ConnectionStringRoundTrip | postgres/postgres.go:111-124 | parsing the connection string gives back the settings, when no value contains a space |
| Postgres.ConnectionSettingsHaveFixedPrefix | postgres/postgres.go:111-124 | host, port, user, dbname and sslmode=disable come first; password and search_path appear exactly when non-empty |
| Postgres.Select | postgres/postgres.go:145-176 | no error exactly when the scan succeeded or its error is (or wraps) ErrNoRows; any other error is returned as is |
| Postgres.Store.constructor | postgres/postgres.go:72-77 | a new store holds the config, the connection string built from it, and no connection |
| Postgres.Store.Connect | postgres/postgres.go:80-107 | each failing step's error is wrapped with its own message and leaves the connection as it was; success stores a connection with the configured limits |
| Postgres.Store.Disconnect | postgres/postgres.go:179-187 | without a connection there is no error; with one, the close error is returned |
| Postgres.DisconnectWithoutConnect | postgres/postgres.go:183-185 | disconnecting a store that never connected succeeds |
| PostgresTxRunner.Tx.ExecContext | postgres/tx_runner.go:111 | executing on a finished transaction fails with ErrTxDone; otherwise the statement is logged and its result returned |
| PostgresTxRunner.Tx.Rollback | postgres/tx_runner.go:96 | a rollback finishes the transaction; a second one fails with ErrTxDone |
| PostgresTxRunner.Tx.Commit | postgres/tx_runner.go:122 | a commit finishes the transaction; on a finished one it fails with ErrTxDone |
| PostgresTxRunner.TxRunner.constructor | postgres/tx_runner.go:61-65 | a runner starts with its transaction and no builders |
| PostgresTxRunner.TxRunner.AddQueryBuilder | postgres/tx_runner.go:74-77 | appends the builder last and returns the runner |
| PostgresTxRunner.TxRunner.Execute | postgres/tx_runner.go:82-123 | the transaction ends in the state, and the call returns the error, that the execution plan gives |
| PostgresTxRunner.NewTxRunner | postgres/tx_runner.go:53-69 | a failed begin returns its error and no runner; otherwise a runner with no builders |
| PostgresTxRunner.PrependTwice | postgres/tx_runner.go:90-108 | collecting built queries one by one is the same as collecting them all at once |
| PostgresTxRunner.ExecOps | postgres/tx_runner.go:110-119 | one logged Exec per statement and never a commit or rollback |
| PostgresTxRunner.FirstRejected | postgres/tx_runner.go:110-119 | the position of the first statement the database rejects; every earlier one is accepted |
| PostgresTxRunner.ExecAllCommits | postgres/tx_runner.go:110-122 | when every statement is accepted, all run in order and then the transaction commits, returning the commit's error |
| PostgresTxRunner.ExecAllRollsBack | postgres/tx_runner.go:110-118 | at the first rejected statement, the transaction rolls back after running exactly the statements up to it; the error is the statement's, wrapped with the rollback's error if that failed |
| PostgresTxRunner.BuildAllQueries | postgres/tx_runner.go:90-108 | the queries are all built exactly when every builder succeeds, in builder order |
| PostgresTxRunner.NoStatementAfterBuildFailure | postgres/tx_runner.go:93-101 | a builder failure rolls back before any statement is executed and reports the builder's error |
| PostgresTxRunner.CommitOnlyWithoutFailure | postgres/tx_runner.go:82-123 | a commit happens only when every builder succeeded and no statement was rejected |
| PostgresTxRunner.CommitMeansEverythingRan | postgres/tx_runner.go:82-123 | a committed run executed every built statement, in order, before the commit |
| PostgresTxRunner.FinishedTransactionRefusesExecute | postgres/tx_runner.go:110-122 | running on a finished transaction changes nothing and reports an error |
| Scheduler.JobsScheduler.constructor | scheduler/scheduler.go:86-92 | a new scheduler has no jobs, no entries and is not running |
| Scheduler.JobsScheduler.AddJob | scheduler/scheduler.go:123-162 | the parse error comes first, then "job (id) is already added", then the scheduling error; any error leaves jobs and entries unchanged; success registers the job under its ID with one singleton cron entry named and tagged by the ID |
| Scheduler.JobsScheduler.Start | scheduler/scheduler.go:95-108 | the scheduler runs; jobs are unchanged |
| Scheduler.JobsScheduler.Stop | scheduler/scheduler.go:111-120 | the scheduler stops and returns no error; jobs are unchanged |
| Scheduler.AddAll | scheduler/scheduler.go:123-162 | adding jobs one after another leaves the registry the specification function describes |
| Scheduler.FirstRegistrationWins | scheduler/scheduler.go:136-138 | a registered job is never replaced by a later job with the same ID |
| Scheduler.RegisteredOnlyIfAccepted | scheduler/scheduler.go:128-161 | a newly registered ID comes from a request whose expression parsed and whose scheduling succeeded |
| TestkitMetricsStorage.FirstScopeMetricsAppend | otel/testkit/metrics_storage.go:44-50 | storing two batches is the same as storing them together |
| TestkitMetricsStorage.NoScopesNoMetrics | otel/testkit/metrics_storage.go:46-48 | resources without scopes contribute no metrics |
| TestkitMetricsStorage.StoredMetricsComeFromFirstScopes | otel/testkit/metrics_storage.go:46-48 | every stored metric comes from the first scope of some resource |
| TestkitMetricsStorage.MetricsStorage.constructor | otel/testkit/metrics_storage.go:39-41 | a new storage is empty |
| TestkitMetricsStorage.MetricsStorage.AddMetrics | otel/testkit/metrics_storage.go:44-50 | appends the first scope's metrics of each resource, in order |
| TestkitMetricsStorage.MetricsStorage.GetMetrics | otel/testkit/metrics_storage.go:53-57 | returns the stored metrics |
| TestkitMetricsStorage.AddMetricsKeepsStored | otel/testkit/metrics_storage.go:44-50 | storage is append-only: what was stored before stays a prefix |
| TestkitMetricService.InjectedError | otel/testkit/metric_service.go:77-80 | request n fails exactly when n is below the number of configured errors, with the n-th error |
| TestkitMetricService.MetricService.constructor | otel/testkit/collector.go:54-61 | a new service has the configured errors, no requests, no headers and empty storage |
| TestkitMetricService.MetricService.GetHeaders | otel/testkit/metric_service.go:51-55 | returns the headers recorded by the last successful export |
| TestkitMetricService.MetricService.GetMetrics | otel/testkit/metric_service.go:58-62 | returns the storage's metrics |
| TestkitMetricService.MetricService.Export | otel/testkit/metric_service.go:65-85 | every call counts one request; an injected error changes nothing else; otherwise the incoming headers are recorded and the metrics stored |
| TestkitCollector.Collector.constructor | otel/testkit/collector.go:54-61 | a new collector has a fresh metric service with the configured errors, no endpoint, listener or stop function, and is not stopped |
| TestkitCollector.Collector.SetEndPoint | otel/testkit/collector.go:64-67 | sets the endpoint only |
| TestkitCollector.Collector.SetStopFn | otel/testkit/collector.go:69-72 | sets the stop function only |
| TestkitCollector.Collector.SetListener | otel/testkit/collector.go:74-77 | sets the listener only |
| TestkitCollector.Collector.Listener | otel/testkit/collector.go:79-82 | returns the listener that was set |
| TestkitCollector.Collector.GetEndPoint | otel/testkit/collector.go:99-101 | returns the endpoint that was set |
| TestkitCollector.Collector.GetHeaders | otel/testkit/collector.go:103-105 | returns the metric service's headers |
| TestkitCollector.Collector.GetMetrics | otel/testkit/collector.go:89-92 | returns the metric service's stored metrics |
| TestkitCollector.Collector.Stop | otel/testkit/collector.go:146-162 | the first stop succeeds and calls the stop function, if any, once; later stops fail with "already stopped" and call nothing |
| TestkitCollector.StopTwice | otel/testkit/collector.go:146-162 | stopping twice: the first succeeds, the second fails, and the stop function ran exactly once |
| TraceCollectorKit.NewCollectorKit | trace/collector_kit.go:22-29 | a new kit has a fresh metric service with the configured errors, empty storage, no headers, and is not stopped |
| HttpTracing.Middleware | otel/trace/http_handler.go:80-103 | the wrapper uses the last tracer provider and propagators given, or the global ones when none is given |
| HttpTracing.LastTracerProviderWins | otel/trace/http_handler.go:63-84 | the provider used is some option's, and no later option sets one, in both directions |
| HttpTracing.NoOptionsMeansGlobals | otel/trace/http_handler.go:63-94 | options that set nothing (a nil tracer provider or nil propagators) leave the global provider and propagators |
| HttpTracing.RecordingResponseWriter.constructor | otel/trace/http_handler.go:118-122 | a pooled writer starts unwritten with status 0 |
| HttpTracing.RecordingResponseWriter.Reset | otel/trace/http_handler.go:124-127 | taking a writer from the pool clears written and status |
| HttpTracing.RecordingResponseWriter.Write | otel/trace/http_handler.go:129-137 | the first write records status 200; the body is forwarded and the wrapped writer's result returned |
| HttpTracing.RecordingResponseWriter.WriteHeader | otel/trace/http_handler.go:138-147 | the first call records its status code; the call is always forwarded |
| HttpTracing.FirstCallFixesStatus | otel/trace/http_handler.go:129-147 | once something is written, later writes and headers do not change the recorded status |
| LlmToolBox.FirstNamed | llm/toolbox.go:42-49 | the tool found is in the box and has the name; nothing is found exactly when no tool has it |
| LlmToolBox.FirstNamedIsEarliest | llm/toolbox.go:42-49 | the tool found is the earliest with that name |
| LlmToolBox.AddKeepsEarlierLookup | llm/toolbox.go:38-49 | adding tools never changes a name that was already found |
| LlmToolBox.ToolBox.constructor | llm/toolbox.go:34-36 | a new tool box is empty |
| LlmToolBox.ToolBox.Add | llm/toolbox.go:38-40 | appends the tools in order |
| LlmToolBox.ToolBox.Get | llm/toolbox.go:42-49 | the loop returns the first tool with the name, or none |
| LlmToolBox.ToolBox.List | llm/toolbox.go:51-55 | returns the tools in order |
| OpenAiUtil.ToChatCompletionMessage | llm/openai/util.go:86-101 | the content is kept; known kinds get their role, and the role maps back to the kind; any other kind fails with "unknown type: openai.RequestType" |
| OpenAiUtil.RolesAreDistinct | llm/openai/util.go:90-97 | different request kinds never get the same role |
| OpenAiUtil.TokensCount | llm/openai/util.go:105-154 | an error always comes with a count of 0 |
| OpenAiUtil.CountTokens | llm/openai/util.go:143-153 | the loop's count and error are those of the specification |
| OpenAiUtil.SumTokensAppend | llm/openai/util.go:143-151 | per-message counts add up over concatenation |
| OpenAiUtil.TokensCountLowerBound | llm/openai/util.go:113-153 | for the 3/1 models the count is the per-message sum plus 3, and at least 3 per message |
| OpenAiUtil.Gpt35FallsBack | llm/openai/util.go:133-134 | an unlisted "gpt-3.5-turbo" model is counted as gpt-3.5-turbo-0613 |
| OpenAiUtil.UnknownModelRefused | llm/openai/util.go:137-139 | an unlisted model that is neither gpt-3.5-turbo nor gpt-4 fails with the not-implemented error and count 0 |
| OpenAiUtil.ImageToString | llm/openai/util.go:72-83 | success exactly when JPEG encoding succeeds, giving the base64 data URL; otherwise "encoding for model: " and the error |
| OpenAiUtil.TransformImageRequests | llm/openai/util.go:39-69 | one user message whose parts, and error, are those of the specification |
| OpenAiUtil.TextOnlyRequests | llm/openai/util.go:59-63 | requests without images become text parts, one per request, in order, without error |
| OpenAiUtil.TransformFailsIffImageFails | llm/openai/util.go:48-52 | the transformation fails exactly when some image fails to encode |
| GoMaps.Entries | logger/logger.go:239-245 | the pairs list every map entry exactly once, in some order |
| GoMaps.AssignAll | logger/logger.go:218-220 | copying entries into a map gives the map updated with them |
| Logger.Logger.constructor | logger/logger.go:104-108 | a logger holds its options, core and fields |
| Logger.Logger.WithFields | logger/logger.go:231-237 | a new logger with the same options and core and the fields appended |
| Logger.Logger.WithMap | logger/logger.go:121-128 | an empty map returns the same logger; otherwise a new one with the map's entries appended, in some order |
| Logger.Logger.WithCtx | logger/logger.go:200-229 | no context fields returns the same logger; otherwise the fields appended are exactly the context fields |
| Logger.CollectCtxFields | logger/logger.go:201-222 | the collected map is the request ID under "req_id", overridden by the tracing fields, or nil when neither gives anything |
| Logger.CtxFieldsCarryRequestId | logger/logger.go:202-209 | a non-empty request ID appears under "req_id" when tracing adds nothing |
| Logger.CtxFieldsEmptyWithoutExtractors | logger/logger.go:224-228 | without a request ID or tracing fields, the logger is returned unchanged |
| Logger.NewLogger | logger/logger.go:90-109 | the options are applied in order; WithNop gives the no-op core, otherwise the core uses the chosen level and encoding |
| Logger.NopIffWithNop | logger/logger.go:84-88 | the no-op logger is chosen exactly when some option is WithNop |
| Logger.LastLevelWins | logger/logger.go:71-75 | the last WithLevel option sets the level |
| Logger.ErrorwMessage | logger/logger.go:138-150 | a string is logged as is; an error's logged text starts with its message and is exactly the message when it carries no stack, otherwise the stack follows on a new line; anything else as printed |
| Logger.ErrorwFirstLineIsMessage | logger/logger.go:141-142 | the first line logged for an error with a one-line message is that message, whatever stack it carries |
| SlogHandler.ConvertSlogLevel | logger/slog.go:133-146 | each zap level covers exactly one band of slog levels, both directions |
| SlogHandler.ConvertSlogLevelMonotone | logger/slog.go:133-146 | a more severe slog level never maps to a less severe zap level |
| SlogHandler.ConvertAttrs | logger/slog.go:196-200 | one field per attribute, in order |
| SlogHandler.Enabled | logger/slog.go:148-151 | a handler writes a slog level exactly when it reaches the threshold of its core's zap level: everything for debug, from LevelInfo, LevelWarn, LevelError or the fatal level 9 up for the others |
| SlogHandler.NewHandler | logger/slog.go:76-85 | nil options give no extractor and no name; otherwise the options' extractor and name |
| SlogHandler.TraceFields | logger/slog.go:179-192 | nothing without an extractor or when it returns an empty or nil map; otherwise one string field per entry, in some order |
| SlogHandler.Handle | logger/slog.go:154-177 | a record is written exactly when its converted level is enabled; the entry has the converted level, time, message and logger name, the trace fields first and then the attributes in order; no error |
| SlogHandler.WithFields | logger/slog.go:211-215 | a copy whose core carries the extra fields after its own, everything else kept |
| SlogHandler.WithAttrs | logger/slog.go:196-202 | the copy's core carries the converted attributes in order |
| SlogHandler.WithGroup | logger/slog.go:206-208 | the copy's core ends with a namespace named after the group |
| SlogHandler.WithFieldsKeepsEnabled | logger/slog.go:211-215 | deriving a handler never changes which levels are written |
| SlogTrace.OtelTraceIdExtractor | logger/slogtracelog.go:11-30 | a map exactly when the trace ID is valid, with keys traceId and spanId; spanId is "" exactly when the span ID is invalid |
| SlogTrace.ExtractedIdsRoundTrip | logger/slogtracelog.go:14-20 | the trace ID string is 32 hex digits that decode to the trace ID; a valid span ID decodes back too |
| SlogTrace.NoSpanNoTraceFields | logger/slogtracelog.go:12-24 | a context without a span gives no map |
| PubSubConfig.FirstFailure | gcp/pubsub/config.go:44-49 | no error exactly when every assertion holds; otherwise the message of a failing assertion preceded only by holding ones |
| PubSubConfig.Validate | gcp/pubsub/config.go:43-50 | no error exactly when every assertion holds |
| PubSubConfig.FirstFailureAt | gcp/pubsub/config.go:44-49 | the first failing assertion is the one reported |
| PubSubConfig.ValidateReportsFirstUnmet | gcp/pubsub/config.go:43-50 | valid exactly when config, logger, topic and name are all set; otherwise the messages for config, logger, topic and id, in that order |
| PubSubConfig.FailureIsAnAssertionMessage | gcp/pubsub/config.go:44-49 | a reported error is always one of the assertion messages |
| PubSubSubscriber.ToUpdate | gcp/pubsub/subscriber.go:230-253 | push config present exactly when its endpoint is set, BigQuery config exactly when its table is set; the other updatable fields copied |
| PubSubSubscriber.UpdateIgnoresFixedFields | gcp/pubsub/subscriber.go:242-252 | the update never depends on name, topic, ordering or topic message retention |
| PubSubSubscriber.WithDefaultRetry | gcp/pubsub/subscriber.go:102-108 | a missing retry policy becomes 200ms/600s; a given one is kept |
| PubSubSubscriber.InvalidConfigTouchesNothing | gcp/pubsub/subscriber.go:69-75 | a nil or invalid config fails with its error before any client call, and the config is left as it was |
| PubSubSubscriber.MissingTopicRefused | gcp/pubsub/subscriber.go:79-89 | a missing topic fails with "topic id does not exist" after the single existence check |
| PubSubSubscriber.CreateOrUpdateOnce | gcp/pubsub/subscriber.go:92-127 | exactly one of create (subscription absent) and update (present) is made, with the retry policy defaulted |
| PubSubSubscriber.SubscriptionOnlyForValidConfig | gcp/pubsub/subscriber.go:67-140 | a subscription is handed out only for a valid config whose topic exists, with the caller's receive settings if given, else the defaults |
| PubSubSubscriber.ConsumeRunSettlesInOrder | gcp/pubsub/subscriber.go:202-226 | messages are settled in arrival order, each acked exactly when the handler succeeds; the first failure is nacked, reported, and ends the run |
| PubSubSubscriber.ConsumeRunStep | gcp/pubsub/subscriber.go:204-220 | one step of the consume loop: nack and stop on failure, ack and continue on success |
| PubSubSubscriber.Subscriber.constructor | gcp/pubsub/subscriber.go:136-139 | a new subscriber has its subscription and logger and zero counters |
| PubSubSubscriber.Subscriber.Consume | gcp/pubsub/subscriber.go:172-227 | settlements, both counters and the error channel follow the specification; processed ≤ received ≤ processed + 1 for the run |
| PubSubSubscriber.NewSubscriberSetUp | gcp/pubsub/subscriber.go:67-135 | no client call exactly when the config is nil or invalid; at most three calls; a subscription only after all three, named by the configured ID |
| PubSubSubscriber.NewSubscriber | gcp/pubsub/subscriber.go:67-140 | a subscriber exactly when set-up succeeds, with zero counters; the caller's config is updated with the defaulted retry policy |
| PubSubPublisher.ConfigureTopic | gcp/pubsub/publisher.go:65-70 | the topic's ordering flag applied; its publish settings override the defaults only when given |
| PubSubPublisher.OutgoingAll | gcp/pubsub/publisher.go:75-78 | each outgoing message has the message's key as ordering key and its payload as data |
| PubSubPublisher.FirstMissingKey | gcp/pubsub/publisher.go:80-86 | none exactly when ordering is off or every key is set; otherwise the first message with an empty key |
| PubSubPublisher.LastFailureIsLatest | gcp/pubsub/publisher.go:94-114 | there is an error exactly when some result failed, and it is the wrapped error of the latest failure |
| PubSubPublisher.Publish | gcp/pubsub/publisher.go:55-117 | with a missing key under ordering, exactly the messages before it are published and the key error is returned; otherwise all are published and the error is the latest failure, if any |
| PubSubPublisher.UnorderedAcceptsEmptyKeys | gcp/pubsub/publisher.go:80 | without ordering no message is refused |
| Slice.At | collection/slice/slice.go:63-72 | the item at an index in range, the zero value otherwise |
| Slice.SpliceOut | collection/slice/slice.go:75-83 | out of range: unchanged; in range: one shorter, earlier items kept, later items shifted down by one |
| Slice.SpliceOutRemovesOne | collection/slice/slice.go:81 | deleting removes exactly one occurrence of the deleted item and keeps all others |
| Slice.AtAfterSpliceOut | collection/slice/slice.go:81 | after a deletion, reads at or past the position see the next item |
| Slice.Slice.constructor | collection/slice/slice.go:36-38 | a new slice is empty |
| Slice.Slice.Len | collection/slice/slice.go:41-46 | the number of items |
| Slice.Slice.Append | collection/slice/slice.go:49-53 | the item goes last and the length grows by one |
| Slice.Slice.AppendMany | collection/slice/slice.go:56-60 | the items go last, in argument order |
| Slice.Slice.Get | collection/slice/slice.go:63-72 | the item at an index in range, the zero value otherwise |
| Slice.Slice.Delete | collection/slice/slice.go:75-83 | out of range does nothing; in range removes exactly that item, keeping the order of the rest |
| Slice.Slice.Items | collection/slice/slice.go:86-92 | a copy equal to the contents |
| Slice.Slice.Reset | collection/slice/slice.go:95-99 | the slice becomes empty |
| Slice.NewSliceReadsZero | collection/slice/slice.go:36-38 | any read of a new slice gives the zero value |

## Left out

- Concurrency is not modelled: the mutexes in the slice, server builder, scheduler, collectors, publisher and subscriber, the atomic counters, `sync.Once` and `sync.Pool`. Each operation is modelled as one sequential step.
- PubSubSubscriber.Subscriber.Consume: the receive goroutine, the capacity-1 message channel and the closed-channel check are not modelled. The received messages are a sequence, and its end stands for the context being cancelled. The channel is returned as the sequence of errors sent on it.
- PubSubSubscriber.Subscriber.Consume: the counters are unbounded integers, not `int32`. Overflow after 2^31 messages is not modelled.
- PubSubSubscriber.NewSubscriber: the retry policy written into the caller's config is returned as the updated config, not written in place.
- PubSubSubscriber.NewSubscriber: it is modelled on a value-level client answer (`Remote`); the real client calls are not modelled.
- `NewSubscriberWithDefaults` is not modelled: it builds a config whose subscription carries no name, which the validation in gcp/pubsub/config.go cannot accept as written.
- `NewPublisher` only stores its arguments. The publisher's logger output is not modelled.
- Logger.ErrorwMessage: an error is a message and a stack of frames, printed the way `%+v` prints an error that carries a stack; errors with their own `Format` methods (wrapped chains that print each cause) and `fmt.Sprint` of other values are not rendered: the printed text is an input.
- Logging output is not modelled: the debug and error messages written by the subscriber, the publisher, the scheduler and the logger façade, and zap's encoders and `logutil.CreateLogger`.
- `convertAttrToField` is not modelled by kind: an attribute becomes one field holding its key and rendered value, and groups and `LogValuer` resolution are not expanded.
- The `Exec` and `BeginTx` pass-throughs of the Postgres store, and the OpenTelemetry spans every store method opens, are not modelled.
- Postgres.Store.Connect: the driver registration, `sql.Open` and the ping are parameters carrying their errors.
- Postgres.Select: the scan is a parameter carrying its result. `SelectAll` and `Select` share one model because they differ only in the scany call.
- Scheduler.JobsScheduler.AddJob: the cron parser and gocron's scheduling are parameters carrying their errors. Running jobs, panics on job failure, and `Run` with its signal handling are not modelled.
- OpenAiUtil.TokensCount: the tiktoken encoder is a parameter giving an encoding error per model and a token length per string.
- OpenAiUtil.ImageToString: JPEG and base64 encoding are parameters.
- The export delay (`time.Sleep`) of the metric services is not modelled.
- The listener's `Accept`/`WaitForConn` loop, the 160ms sleep in the collectors' stop, and `StartOtelCollector*`/`StartCollectorKit*` (which open network listeners) are not modelled.
- The semantic-convention attributes and spans created in `ServeHTTP`, and the `putRRW` return to the pool, are not modelled.
- `RateLimiter` construction (`NewRateLimiter`) wraps `rate.NewLimiter`. The limiter is a parameter, and the model uses the error its `Wait` returns.
- Unique ID generation (`uuid.NewString`) is a parameter that is required to be non-empty.
- The real gRPC server, service registration, reflection, health checks and the trace provider that `Build` creates are described by a `Server` value, not created.
- `Message.Payload` and received message data are byte sequences. Message attributes and IDs beyond the ack/nack identity are not modelled.
