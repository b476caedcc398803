# micro: a Dafny model of the service supervisor

`micro` is a Go library. It wraps a gRPC server and an HTTP/1.1 gRPC-gateway
into one `Service`. This project models the core of that library and proves
properties of the model:

- how the `Service` is assembled from its defaults and functional options
  (`defaultService`, the `Option` closures, `apply`, `NewService`);
- which routes the gateway mux gets, and how the HTTP server is set up (`startGRPCGateway`);
- the static-file fallback;
- the ordered graceful stop (`Stop`), and how `Start` reacts to what arrives first;
- request identity: `RequestID`, `DefaultAnnotator`, and the `InitSpan` handler
  that starts a root or child span, settles the *footprint* (the request's
  correlation id) and echoes it in `X-Request-Id`;
- the panic-containing gRPC interceptors (`UnaryPanicHandler`, `StreamPanicHandler`, `handleCrash`);
- the Redoc documentation page defaults and response header;
- three helpers of the bundled example server: the virtual-host switch,
  the bounded `StrConcat`, and the schema-version check.

Layout, one module per concern:

- `wrappers.dfy`, `Wrappers`: `Nullable<T>`, standing for a Go value that may be nil, and `Error`.
- `http.dfy`, `Http`: the parts of `net/http` that the core touches, namely the request and response-writer classes and the header map.
- `micro_types.dfy`, `MicroTypes`: the entities a `Service` holds, and `DefaultConfig`.
- `option.dfy`, `Options`: the option closures as data, `OptionEffect`, `ApplyAll`, and a field-by-field reference definition.
- `micro.dfy`, `Micro`: class `Service`, whose fields are updated in place as in the Go code.
- `shutdown.dfy`, `Shutdown`: the stop sequence as a state machine, which `Service.Stop` is proved to drive.
- `spans.dfy`, `Spans`: the opentracing span operations that are used.
- `request_id.dfy`, `RequestIdentity`: `RequestID` and `DefaultAnnotator`.
- `tracing.dfy`, `Tracing`: `InitSpan`.
- `handler.dfy`, `PanicRecovery`: the panic handlers.
- `redoc.dfy`, `RedocPage`: `RedocOpts` and the `redoc` handler.
- `lib_virtual_hosts.dfy`, `lib_str_concat.dfy`, `lib_schema_version.dfy`: the example-server helpers.

Points where the code's behaviour is easy to misread:

- **Interceptor order.** Both chains are prometheus, validator, panic handler, then the user interceptors in option order, with tracing appended last (micro.go:135-148 and 178-185). `Micro.NewServiceShape` states this order.
- **Panic containment is the third interceptor.** Prometheus and the validator sit outside it, so it wraps only the user interceptors, tracing and the handler.
- **The gateway span is not finished on a panic.** `InitSpan` calls `Finish` after `mux.ServeHTTP` returns, with no `defer` (tracing.go:67-72), so a panic inside the mux would leave the span open. The model's mux always returns.
- **Documentation options.** micro.go reads `RedocOpts.Up` and `RedocOpts.Route` and calls `Serve`, none of which redoc.go defines. `Micro` therefore carries its own `DocsOptions(up, route)`, and `RedocPage` models redoc.go as written.
- **No `ErrorHandler` option.** option_test.go:32-35 uses one, but option.go does not define it, so it is not modelled.

## Model

| member | source | states |
|---|---|---|
| Options.ApplyAllSnoc | option.go:124-128 | running one more option after a list is the same as applying that option to what the list produced; this is the step `apply`'s loop takes |
| Options.ApplyAllIsReference | option.go:17-128 | applying options left to right equals the field-by-field reference: every setter field holds the value of the last option that sets it (or its prior value), every list field is its prior list followed by its options' values in option order, and no option touches grpcServer, errorHandler or mux |
| Options.LastIsLastSelected | option.go:17-122 | the reference's setter value is the value of the last option that sets that field, if there is one, otherwise the initial value |
| Options.OptionEffect | option.go:17-122 | no option reaches the gRPC server, the error handler or the gateway mux |
| Options.OptionKeepsFront | option.go:38-114 | an appending option only adds to the end of its list; what the list held stays in front |
| Options.ApplyAll | option.go:124-128 | running any options leaves the gRPC server, error handler and mux as they were, and every list field keeps its earlier contents as a prefix |
| Options.CollectedCountsSelected | option.go:38-114 | in any list of options, mixed or not, each appending option contributes exactly one element, its own value, placed right after the values of the options before it |
| Options.OptionChangesOnlyItsField | option.go:17-122 | every option leaves all fields but its own unchanged |
| MicroTypes.DefaultConfig | micro.go:114-161 | the default Service has no gRPC server, HTTP server or mux yet, a shutdown timeout longer than its positive pre-shutdown delay, and no gRPC server or dial options |
| Micro.Service.Default | micro.go:114-161 | defaultService: default annotator, error handler and HTTP handler; no-op shutdown function; 30 s shutdown timeout; 1 s pre-shutdown delay; docs off; the four default signals; both interceptor lists [prometheus, validator, panic handler]; routes [GET metrics] |
| Micro.Service.Invoke | option.go:17-122 | calling one option closure changes the Service exactly as that option's effect says |
| Micro.Service.Apply | option.go:124-128 | the loop over the options leaves the Service in the state of applying them left to right |
| Micro.Service.NewService | micro.go:164-199 | the new Service is the default one, with the options applied, then finished as NewService does |
| Micro.Service.Finish | micro.go:172-196 | insecure dial option only when no dial option was given; tracing (logging payloads exactly in debug mode) appended to both lists; the server options gain the stream chain and then the unary chain; the gRPC server is built with those options; a fresh HTTP server only when none was given |
| Micro.Finalize | micro.go:171-196 | after NewService's tail both servers exist and the dial options are never empty; a supplied HTTP server and supplied dial options are kept; the gRPC server is built with exactly the final server options |
| Micro.Built | micro.go:164-199 | whatever the options, NewService returns a Service with both servers and no mux yet, the default error handler, the default signals at the front of the signal list and the metrics route at the front of the routes |
| Micro.NewServiceShape | micro.go:114-199 | for any options: each interceptor list is the base three, then the user's interceptors in order, then tracing; the server options are the user's followed by the two chains; the gRPC server is built with them; the dial options default to insecure only when empty; a supplied HTTP server is kept |
| Micro.NewServiceKeepsOptions | micro.go:114-167 | for any options: annotators, signals and routes are their defaults followed by the options' values; each other field holds the last value an option gave it, or its default; the mux is still unset |
| Micro.SingleSetterServices | option_test.go:15-94 | a StaticDir, HTTPHandler(nil) or WithHTTPServer option is visible unchanged in the built Service |
| Micro.SingleInterceptorServices | option_test.go:42-60 | one user interceptor gives lists of length 5, with the user's interceptor fourth |
| Micro.SingleAppendServices | option_test.go:20-68 | one annotator gives [default, it]; one signal gives 5 signals |
| Micro.SingleGRPCOptionServices | option_test.go:70-84 | one server option gives 3 server options; one dial option replaces the insecure default |
| Micro.Service.StartGRPCGateway | micro.go:263-321 | the docs route is appended only when docs are up; the mux carries the annotators and error handler and registers every route in order, then the proxy's routes; a proxy error is returned unchanged, with no fallback and the HTTP server untouched; otherwise the static fallback is registered last, the port is set, the shutdown function is registered, and ListenAndServe's result is returned |
| Micro.Service.Stop | micro.go:325-346 | the effects take the stop machine from Running to Stopped: keep-alives off first; a sleep exactly when preShutdownDelay > 0, for that duration; the HTTP shutdown last, under shutdownTimeout and with the registered shutdown functions |
| Micro.Service.Start | micro.go:207-245 | a server's result that arrives first is returned with no stop; an interrupt signal stops the Service (a full stop sequence) and returns nil |
| Micro.StaticFallback | micro.go:299-315 | three exclusive answers, each an iff on what os.Stat reports for the root (staticDir, or the working directory when it is empty) joined with the URL path: 404 when the path does not exist or is a directory; the file served, at that path, when it is a regular file; and, on any other stat error, the panic of calling IsDir on the nil FileInfo |
| Micro.JoinPathExtendsRoot | micro.go:308 | the joined path starts with the root and is at least as long as the URL path |
| Micro.StaticFallbackServesUnderRoot | micro.go:302-315 | with staticDir set the working directory plays no part, and a served path always starts with the root |
| Shutdown.StopSequenceCharacterized | micro.go:325-346 | the machine reaches Stopped exactly on: keep-alives off, at most one positive sleep, gRPC graceful stop, HTTP shutdown |
| Shutdown.NotStopSequenceFails | micro.go:325-346 | any other sequence of effects does not reach Stopped |
| Shutdown.StopOrder | micro.go:325-346 | in an accepted sequence, keep-alives go off first, the gRPC server stops just before the HTTP shutdown, which comes last, and anything in between is a positive sleep |
| Shutdown.InvalidIsFinal | micro.go:325-346 | once an effect is out of order, nothing brings the stop back on track |
| Shutdown.StoppedIsFinal | micro.go:325-346 | any effect after the HTTP shutdown puts the machine out of order: it accepts one stop sequence, not two in a row |
| RequestIdentity.RequestID | micro.go:101-112 | the id is the inbound X-Request-Id, or the generated one when that is empty, and it is written back into the request header |
| RequestIdentity.ResolvedIdEchoes | micro.go:101-106 | a non-empty inbound id is echoed verbatim, otherwise the generated one is used; the id is never empty |
| RequestIdentity.ResolvedIdIsStable | micro.go:101-109 | once written back, asking again yields the same id, whatever the generator would now produce |
| RequestIdentity.FootprintChoice | micro.go:79-95 | the footprint is never empty; the span's footprint baggage wins when non-empty; otherwise it is the inbound request id, or a fresh 36-character id |
| RequestIdentity.DefaultAnnotator | micro.go:73-98 | the returned metadata is the incoming metadata (or empty), plus uberctx-footprint and uber-trace-id when a span is present, plus x-request-id = footprint; the request header changes only when RequestID ran |
| Tracing.InitSpan | tracing.go:14-73 | root span when extraction fails, child of the extracted context otherwise; name is method + " " + path; four request tags plus the footprint tag; footprint baggage is written only when it was absent; X-Request-Id = footprint; the mux is served once, with the span not yet finished; the span is finished afterwards |
| Tracing.ResponseIdEchoesFootprint | tracing.go:51-63 | an inbound footprint baggage item is the footprint; otherwise the request id is |
| Tracing.MetadataIdMatchesResponseId | tracing.go:51-67 | the x-request-id that DefaultAnnotator puts in the gRPC metadata, computed from the span and request InitSpan leaves, is the X-Request-Id InitSpan put in the response; this also holds for a tracer that drops baggage, when the span arrived without a footprint |
| Tracing.RootSpanUsesRequestId | tracing.go:23-60 | a root span has no baggage, so its footprint is always the request id |
| PanicRecovery.ToPanicError | handler.go:12-14 | the error has code Internal and its message is "panic: " followed by the panic value's text |
| PanicRecovery.ToPanicErrorInjective | handler.go:12-14 | different panic values give different errors, so the error identifies the value |
| PanicRecovery.HandleCrash | handler.go:34-38 | the callback is called exactly once, with the recovered value, when there was a panic, and never otherwise |
| PanicRecovery.UnaryPanicHandler | handler.go:12-23 | a normal return passes (resp, err) through exactly; a panic with value r gives resp nil and an Internal-code error "panic: " + r |
| PanicRecovery.StreamPanicHandler | handler.go:26-32 | a normal return passes err through; a panic gives the Internal-code error "panic: " + r |
| PanicRecovery.UnaryAndStreamAgree | handler.go:12-32 | the two handlers produce the same error for the same ending |
| PanicRecovery.ContainmentIsIdempotent | handler.go:17-23 | wrapping an already contained handler again changes nothing |
| PanicRecovery.PanicIsReported | handler.go:12-23 | a panic always yields an error, one that differs from any normal return with only plain errors |
| RedocPage.WithDefaults | redoc.go:22-32 | each empty field gets its default ("/swagger.json", the jsdelivr redoc script, "API documentation"), and each non-empty field is kept |
| RedocPage.WithDefaultsCompletes | redoc.go:22-32 | after defaulting no field is empty; settings are their own defaults exactly when complete; defaulting is idempotent |
| RedocPage.RedocOpts.constructor | redoc.go:9-17 | the options hold the three given fields |
| RedocPage.RedocOpts.EnsureDefaults | redoc.go:22-32 | the fields change in place to their defaulted values |
| RedocPage.Redoc | redoc.go:35-46 | the global options get their defaults; Content-Type becomes "text/html; charset=utf-8"; status 200 is committed unless a status was already sent |
| VirtualHosts.ServeHTTP | examples/golang_grpc/internal/lib/VirtualHosts.go:21-38 | exactly one of three replies, each with both directions: a redirect 301 to "//" + target iff the host has a redirect entry; delegation to the handler iff there is no redirect and a non-nil handler is registered; 403 "Forbidden" otherwise |
| VirtualHosts.NewVirtualHosts | examples/golang_grpc/internal/lib/VirtualHosts.go:13-18 | a new switch has no host registered and no host redirected |
| VirtualHosts.NewVirtualHostsRefusesAll | examples/golang_grpc/internal/lib/VirtualHosts.go:13-18 | a new switch answers 403 to every host |
| VirtualHosts.RedirectShadowsHandler | examples/golang_grpc/internal/lib/VirtualHosts.go:26-33 | a redirect entry wins over a handler for the same host |
| VirtualHosts.DispatchIsPerHost | examples/golang_grpc/internal/lib/VirtualHosts.go:21-38 | changing another host's entries does not change a host's reply |
| VirtualHosts.RegisteredHostDelegates | examples/golang_grpc/internal/lib/VirtualHosts.go:29-33 | registering a handler for a host without a redirect makes it delegate to that handler |
| StrConcat.Truncate | examples/golang_grpc/internal/lib/StrConcat.go:4-9 | the result is a prefix of the input, of length at most n, and the whole input when it fits |
| StrConcat.TruncateAppend | examples/golang_grpc/internal/lib/StrConcat.go:6-8 | truncating the buffer so far and then appending and truncating again equals truncating the whole concatenation, which is why the loop loses nothing it should keep |
| StrConcat.Copy | examples/golang_grpc/internal/lib/StrConcat.go:7 | copy writes min(room, length) bytes at the offset, returns that count, and leaves the rest of the buffer alone |
| StrConcat.StrConcat | examples/golang_grpc/internal/lib/StrConcat.go:3-10 | the result is the concatenation of all inputs truncated to 40 bytes: at most 40 bytes, a prefix of the concatenation, the whole concatenation when it fits, and "" for no inputs |
| SchemaVersion.ToUint | examples/golang_grpc/internal/lib/CheckMySQLSchemaVersion.go:17-18 | uint(version) is congruent to version modulo 2^64: non-negative values are kept, negative ones wrap to 2^64 - 2^31 or more |
| SchemaVersion.ToUintInjective | examples/golang_grpc/internal/lib/CheckMySQLSchemaVersion.go:17-18 | the conversion loses no information |
| SchemaVersion.CheckMySQLSchemaVersion | examples/golang_grpc/internal/lib/CheckMySQLSchemaVersion.go:7-22 | a scan error gives (0, false); otherwise the version returned is uint(version) whatever the verdict; the verdict is true iff the scan succeeded, uint(version) equals the expected version, and dirty is 0 |
| SchemaVersion.DirtyIsRefused | examples/golang_grpc/internal/lib/CheckMySQLSchemaVersion.go:17-21 | a dirty schema is refused even at the expected version, and an accepted row reports exactly the expected version |
| SchemaVersion.NegativeVersionNeverMatchesSmall | examples/golang_grpc/internal/lib/CheckMySQLSchemaVersion.go:17-20 | a negative stored version never matches an expected version below 2^31, and is reported wrapped |

## Left out

- `Start`'s goroutines, channels and `signal.Notify` are left out: they are concurrency. `Micro.Service.Start` takes the first wake-up as an input. Its requirement that a delivered signal is one of `interruptSignals` stands for what `signal.Notify` guarantees.
- `startGRPCServer`, `net.Listen`, `Serve`, `ListenAndServe`, `http.ServeFile` and `os.Getwd` are I/O. The prometheus and reflection registration is a call into a library. `ListenAndServe`'s result and the working directory are parameters. `os.Stat` is a map from path to its result: a file or directory, does-not-exist, or another error.
- `Micro.Service.StartGRPCGateway` does not model the muxer's JSON marshaler option. It does not model the `Handler` assignment: the recovery handler around `httpHandler(mux)`. It also does not model the gRPC address handed to the reverse-proxy callback, and the callback is reduced to the routes it registers and the error it returns. The requirement that `httpHandler` and the HTTP server are non-nil when the proxy succeeds stands for the nil dereference the code would otherwise hit.
- `Micro.StaticFallback` ends a stat error other than does-not-exist in the `NilFileInfo` panic; the 500 that gorilla's recovery handler writes for it, and the span that `InitSpan` then leaves unfinished, are not modelled, because the model's mux always returns. It joins paths without `filepath.Clean`. So `..` segments and repeated slashes are not normalised.
- `Micro.Service.Stop` records its effects on the servers as a sequence of events. Real sleeping, context deadlines and what `GracefulStop` and `Shutdown` do to open connections are not modelled.
- Durations are unbounded integers. `time.Duration`'s 64-bit range is not modelled.
- The `Redoc` option stores a pointer in the Go code, which may be nil. The model stores a value, so the nil dereference in `startGRPCGateway` is not modelled.
- UUID generation is an oracle. Its result is a parameter of type `UuidText`, which has 36 characters.
- `DefaultAnnotator` does not model the child span it starts, only its printed form, which is a parameter. `metadata.FromIncomingContext` is reduced to the incoming metadata or nil.
- `Tracer.Extract` is an input: it fails, or yields a span context with baggage. Jaeger's header formats are not modelled.
- `Tracing.InitSpan` models a tracer that records tags and baggage, such as Jaeger. The span class `Spans.Span` keeps both. `InitSpan` uses `opentracing.GlobalTracer()` (tracing.go:23, 37 and 41), and so does NewService for the tracing interceptors (micro.go:170); that is the NoopTracer unless a tracer is installed. The NoopTracer keeps neither, so under it `InitSpan`'s ensures about `span.tags` and `span.baggage` do not describe the running program. The footprint, the `X-Request-Id` header and the request header do not depend on the tracer keeping anything. Under the NoopTracer the footprint is always the request id, the case `Tracing.RootSpanUsesRequestId` and the second half of `Tracing.MetadataIdMatchesResponseId` describe.
- The `WithHTTPServer` option stores an `*http.Server` pointer in the Go code. The model stores a value, so aliasing is lost: `startGRPCGateway` sets `Addr`, `Handler` and the shutdown hooks on the caller's own server object, and the model only updates the Service's copy. This parallels the `Redoc` pointer above.
- `Http.Header` keeps one value per key. A Go `http.Header` holds a list of values per key and `Get` returns the first. Requests carrying several `X-Request-Id` values are not modelled.
- `InitJaeger`, `SetLogger`, logging, `Getpid`, `otel.go` and `logger.go` are left out: they set up foreign libraries and process-wide singletons.
- `route.go` is not part of this model. `PathPattern` and `AllPattern` are kept as data, and request matching against them is not modelled.
- The `redoc` handler's HTML body, including template parsing and escaping, is not modelled. Only the options, the header and the status are.
- `PanicRecovery.UnaryPanicHandler` assumes a non-nil panic value. A `panic(nil)` under Go versions before 1.21 is not modelled.
- The gRPC server and dial options that users supply, the interceptors, annotators, handlers and shutdown functions are opaque tokens, compared only by identity.
- `VirtualHosts.ServeHTTP` does not model logging, the response body written by `http.Redirect` or `http.Error`, or what the delegated handler does.
- `SchemaVersion.ToUint` takes Go's `uint` to be 64 bits wide. `SchemaVersion.CheckMySQLSchemaVersion` receives the scan result as an input; the SQL query is not modelled.
