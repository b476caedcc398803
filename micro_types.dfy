/** The entities held by a Service (micro.go:29-49) and the defaults that
    defaultService installs (micro.go:51-56, 114-161). */
module MicroTypes {

  import opened Wrappers

  /** time.Duration counts nanoseconds. */
  const Second: int := 1_000_000_000
  const DefaultShutdownTimeout: int := 30 * Second
  const DefaultPreShutdownDelay: int := 1 * Second

  /** A gRPC server interceptor. The unary and the stream list hold the same
      kinds, so both are modelled with this one type. */
  datatype Interceptor =
    | Prometheus                      // grpc_prometheus.{Unary,Stream}ServerInterceptor
    | Validator                       // grpc_validator.{Unary,Stream}ServerInterceptor()
    | PanicHandler                    // UnaryPanicHandler / StreamPanicHandler
    | OpenTracing(logPayloads: bool)  // otgrpc interceptor, with otgrpc.LogPayloads() in debug mode
    | UserInterceptor(id: nat)        // supplied by an option

  datatype AnnotatorFunc = DefaultAnnotator | UserAnnotator(id: nat)

  datatype HTTPHandlerFunc = DefaultHTTPHandler | UserHTTPHandler(id: nat)

  datatype ErrorHandlerFunc = DefaultHTTPError

  datatype ShutdownCallback = NoopShutdown | UserShutdown(id: nat)

  /** The handler half of a Route. */
  datatype RouteHandler =
    | MetricsHandler          // promhttp.Handler()
    | DocsHandler             // s.redoc.Serve
    | StaticFallbackHandler   // the file-serving fallback of startGRPCGateway
    | UserRouteHandler(id: nat)

  /** PathPattern(path) matches exactly one literal path; AllPattern() matches any. */
  datatype Pattern = PathPattern(path: string) | AllPattern

  datatype Route = Route(httpMethod: string, pattern: Pattern, handler: RouteHandler)

  /** The two RedocOpts fields that micro.go reads (s.redoc.Up, s.redoc.Route). */
  datatype DocsOptions = DocsOptions(up: bool, route: string)

  datatype Signal = SigStop | SigInt | SigTerm | SigQuit | SigKill | OtherSignal(number: nat)

  datatype ServerOption =
    | UserServerOption(id: nat)
    | StreamServerChain(streamChain: seq<Interceptor>)  // grpc_middleware.WithStreamServerChain
    | UnaryServerChain(unaryChain: seq<Interceptor>)    // grpc_middleware.WithUnaryServerChain

  datatype DialOption = WithInsecure | UserDialOption(id: nat)

  /** The *http.Server fields this model follows: the three timeouts a caller may
      choose, the port that startGRPCGateway puts in Addr, and the functions
      registered with RegisterOnShutdown. */
  datatype HTTPServer = HTTPServer(
    readTimeout: int,
    writeTimeout: int,
    idleTimeout: int,
    addrPort: Nullable<nat>,
    onShutdown: seq<ShutdownCallback>)

  /** The zero value &http.Server{}. */
  const FreshHTTPServer: HTTPServer := HTTPServer(0, 0, 0, Nil, [])

  /** grpc.NewServer(options...). */
  datatype GRPCServer = GRPCServer(options: seq<ServerOption>)

  /** runtime.NewServeMux: the metadata annotators, the error handler, and every
      (method, pattern, handler) registered with Handle, in registration order. */
  datatype ServeMux = ServeMux(
    annotators: seq<AnnotatorFunc>,
    errorHandler: ErrorHandlerFunc,
    handlers: seq<Route>)

  /** Every field of a Service, as one value. */
  datatype Config = Config(
    grpcServer: Nullable<GRPCServer>,
    httpServer: Nullable<HTTPServer>,
    httpHandler: Nullable<HTTPHandlerFunc>,
    errorHandler: ErrorHandlerFunc,
    annotators: seq<AnnotatorFunc>,
    redoc: DocsOptions,
    staticDir: string,
    mux: Nullable<ServeMux>,
    routes: seq<Route>,
    streamInterceptors: seq<Interceptor>,
    unaryInterceptors: seq<Interceptor>,
    debug: bool,
    shutdownFunc: ShutdownCallback,
    shutdownTimeout: int,
    preShutdownDelay: int,
    interruptSignals: seq<Signal>,
    grpcServerOptions: seq<ServerOption>,
    grpcDialOptions: seq<DialOption>)

  /** The interceptors defaultService installs, in installation order. */
  const BaseInterceptors: seq<Interceptor> := [Prometheus, Validator, PanicHandler]

  const DefaultSignals: seq<Signal> := [SigStop, SigInt, SigTerm, SigQuit]

  /** The GET /metrics route that defaultService registers. */
  const MetricsRoute: Route := Route("GET", PathPattern("metrics"), MetricsHandler)

  /** The Service that defaultService returns. */
  function DefaultConfig(): (r: Config)
    ensures r.grpcServer.Nil? && r.httpServer.Nil? && r.mux.Nil?
    ensures r.shutdownTimeout > r.preShutdownDelay > 0
    ensures r.grpcDialOptions == [] && r.grpcServerOptions == []
  {
    Config(
      grpcServer := Nil,
      httpServer := Nil,
      httpHandler := Some(DefaultHTTPHandler),
      errorHandler := DefaultHTTPError,
      annotators := [DefaultAnnotator],
      redoc := DocsOptions(false, ""),
      staticDir := "",
      mux := Nil,
      routes := [MetricsRoute],
      streamInterceptors := BaseInterceptors,
      unaryInterceptors := BaseInterceptors,
      debug := false,
      shutdownFunc := NoopShutdown,
      shutdownTimeout := DefaultShutdownTimeout,
      preShutdownDelay := DefaultPreShutdownDelay,
      interruptSignals := DefaultSignals,
      grpcServerOptions := [],
      grpcDialOptions := [])
  }
}
