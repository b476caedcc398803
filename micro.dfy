/** The Service of micro.go: how defaultService and NewService assemble it,
    how startGRPCGateway registers routes, and how Stop and Start tear it down. */
module Micro {

  import opened Wrappers
  import opened MicroTypes
  import opened Options
  import opened Shutdown

  /** The tail of NewService after the options have run: the default insecure
      dial option when none was given, the tracing interceptor, the two chain
      server options, the gRPC server, and an HTTP server when none was given. */
  function Finalize(c: Config): (r: Config)
    ensures r.grpcServer.Some? && r.httpServer.Some? && r.grpcDialOptions != []
    ensures c.httpServer.Some? ==> r.httpServer == c.httpServer
    ensures c.grpcDialOptions != [] ==> r.grpcDialOptions == c.grpcDialOptions
    ensures r.grpcServer.value.options == r.grpcServerOptions
  {
    var dial := if |c.grpcDialOptions| == 0 then c.grpcDialOptions + [WithInsecure] else c.grpcDialOptions;
    var stream := c.streamInterceptors + [OpenTracing(c.debug)];
    var unary := c.unaryInterceptors + [OpenTracing(c.debug)];
    var serverOptions := c.grpcServerOptions + [StreamServerChain(stream), UnaryServerChain(unary)];
    c.(grpcDialOptions := dial,
       streamInterceptors := stream,
       unaryInterceptors := unary,
       grpcServerOptions := serverOptions,
       grpcServer := Some(GRPCServer(serverOptions)),
       httpServer := if c.httpServer.Nil? then Some(FreshHTTPServer) else c.httpServer)
  }

  /** The Service that NewService(opts...) returns: whatever the options, both
      servers exist, the gateway mux does not yet, and the chains start with
      prometheus, the validator and the panic handler and end with tracing. */
  function Built(opts: seq<Option>): (r: Config)
    ensures r.grpcServer.Some? && r.httpServer.Some? && r.mux.Nil?
    ensures r.errorHandler == DefaultHTTPError
    ensures DefaultSignals <= r.interruptSignals && [MetricsRoute] <= r.routes
  {
    var applied := ApplyAll(DefaultConfig(), opts);
    Finalize(applied)
  }

  /** The docs route that startGRPCGateway appends when s.redoc.Up. */
  function DocsRoute(docs: DocsOptions): Route
  {
    Route("GET", PathPattern(docs.route), DocsHandler)
  }

  const FallbackRoute: Route := Route("GET", AllPattern, StaticFallbackHandler)

  /** What the reverseProxyFunc callback does: the routes it registers on the
      mux, and the error it returns (Nil for none). */
  datatype ReverseProxyFunc = ReverseProxyFunc(registers: seq<Route>, result: Nullable<Error>)

  /** The first thing the select in Start receives. */
  datatype Wakeup =
    | GRPCServerReturned(grpcErr: Nullable<Error>)   // from errChan1
    | HTTPServerReturned(httpErr: Nullable<Error>)   // from errChan2
    | SignalReceived(signal: Signal)                 // from sigChan

  class Service {
    var grpcServer: Nullable<GRPCServer>
    var httpServer: Nullable<HTTPServer>
    var httpHandler: Nullable<HTTPHandlerFunc>
    var errorHandler: ErrorHandlerFunc
    var annotators: seq<AnnotatorFunc>
    var redoc: DocsOptions
    var staticDir: string
    var mux: Nullable<ServeMux>
    var routes: seq<Route>
    var streamInterceptors: seq<Interceptor>
    var unaryInterceptors: seq<Interceptor>
    var debug: bool
    var shutdownFunc: ShutdownCallback
    var shutdownTimeout: int
    var preShutdownDelay: int
    var interruptSignals: seq<Signal>
    var grpcServerOptions: seq<ServerOption>
    var grpcDialOptions: seq<DialOption>

    /** All the fields, as one value. */
    function State(): Config
      reads this
    {
      Config(grpcServer, httpServer, httpHandler, errorHandler, annotators, redoc, staticDir,
             mux, routes, streamInterceptors, unaryInterceptors, debug, shutdownFunc,
             shutdownTimeout, preShutdownDelay, interruptSignals, grpcServerOptions, grpcDialOptions)
    }

    /** defaultService. */
    constructor Default()
      ensures State() == DefaultConfig()
      ensures unaryInterceptors == [Prometheus, Validator, PanicHandler] == streamInterceptors
      ensures shutdownTimeout == 30 * Second && preShutdownDelay == 1 * Second
      ensures annotators == [DefaultAnnotator]
      ensures interruptSignals == [SigStop, SigInt, SigTerm, SigQuit]
      ensures routes == [Route("GET", PathPattern("metrics"), MetricsHandler)]
      ensures !redoc.up
    {
      grpcServer := Nil;
      httpServer := Nil;
      mux := Nil;
      staticDir := "";
      debug := false;
      grpcServerOptions := [];
      grpcDialOptions := [];
      annotators := [];
      routes := [];
      errorHandler := DefaultHTTPError;
      httpHandler := Some(DefaultHTTPHandler);
      shutdownFunc := NoopShutdown;
      shutdownTimeout := DefaultShutdownTimeout;
      preShutdownDelay := DefaultPreShutdownDelay;
      redoc := DocsOptions(false, "");
      interruptSignals := [SigStop, SigInt, SigTerm, SigQuit];
      streamInterceptors := [];
      unaryInterceptors := [];
      new;
      annotators := annotators + [DefaultAnnotator];
      streamInterceptors := streamInterceptors + [Prometheus];
      unaryInterceptors := unaryInterceptors + [Prometheus];
      streamInterceptors := streamInterceptors + [Validator];
      unaryInterceptors := unaryInterceptors + [Validator];
      streamInterceptors := streamInterceptors + [PanicHandler];
      unaryInterceptors := unaryInterceptors + [PanicHandler];
      routes := routes + [MetricsRoute];
    }

    /** opt(s): run one Option closure on this Service. */
    method Invoke(opt: Option)
      modifies this
      ensures State() == OptionEffect(old(State()), opt)
    {
      if opt.Debug? || opt.StaticDir? || opt.Redoc? || opt.HTTPHandler? {
        InvokeServing(opt);
      } else if opt.ShutdownFunc? || opt.ShutdownTimeout? || opt.PreShutdownDelay? || opt.WithHTTPServer? {
        InvokeShutdown(opt);
      } else if opt.Annotator? || opt.UnaryInterceptor? || opt.StreamInterceptor? || opt.RouteOpt? {
        InvokeChains(opt);
      } else {
        InvokeGRPC(opt);
      }
    }

    /** An option about what the HTTP side serves. */
    method InvokeServing(opt: Option)
      requires opt.Debug? || opt.StaticDir? || opt.Redoc? || opt.HTTPHandler?
      modifies this`debug, this`staticDir, this`redoc, this`httpHandler
      ensures State() == OptionEffect(old(State()), opt)
    {
      ghost var c := State();
      match opt
      case Debug(flag) =>
        debug := flag;
        assert State() == c.(debug := flag);
      case StaticDir(dir) =>
        staticDir := dir;
        assert State() == c.(staticDir := dir);
      case Redoc(docs) =>
        redoc := docs;
        assert State() == c.(redoc := docs);
      case HTTPHandler(h) =>
        httpHandler := h;
        assert State() == c.(httpHandler := h);
    }

    /** An option about the servers and how they stop. */
    method InvokeShutdown(opt: Option)
      requires opt.ShutdownFunc? || opt.ShutdownTimeout? || opt.PreShutdownDelay? || opt.WithHTTPServer?
      modifies this`shutdownFunc, this`shutdownTimeout, this`preShutdownDelay, this`httpServer
      ensures State() == OptionEffect(old(State()), opt)
    {
      ghost var c := State();
      match opt
      case ShutdownFunc(f) =>
        shutdownFunc := f;
        assert State() == c.(shutdownFunc := f);
      case ShutdownTimeout(t) =>
        shutdownTimeout := t;
        assert State() == c.(shutdownTimeout := t);
      case PreShutdownDelay(t) =>
        preShutdownDelay := t;
        assert State() == c.(preShutdownDelay := t);
      case WithHTTPServer(srv) =>
        httpServer := srv;
        assert State() == c.(httpServer := srv);
    }

    /** An option that appends to the annotators, an interceptor chain or the routes. */
    method InvokeChains(opt: Option)
      requires opt.Annotator? || opt.UnaryInterceptor? || opt.StreamInterceptor? || opt.RouteOpt?
      modifies this`annotators, this`unaryInterceptors, this`streamInterceptors, this`routes
      ensures State() == OptionEffect(old(State()), opt)
    {
      ghost var c := State();
      match opt
      case Annotator(a) =>
        annotators := annotators + [a];
        assert State() == c.(annotators := c.annotators + [a]);
      case UnaryInterceptor(i) =>
        unaryInterceptors := unaryInterceptors + [i];
        assert State() == c.(unaryInterceptors := c.unaryInterceptors + [i]);
      case StreamInterceptor(i) =>
        streamInterceptors := streamInterceptors + [i];
        assert State() == c.(streamInterceptors := c.streamInterceptors + [i]);
      case RouteOpt(r) =>
        routes := routes + [r];
        assert State() == c.(routes := c.routes + [r]);
    }

    /** An option that appends a signal or a gRPC server or dial option. */
    method InvokeGRPC(opt: Option)
      requires opt.InterruptSignal? || opt.GRPCServerOption? || opt.GRPCDialOption?
      modifies this`interruptSignals, this`grpcServerOptions, this`grpcDialOptions
      ensures State() == OptionEffect(old(State()), opt)
    {
      ghost var c := State();
      match opt
      case InterruptSignal(sig) =>
        interruptSignals := interruptSignals + [sig];
        assert State() == c.(interruptSignals := c.interruptSignals + [sig]);
      case GRPCServerOption(so) =>
        grpcServerOptions := grpcServerOptions + [so];
        assert State() == c.(grpcServerOptions := c.grpcServerOptions + [so]);
      case GRPCDialOption(d) =>
        grpcDialOptions := grpcDialOptions + [d];
        assert State() == c.(grpcDialOptions := c.grpcDialOptions + [d]);
    }

    /** (*Service).apply: run the options left to right. */
    method Apply(opts: seq<Option>)
      modifies this
      ensures State() == ApplyAll(old(State()), opts)
    {
      var i := 0;
      while i < |opts|
        invariant 0 <= i <= |opts|
        invariant State() == ApplyAll(old(State()), opts[..i])
      {
        Invoke(opts[i]);
        ApplyAllSnoc(old(State()), opts[..i], opts[i]);
        assert opts[..i + 1] == opts[..i] + [opts[i]];
        i := i + 1;
      }
      assert opts[..|opts|] == opts;
    }

    /** NewService(opts...). */
    static method NewService(opts: seq<Option>) returns (s: Service)
      ensures fresh(s)
      ensures s.State() == Built(opts)
    {
      s := new Service.Default();
      s.Apply(opts);
      s.Finish();
    }

    /** The steps of NewService that follow the options: the default dial
        option, the tracing interceptor on both lists (logging payloads in
        debug mode), the two chains as server options, the gRPC server built
        with them, and a fresh HTTP server if none was given. */
    method Finish()
      modifies this`grpcDialOptions, this`streamInterceptors, this`unaryInterceptors
      modifies this`grpcServerOptions, this`grpcServer, this`httpServer
      ensures grpcDialOptions == if |old(grpcDialOptions)| == 0 then [WithInsecure] else old(grpcDialOptions)
      ensures streamInterceptors == old(streamInterceptors) + [OpenTracing(debug)]
      ensures unaryInterceptors == old(unaryInterceptors) + [OpenTracing(debug)]
      ensures grpcServerOptions ==
        old(grpcServerOptions) + [StreamServerChain(streamInterceptors), UnaryServerChain(unaryInterceptors)]
      ensures grpcServer == Some(GRPCServer(grpcServerOptions))
      ensures httpServer == if old(httpServer).Nil? then Some(FreshHTTPServer) else old(httpServer)
    {
      if |grpcDialOptions| == 0 {
        grpcDialOptions := grpcDialOptions + [WithInsecure];
      }

      if debug {
        streamInterceptors := streamInterceptors + [OpenTracing(true)];
        unaryInterceptors := unaryInterceptors + [OpenTracing(true)];
      } else {
        streamInterceptors := streamInterceptors + [OpenTracing(false)];
        unaryInterceptors := unaryInterceptors + [OpenTracing(false)];
      }

      grpcServerOptions := grpcServerOptions + [StreamServerChain(streamInterceptors)];
      grpcServerOptions := grpcServerOptions + [UnaryServerChain(unaryInterceptors)];
      assert grpcServerOptions ==
        old(grpcServerOptions) + [StreamServerChain(streamInterceptors), UnaryServerChain(unaryInterceptors)];

      grpcServer := Some(GRPCServer(grpcServerOptions));

      if httpServer.Nil? {
        httpServer := Some(FreshHTTPServer);
      }
    }

    /** startGRPCGateway up to ListenAndServe: build the mux, append the docs
        route when documentation is up, register every route, call the reverse
        proxy, and only if it succeeds register the static fallback and set up
        the HTTP server. `listenError` is what ListenAndServe returns. */
    method StartGRPCGateway(httpPort: nat, reverseProxy: ReverseProxyFunc, listenError: Error)
      returns (err: Error)
      requires reverseProxy.result.Nil? ==> httpServer.Some? && httpHandler.Some?
      modifies this`routes, this`mux, this`httpServer
      ensures routes == old(routes) + (if old(redoc).up then [DocsRoute(old(redoc))] else [])
      ensures mux == Some(ServeMux(old(annotators), old(errorHandler),
        routes + reverseProxy.registers + (if reverseProxy.result.Nil? then [FallbackRoute] else [])))
      ensures reverseProxy.result.Some? ==> err == reverseProxy.result.value && httpServer == old(httpServer)
      ensures reverseProxy.result.Nil? ==>
        err == listenError &&
        httpServer == Some(old(httpServer).value.(addrPort := Some(httpPort),
                                                 onShutdown := old(httpServer).value.onShutdown + [old(shutdownFunc)]))
    {
      var handlers: seq<Route> := [];

      if redoc.up {
        routes := routes + [DocsRoute(redoc)];
      }

      var i := 0;
      while i < |routes|
        invariant 0 <= i <= |routes|
        invariant handlers == routes[..i]
      {
        handlers := handlers + [routes[i]];
        i := i + 1;
      }
      assert handlers == routes;
      mux := Some(ServeMux(annotators, errorHandler, handlers));

      mux := Some(mux.value.(handlers := mux.value.handlers + reverseProxy.registers));
      if reverseProxy.result.Some? {
        assert routes + reverseProxy.registers + [] == routes + reverseProxy.registers;
        return reverseProxy.result.value;
      }

      mux := Some(mux.value.(handlers := mux.value.handlers + [FallbackRoute]));

      httpServer := Some(httpServer.value.(addrPort := Some(httpPort)));
      httpServer := Some(httpServer.value.(onShutdown := httpServer.value.onShutdown + [shutdownFunc]));

      err := listenError;
    }

    /** Stop: keep-alives off, the pre-shutdown sleep when the delay is positive,
        the gRPC graceful stop, then the HTTP shutdown under shutdownTimeout. */
    method Stop() returns (effects: seq<StopEffect>)
      requires httpServer.Some? && grpcServer.Some?
      ensures Run(Running, effects) == Stopped
      ensures effects[0] == DisableKeepAlives
      ensures Sleep(preShutdownDelay) in effects <==> preShutdownDelay > 0
      ensures forall i :: 0 <= i < |effects| && effects[i].Sleep? ==> effects[i].duration == preShutdownDelay
      ensures effects[|effects| - 1] == ShutdownHTTP(shutdownTimeout, httpServer.value.onShutdown)
    {
      effects := [DisableKeepAlives];
      if preShutdownDelay > 0 {
        effects := effects + [Sleep(preShutdownDelay)];
      }
      effects := effects + [GracefulStopGRPC];
      effects := effects + [ShutdownHTTP(shutdownTimeout, httpServer.value.onShutdown)];
      StopSequenceCharacterized(effects);
    }

    /** The select at the end of Start, given which of its three channels
        delivered first: a server's result is returned as it is, and an
        interrupt signal stops the Service and returns nil. */
    method Start(first: Wakeup) returns (err: Nullable<Error>, effects: seq<StopEffect>)
      requires httpServer.Some? && grpcServer.Some?
      requires first.SignalReceived? ==> first.signal in interruptSignals
      ensures first.GRPCServerReturned? ==> err == first.grpcErr && effects == []
      ensures first.HTTPServerReturned? ==> err == first.httpErr && effects == []
      ensures first.SignalReceived? ==> err == Nil && Run(Running, effects) == Stopped
    {
      match first
      case GRPCServerReturned(e) =>
        err, effects := e, [];
      case HTTPServerReturned(e) =>
        err, effects := e, [];
      case SignalReceived(_) =>
        effects := Stop();
        err := Nil;
    }
  }

  /** Everything NewService promises, in terms of the options given: the
      interceptor lists are the base three, the user's in option order, then
      tracing; the server options are the user's then the two chains; the
      insecure dial option appears only when no dial option was given; a
      supplied HTTP server is kept. */
  lemma NewServiceShape(opts: seq<Option>)
    ensures var b := Built(opts);
      var tracing := OpenTracing(Last(opts, PickDebug, false));
      && b.unaryInterceptors == BaseInterceptors + Collected(opts, PickUnary) + [tracing]
      && b.streamInterceptors == BaseInterceptors + Collected(opts, PickStream) + [tracing]
      && |b.unaryInterceptors| == 4 + |Collected(opts, PickUnary)|
      && |b.streamInterceptors| == 4 + |Collected(opts, PickStream)|
      && b.grpcServerOptions == Collected(opts, PickServerOption) +
           [StreamServerChain(b.streamInterceptors), UnaryServerChain(b.unaryInterceptors)]
      && b.grpcServer == Some(GRPCServer(b.grpcServerOptions))
      && b.grpcDialOptions == (if Collected(opts, PickDialOption) == [] then [WithInsecure]
                               else Collected(opts, PickDialOption))
      && b.httpServer == (var h := Last(opts, PickHTTPServer, Nil);
                          if h.Nil? then Some(FreshHTTPServer) else h)
  {
    ApplyAllIsReference(DefaultConfig(), opts);
  }

  /** The fields NewService leaves as the options set them: each list is its
      default followed by the options' values in order, each other field holds
      the last value an option gave it, or its default. */
  lemma NewServiceKeepsOptions(opts: seq<Option>)
    ensures var b := Built(opts);
      && b.annotators == [DefaultAnnotator] + Collected(opts, PickAnnotator)
      && b.interruptSignals == DefaultSignals + Collected(opts, PickSignal)
      && b.routes == [MetricsRoute] + Collected(opts, PickRoute)
      && b.debug == Last(opts, PickDebug, false)
      && b.staticDir == Last(opts, PickStaticDir, "")
      && b.httpHandler == Last(opts, PickHTTPHandler, Some(DefaultHTTPHandler))
      && b.redoc == Last(opts, PickRedoc, DocsOptions(false, ""))
      && b.shutdownTimeout == Last(opts, PickShutdownTimeout, DefaultShutdownTimeout)
      && b.preShutdownDelay == Last(opts, PickPreShutdownDelay, DefaultPreShutdownDelay)
      && b.shutdownFunc == Last(opts, PickShutdownFunc, NoopShutdown)
      && b.errorHandler == DefaultHTTPError && b.mux == Nil
  {
    ApplyAllIsReference(DefaultConfig(), opts);
  }

  /** The single-option services built by the option tests, for any argument:
      the options that set a field. */
  lemma SingleSetterServices(dir: string, srv: HTTPServer)
    ensures Built([StaticDir(dir)]).staticDir == dir
    ensures Built([HTTPHandler(Nil)]).httpHandler == Nil
    ensures Built([WithHTTPServer(Some(srv))]).httpServer == Some(srv)
  {
    NewServiceKeepsOptions([StaticDir(dir)]);
    NewServiceKeepsOptions([HTTPHandler(Nil)]);
    NewServiceShape([WithHTTPServer(Some(srv))]);
  }

  /** The same, for the options that append to the interceptor lists. */
  lemma SingleInterceptorServices(u: Interceptor, st: Interceptor)
    ensures |Built([UnaryInterceptor(u)]).unaryInterceptors| == 5
    ensures |Built([StreamInterceptor(st)]).streamInterceptors| == 5
    ensures Built([UnaryInterceptor(u)]).unaryInterceptors[3] == u
    ensures Built([StreamInterceptor(st)]).streamInterceptors[3] == st
  {
    NewServiceShape([UnaryInterceptor(u)]);
    NewServiceShape([StreamInterceptor(st)]);
  }

  /** The same, for the other options that append. */
  lemma SingleAppendServices(a: AnnotatorFunc, sig: Signal)
    ensures Built([Annotator(a)]).annotators == [DefaultAnnotator, a]
    ensures |Built([InterruptSignal(sig)]).interruptSignals| == 5
  {
    NewServiceKeepsOptions([Annotator(a)]);
    NewServiceKeepsOptions([InterruptSignal(sig)]);
  }

  /** The same, for the options that append gRPC server and dial options. */
  lemma SingleGRPCOptionServices(so: ServerOption, d: DialOption)
    ensures |Built([GRPCServerOption(so)]).grpcServerOptions| == 3
    ensures Built([GRPCDialOption(d)]).grpcDialOptions == [d]
  {
    NewServiceShape([GRPCServerOption(so)]);
    NewServiceShape([GRPCDialOption(d)]);
  }

  // ---------------------------------------------------------------------------
  // The static-file fallback registered last by startGRPCGateway.

  datatype FileKind = RegularFile | Directory

  /** What os.Stat reports for a path: a file or directory, ENOENT, or any other
      error (a name too long, a permission denied on the way). */
  datatype StatResult = Found(kind: FileKind) | NotExist | StatFailed(reason: string)

  /** The fallback's answer. `NilFileInfo` is the panic of calling IsDir on the nil
      FileInfo that os.Stat returns with an error other than ENOENT; the
      RecoveryHandler around the mux turns it into a 500. */
  datatype StaticReply = NotFound | ServeFile(path: string) | NilFileInfo(reason: string)

  /** os.Stat on the file system `fs`; a path it does not list does not exist. */
  function Stat(fs: map<string, StatResult>, path: string): StatResult
  {
    if path in fs then fs[path] else NotExist
  }

  /** filepath.Join of the static root and the URL path, without Clean. */
  function JoinPath(dir: string, urlPath: string): string
  {
    if dir == "" then urlPath
    else if urlPath == "" then dir
    else if dir[|dir| - 1] == '/' && urlPath[0] == '/' then dir + urlPath[1..]
    else if dir[|dir| - 1] == '/' || urlPath[0] == '/' then dir + urlPath
    else dir + "/" + urlPath
  }

  /** The root the fallback serves from: staticDir, or the working directory. */
  function StaticRoot(staticDir: string, workingDir: string): string
  {
    if staticDir == "" then workingDir else staticDir
  }

  /** The fallback handler: a path that does not exist or is a directory gets 404,
      a stat error of any other kind reaches IsDir on a nil FileInfo and panics,
      and a file is served. */
  function StaticFallback(staticDir: string, workingDir: string, urlPath: string,
                          fs: map<string, StatResult>): (r: StaticReply)
    ensures var path := JoinPath(StaticRoot(staticDir, workingDir), urlPath);
      && (r.NotFound? <==> Stat(fs, path) == NotExist || Stat(fs, path) == Found(Directory))
      && (r.ServeFile? <==> Stat(fs, path) == Found(RegularFile))
      && (r.NilFileInfo? <==> Stat(fs, path).StatFailed?)
      && (r.ServeFile? ==> r.path == path)
      && (r.NilFileInfo? ==> r.reason == Stat(fs, path).reason)
  {
    var path := JoinPath(StaticRoot(staticDir, workingDir), urlPath);
    match Stat(fs, path)
    case NotExist => NotFound
    case Found(Directory) => NotFound
    case Found(RegularFile) => ServeFile(path)
    case StatFailed(reason) => NilFileInfo(reason)
  }

  /** Without Clean the served path is the root followed by the URL path: the root
      is always a prefix of it. */
  lemma {:induction false} JoinPathExtendsRoot(dir: string, urlPath: string)
    ensures dir <= JoinPath(dir, urlPath)
    ensures |JoinPath(dir, urlPath)| >= |urlPath|
  {
    if dir != "" && urlPath != "" && dir[|dir| - 1] == '/' && urlPath[0] == '/' {
      assert JoinPath(dir, urlPath) == dir + urlPath[1..];
    }
  }

  /** A non-empty staticDir makes the working directory irrelevant, and what is
      served always lies under the root. */
  lemma StaticFallbackServesUnderRoot(staticDir: string, workingDir: string, otherDir: string,
                                      urlPath: string, fs: map<string, StatResult>)
    ensures staticDir != "" ==>
      StaticFallback(staticDir, workingDir, urlPath, fs) == StaticFallback(staticDir, otherDir, urlPath, fs)
    ensures var r := StaticFallback(staticDir, workingDir, urlPath, fs);
      r.ServeFile? ==> StaticRoot(staticDir, workingDir) <= r.path
  {
    JoinPathExtendsRoot(StaticRoot(staticDir, workingDir), urlPath);
  }
}
