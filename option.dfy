/** The functional options of option.go. Each Option closure assigns or appends
    one Service field; OptionEffect is that closure as a function on the
    Service's fields, and ApplyAll is (*Service).apply on them. */
module Options {

  import opened Wrappers
  import opened MicroTypes

  datatype Option =
    | Debug(flag: bool)
    | StaticDir(dir: string)
    | Redoc(docs: DocsOptions)
    | Annotator(annotator: AnnotatorFunc)
    | HTTPHandler(handler: Nullable<HTTPHandlerFunc>)
    | UnaryInterceptor(unary: Interceptor)
    | StreamInterceptor(stream: Interceptor)
    | RouteOpt(route: Route)
    | ShutdownFunc(callback: ShutdownCallback)
    | ShutdownTimeout(timeout: int)
    | PreShutdownDelay(delay: int)
    | InterruptSignal(signal: Signal)
    | GRPCServerOption(serverOption: ServerOption)
    | GRPCDialOption(dialOption: DialOption)
    | WithHTTPServer(server: Nullable<HTTPServer>)

  /** What running one Option closure does to the Service. No option can reach
      the gRPC server, the error handler or the gateway mux. */
  function OptionEffect(c: Config, o: Option): (r: Config)
    ensures r.grpcServer == c.grpcServer && r.errorHandler == c.errorHandler && r.mux == c.mux
  {
    match o
    case Debug(flag) => c.(debug := flag)
    case StaticDir(dir) => c.(staticDir := dir)
    case Redoc(docs) => c.(redoc := docs)
    case Annotator(a) => c.(annotators := c.annotators + [a])
    case HTTPHandler(h) => c.(httpHandler := h)
    case UnaryInterceptor(i) => c.(unaryInterceptors := c.unaryInterceptors + [i])
    case StreamInterceptor(i) => c.(streamInterceptors := c.streamInterceptors + [i])
    case RouteOpt(r) => c.(routes := c.routes + [r])
    case ShutdownFunc(f) => c.(shutdownFunc := f)
    case ShutdownTimeout(t) => c.(shutdownTimeout := t)
    case PreShutdownDelay(t) => c.(preShutdownDelay := t)
    case InterruptSignal(sig) => c.(interruptSignals := c.interruptSignals + [sig])
    case GRPCServerOption(so) => c.(grpcServerOptions := c.grpcServerOptions + [so])
    case GRPCDialOption(d) => c.(grpcDialOptions := c.grpcDialOptions + [d])
    case WithHTTPServer(srv) => c.(httpServer := srv)
  }

  /** (*Service).apply: the options run from left to right. No option reaches
      the gRPC server, the error handler or the mux, and the list fields only
      grow: whatever was in them stays at the front. */
  function ApplyAll(c: Config, opts: seq<Option>): (r: Config)
    ensures r.grpcServer == c.grpcServer && r.errorHandler == c.errorHandler && r.mux == c.mux
    ensures c.annotators <= r.annotators && c.routes <= r.routes
    ensures c.streamInterceptors <= r.streamInterceptors && c.unaryInterceptors <= r.unaryInterceptors
    ensures c.interruptSignals <= r.interruptSignals
    ensures c.grpcServerOptions <= r.grpcServerOptions && c.grpcDialOptions <= r.grpcDialOptions
    decreases |opts|
  {
    if opts == [] then c else
      OptionKeepsFront(c, opts[0]);
      ApplyAll(OptionEffect(c, opts[0]), opts[1..])
  }

  /** One option only appends to a list field: what the list held stays at its front. */
  lemma OptionKeepsFront(c: Config, o: Option)
    ensures var r := OptionEffect(c, o);
      && c.annotators <= r.annotators && c.routes <= r.routes
      && c.streamInterceptors <= r.streamInterceptors && c.unaryInterceptors <= r.unaryInterceptors
      && c.interruptSignals <= r.interruptSignals
      && c.grpcServerOptions <= r.grpcServerOptions && c.grpcDialOptions <= r.grpcDialOptions
  {
  }

  /** Running one more option after `opts` is applying it to what `opts` produced. */
  lemma {:induction false} ApplyAllSnoc(c: Config, opts: seq<Option>, o: Option)
    ensures ApplyAll(c, opts + [o]) == OptionEffect(ApplyAll(c, opts), o)
    decreases |opts|
  {
    if opts == [] {
      assert opts + [o] == [o];
      assert [o][1..] == [];
    } else {
      assert (opts + [o])[0] == opts[0];
      assert (opts + [o])[1..] == opts[1..] + [o];
      ApplyAllSnoc(OptionEffect(c, opts[0]), opts[1..], o);
    }
  }

  // ---------------------------------------------------------------------------
  // A reference definition of apply, field by field: a setter field holds the
  // value of the last option that sets it, a list field gains the values of
  // its options in option order.

  /** The value carried by the last option that `pick` selects, or `initial`. */
  function Last<T>(opts: seq<Option>, pick: Option -> Nullable<T>, initial: T): T
    decreases |opts|
  {
    if opts == [] then initial
    else match pick(opts[|opts| - 1])
      case Some(v) => v
      case Nil => Last(opts[..|opts| - 1], pick, initial)
  }

  /** The values carried by the options that `pick` selects, in option order. */
  function Collected<T>(opts: seq<Option>, pick: Option -> Nullable<T>): seq<T>
    decreases |opts|
  {
    if opts == [] then [] else Collected(opts[..|opts| - 1], pick) + Selected(opts[|opts| - 1], pick)
  }

  /** The value `pick` selects from one option, as a list of zero or one element. */
  function Selected<T>(o: Option, pick: Option -> Nullable<T>): seq<T>
  {
    match pick(o)
    case Some(v) => [v]
    case Nil => []
  }

  lemma LastSnoc<T>(opts: seq<Option>, o: Option, pick: Option -> Nullable<T>, initial: T)
    ensures Last(opts + [o], pick, initial) == if pick(o).Some? then pick(o).value else Last(opts, pick, initial)
  {
    assert (opts + [o])[..|opts|] == opts;
  }

  lemma CollectedSnoc<T>(opts: seq<Option>, o: Option, pick: Option -> Nullable<T>)
    ensures Collected(opts + [o], pick) == Collected(opts, pick) + Selected(o, pick)
  {
    assert (opts + [o])[..|opts|] == opts;
  }

  function PickDebug(o: Option): Nullable<bool> { if o.Debug? then Some(o.flag) else Nil }
  function PickStaticDir(o: Option): Nullable<string> { if o.StaticDir? then Some(o.dir) else Nil }
  function PickRedoc(o: Option): Nullable<DocsOptions> { if o.Redoc? then Some(o.docs) else Nil }
  function PickAnnotator(o: Option): Nullable<AnnotatorFunc> { if o.Annotator? then Some(o.annotator) else Nil }
  function PickHTTPHandler(o: Option): Nullable<Nullable<HTTPHandlerFunc>> { if o.HTTPHandler? then Some(o.handler) else Nil }
  function PickUnary(o: Option): Nullable<Interceptor> { if o.UnaryInterceptor? then Some(o.unary) else Nil }
  function PickStream(o: Option): Nullable<Interceptor> { if o.StreamInterceptor? then Some(o.stream) else Nil }
  function PickRoute(o: Option): Nullable<Route> { if o.RouteOpt? then Some(o.route) else Nil }
  function PickShutdownFunc(o: Option): Nullable<ShutdownCallback> { if o.ShutdownFunc? then Some(o.callback) else Nil }
  function PickShutdownTimeout(o: Option): Nullable<int> { if o.ShutdownTimeout? then Some(o.timeout) else Nil }
  function PickPreShutdownDelay(o: Option): Nullable<int> { if o.PreShutdownDelay? then Some(o.delay) else Nil }
  function PickSignal(o: Option): Nullable<Signal> { if o.InterruptSignal? then Some(o.signal) else Nil }
  function PickServerOption(o: Option): Nullable<ServerOption> { if o.GRPCServerOption? then Some(o.serverOption) else Nil }
  function PickDialOption(o: Option): Nullable<DialOption> { if o.GRPCDialOption? then Some(o.dialOption) else Nil }
  function PickHTTPServer(o: Option): Nullable<Nullable<HTTPServer>> { if o.WithHTTPServer? then Some(o.server) else Nil }

  /** The Service that applying `opts` to `c` should give, each field on its own. */
  function Reference(c: Config, opts: seq<Option>): Config
  {
    c.(
      httpServer := Last(opts, PickHTTPServer, c.httpServer),
      httpHandler := Last(opts, PickHTTPHandler, c.httpHandler),
      annotators := c.annotators + Collected(opts, PickAnnotator),
      redoc := Last(opts, PickRedoc, c.redoc),
      staticDir := Last(opts, PickStaticDir, c.staticDir),
      routes := c.routes + Collected(opts, PickRoute),
      streamInterceptors := c.streamInterceptors + Collected(opts, PickStream),
      unaryInterceptors := c.unaryInterceptors + Collected(opts, PickUnary),
      debug := Last(opts, PickDebug, c.debug),
      shutdownFunc := Last(opts, PickShutdownFunc, c.shutdownFunc),
      shutdownTimeout := Last(opts, PickShutdownTimeout, c.shutdownTimeout),
      preShutdownDelay := Last(opts, PickPreShutdownDelay, c.preShutdownDelay),
      interruptSignals := c.interruptSignals + Collected(opts, PickSignal),
      grpcServerOptions := c.grpcServerOptions + Collected(opts, PickServerOption),
      grpcDialOptions := c.grpcDialOptions + Collected(opts, PickDialOption))
  }

  /** apply agrees with the field-by-field reference: last writer wins for every
      setter, every append keeps option order, and grpcServer, errorHandler and
      mux are never touched by an option. */
  lemma {:induction false} ApplyAllIsReference(c: Config, opts: seq<Option>)
    ensures ApplyAll(c, opts) == Reference(c, opts)
    decreases |opts|
  {
    if opts != [] {
      var init, o := opts[..|opts| - 1], opts[|opts| - 1];
      assert opts == init + [o];
      ApplyAllSnoc(c, init, o);
      ApplyAllIsReference(c, init);
      ReferenceSnoc(c, init, o);
    }
  }

  lemma ReferenceSnoc(c: Config, opts: seq<Option>, o: Option)
    ensures Reference(c, opts + [o]) == OptionEffect(Reference(c, opts), o)
  {
    var l, r := Reference(c, opts + [o]), OptionEffect(Reference(c, opts), o);
    ReferenceSnocSetters(c, opts, o);
    ReferenceSnocLists(c, opts, o);
    assert l.grpcServer == r.grpcServer && l.errorHandler == r.errorHandler && l.mux == r.mux;
  }

  lemma ReferenceSnocSetters(c: Config, opts: seq<Option>, o: Option)
    ensures var l, r := Reference(c, opts + [o]), OptionEffect(Reference(c, opts), o);
      && l.httpServer == r.httpServer && l.httpHandler == r.httpHandler
      && l.redoc == r.redoc && l.staticDir == r.staticDir && l.debug == r.debug
      && l.shutdownFunc == r.shutdownFunc && l.shutdownTimeout == r.shutdownTimeout
      && l.preShutdownDelay == r.preShutdownDelay
  {
    LastSnoc(opts, o, PickHTTPServer, c.httpServer);
    LastSnoc(opts, o, PickHTTPHandler, c.httpHandler);
    LastSnoc(opts, o, PickRedoc, c.redoc);
    LastSnoc(opts, o, PickStaticDir, c.staticDir);
    LastSnoc(opts, o, PickDebug, c.debug);
    LastSnoc(opts, o, PickShutdownFunc, c.shutdownFunc);
    LastSnoc(opts, o, PickShutdownTimeout, c.shutdownTimeout);
    LastSnoc(opts, o, PickPreShutdownDelay, c.preShutdownDelay);
  }

  lemma ReferenceSnocLists(c: Config, opts: seq<Option>, o: Option)
    ensures var l, r := Reference(c, opts + [o]), OptionEffect(Reference(c, opts), o);
      && l.annotators == r.annotators && l.routes == r.routes
      && l.streamInterceptors == r.streamInterceptors && l.unaryInterceptors == r.unaryInterceptors
      && l.interruptSignals == r.interruptSignals && l.grpcServerOptions == r.grpcServerOptions
      && l.grpcDialOptions == r.grpcDialOptions
  {
    ListSnoc(c.annotators, opts, o, PickAnnotator);
    ListSnoc(c.routes, opts, o, PickRoute);
    ListSnoc(c.streamInterceptors, opts, o, PickStream);
    ListSnoc(c.unaryInterceptors, opts, o, PickUnary);
    ListSnoc(c.interruptSignals, opts, o, PickSignal);
    ListSnoc(c.grpcServerOptions, opts, o, PickServerOption);
    ListSnoc(c.grpcDialOptions, opts, o, PickDialOption);
  }

  lemma ListSnoc<T>(base: seq<T>, opts: seq<Option>, o: Option, pick: Option -> Nullable<T>)
    ensures base + Collected(opts + [o], pick) ==
      if pick(o).Some? then base + Collected(opts, pick) + [pick(o).value] else base + Collected(opts, pick)
  {
    CollectedSnoc(opts, o, pick);
    var prefix := base + Collected(opts, pick);
    assert base + (Collected(opts, pick) + Selected(o, pick)) == prefix + Selected(o, pick);
  }

  /** `Last` really is the last selected option: if option i is selected and no
      later one is, its value wins; if none is selected, the initial value stays. */
  lemma {:induction false} LastIsLastSelected<T>(opts: seq<Option>, pick: Option -> Nullable<T>, initial: T, i: int)
    requires -1 <= i < |opts|
    requires i >= 0 ==> pick(opts[i]).Some?
    requires forall j :: i < j < |opts| ==> pick(opts[j]).Nil?
    ensures Last(opts, pick, initial) == if i >= 0 then pick(opts[i]).value else initial
    decreases |opts|
  {
    if opts != [] && i < |opts| - 1 {
      var init := opts[..|opts| - 1];
      assert pick(opts[|opts| - 1]).Nil?;
      assert forall j :: i < j < |init| ==> init[j] == opts[j];
      LastIsLastSelected(init, pick, initial, i);
    }
  }

  /** Every option that `pick` selects contributes exactly one element to
      `Collected`, its own value, placed after the values of the options before it,
      whatever other options the list holds. */
  lemma {:induction false} CollectedCountsSelected<T>(opts: seq<Option>, pick: Option -> Nullable<T>, j: int)
    requires 0 <= j < |opts| && pick(opts[j]).Some?
    ensures Collected(opts[..j + 1], pick) == Collected(opts[..j], pick) + [pick(opts[j]).value]
    ensures |Collected(opts[..j], pick)| < |Collected(opts, pick)|
    ensures Collected(opts, pick)[|Collected(opts[..j], pick)|] == pick(opts[j]).value
    decreases |opts|
  {
    assert opts[..j + 1][..j] == opts[..j];
    var init := opts[..|opts| - 1];
    if j == |opts| - 1 {
      assert init == opts[..j];
    } else {
      assert init[..j] == opts[..j] && init[..j + 1] == opts[..j + 1] && init[j] == opts[j];
      CollectedCountsSelected(init, pick, j);
    }
  }

  // ---------------------------------------------------------------------------
  // One option at a time.

  /** The Service fields, by name. */
  datatype Field =
    | GRPCServerField | HTTPServerField | HTTPHandlerField | ErrorHandlerField
    | AnnotatorsField | RedocField | StaticDirField | MuxField | RoutesField
    | StreamInterceptorsField | UnaryInterceptorsField | DebugField
    | ShutdownFuncField | ShutdownTimeoutField | PreShutdownDelayField
    | InterruptSignalsField | GRPCServerOptionsField | GRPCDialOptionsField

  /** The one field an option writes. */
  function Target(o: Option): Field
  {
    match o
    case Debug(_) => DebugField
    case StaticDir(_) => StaticDirField
    case Redoc(_) => RedocField
    case Annotator(_) => AnnotatorsField
    case HTTPHandler(_) => HTTPHandlerField
    case UnaryInterceptor(_) => UnaryInterceptorsField
    case StreamInterceptor(_) => StreamInterceptorsField
    case RouteOpt(_) => RoutesField
    case ShutdownFunc(_) => ShutdownFuncField
    case ShutdownTimeout(_) => ShutdownTimeoutField
    case PreShutdownDelay(_) => PreShutdownDelayField
    case InterruptSignal(_) => InterruptSignalsField
    case GRPCServerOption(_) => GRPCServerOptionsField
    case GRPCDialOption(_) => GRPCDialOptionsField
    case WithHTTPServer(_) => HTTPServerField
  }

  /** `c` and `d` agree on every field except possibly `f`. */
  ghost predicate SameExcept(c: Config, d: Config, f: Field)
  {
    && (f == GRPCServerField || d.grpcServer == c.grpcServer)
    && (f == HTTPServerField || d.httpServer == c.httpServer)
    && (f == HTTPHandlerField || d.httpHandler == c.httpHandler)
    && (f == ErrorHandlerField || d.errorHandler == c.errorHandler)
    && (f == AnnotatorsField || d.annotators == c.annotators)
    && (f == RedocField || d.redoc == c.redoc)
    && (f == StaticDirField || d.staticDir == c.staticDir)
    && (f == MuxField || d.mux == c.mux)
    && (f == RoutesField || d.routes == c.routes)
    && (f == StreamInterceptorsField || d.streamInterceptors == c.streamInterceptors)
    && (f == UnaryInterceptorsField || d.unaryInterceptors == c.unaryInterceptors)
    && (f == DebugField || d.debug == c.debug)
    && (f == ShutdownFuncField || d.shutdownFunc == c.shutdownFunc)
    && (f == ShutdownTimeoutField || d.shutdownTimeout == c.shutdownTimeout)
    && (f == PreShutdownDelayField || d.preShutdownDelay == c.preShutdownDelay)
    && (f == InterruptSignalsField || d.interruptSignals == c.interruptSignals)
    && (f == GRPCServerOptionsField || d.grpcServerOptions == c.grpcServerOptions)
    && (f == GRPCDialOptionsField || d.grpcDialOptions == c.grpcDialOptions)
  }

  /** Every option changes only the field it names. */
  lemma OptionChangesOnlyItsField(c: Config, o: Option)
    ensures SameExcept(c, OptionEffect(c, o), Target(o))
  {
  }
}
