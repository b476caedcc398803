/** The per-request handler that InitSpan returns (tracing.go:14-73): start a
    root or child span, settle the footprint, echo it in X-Request-Id, serve
    the mux with the span in context, then finish the span. */
module Tracing {

  import opened Wrappers
  import opened Http
  import opened Spans
  import opened RequestIdentity

  /** The outcome of Tracer.Extract on the inbound headers. */
  datatype Extraction = ExtractFailed(reason: string) | Extracted(context: SpanContext)

  /** What the gateway mux saw when it was called: the span in the request's
      context, whether that span was already finished, and the response header. */
  datatype ServeCall = ServeCall(span: Span, spanFinished: bool, responseHeader: Header)

  /** The gateway mux; only the calls made to it are observed. */
  class Mux {
    var served: seq<ServeCall>

    method ServeHTTP(w: ResponseWriter, span: Span)
      modifies this`served
      ensures served == old(served) + [ServeCall(span, span.finished, w.header)]
    {
      served := served + [ServeCall(span, span.finished, w.header)];
    }
  }

  /** The parent of the span InitSpan starts: none when extraction failed. */
  function ParentOf(e: Extraction): Nullable<SpanContext>
  {
    if e.Extracted? then Some(e.context) else Nil
  }

  /** The four request tags set on every span. */
  function RequestTags(urlHostname: string, remoteAddr: string, requestURI: string, rawQuery: string): map<string, string>
  {
    map["http.url.host" := urlHostname, "peer.address" := remoteAddr,
        "http.url" := requestURI, "http.url.query" := rawQuery]
  }

  /** The footprint InitSpan settles on. */
  function SpanFootprint(e: Extraction, h: Header, generated: UuidText): string
  {
    Footprint(Item(InheritedBaggage(ParentOf(e)), FootprintBaggageKey), h, generated)
  }

  /** One request through the InitSpan handler. */
  method InitSpan(mux: Mux, w: ResponseWriter, r: Request, extraction: Extraction, generated: UuidText)
    returns (span: Span)
    modifies mux`served, w`header, r`header
    ensures fresh(span)
    ensures span.operationName == r.httpMethod + " " + r.path
    ensures span.parent == ParentOf(extraction)
    ensures var fp := SpanFootprint(extraction, old(r.header), generated);
      && span.tags == RequestTags(r.urlHostname, r.remoteAddr, r.requestURI, r.rawQuery)[FootprintBaggageKey := fp]
      && span.baggage == InheritedBaggage(ParentOf(extraction))[FootprintBaggageKey := fp]
      && w.header == old(w.header)[XRequestId := fp]
      && mux.served == old(mux.served) + [ServeCall(span, false, w.header)]
    ensures var inherited := Item(InheritedBaggage(ParentOf(extraction)), FootprintBaggageKey);
      r.header == if inherited != "" then old(r.header)
                  else old(r.header)[XRequestId := ResolvedId(old(r.header), generated)]
    ensures span.finished
  {
    var methodName := r.httpMethod + " " + r.path;
    if extraction.ExtractFailed? {
      span := new Span.Start(methodName, Nil);
    } else {
      span := new Span.Start(methodName, Some(extraction.context));
    }
    span.SetTag("http.url.host", r.urlHostname);
    span.SetTag("peer.address", r.remoteAddr);
    span.SetTag("http.url", r.requestURI);
    span.SetTag("http.url.query", r.rawQuery);

    var footprint := span.BaggageItem(FootprintBaggageKey);
    if footprint != "" {
      span.SetTag(FootprintBaggageKey, footprint);
    } else {
      footprint := RequestID(r, generated);
      span.SetBaggageItem(FootprintBaggageKey, footprint);
      span.SetTag(FootprintBaggageKey, footprint);
    }

    w.SetHeader(XRequestId, footprint);
    mux.ServeHTTP(w, span);
    span.Finish();
  }

  /** The response echoes an inbound footprint baggage item (uberctx-footprint),
      and otherwise the request's id. */
  lemma ResponseIdEchoesFootprint(ctx: SpanContext, h: Header, generated: UuidText)
    ensures Item(ctx.baggage, FootprintBaggageKey) != "" ==>
      SpanFootprint(Extracted(ctx), h, generated) == Item(ctx.baggage, FootprintBaggageKey)
    ensures Item(ctx.baggage, FootprintBaggageKey) == "" ==>
      SpanFootprint(Extracted(ctx), h, generated) == ResolvedId(h, generated)
  {
  }

  /** A root span carries no baggage, so its footprint is always the request id. */
  lemma RootSpanUsesRequestId(reason: string, h: Header, generated: UuidText)
    ensures SpanFootprint(ExtractFailed(reason), h, generated) == ResolvedId(h, generated)
  {
  }

  /** The id that reaches the gRPC metadata is the one echoed in the response.
      Inside the mux, DefaultAnnotator reads the footprint baggage of the span
      InitSpan started and the request header InitSpan left; its x-request-id is
      then InitSpan's X-Request-Id. The same holds for a tracer that keeps no
      baggage, as long as the span arrived without a footprint: the annotator then
      falls back to the request id InitSpan already wrote into the request. */
  lemma MetadataIdMatchesResponseId(e: Extraction, h: Header, generated: UuidText, later: UuidText)
    ensures var fp := SpanFootprint(e, h, generated);
      var inherited := Item(InheritedBaggage(ParentOf(e)), FootprintBaggageKey);
      var left := if inherited != "" then h else h[XRequestId := ResolvedId(h, generated)];
      var bag := Item(InheritedBaggage(ParentOf(e))[FootprintBaggageKey := fp], FootprintBaggageKey);
      && Footprint(bag, left, later) == fp
      && (inherited == "" ==> Footprint("", left, later) == fp)
  {
  }
}
