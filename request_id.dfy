/** Request identity (micro.go:72-112): RequestID echoes or generates the
    X-Request-Id header, and DefaultAnnotator copies the span's footprint, or
    that id, into the gRPC metadata. */
module RequestIdentity {

  import opened Wrappers
  import opened Http
  import opened Spans

  /** The text of uuid.New().String(): 32 hex digits and 4 hyphens. The
      generator itself is an oracle, passed in by the caller. */
  type UuidText = s: string | |s| == 36 witness "00000000-0000-0000-0000-000000000000"

  /** The id RequestID settles on for a request with header `h`. */
  function ResolvedId(h: Header, generated: UuidText): string
  {
    var id := HeaderGet(h, XRequestId);
    if id == "" then generated else id
  }

  /** An inbound X-Request-Id is echoed verbatim; otherwise the generated id is used. */
  lemma ResolvedIdEchoes(h: Header, generated: UuidText)
    ensures HeaderGet(h, XRequestId) != "" ==> ResolvedId(h, generated) == HeaderGet(h, XRequestId)
    ensures HeaderGet(h, XRequestId) == "" ==> ResolvedId(h, generated) == generated
    ensures ResolvedId(h, generated) != ""
  {
  }

  /** Once the id is written back into the header, asking again gives the same
      id whatever the generator would now produce. */
  lemma ResolvedIdIsStable(h: Header, generated: UuidText, later: UuidText)
    ensures var id := ResolvedId(h, generated);
      ResolvedId(h[XRequestId := id], later) == id
  {
  }

  /** RequestID: read X-Request-Id, generate one when it is empty, and set the
      result back into the request header. */
  method RequestID(req: Request, generated: UuidText) returns (id: string)
    modifies req`header
    ensures id == ResolvedId(old(req.header), generated)
    ensures req.header == old(req.header)[XRequestId := id]
  {
    id := HeaderGet(req.header, XRequestId);
    if id == "" {
      id := generated;
    }
    req.header := req.header[XRequestId := id];
  }

  /** The footprint carried into a request: the span's "footprint" baggage when it
      is non-empty, else the request id. */
  function Footprint(baggageFootprint: string, h: Header, generated: UuidText): string
  {
    if baggageFootprint != "" then baggageFootprint else ResolvedId(h, generated)
  }

  /** The footprint is never empty, prefers the baggage, and otherwise is the
      (echoed or generated) request id. */
  lemma FootprintChoice(baggageFootprint: string, h: Header, generated: UuidText)
    ensures Footprint(baggageFootprint, h, generated) != ""
    ensures baggageFootprint != "" ==> Footprint(baggageFootprint, h, generated) == baggageFootprint
    ensures baggageFootprint == "" && HeaderGet(h, XRequestId) != "" ==>
      Footprint(baggageFootprint, h, generated) == HeaderGet(h, XRequestId)
    ensures baggageFootprint == "" && HeaderGet(h, XRequestId) == "" ==>
      |Footprint(baggageFootprint, h, generated)| == 36
  {
  }

  /** gRPC metadata: lower-case keys, each with a list of values. */
  type Metadata = map<string, seq<string>>

  const FootprintBaggageKey: string := "footprint"
  const MetadataFootprintKey: string := "uberctx-footprint"   // jaeger.TraceBaggageHeaderPrefix + "footprint"
  const MetadataTraceKey: string := "uber-trace-id"            // jaeger.TraceContextHeaderName
  const MetadataRequestIdKey: string := "x-request-id"

  /** The metadata that DefaultAnnotator returns. `incoming` is the metadata
      already in the context, `span` the span in the context (null for none),
      `childSpanText` the printed form of the child span it starts. */
  method DefaultAnnotator(incoming: Nullable<Metadata>, span: Span?, req: Request,
                          childSpanText: string, generated: UuidText) returns (md: Metadata)
    modifies req`header
    ensures var base := if incoming.Some? then incoming.value else map[];
      var bag := if span != null then span.BaggageItem(FootprintBaggageKey) else "";
      var withSpan := if span != null
        then base[MetadataFootprintKey := [bag]][MetadataTraceKey := [childSpanText]]
        else base;
      md == withSpan[MetadataRequestIdKey := [Footprint(bag, old(req.header), generated)]]
    ensures var bag := if span != null then span.BaggageItem(FootprintBaggageKey) else "";
      req.header == if bag != "" then old(req.header)
                    else old(req.header)[XRequestId := ResolvedId(old(req.header), generated)]
  {
    md := if incoming.Some? then incoming.value else map[];
    var footprint := "";
    if span != null {
      footprint := span.BaggageItem(FootprintBaggageKey);
      md := md[MetadataFootprintKey := [footprint]];
      md := md[MetadataTraceKey := [childSpanText]];
    }
    if footprint == "" {
      footprint := RequestID(req, generated);
    }
    md := md[MetadataRequestIdKey := [footprint]];
  }
}
