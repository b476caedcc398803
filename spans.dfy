/** The opentracing span operations that the core calls, with the Jaeger
    behaviour it relies on: a child span starts with its parent's baggage. */
module Spans {

  import opened Wrappers

  /** A span context extracted from inbound headers, with its baggage items. */
  datatype SpanContext = SpanContext(traceId: string, baggage: map<string, string>)

  /** The baggage a new span starts with: its parent's, or none for a root span. */
  function InheritedBaggage(parent: Nullable<SpanContext>): map<string, string>
  {
    if parent.Some? then parent.value.baggage else map[]
  }

  /** BaggageItem / map lookup that answers "" for an absent key. */
  function Item(m: map<string, string>, key: string): string
  {
    if key in m then m[key] else ""
  }

  class Span {
    const operationName: string
    const parent: Nullable<SpanContext>
    var tags: map<string, string>
    var baggage: map<string, string>
    var finished: bool

    /** opentracing.StartSpan(operationName), with opentracing.ChildOf(parent) when
        there is a parent. */
    constructor Start(operationName: string, parent: Nullable<SpanContext>)
      ensures this.operationName == operationName && this.parent == parent
      ensures tags == map[] && baggage == InheritedBaggage(parent) && !finished
    {
      this.operationName := operationName;
      this.parent := parent;
      tags := map[];
      baggage := InheritedBaggage(parent);
      finished := false;
    }

    function BaggageItem(key: string): string
      reads this
    {
      Item(baggage, key)
    }

    method SetTag(key: string, value: string)
      modifies this`tags
      ensures tags == old(tags)[key := value]
    {
      tags := tags[key := value];
    }

    method SetBaggageItem(key: string, value: string)
      modifies this`baggage
      ensures baggage == old(baggage)[key := value]
    {
      baggage := baggage[key := value];
    }

    method Finish()
      modifies this`finished
      ensures finished
    {
      finished := true;
    }
  }
}
