/** The panic-containing interceptors of handler.go. A Go panic unwinds to the
    deferred handleCrash, which rewrites the named result `err`; here the
    handler's way of ending is an input, and the named results at the moment the
    deferred call runs are computed from it. */
module PanicRecovery {

  import opened Wrappers

  /** A non-nil value passed to panic, as the %v verb prints it. */
  datatype PanicValue = PanicValue(formatted: string)

  /** codes.Internal. */
  const Internal: nat := 13

  /** An error a handler may return: a gRPC status error, or any other error. */
  datatype RpcError = StatusError(code: nat, message: string) | PlainError(message: string)

  /** toPanicError. */
  function ToPanicError(r: PanicValue): (e: RpcError)
    ensures e.StatusError? && e.code == Internal
    ensures |e.message| == |"panic: "| + |r.formatted|
    ensures e.message[..|"panic: "|] == "panic: " && e.message[|"panic: "|..] == r.formatted
  {
    StatusError(Internal, "panic: " + r.formatted)
  }

  /** The error names the panic value: different values give different errors. */
  lemma ToPanicErrorInjective(a: PanicValue, b: PanicValue)
    ensures ToPanicError(a) == ToPanicError(b) <==> a == b
  {
    if ToPanicError(a) == ToPanicError(b) {
      assert a.formatted == ToPanicError(a).message[|"panic: "|..];
    }
  }

  /** How the wrapped unary handler ended: it returned, or it panicked. */
  datatype UnaryOutcome<T> = Returned(resp: Nullable<T>, err: Nullable<RpcError>) | Panicked(value: PanicValue)

  /** How the wrapped stream handler ended. */
  datatype StreamOutcome = StreamReturned(err: Nullable<RpcError>) | StreamPanicked(value: PanicValue)

  /** The named results (resp, err) of UnaryPanicHandler. */
  datatype UnaryResult<T> = UnaryResult(resp: Nullable<T>, err: Nullable<RpcError>)

  /** handleCrash: the values its callback is called with, given what recover()
      returned. The callback runs exactly once on a panic, and never otherwise. */
  function HandleCrash(recovered: Nullable<PanicValue>): (calls: seq<PanicValue>)
    ensures |calls| <= 1
    ensures |calls| == 1 <==> recovered.Some?
    ensures recovered.Some? ==> calls[0] == recovered.value
  {
    if recovered.Some? then [recovered.value] else []
  }

  /** The named result `err` after handleCrash: the callback `err = toPanicError(r)`
      overwrites it when it is called, and leaves it alone otherwise. */
  function AfterCallback(err: Nullable<RpcError>, calls: seq<PanicValue>): Nullable<RpcError>
    requires |calls| <= 1
  {
    if calls == [] then err else Some(ToPanicError(calls[0]))
  }

  /** What recover() returns in the deferred call. */
  function Recovered<T>(outcome: UnaryOutcome<T>): Nullable<PanicValue>
  {
    if outcome.Panicked? then Some(outcome.value) else Nil
  }

  /** UnaryPanicHandler: the named results hold the handler's return values, or
      their zero values if it panicked; then the deferred handleCrash runs. */
  function UnaryPanicHandler<T>(outcome: UnaryOutcome<T>): (result: UnaryResult<T>)
    ensures outcome.Returned? ==> result == UnaryResult(outcome.resp, outcome.err)
    ensures outcome.Panicked? ==>
      result.resp == Nil && result.err == Some(StatusError(Internal, "panic: " + outcome.value.formatted))
  {
    var named := if outcome.Returned? then UnaryResult(outcome.resp, outcome.err) else UnaryResult(Nil, Nil);
    var calls := HandleCrash(Recovered(outcome));
    named.(err := AfterCallback(named.err, calls))
  }

  /** StreamPanicHandler: the same, with `err` the only named result. */
  function StreamPanicHandler(outcome: StreamOutcome): (err: Nullable<RpcError>)
    ensures outcome.StreamReturned? ==> err == outcome.err
    ensures outcome.StreamPanicked? ==> err == Some(StatusError(Internal, "panic: " + outcome.value.formatted))
  {
    var named := if outcome.StreamReturned? then outcome.err else Nil;
    var calls := HandleCrash(if outcome.StreamPanicked? then Some(outcome.value) else Nil);
    AfterCallback(named, calls)
  }

  /** Both interceptors turn the same ending into the same error. */
  lemma UnaryAndStreamAgree<T>(resp: Nullable<T>, err: Nullable<RpcError>, v: PanicValue)
    ensures UnaryPanicHandler(Returned(resp, err)).err == StreamPanicHandler(StreamReturned(err))
    ensures UnaryPanicHandler<T>(Panicked(v)).err == StreamPanicHandler(StreamPanicked(v))
  {
  }

  /** A contained handler returns normally, so containing it again changes nothing. */
  lemma ContainmentIsIdempotent<T>(outcome: UnaryOutcome<T>)
    ensures var once := UnaryPanicHandler(outcome);
      UnaryPanicHandler(Returned(once.resp, once.err)) == once
  {
  }

  /** A panic always yields an error, and one that no normal return of a
      handler reporting only plain errors could produce. */
  lemma PanicIsReported<T>(v: PanicValue, resp: Nullable<T>, err: Nullable<RpcError>)
    requires err.Some? ==> err.value.PlainError?
    ensures UnaryPanicHandler<T>(Panicked(v)).err.Some?
    ensures UnaryPanicHandler(Returned(resp, err)) != UnaryPanicHandler<T>(Panicked(v))
  {
  }
}
