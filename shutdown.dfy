/** The graceful-stop sequence as a state machine:
    Running -> Draining (keep-alives off) -> [Delayed (slept)] ->
    StoppingHTTP (gRPC stopped) -> Stopped (HTTP shut down).
    (*Service).Stop is proved to drive it from Running to Stopped. */
module Shutdown {

  import opened MicroTypes

  /** The effects Stop has on the two servers, in the order they happen. */
  datatype StopEffect =
    | DisableKeepAlives                 // HTTPServer.SetKeepAlivesEnabled(false)
    | Sleep(duration: int)              // time.Sleep(preShutdownDelay)
    | GracefulStopGRPC                  // GRPCServer.GracefulStop()
    | ShutdownHTTP(timeout: int, callbacks: seq<ShutdownCallback>)
                                        // HTTPServer.Shutdown under a shutdownTimeout deadline,
                                        // which runs the RegisterOnShutdown callbacks

  datatype Phase = Running | Draining | Delayed | StoppingHTTP | Stopped | Invalid

  function Step(p: Phase, e: StopEffect): Phase
  {
    match (p, e)
    case (Running, DisableKeepAlives) => Draining
    case (Draining, Sleep(d)) => if d > 0 then Delayed else Invalid
    case (Draining, GracefulStopGRPC) => StoppingHTTP
    case (Delayed, GracefulStopGRPC) => StoppingHTTP
    case (StoppingHTTP, ShutdownHTTP(_, _)) => Stopped
    case _ => Invalid
  }

  function Run(p: Phase, effects: seq<StopEffect>): Phase
    decreases |effects|
  {
    if effects == [] then p else Run(Step(p, effects[0]), effects[1..])
  }

  /** The traces with which the machine goes from Running to Stopped. */
  ghost predicate IsStopSequence(t: seq<StopEffect>)
  {
    || (|t| == 3 && t[0] == DisableKeepAlives && t[1] == GracefulStopGRPC && t[2].ShutdownHTTP?)
    || (|t| == 4 && t[0] == DisableKeepAlives && t[1].Sleep? && t[1].duration > 0
        && t[2] == GracefulStopGRPC && t[3].ShutdownHTTP?)
  }

  lemma {:induction false} InvalidIsFinal(t: seq<StopEffect>)
    ensures Run(Invalid, t) == Invalid
    decreases |t|
  {
    if t != [] {
      InvalidIsFinal(t[1..]);
    }
  }

  lemma StoppedIsFinal(t: seq<StopEffect>)
    requires t != []
    ensures Run(Stopped, t) == Invalid
  {
    InvalidIsFinal(t[1..]);
  }

  /** The machine accepts exactly: keep-alives off, at most one positive sleep,
      the gRPC graceful stop, then the HTTP shutdown. */
  lemma StopSequenceCharacterized(t: seq<StopEffect>)
    ensures Run(Running, t) == Stopped <==> IsStopSequence(t)
  {
    if IsStopSequence(t) {
      var t1 := t[1..];
      assert Run(Running, t) == Run(Draining, t1);
      if |t| == 3 {
        assert Run(Draining, t1) == Run(StoppingHTTP, t1[1..]);
        assert Run(StoppingHTTP, t1[1..]) == Run(Stopped, t1[1..][1..]);
      } else {
        assert Run(Draining, t1) == Run(Delayed, t1[1..]);
        var t2 := t1[1..];
        assert Run(Delayed, t2) == Run(StoppingHTTP, t2[1..]);
        assert Run(StoppingHTTP, t2[1..]) == Run(Stopped, t2[1..][1..]);
      }
    } else if Run(Running, t) == Stopped {
      assert false by { NotStopSequenceFails(t); }
    }
  }

  lemma NotStopSequenceFails(t: seq<StopEffect>)
    requires !IsStopSequence(t)
    ensures Run(Running, t) != Stopped
  {
    if t == [] || t[0] != DisableKeepAlives {
      if t != [] { InvalidIsFinal(t[1..]); }
      return;
    }
    var t1 := t[1..];
    assert Run(Running, t) == Run(Draining, t1);
    if t1 == [] { return; }
    var p1 := Step(Draining, t1[0]);
    assert Run(Draining, t1) == Run(p1, t1[1..]);
    if p1 == Invalid { InvalidIsFinal(t1[1..]); return; }
    var t2 := t1[1..];
    if p1 == Delayed {
      if t2 == [] { return; }
      var p2 := Step(Delayed, t2[0]);
      assert Run(Delayed, t2) == Run(p2, t2[1..]);
      if p2 == Invalid { InvalidIsFinal(t2[1..]); return; }
      // p2 == StoppingHTTP
      var t3 := t2[1..];
      if t3 == [] { return; }
      var p3 := Step(StoppingHTTP, t3[0]);
      assert Run(StoppingHTTP, t3) == Run(p3, t3[1..]);
      if p3 == Invalid { InvalidIsFinal(t3[1..]); return; }
      assert |t3| > 1;
      StoppedIsFinal(t3[1..]);
    } else {
      // p1 == StoppingHTTP
      if t2 == [] { return; }
      var p2 := Step(StoppingHTTP, t2[0]);
      assert Run(StoppingHTTP, t2) == Run(p2, t2[1..]);
      if p2 == Invalid { InvalidIsFinal(t2[1..]); return; }
      assert |t2| > 1;
      StoppedIsFinal(t2[1..]);
    }
  }

  /** In every accepted trace keep-alives go off first, the gRPC server stops
      before the HTTP server, and the HTTP shutdown is last. */
  lemma StopOrder(t: seq<StopEffect>)
    requires Run(Running, t) == Stopped
    ensures t[0] == DisableKeepAlives
    ensures t[|t| - 1].ShutdownHTTP? && t[|t| - 2] == GracefulStopGRPC
    ensures forall i :: 0 < i < |t| - 2 ==> t[i].Sleep? && t[i].duration > 0
  {
    StopSequenceCharacterized(t);
  }
}
