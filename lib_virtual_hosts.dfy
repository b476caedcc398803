/** The host switch of examples/golang_grpc/internal/lib/VirtualHosts.go:
    a permanent redirect table, then a handler table, then 403. */
module VirtualHosts {

  import opened Wrappers

  /** An http.Handler registered for a host. */
  datatype Handler = Handler(id: nat)

  /** The two maps; a host may be mapped to a nil handler. */
  datatype VirtualHosts = VirtualHosts(handlers: map<string, Nullable<Handler>>, r301: map<string, string>)

  /** What ServeHTTP does with the request. */
  datatype Reply =
    | Redirect(status: int, location: string)   // http.Redirect
    | Delegate(handler: Handler)                 // handler.ServeHTTP(w, r)
    | Refuse(status: int, message: string)       // http.Error

  /** NewVirtualHosts: both maps empty, so no host is served or redirected. */
  function NewVirtualHosts(): (vh: VirtualHosts)
    ensures forall host :: host !in vh.handlers && host !in vh.r301
  {
    VirtualHosts(map[], map[])
  }

  /** vh.Handlers[host]: the zero value, nil, for a missing key. */
  function HandlerFor(vh: VirtualHosts, host: string): Nullable<Handler>
  {
    if host in vh.handlers then vh.handlers[host] else Nil
  }

  /** ServeHTTP for a request whose Host is `host`. The receiver is a value, so
      neither map can change. */
  function ServeHTTP(vh: VirtualHosts, host: string): (reply: Reply)
    ensures reply.Redirect? <==> host in vh.r301
    ensures reply.Redirect? ==> reply == Redirect(301, "//" + vh.r301[host])
    ensures reply.Delegate? <==> host !in vh.r301 && host in vh.handlers && vh.handlers[host].Some?
    ensures reply.Delegate? ==> reply.handler == vh.handlers[host].value
    ensures reply.Refuse? <==> host !in vh.r301 && (host !in vh.handlers || vh.handlers[host].Nil?)
    ensures reply.Refuse? ==> reply == Refuse(403, "Forbidden")
  {
    if host in vh.r301 then
      Redirect(301, "//" + vh.r301[host])
    else
      var handler := HandlerFor(vh, host);
      if handler.Some? then Delegate(handler.value) else Refuse(403, "Forbidden")
  }

  /** A new switch refuses every host. */
  lemma NewVirtualHostsRefusesAll(host: string)
    ensures ServeHTTP(NewVirtualHosts(), host) == Refuse(403, "Forbidden")
  {
  }

  /** A redirect entry wins over a handler registered for the same host. */
  lemma RedirectShadowsHandler(vh: VirtualHosts, host: string, target: string, h: Handler)
    ensures ServeHTTP(vh.(r301 := vh.r301[host := target], handlers := vh.handlers[host := Some(h)]), host)
         == Redirect(301, "//" + target)
  {
  }

  /** The reply for a host depends only on that host's entries: registering or
      redirecting another host leaves it unchanged. */
  lemma DispatchIsPerHost(vh: VirtualHosts, host: string, other: string, h: Nullable<Handler>, target: string)
    requires other != host
    ensures ServeHTTP(vh.(handlers := vh.handlers[other := h]), host) == ServeHTTP(vh, host)
    ensures ServeHTTP(vh.(r301 := vh.r301[other := target]), host) == ServeHTTP(vh, host)
  {
  }

  /** Registering a handler for a host that has no redirect makes the host
      delegate to it. */
  lemma RegisteredHostDelegates(vh: VirtualHosts, host: string, h: Handler)
    requires host !in vh.r301
    ensures ServeHTTP(vh.(handlers := vh.handlers[host := Some(h)]), host) == Delegate(h)
  {
  }
}
