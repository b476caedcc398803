/** The parts of Go's net/http that the core reads and writes. */
module Http {

  import opened Wrappers

  /** http.Header with one value per key: Get returns the first value, Set replaces it. */
  type Header = map<string, string>

  const XRequestId: string := "X-Request-Id"
  const ContentType: string := "Content-Type"

  /** Header.Get: the empty string for a missing key. */
  function HeaderGet(h: Header, key: string): string
  {
    if key in h then h[key] else ""
  }

  /** The status line and header map that reached the client. */
  datatype SentHeader = SentHeader(status: int, header: Header)

  /** An inbound *http.Request: the URL fields the core uses, and its header map. */
  class Request {
    var httpMethod: string     // Method
    var path: string           // URL.Path
    var urlHostname: string    // URL.Hostname()
    var remoteAddr: string     // RemoteAddr
    var requestURI: string     // URL.RequestURI()
    var rawQuery: string       // URL.RawQuery
    var header: Header
  }

  /** An http.ResponseWriter: the header map, and what WriteHeader committed. */
  class ResponseWriter {
    var header: Header
    var sent: Nullable<SentHeader>

    /** Header().Set(key, value): changes the map, but not a header already sent. */
    method SetHeader(key: string, value: string)
      modifies this`header
      ensures header == old(header)[key := value]
    {
      header := header[key := value];
    }

    /** WriteHeader(status): the first call commits the status and the header map;
        later calls are ignored, as net/http ignores a superfluous WriteHeader. */
    method WriteHeader(status: int)
      modifies this`sent
      ensures sent == if old(sent).Nil? then Some(SentHeader(status, header)) else old(sent)
    {
      if sent.Nil? {
        sent := Some(SentHeader(status, header));
      }
    }
  }
}
