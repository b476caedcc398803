/** redoc.go: the documentation page options, their defaults, and the handler
    that serves the page. */
module RedocPage {

  import opened Wrappers
  import opened Http

  const DefaultSpecURL: string := "/swagger.json"
  const DefaultRedocURL: string := "https://cdn.jsdelivr.net/npm/redoc@next/bundles/redoc.standalone.js"
  const DefaultTitle: string := "API documentation"

  const HTMLContentType: string := "text/html; charset=utf-8"
  const StatusOK: int := 200

  /** The three fields of RedocOpts, as one value. */
  datatype Settings = Settings(specURL: string, redocURL: string, title: string)

  /** The value ensureDefaults leaves: every empty field replaced by its default,
      every other field kept. */
  function WithDefaults(s: Settings): (d: Settings)
    ensures d.specURL == (if s.specURL == "" then DefaultSpecURL else s.specURL)
    ensures d.redocURL == (if s.redocURL == "" then DefaultRedocURL else s.redocURL)
    ensures d.title == (if s.title == "" then DefaultTitle else s.title)
  {
    Settings(
      if s.specURL == "" then DefaultSpecURL else s.specURL,
      if s.redocURL == "" then DefaultRedocURL else s.redocURL,
      if s.title == "" then DefaultTitle else s.title)
  }

  /** No field is empty once the defaults are in. */
  predicate Complete(s: Settings)
  {
    s.specURL != "" && s.redocURL != "" && s.title != ""
  }

  /** The defaults complete any settings, and settings already complete are
      their own defaults: ensureDefaults is idempotent. */
  lemma WithDefaultsCompletes(s: Settings)
    ensures Complete(WithDefaults(s))
    ensures Complete(s) <==> WithDefaults(s) == s
    ensures WithDefaults(WithDefaults(s)) == WithDefaults(s)
  {
  }

  class RedocOpts {
    var specURL: string
    var redocURL: string
    var title: string

    function Value(): Settings
      reads this
    {
      Settings(specURL, redocURL, title)
    }

    /** RedocOpts{SpecURL: ..., RedocURL: ..., Title: ...}. */
    constructor (specURL: string, redocURL: string, title: string)
      ensures Value() == Settings(specURL, redocURL, title)
    {
      this.specURL := specURL;
      this.redocURL := redocURL;
      this.title := title;
    }

    /** (*RedocOpts).ensureDefaults. */
    method EnsureDefaults()
      modifies this
      ensures Value() == WithDefaults(old(Value()))
    {
      if specURL == "" {
        specURL := DefaultSpecURL;
      }
      if redocURL == "" {
        redocURL := DefaultRedocURL;
      }
      if title == "" {
        title := DefaultTitle;
      }
    }
  }

  /** The redoc handler: the process-wide RedocOptions get their defaults, then
      the response is sent as HTML with status 200. */
  method Redoc(options: RedocOpts, w: ResponseWriter)
    modifies options, w`header, w`sent
    ensures options.Value() == WithDefaults(old(options.Value()))
    ensures w.header == old(w.header)[ContentType := HTMLContentType]
    ensures w.sent == if old(w.sent).Nil? then Some(SentHeader(StatusOK, w.header)) else old(w.sent)
  {
    options.EnsureDefaults();
    w.SetHeader(ContentType, HTMLContentType);
    w.WriteHeader(StatusOK);
  }
}
