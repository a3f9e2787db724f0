/**
 * The small part of net/http that the proxy's handlers touch: header maps,
 * the response a handler writes, and the inbound request.
 */
module Http {
  import opened Wrappers

  /** http.Header after key canonicalisation: every key maps to its values in order. */
  type Header = map<string, seq<string>>

  function Values(h: Header, key: string): seq<string> {
    if key in h then h[key] else []
  }

  /** Header.Get: the first value stored under the key, or "" when there is none. */
  function HeaderGet(h: Header, key: string): string {
    if |Values(h, key)| > 0 then Values(h, key)[0] else ""
  }

  /** Header.Add appends a value; Header.Set replaces all values by one. */
  function HeaderAdd(h: Header, key: string, value: string): Header {
    h[key := Values(h, key) + [value]]
  }

  function HeaderSet(h: Header, key: string, value: string): Header {
    h[key := [value]]
  }

  /**
   * What a handler has written so far. `status` is 0 until WriteHeader runs;
   * the status a client then receives is `Code()`.
   */
  datatype Response = Response(header: Header, status: nat, body: string) {

    function Code(): nat {
      if status == 0 then 200 else status
    }

    function AddHeader(key: string, value: string): Response {
      this.(header := HeaderAdd(header, key, value))
    }

    function SetHeader(key: string, value: string): Response {
      this.(header := HeaderSet(header, key, value))
    }

    /** Only the first WriteHeader takes effect. */
    function WriteHeader(code: nat): Response {
      if status == 0 then this.(status := code) else this
    }

    /** Write sends an implicit 200 when no status was written before. */
    function Write(data: string): Response {
      this.WriteHeader(200).(body := body + data)
    }
  }

  const Unwritten := Response(map[], 0, "")

  /** The http.ResponseWriter a handler receives. */
  class ResponseWriter {
    var header: Header
    var status: nat
    var body: string

    function State(): Response
      reads this
    {
      Response(header, status, body)
    }

    constructor ()
      ensures State() == Unwritten
    {
      header, status, body := map[], 0, "";
    }

    method AddHeader(key: string, value: string)
      modifies this
      ensures State() == old(State()).AddHeader(key, value)
    {
      header := HeaderAdd(header, key, value);
    }

    method SetHeader(key: string, value: string)
      modifies this
      ensures State() == old(State()).SetHeader(key, value)
    {
      header := HeaderSet(header, key, value);
    }

    method WriteHeader(code: nat)
      modifies this
      ensures State() == old(State()).WriteHeader(code)
    {
      if status == 0 {
        status := code;
      }
    }

    method Write(data: string)
      modifies this
      ensures State() == old(State()).Write(data)
    {
      if status == 0 {
        status := 200;
      }
      body := body + data;
    }
  }

  /** A parsed URL (url.URL), reduced to the parts the proxy reads or rewrites. */
  datatype URL = URL(scheme: string, host: string, path: string, rawQuery: string)

  /** url.Parse: the parsed URL, or the parser's error message. */
  type UrlParser = string -> Result<URL, string>

  /**
   * An inbound request: its URL path, its headers (which a handler may
   * rewrite before forwarding) and the user name and password that
   * Request.BasicAuth decodes from a Basic Authorization header, if any.
   */
  class Request {
    const path: string
    var header: Header
    const basicAuth: Option<(string, string)>

    constructor (path: string, header: Header, basicAuth: Option<(string, string)>)
      ensures this.path == path && this.header == header && this.basicAuth == basicAuth
    {
      this.path := path;
      this.header := header;
      this.basicAuth := basicAuth;
    }
  }
}
