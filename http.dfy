/**
 * The parts of Go's net/http the web layer touches: a response writer with a
 * header map, a status written at most once and a body; http.Error and
 * http.Redirect; the request with its route parameters, parsed form and context
 * values; and a downstream handler standing for `next`.
 *
 * Each change to a response is first given as a pure function on ResponseState,
 * and the Response methods are proved to perform exactly that change.
 */
module Http {
  import opened Results

  /**
   * The statuses this model writes: 200 to 599 only. Go's WriteHeader accepts any code
   * from 100 to 999 (1xx ones are sent as informational headers) and panics outside it.
   */
  type StatusCode = c: int | 200 <= c <= 599 witness 200

  const StatusOK: StatusCode := 200
  const StatusSeeOther: StatusCode := 303
  const StatusBadRequest: StatusCode := 400
  const StatusNotFound: StatusCode := 404
  const StatusUnprocessableEntity: StatusCode := 422
  const StatusInternalServerError: StatusCode := 500

  /** http.StatusText for the codes the web layer writes; an unknown code has no text. */
  function StatusText(code: int): string {
    if code == 200 then "OK"
    else if code == 303 then "See Other"
    else if code == 400 then "Bad Request"
    else if code == 401 then "Unauthorized"
    else if code == 403 then "Forbidden"
    else if code == 404 then "Not Found"
    else if code == 405 then "Method Not Allowed"
    else if code == 422 then "Unprocessable Entity"
    else if code == 500 then "Internal Server Error"
    else ""
  }

  /**
   * http.Header: every key holds a list of values. Keys are stored as given; the
   * callers here pass each key in the canonical form Go's Header().Set and Add give it.
   */
  type Header = map<string, seq<string>>

  /** What a response writer holds: headers, the status written (0 while none was), the body. */
  datatype ResponseState = ResponseState(header: Header, status: int, body: string) {
    predicate Committed() {
      status != 0
    }
  }

  /** Header().Set: the key now holds exactly this value. */
  function SetHeader(s: ResponseState, key: string, value: string): ResponseState {
    s.(header := s.header[key := [value]])
  }

  /** Header().Add: the value is appended to those the key already holds. */
  function AddHeader(s: ResponseState, key: string, value: string): ResponseState {
    s.(header := s.header[key := (if key in s.header then s.header[key] else []) + [value]])
  }

  /** WriteHeader: only the first status written counts; later calls are superfluous. */
  function WriteHeaderEffect(s: ResponseState, code: StatusCode): ResponseState {
    if s.Committed() then s else s.(status := code)
  }

  /** Write: a body write without a status first commits 200. */
  function WriteEffect(s: ResponseState, data: string): ResponseState {
    var t := WriteHeaderEffect(s, StatusOK);
    t.(body := t.body + data)
  }

  /** http.Error: plain-text headers, the status, then the text and a newline. */
  function ErrorEffect(s: ResponseState, text: string, code: StatusCode): (t: ResponseState)
    ensures t.status == (if s.Committed() then s.status else code)
    ensures t.body == s.body + text + "\n"
    ensures t.header.Keys == s.header.Keys + {"Content-Type", "X-Content-Type-Options"}
    ensures t.header["Content-Type"] == ["text/plain; charset=utf-8"]
    ensures t.header["X-Content-Type-Options"] == ["nosniff"]
    ensures forall k :: k in s.header && k != "Content-Type" && k != "X-Content-Type-Options" ==> t.header[k] == s.header[k]
  {
    var h := SetHeader(SetHeader(s, "Content-Type", "text/plain; charset=utf-8"), "X-Content-Type-Options", "nosniff");
    WriteEffect(WriteHeaderEffect(h, code), text + "\n")
  }

  /**
   * http.Redirect to an absolute path (path cleaning and escaping leave the paths used
   * here unchanged): Location, then for GET and HEAD without a Content-Type an HTML
   * content type, the status, and for GET a short HTML body linking to the target.
   */
  function RedirectEffect(s: ResponseState, verb: string, url: string, code: StatusCode): (t: ResponseState)
    ensures t.status == (if s.Committed() then s.status else code)
    ensures "Location" in t.header && t.header["Location"] == [url]
    ensures forall k :: k in s.header && k != "Location" && k != "Content-Type" ==> k in t.header && t.header[k] == s.header[k]
    ensures t.header.Keys <= s.header.Keys + {"Location", "Content-Type"}
    ensures verb != "GET" ==> t.body == s.body
  {
    var hadContentType := "Content-Type" in s.header;
    var s1 := SetHeader(s, "Location", url);
    var s2 := if !hadContentType && (verb == "GET" || verb == "HEAD")
              then SetHeader(s1, "Content-Type", "text/html; charset=utf-8") else s1;
    var s3 := WriteHeaderEffect(s2, code);
    if !hadContentType && verb == "GET"
    then WriteEffect(s3, "<a href=\"" + url + "\">" + StatusText(code) + "</a>.\n" + "\n")
    else s3
  }

  /** A response writer (http.ResponseWriter), updated in place by every stage and handler. */
  class Response {
    var header: Header
    var status: int
    var body: string

    function State(): ResponseState
      reads this
    {
      ResponseState(header, status, body)
    }

    constructor ()
      ensures State() == ResponseState(map[], 0, "")
    {
      header, status, body := map[], 0, "";
    }

    method Set(key: string, value: string)
      modifies this
      ensures State() == SetHeader(old(State()), key, value)
    {
      header := header[key := [value]];
    }

    method Add(key: string, value: string)
      modifies this
      ensures State() == AddHeader(old(State()), key, value)
    {
      var existing := if key in header then header[key] else [];
      header := header[key := existing + [value]];
    }

    method WriteHeader(code: StatusCode)
      modifies this
      ensures State() == WriteHeaderEffect(old(State()), code)
    {
      if status == 0 {
        status := code;
      }
    }

    method Write(data: string)
      modifies this
      ensures State() == WriteEffect(old(State()), data)
    {
      WriteHeader(StatusOK);
      body := body + data;
    }
  }

  /** http.Error(w, text, code). */
  method Error(w: Response, text: string, code: StatusCode)
    modifies w
    ensures w.State() == ErrorEffect(old(w.State()), text, code)
  {
    w.Set("Content-Type", "text/plain; charset=utf-8");
    w.Set("X-Content-Type-Options", "nosniff");
    w.WriteHeader(code);
    w.Write(text + "\n");
  }

  /** http.Redirect(w, r, url, code). */
  method Redirect(w: Response, r: Request, url: string, code: StatusCode)
    modifies w
    ensures w.State() == RedirectEffect(old(w.State()), r.verb, url, code)
  {
    var hadContentType := "Content-Type" in w.header;
    w.Set("Location", url);
    if !hadContentType && (r.verb == "GET" || r.verb == "HEAD") {
      w.Set("Content-Type", "text/html; charset=utf-8");
    }
    w.WriteHeader(code);
    if !hadContentType && r.verb == "GET" {
      w.Write("<a href=\"" + url + "\">" + StatusText(code) + "</a>.\n" + "\n");
    }
  }

  /** url.Values: every form key holds a list of submitted values. */
  type Values = map<string, seq<string>>

  /** url.Values.Get: the first value for the key, or "" when there is none. */
  function FormValue(v: Values, key: string): string {
    if key in v && |v[key]| > 0 then v[key][0] else ""
  }

  /** Keys of request-context values; the web layer uses only the authentication flag. */
  datatype ContextKey = IsAuthenticatedContextKey | OtherContextKey(name: string)

  /** A value stored in a request context; Go stores it as an untyped interface. */
  datatype ContextValue = BoolValue(b: bool) | StringValue(s: string) | IntValue(i: int)

  /**
   * An inbound request: what logRequest prints, the route parameters the router
   * attached, the outcome of ParseForm on the body, and the context values.
   */
  datatype Request = Request(
    remoteAddr: string,
    proto: string,
    verb: string,
    requestURI: string,
    params: map<string, string>,
    postForm: Result<Values, string>,
    context: map<ContextKey, ContextValue>)

  /** httprouter.Params.ByName: the parameter's value, or "" when the route has none. */
  function ParamByName(r: Request, name: string): string {
    if name in r.params then r.params[name] else ""
  }

  /** r.WithContext(context.WithValue(r.Context(), key, value)): the same request with one more value. */
  function WithValue(r: Request, key: ContextKey, value: ContextValue): Request {
    r.(context := r.context[key := value])
  }

  /** How a handler's ServeHTTP ends: it returns, or it panics with a value. */
  datatype Completion = Returned | Panicked(value: string)

  /**
   * The handler a middleware stage wraps. It keeps a log of the requests it was
   * called with (its length is the call counter), may write a status, and ends as
   * `reply` says. It does not touch headers or body.
   */
  class Next {
    var received: seq<Request>
    const writes: Option<StatusCode>
    const reply: Completion

    constructor (writes: Option<StatusCode>, reply: Completion)
      ensures received == [] && this.writes == writes && this.reply == reply
    {
      received := [];
      this.writes := writes;
      this.reply := reply;
    }

    /** What one call does to the response. */
    function Effect(s: ResponseState): ResponseState {
      if writes.Some? then WriteHeaderEffect(s, writes.value) else s
    }

    method ServeHTTP(w: Response, r: Request) returns (c: Completion)
      modifies this, w
      ensures received == old(received) + [r]
      ensures w.State() == Effect(old(w.State()))
      ensures c == reply
    {
      if writes.Some? {
        w.WriteHeader(writes.value);
      }
      received := received + [r];
      c := reply;
    }
  }
}
