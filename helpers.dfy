/**
 * The helpers of the web layer: error responses, page rendering through the
 * template cache, template data for a request, form decoding and the
 * authentication flag.
 */
module Helpers {
  import opened Results
  import opened Http
  import opened Models
  import opened Sessions
  import opened App

  /** serverError: log the error, answer 500 with its generic text. */
  method ServerError(app: Application, w: Response, err: string)
    modifies w, app.errorLog
    ensures w.State() == ErrorEffect(old(w.State()), StatusText(StatusInternalServerError), StatusInternalServerError)
    ensures app.errorLog.lines == old(app.errorLog.lines) + [err]
  {
    app.errorLog.Output(err);
    Error(w, StatusText(StatusInternalServerError), StatusInternalServerError);
  }

  /** clientError: answer with the given status and its text. */
  method ClientError(w: Response, status: StatusCode)
    modifies w
    ensures w.State() == ErrorEffect(old(w.State()), StatusText(status), status)
  {
    Error(w, StatusText(status), status);
  }

  /** notFound: clientError with 404. */
  method NotFound(w: Response)
    modifies w
    ensures w.State() == ErrorEffect(old(w.State()), "Not Found", StatusNotFound)
  {
    ClientError(w, StatusNotFound);
  }

  /** The page render would send (the executed "base" template), or the error it would log. */
  function RenderPage(cache: map<string, Template>, page: string, data: TemplateData): Result<string, string> {
    if page !in cache then Failure("the template " + page + " does not exist")
    else cache[page].execute(data)
  }

  /**
   * The response after render: on success the requested status (unless one was
   * already written, which WriteHeader keeps) and then the page, with no header
   * changed; on failure a 500 and none of the page.
   */
  function RenderedState(s: ResponseState, page: Result<string, string>, status: StatusCode): (t: ResponseState)
    ensures page.Success? ==> t.header == s.header && t.body == s.body + page.value
    ensures page.Success? ==> t.status == if s.Committed() then s.status else status
    ensures page.Failure? ==> t == ErrorEffect(s, StatusText(StatusInternalServerError), StatusInternalServerError)
  {
    match page
    case Success(bytes) => WriteEffect(WriteHeaderEffect(s, status), bytes)
    case Failure(_) => ErrorEffect(s, StatusText(StatusInternalServerError), StatusInternalServerError)
  }

  /** What render writes to the error log. */
  function RenderLog(page: Result<string, string>): seq<string> {
    if page.Failure? then [page.error] else []
  }

  /**
   * render: look the page up in the cache, execute it into a buffer, and only when
   * that succeeded write the status and then the buffer.
   */
  method Render(app: Application, w: Response, status: StatusCode, page: string, data: TemplateData)
    modifies w, app.errorLog
    ensures w.State() == RenderedState(old(w.State()), RenderPage(app.templateCache, page, data), status)
    ensures app.errorLog.lines == old(app.errorLog.lines) + RenderLog(RenderPage(app.templateCache, page, data))
  {
    if page !in app.templateCache {
      ServerError(app, w, "the template " + page + " does not exist");
      return;
    }
    var buf := app.templateCache[page].execute(data);
    if buf.Failure? {
      ServerError(app, w, buf.error);
      return;
    }
    w.WriteHeader(status);
    w.Write(buf.value);
  }

  /** The template data of a request whose session held `values` before the flash was popped. */
  function BaseTemplateData(currentYear: int, values: map<string, SessionValue>, r: Request): TemplateData {
    TemplateData(currentYear, None, [], None, None, StringOf(values, FlashKey), IsAuthenticated(r))
  }

  /** newTemplateData: pop the flash message from the session and copy the authentication flag. */
  method NewTemplateData(app: Application, r: Request) returns (d: TemplateData)
    modifies app.session
    ensures d == BaseTemplateData(app.currentYear, old(app.session.values), r)
    ensures app.session.values == old(app.session.values) - {FlashKey}
    ensures app.session.modified == (old(app.session.modified) || FlashKey in old(app.session.values))
  {
    var flash := app.session.PopString(FlashKey);
    d := TemplateData(app.currentYear, None, [], None, None, flash, IsAuthenticated(r));
  }

  /** The errors the form decoder reports; InvalidDecoderError means the target itself is unusable. */
  datatype DecodeError = InvalidDecoderError(message: string) | DecodeErrors(fields: map<string, string>) | OtherDecodeError(message: string)

  /** The error decodePostForm returns: the one from ParseForm or the one from the decoder. */
  datatype FormError = ParseError(message: string) | BindError(cause: DecodeError)

  datatype DecodeOutcome = Decoded | ReturnsError(err: FormError) | Panics(cause: DecodeError)

  /**
   * decodePostForm: a ParseForm error is returned as it is and the decoder is never
   * run; an invalid decode target panics and is never returned; any other decode
   * error is returned; otherwise there is no error.
   */
  function DecodePostForm(r: Request, decode: Values -> Option<DecodeError>): (o: DecodeOutcome)
    ensures r.postForm.Failure? ==> o == ReturnsError(ParseError(r.postForm.error))
    ensures o.Decoded? <==> r.postForm.Success? && decode(r.postForm.value).None?
    ensures o.Panics? <==> r.postForm.Success? && decode(r.postForm.value).Some? && decode(r.postForm.value).value.InvalidDecoderError?
    ensures o.ReturnsError? && o.err.BindError? ==> !o.err.cause.InvalidDecoderError? && Some(o.err.cause) == decode(r.postForm.value)
    ensures r.postForm.Success? && decode(r.postForm.value).Some? ==>
      var err := decode(r.postForm.value).value;
      o == if err.InvalidDecoderError? then Panics(err) else ReturnsError(BindError(err))
  {
    match r.postForm
    case Failure(e) => ReturnsError(ParseError(e))
    case Success(values) =>
      match decode(values)
      case None => Decoded
      case Some(err) => if err.InvalidDecoderError? then Panics(err) else ReturnsError(BindError(err))
  }

  /** isAuthenticated: the stored flag when the context holds a bool under the key, false otherwise. */
  function IsAuthenticated(r: Request): (b: bool)
    ensures b <==> IsAuthenticatedContextKey in r.context && r.context[IsAuthenticatedContextKey] == BoolValue(true)
  {
    if IsAuthenticatedContextKey in r.context then
      match r.context[IsAuthenticatedContextKey]
      case BoolValue(flag) => flag
      case _ => false
    else false
  }
}
