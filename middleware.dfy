/**
 * The middleware stages. Each wraps a downstream handler `next`, may change the
 * response before calling it, calls it at most once, and returns how it ended.
 * A downstream panic is the Completion value Panicked; every stage but
 * recoverPanic lets it through unchanged.
 */
module Middleware {
  import opened Results
  import opened Strconv
  import opened Http
  import opened Models
  import opened Sessions
  import opened App
  import opened Helpers

  const ContentSecurityPolicy: string := "default-src 'self'; style-src 'self' fonts.googleapis.com; font-src fonts.gstatic.com"

  /**
   * The five headers secureHeaders sets, as Header().Set stores them: Go puts every key
   * in canonical form (first letter and each letter after a '-' upper case, the rest
   * lower case), so the X-XSS-Protection header is kept under "X-Xss-Protection".
   */
  const SecurityHeaderNames: set<string> :=
    {"Content-Security-Policy", "Referrer-Policy", "X-Content-Type-Options", "X-Frame-Options", "X-Xss-Protection"}

  /** The header map after secureHeaders: the five headers hold exactly their fixed values, every other header is untouched. */
  function SecurityHeaders(h: Header): (r: Header)
    ensures r.Keys == h.Keys + SecurityHeaderNames
    ensures r["Content-Security-Policy"] == [ContentSecurityPolicy]
    ensures r["Referrer-Policy"] == ["origin-when-cross-origin"]
    ensures r["X-Content-Type-Options"] == ["nosniff"]
    ensures r["X-Frame-Options"] == ["deny"]
    ensures r["X-Xss-Protection"] == ["0"]
    ensures forall k :: k in h && k !in SecurityHeaderNames ==> r[k] == h[k]
  {
    h["Content-Security-Policy" := [ContentSecurityPolicy]]
     ["Referrer-Policy" := ["origin-when-cross-origin"]]
     ["X-Content-Type-Options" := ["nosniff"]]
     ["X-Frame-Options" := ["deny"]]
     ["X-Xss-Protection" := ["0"]]
  }

  /** secureHeaders: set the five security headers, then call next once with the same request. */
  method SecureHeaders(w: Response, r: Request, next: Next) returns (c: Completion)
    modifies w, next
    ensures next.received == old(next.received) + [r]
    ensures w.State() == next.Effect(old(w.State()).(header := SecurityHeaders(old(w.header))))
    ensures c == next.reply
  {
    w.Set("Content-Security-Policy", ContentSecurityPolicy);
    w.Set("Referrer-Policy", "origin-when-cross-origin");
    w.Set("X-Content-Type-Options", "nosniff");
    w.Set("X-Frame-Options", "deny");
    w.Set("X-Xss-Protection", "0");
    c := next.ServeHTTP(w, r);
  }

  /** The line logRequest writes: remote address, protocol, method and URI. */
  function RequestLine(r: Request): string {
    r.remoteAddr + " - " + r.proto + " " + r.verb + " " + r.requestURI
  }

  /** logRequest: log one line about the request, then call next once; the response is left to next. */
  method LogRequest(app: Application, w: Response, r: Request, next: Next) returns (c: Completion)
    modifies app.infoLog, w, next
    ensures app.infoLog.lines == old(app.infoLog.lines) + [RequestLine(r)]
    ensures next.received == old(next.received) + [r]
    ensures w.State() == next.Effect(old(w.State()))
    ensures c == next.reply
  {
    app.infoLog.Output(RequestLine(r));
    c := next.ServeHTTP(w, r);
  }

  /**
   * recoverPanic: call next once; when it panics, mark the connection for closing and
   * answer with a server error carrying the panic value. It never panics itself.
   */
  method RecoverPanic(app: Application, w: Response, r: Request, next: Next) returns (c: Completion)
    modifies app.errorLog, w, next
    ensures next.received == old(next.received) + [r]
    ensures c == Returned
    ensures next.reply == Returned ==>
      && w.State() == next.Effect(old(w.State()))
      && app.errorLog.lines == old(app.errorLog.lines)
    ensures next.reply.Panicked? ==>
      var closed := SetHeader(next.Effect(old(w.State())), "Connection", "close");
      && w.State() == ErrorEffect(closed, StatusText(StatusInternalServerError), StatusInternalServerError)
      && w.header["Connection"] == ["close"]
      && (!next.Effect(old(w.State())).Committed() ==> w.status == StatusInternalServerError)
      && app.errorLog.lines == old(app.errorLog.lines) + [next.reply.value]
  {
    c := next.ServeHTTP(w, r);
    if c.Panicked? {
      w.Set("Connection", "close");
      ServerError(app, w, c.value);
      c := Returned;
    }
  }

  /** The page an unauthenticated request is sent to. */
  const LoginPath: string := "/user/login"

  /**
   * requireAuthentication: an unauthenticated request is redirected with 303 to the
   * login page and next is never called; an authenticated one gets
   * "Cache-Control: no-store" added and is passed to next once.
   */
  method RequireAuthentication(w: Response, r: Request, next: Next) returns (c: Completion)
    modifies w, next
    ensures !IsAuthenticated(r) ==>
      && next.received == old(next.received)
      && w.State() == RedirectEffect(old(w.State()), r.verb, LoginPath, StatusSeeOther)
      && c == Returned
    ensures IsAuthenticated(r) ==>
      && next.received == old(next.received) + [r]
      && w.State() == next.Effect(AddHeader(old(w.State()), "Cache-Control", "no-store"))
      && c == next.reply
  {
    if !IsAuthenticated(r) {
      Redirect(w, r, LoginPath, StatusSeeOther);
      return Returned;
    }
    w.Add("Cache-Control", "no-store");
    c := next.ServeHTTP(w, r);
  }

  /** The session key holding the id of the logged-in user. */
  const AuthenticatedUserIdKey: string := "authenticatedUserID"

  /** Where authenticate goes: on to next with this request, or a server error with this message. */
  datatype AuthStep = PassOn(request: Request) | Fault(message: string)

  /**
   * The decision authenticate takes for a session id: 0 passes the request on as it
   * is without asking the user store; otherwise the store's error is a fault, a user
   * that still exists marks the request as authenticated, and one that does not
   * passes it on as it is.
   */
  function AuthenticateStep(r: Request, id: Int, lookup: Int -> Result<bool, DbError>): AuthStep {
    if id == 0 then PassOn(r)
    else match lookup(id)
      case Failure(e) => Fault(ErrorText(e))
      case Success(found) => if found then PassOn(WithValue(r, IsAuthenticatedContextKey, BoolValue(true))) else PassOn(r)
  }

  /** authenticate: resolve the session's user id through Exists and stamp the request. */
  method Authenticate(app: Application, w: Response, r: Request, next: Next) returns (c: Completion)
    modifies app.users, app.errorLog, w, next
    ensures var id := IntOf(app.session.values, AuthenticatedUserIdKey);
      app.users.existsCalls == old(app.users.existsCalls) + (if id == 0 then [] else [id])
    ensures match AuthenticateStep(r, IntOf(app.session.values, AuthenticatedUserIdKey), app.users.existsReply)
      case PassOn(passed) =>
        && next.received == old(next.received) + [passed]
        && w.State() == next.Effect(old(w.State()))
        && app.errorLog.lines == old(app.errorLog.lines)
        && c == next.reply
      case Fault(message) =>
        && next.received == old(next.received)
        && w.State() == ErrorEffect(old(w.State()), StatusText(StatusInternalServerError), StatusInternalServerError)
        && app.errorLog.lines == old(app.errorLog.lines) + [message]
        && c == Returned
  {
    var id := app.session.GetInt(AuthenticatedUserIdKey);
    if id == 0 {
      c := next.ServeHTTP(w, r);
      return;
    }
    var reply := app.users.Exists(id);
    if reply.Failure? {
      ServerError(app, w, ErrorText(reply.error));
      return Returned;
    }
    var passed := r;
    if reply.value {
      passed := WithValue(r, IsAuthenticatedContextKey, BoolValue(true));
    }
    c := next.ServeHTTP(w, passed);
  }

  /**
   * What downstream code sees after authenticate: the request is authenticated when
   * the session names a user that Exists confirms, and otherwise exactly when it
   * already was; a store error never reaches downstream code.
   */
  lemma AuthenticatedAfterStep(r: Request, id: Int, lookup: Int -> Result<bool, DbError>)
    ensures AuthenticateStep(r, id, lookup).Fault? <==> id != 0 && lookup(id).Failure?
    ensures AuthenticateStep(r, id, lookup).PassOn? ==>
      IsAuthenticated(AuthenticateStep(r, id, lookup).request) ==
        ((id != 0 && lookup(id) == Success(true)) || IsAuthenticated(r))
    ensures AuthenticateStep(r, id, lookup).PassOn? ==>
      AuthenticateStep(r, id, lookup).request.context.Keys <= r.context.Keys + {IsAuthenticatedContextKey}
  {
  }

  /**
   * A session id of 0 never consults the user store: the step is the same whatever
   * Exists would answer.
   */
  lemma AnonymousIgnoresUserStore(r: Request, lookup1: Int -> Result<bool, DbError>, lookup2: Int -> Result<bool, DbError>)
    ensures AuthenticateStep(r, 0, lookup1) == AuthenticateStep(r, 0, lookup2) == PassOn(r)
  {
  }

  /**
   * A hypothetical ordering (the repository's routes compose no stages):
   * authenticate in front of requireAuthentication. A request carrying no earlier
   * flag reaches the guarded handler only when the session names a user that Exists
   * confirms; with Exists as the repository writes it, never.
   */
  lemma GuardAfterAuthenticate(r: Request, id: Int, lookup: Int -> Result<bool, DbError>)
    requires !IsAuthenticated(r)
    ensures AuthenticateStep(r, id, lookup).PassOn? ==>
      (IsAuthenticated(AuthenticateStep(r, id, lookup).request) <==> id != 0 && lookup(id) == Success(true))
    ensures AuthenticateStep(r, id, ExistsAsWritten).PassOn?
    ensures !IsAuthenticated(AuthenticateStep(r, id, ExistsAsWritten).request)
  {
    AuthenticatedAfterStep(r, id, lookup);
    AuthenticatedAfterStep(r, id, ExistsAsWritten);
  }
}
