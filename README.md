# Snippetbox web layer in Dafny

This project models the decision logic of the web layer of a small snippet-sharing
application written in Go. It covers three parts of `cmd/web`:

- **The snippet handlers.** The form behind `snippetCreatePost` is checked field by field. The
  handler then answers 400, 422 or 500, or inserts the snippet and redirects with 303.
  `snippetView` turns the path id into 404, 500 or 200. `snippetCreate` shows the
  default form.
- **The middleware stages.** These are `secureHeaders`, `logRequest`, `recoverPanic`,
  `requireAuthentication` and `authenticate`.
- **The helpers.** These are `serverError`, `clientError`, `notFound`, `render`,
  `newTemplateData`, `decodePostForm` and `isAuthenticated`.

The response writer is a `Response` object whose methods change its header map,
its status and its body in place. Go writes a status only once: a later
`WriteHeader` changes nothing, and a body write with no status first commits 200.
Every change is also a pure function on `ResponseState` (`SetHeader`,
`WriteHeaderEffect`, `ErrorEffect` for `http.Error`, `RedirectEffect` for
`http.Redirect`). Each method is proved to make exactly that change.

The handler a stage wraps is a `Next` object. Every request it is called with goes
into a log, so the log's length counts the calls. It may write a status, and it ends
the way its `reply` says: `Returned`, or `Panicked(value)` for a Go panic.

The database models (`SnippetModel.Insert`, `SnippetModel.Get`, `UserModel.Exists`),
the template cache and the clock stay outside the model. Each is an oracle fixed
when the `Application` is built: a reply function, a map of templates whose
execution yields a page or an error, and a year. The models also log the calls
they receive, so contracts can say "Insert is called exactly once" or "Get is never
called". The session is the data loaded for the request being served, with the
`GetInt`, `PopString` and `Put` accessors of the session library.

Each handler's outcome is first chosen by a pure function (`DecideCreatePost`,
`DecideView`, `AuthenticateStep`), and lemmas prove its properties. The
imperative method's postcondition then says that the method carries out that
decision, naming every part of the state it changes.

Some of the code's behaviour is easy to misread, and the model follows the code:

- One might expect the first failing title rule to keep its message. In
  `cmd/web/handlers.go:120-125` the "cannot be blank" check runs after the length check
  and overwrites it. The model keeps the last message (`Handlers.TitleError`, `Handlers.LongTitles`).
- An unauthenticated request never gets a 401. `requireAuthentication` always redirects with 303
  (`cmd/web/middleware.go:53`).
- `cmd/web/routes.go` registers `/snippet/view` on a plain `ServeMux`, but `snippetView` reads the
  id from router parameters. Wired like that, the request has no `id` parameter, so
  every view is a 404 (`Handlers.ViewWithoutIdParam`). `snippetCreatePost` is not registered on any route.
- Go's `int` is 64 bits wide here. `strconv.Atoi` fails with a range error outside
  that range (`Strconv.Int`, `Strconv.Atoi`). It reads the digits left to right, so digits
  that pass 2^64 - 1 give a range error even when a bad character follows them
  (`Strconv.AtoiOverflowFirst`).
- `UserModel.Exists` always answers `(false, nil)` in `internal/models/users.go:92-94`. With it, no request is ever
  marked authenticated (`Middleware.GuardAfterAuthenticate`). The model still treats
  `Exists` as a general oracle.

No route in the repository composes the stages. `Middleware.GuardAfterAuthenticate`
proves one possible ordering, `authenticate` in front of `requireAuthentication`.
That ordering is a hypothesis, not something the repository sets up.

## Model

| member | source | states |
|---|---|---|
| `GoStrings.TrimLeft` | cmd/web/handlers.go:123 | The result is a suffix of the input, everything dropped in front of it is white space, and it is empty or starts with a non-space. So it is the input with exactly its leading white space removed. |
| `GoStrings.TrimRight` | cmd/web/handlers.go:123 | The result is a prefix of the input, everything dropped after it is white space, and it is empty or ends with a non-space. So it is the input with exactly its trailing white space removed. |
| `GoStrings.TrimLeftEmptyIffAllSpace` | cmd/web/handlers.go:123 | Trimming leading space leaves nothing exactly when every code point is white space. |
| `GoStrings.TrimRightEmptyIffAllSpace` | cmd/web/handlers.go:123 | Trimming trailing space leaves nothing exactly when every code point is white space. |
| `GoStrings.TrimSpaceEmptyIffAllSpace` | cmd/web/handlers.go:123-128 | `strings.TrimSpace(s) == ""` holds exactly when every code point of `s` is Unicode white space. |
| `GoStrings.IsBlank` | cmd/web/handlers.go:123-128 | The handler's blank test is true exactly for strings made only of white space. |
| `GoStrings.Utf8Len` | cmd/web/handlers.go:117-120 | One code point takes 1 to 4 bytes, and 1 byte exactly when it is ASCII. |
| `GoStrings.ByteLen` | cmd/web/handlers.go:117-120 | The byte length of a string is never less than its rune count and never more than four times it. |
| `GoStrings.ByteLenRepeat` | cmd/web/handlers.go:117-120 | n copies of one code point take n times its UTF-8 length in bytes. |
| `Strconv.NatDigits` | cmd/web/handlers.go:151 | `%d` of a natural number is a non-empty run of decimal digits. |
| `Strconv.NatDigitsValue` | cmd/web/handlers.go:151 | The digits `%d` prints have the printed number as their value. |
| `Strconv.AtoiItoa` | cmd/web/handlers.go:41 | `strconv.Atoi` gives back every 64-bit int that `%d` printed. |
| `Strconv.AtoiRejectsNonDigit` | cmd/web/handlers.go:102-106 | Text holding a character that is neither a digit nor a leading sign never parses. When the text is at most 20 characters long, the error is a syntax error. |
| `Strconv.AtoiOverflowFirst` | cmd/web/handlers.go:102-106 | Once the digits read left to right pass 2^64 - 1, the error is a range error whatever follows, a bad character included. |
| `Strconv.AtoiAfterSign` | cmd/web/handlers.go:41 | An optional sign is dropped and only the negative sign counts. The rest is parsed as digits. |
| `Strconv.ParseOfDigits` | cmd/web/handlers.go:41 | Nothing but digits, worth at most 2^64 - 1, gives their signed value when it fits a 64-bit int and a range error when it does not. |
| `Http.ErrorEffect` | cmd/web/helpers.go:27 | `http.Error` sets Content-Type to plain text and X-Content-Type-Options to nosniff, leaves the other headers alone, writes the code unless a status was already written, and appends the text and a newline. |
| `Http.RedirectEffect` | cmd/web/handlers.go:151 | `http.Redirect` sets Location to the target, writes the code unless a status was already written, and changes no header except Location and Content-Type. Only a GET gets a body. |
| `Http.Error` | cmd/web/helpers.go:21 | Performs the `ErrorEffect` change on the response writer. |
| `Http.Redirect` | cmd/web/middleware.go:53 | Performs the `RedirectEffect` change on the response writer. |
| `Sessions.Session.PopString` | cmd/web/helpers.go:71 | Returns the string stored under the key ("" when the key is absent or not a string), removes the key whatever it held, and marks the session modified when the key existed. |
| `Sessions.FlashReadOnce` | cmd/web/helpers.go:71 | A flash message that was put is read once; a second pop yields "". The key is gone, nothing else in the session changes, and it is marked modified. |
| `Helpers.ServerError` | cmd/web/helpers.go:16-22 | Appends the error to the error log and answers 500 "Internal Server Error" through `http.Error`. |
| `Helpers.ClientError` | cmd/web/helpers.go:26-28 | Answers with the given status and its status text through `http.Error`. |
| `Helpers.NotFound` | cmd/web/helpers.go:31-33 | Answers 404 "Not Found", the same as `clientError(404)`. |
| `Helpers.RenderedState` | cmd/web/helpers.go:39-63 | When the page renders, no header changes and the body gains exactly the page. The status is the requested one, unless a status was already written, which is kept. When it fails, the response is exactly a 500 error with none of the page. |
| `Helpers.Render` | cmd/web/helpers.go:36-65 | A template missing from the cache, or one that fails to execute, gives a 500 and logs the error. The requested status is never written. Otherwise the status is written, then the buffered page. |
| `Helpers.NewTemplateData` | cmd/web/helpers.go:68-75 | The template data carries the year, the flash message popped from the session and the request's authentication flag. The flash key is removed from the session. |
| `Helpers.DecodePostForm` | cmd/web/helpers.go:78-96 | A ParseForm error is returned unchanged and the decoder never runs. An invalid-target error panics with that very error and is never returned. Any other decode error is returned as it is. Success returns no error. |
| `Helpers.IsAuthenticated` | cmd/web/helpers.go:99-105 | True exactly when the context holds the bool true under the key. An absent key, a non-bool value or false all give false. |
| `Handlers.FieldErrorsContents` | cmd/web/handlers.go:116-132 | The keys are a subset of title, content and expires. Title has an entry iff it is blank or over 100 runes, and blank wins. Content has an entry iff it is blank. Expires has an entry iff it is not 1, 7 or 365. The map is empty iff every rule passes. |
| `Handlers.MultiByteTitleAccepted` | cmd/web/handlers.go:116-122 | A title of 100 two-byte characters is 200 bytes long, yet it has 100 runes and no title error. |
| `Handlers.LongTitles` | cmd/web/handlers.go:120-125 | A 101-character ASCII title gets the "too long" message. 101 spaces get "cannot be blank" instead, because the later check overwrites. |
| `Handlers.TitleChecksInOrder` | cmd/web/handlers.go:120-125 | The length check and then the blank check, run on an empty map, leave exactly the title entry that the title rules call for. |
| `Handlers.ContentCheck` | cmd/web/handlers.go:126-128 | The content check adds exactly the content entry to the errors found so far. |
| `Handlers.ExpiresCheck` | cmd/web/handlers.go:130-132 | The expiry check adds exactly the expires entry to the errors found so far. |
| `Handlers.NewSnippetCreateForm` | cmd/web/handlers.go:108-132 | Running the four checks in order on an empty map gives the submitted values with exactly the field errors the rules call for. |
| `Handlers.CreatePostDecisions` | cmd/web/handlers.go:94-140 | A body that does not parse, or an expires value that is not an integer, gives 400 and no form. Otherwise the snippet is inserted iff every rule passes. A re-rendered form carries the submitted values and a non-empty error map. |
| `Handlers.SnippetCreatePost` | cmd/web/handlers.go:89-152 | On 400 nothing else changes. On 422 (the create page with the form, flash popped and the session marked modified when it held one), Insert is never called. With no field errors, Insert gets exactly one call with the form's values, then a 303 to `/snippet/view/{id}`, or a 500 when Insert fails. |
| `Handlers.RerenderOrInsert` | cmd/web/handlers.go:134-151 | With field errors: the create page at 422 with the form, the flash popped and the session marked modified when it held one, and no insert. Without: exactly one insert with the form's values, then a 303 to `/snippet/view/{id}`, or a logged 500 when the insert fails. |
| `Handlers.ViewDecisions` | cmd/web/handlers.go:41-59 | A non-numeric id or one below 1 is a 404 whatever the store holds. For a valid id, ErrNoRecord is a 404, any other error a 500, and a found row is rendered. |
| `Handlers.RedirectTargetNamesId` | cmd/web/handlers.go:151 | For every positive id, the path after a successful insert names that same id. Assuming a router that binds the segment after `/snippet/view/` to `id` (the repository's routes do not), viewing it asks the store for that id. |
| `Handlers.ViewWithoutIdParam` | cmd/web/handlers.go:38-47 | A request with no id route parameter is a 404. |
| `Handlers.SnippetView` | cmd/web/handlers.go:36-67 | Get is called once with the id when the id is valid and never otherwise, and Insert is never called. The result is 404, 500 with the logged error, or the view page at 200 with the snippet and the popped flash, the session marked modified when it held one. |
| `Handlers.DefaultFormSubmittedAsIs` | cmd/web/handlers.go:73-75 | The default form has the permitted expiry 365 and no errors. Submitted unchanged, it would get exactly the two "cannot be blank" errors, for title and content. |
| `Handlers.SnippetCreate` | cmd/web/handlers.go:69-77 | Renders the create page at 200 with empty fields, expiry 365 (a permitted value) and no errors, and pops the flash, marking the session modified when it held one. |
| `Middleware.SecurityHeaders` | cmd/web/middleware.go:12-17 | The five security headers hold exactly their fixed values, under the canonical keys Go stores them by (`X-Xss-Protection`). Every other header is unchanged and no other header is added. |
| `Middleware.SecureHeaders` | cmd/web/middleware.go:10-21 | Sets the five headers, then calls next exactly once with the same request and passes on how it ended. |
| `Middleware.LogRequest` | cmd/web/middleware.go:24-30 | Logs one line (remote address, protocol, method, URI), leaves the response to next, and calls next exactly once. |
| `Middleware.RecoverPanic` | cmd/web/middleware.go:34-46 | Calls next once and never panics. If next returns, nothing is added. If next panics, Connection is set to close, a 500 is written unless a status was already out, and the panic value is logged. |
| `Middleware.RequireAuthentication` | cmd/web/middleware.go:50-64 | An unauthenticated request gets a 303 to `/user/login`, and next is never called. An authenticated one gets `Cache-Control: no-store` added, then next is called once. |
| `Middleware.Authenticate` | cmd/web/middleware.go:66-92 | Exists is asked only when the session id is not 0. An Exists error gives 500, and next is not called. Otherwise next is called once, with the request marked authenticated iff the user exists. |
| `Middleware.AuthenticatedAfterStep` | cmd/web/middleware.go:69-90 | Only a store error for a non-zero id is a fault. The request passed on is authenticated iff the session names a user Exists confirms, or it already was. Only the authentication key is added to its context. |
| `Middleware.AnonymousIgnoresUserStore` | cmd/web/middleware.go:69-73 | With session id 0 the request passes on unchanged, whatever Exists would answer. |
| `Middleware.GuardAfterAuthenticate` | cmd/web/middleware.go:52-90 | Hypothetical ordering: a request with no earlier flag gets past the guard only when Exists confirms the session's user. With the `Exists` stub as the repository has it, no request gets past. |

## Left out

- `home`, `SnippetModel.Latest`, `UserModel.Insert` and `UserModel.Authenticate` (`internal/models/users.go:29-89`): they sit outside the modelled core.
- `cmd/web/main.go`, `cmd/web/routes.go` and `cmd/web/templates.go`: these are flag parsing, database and TLS setup, route registration and template parsing. Templates are an oracle from page data to page text or an error.
- The declaration of the context key (`isAuthenticatedContextKey`) is not among the modelled files. The model uses a dedicated key constructor instead.
- The SQL and bcrypt code of `internal/models`: Insert, Get and Exists are oracles with a call log. Their reply for given arguments is fixed for the lifetime of the `Application`.
- Session loading, saving, expiry and tokens, which live in the session library: the session is the data of the request being served.
- The stack trace `serverError` appends to the log, and the log's date prefixes: the log line is the error text alone.
- Go's `panic`/`recover` mechanism and concurrent requests: a downstream panic is the value `Panicked` that a handler returns.
- Next: the downstream handler may write a status but touches neither headers nor body, so the stage contracts say nothing about a handler that does.
- Response: changes to the header map made after the status was written are kept in the map, although Go would no longer send them.
- Content sniffing of an unset Content-Type and `Content-Length` are not modelled.
- Http.StatusCode: the model keeps only the codes 200 to 599. Go's `WriteHeader` also accepts 100 to 199 (sent as informational headers) and 600 to 999, and panics only outside 100 to 999.
- Http.StatusText: only the codes this application uses (and a few neighbours) carry their text; any other code maps to "", as an unknown one does in Go.
- Http.RedirectEffect: URL cleaning and escaping are left out because they leave the paths used here (`/user/login`, `/snippet/view/{digits}`) unchanged.
- Middleware.SecurityHeaders: the model does not canonicalise header keys. Every key is written in the canonical form Go's `Header().Set` and `Add` store it under, so the `X-XSS-Protection` of `cmd/web/middleware.go:17` appears as `X-Xss-Protection`.
- GoStrings: a Go string is modelled by its code points, so a form value that is not valid UTF-8 (where each bad byte counts as one rune) is not modelled.
- Helpers.DecodePostForm: the decoder only classifies its error; how it fills the destination struct by reflection is not modelled.
