/**
 * The snippet handlers: viewing a snippet by the id in its path, the empty create
 * form, and validating a submitted form before inserting it.
 */
module Handlers {
  import opened Results
  import opened GoStrings
  import opened Strconv
  import opened Http
  import opened Models
  import opened Sessions
  import opened App
  import opened Helpers

  const MaxTitleChars: nat := 100
  const PermittedExpires: set<int> := {1, 7, 365}

  const TitleTooLongMessage: string := "This field cannot be more than 100 characters long"
  const BlankMessage: string := "This field cannot be blank"
  const ExpiresMessage: string := "This field must equal 1, 7, or 365"

  /*
   * Field rules. The handler runs its checks in a fixed order and each failing check
   * assigns the field's message, so the message kept for a field is that of the LAST
   * failing check on it: for the title, "blank" wins over "too long".
   */

  function TitleError(title: string): Option<string> {
    if AllSpace(title) then Some(BlankMessage)
    else if RuneCount(title) > MaxTitleChars then Some(TitleTooLongMessage)
    else None
  }

  function ContentError(content: string): Option<string> {
    if AllSpace(content) then Some(BlankMessage) else None
  }

  function ExpiresError(expires: int): Option<string> {
    if expires in PermittedExpires then None else Some(ExpiresMessage)
  }

  function Entry(key: string, message: Option<string>): map<string, string> {
    if message.Some? then map[key := message.value] else map[]
  }

  /** The field errors of a submission: one entry for each field whose rules fail. */
  function FieldErrors(title: string, content: string, expires: int): map<string, string> {
    Entry("title", TitleError(title)) + Entry("content", ContentError(content)) + Entry("expires", ExpiresError(expires))
  }

  /** Every rule passes: a title that is not blank and has at most 100 runes, content that is not blank, a permitted expiry. */
  predicate Acceptable(title: string, content: string, expires: int) {
    !AllSpace(title) && RuneCount(title) <= MaxTitleChars && !AllSpace(content) && expires in PermittedExpires
  }

  /** What the field errors hold, key by key, and that there are none exactly when every rule passes. */
  lemma FieldErrorsContents(title: string, content: string, expires: int)
    ensures var m := FieldErrors(title, content, expires);
      && m.Keys <= {"title", "content", "expires"}
      && ("title" in m <==> AllSpace(title) || RuneCount(title) > MaxTitleChars)
      && ("title" in m ==> m["title"] == if AllSpace(title) then BlankMessage else TitleTooLongMessage)
      && ("content" in m <==> AllSpace(content))
      && ("content" in m ==> m["content"] == BlankMessage)
      && ("expires" in m <==> expires !in PermittedExpires)
      && ("expires" in m ==> m["expires"] == ExpiresMessage)
      && (m == map[] <==> Acceptable(title, content, expires))
  {
    var m := FieldErrors(title, content, expires);
    if !Acceptable(title, content, expires) {
      if AllSpace(title) || RuneCount(title) > MaxTitleChars { assert "title" in m; }
      else if AllSpace(content) { assert "content" in m; }
      else { assert "expires" in m; }
    }
  }

  /** A 100-rune title of two-byte characters takes 200 bytes and still has no title error. */
  lemma MultiByteTitleAccepted()
    ensures var title := seq(100, _ => 'é');
      ByteLen(title) == 200 && RuneCount(title) == 100 && TitleError(title) == None
  {
    var title := seq(100, _ => 'é');
    ByteLenRepeat(100, 'é');
    assert !IsSpace(title[0]);
  }

  /** A 101-character ASCII title is too long; 101 spaces are reported as blank instead. */
  lemma LongTitles()
    ensures TitleError(seq(101, _ => 'a')) == Some(TitleTooLongMessage)
    ensures TitleError(seq(101, _ => ' ')) == Some(BlankMessage)
  {
    var letters := seq(101, _ => 'a');
    assert !IsSpace(letters[0]);
  }

  /** The two title checks, length first and blank second, leave exactly the title's entry. */
  lemma TitleChecksInOrder(title: string)
    ensures var afterLength: map<string, string> := if RuneCount(title) > MaxTitleChars then map["title" := TitleTooLongMessage] else map[];
      (if IsBlank(title) then afterLength["title" := BlankMessage] else afterLength) == Entry("title", TitleError(title))
  {
    var afterLength: map<string, string> := if RuneCount(title) > MaxTitleChars then map["title" := TitleTooLongMessage] else map[];
    if IsBlank(title) {
      assert AllSpace(title);
      assert afterLength["title" := BlankMessage] == map["title" := BlankMessage];
    } else {
      assert !AllSpace(title);
    }
  }

  /** The content check adds the content entry to the errors found so far. */
  lemma ContentCheck(m: map<string, string>, content: string)
    ensures (if IsBlank(content) then m["content" := BlankMessage] else m) == m + Entry("content", ContentError(content))
  {
  }

  /** The expiry check adds the expires entry to the errors found so far. */
  lemma ExpiresCheck(m: map<string, string>, expires: int)
    ensures (if expires != 1 && expires != 7 && expires != 365 then m["expires" := ExpiresMessage] else m)
      == m + Entry("expires", ExpiresError(expires))
  {
  }

  /**
   * The form the handler builds from the submitted title, content and expiry, with
   * its checks run in order on a fresh FieldErrors map.
   */
  method NewSnippetCreateForm(title: string, content: string, expires: Int) returns (form: SnippetCreateForm)
    ensures form == SnippetCreateForm(title, content, expires, FieldErrors(title, content, expires))
  {
    var fieldErrors: map<string, string> := map[];
    if RuneCount(title) > MaxTitleChars {
      fieldErrors := fieldErrors["title" := TitleTooLongMessage];
    }
    if IsBlank(title) {
      fieldErrors := fieldErrors["title" := BlankMessage];
    }
    TitleChecksInOrder(title);
    ghost var afterTitle := fieldErrors;
    if IsBlank(content) {
      fieldErrors := fieldErrors["content" := BlankMessage];
    }
    ContentCheck(afterTitle, content);
    ghost var afterContent := fieldErrors;
    if expires != 1 && expires != 7 && expires != 365 {
      fieldErrors := fieldErrors["expires" := ExpiresMessage];
    }
    ExpiresCheck(afterContent, expires);
    form := SnippetCreateForm(title, content, expires, fieldErrors);
  }

  /** Where snippetCreatePost ends: a 400, a 422 re-render of the populated form, or an insert. */
  datatype CreatePostDecision = CreateBadRequest | CreateRerender(form: SnippetCreateForm) | CreateInsert(form: SnippetCreateForm)

  function DecideCreatePost(r: Request): CreatePostDecision {
    match r.postForm
    case Failure(_) => CreateBadRequest
    case Success(values) =>
      match Atoi(FormValue(values, "expires"))
      case Failure(_) => CreateBadRequest
      case Success(expires) =>
        var title := FormValue(values, "title");
        var content := FormValue(values, "content");
        var form := SnippetCreateForm(title, content, expires, FieldErrors(title, content, expires));
        if |form.fieldErrors| > 0 then CreateRerender(form) else CreateInsert(form)
  }

  /**
   * A body that does not parse, or an expiry that is not an integer, is a 400 and no
   * form is built; otherwise the submission is inserted exactly when every rule
   * passes, and re-rendered with its own values and non-empty errors when one fails.
   */
  lemma CreatePostDecisions(r: Request)
    ensures DecideCreatePost(r).CreateBadRequest? <==>
      r.postForm.Failure? || Atoi(FormValue(r.postForm.value, "expires")).Failure?
    ensures DecideCreatePost(r).CreateInsert? <==>
      && r.postForm.Success?
      && Atoi(FormValue(r.postForm.value, "expires")).Success?
      && Acceptable(FormValue(r.postForm.value, "title"), FormValue(r.postForm.value, "content"),
                    Atoi(FormValue(r.postForm.value, "expires")).value)
    ensures !DecideCreatePost(r).CreateBadRequest? ==>
      var form := DecideCreatePost(r).form;
      && form.title == FormValue(r.postForm.value, "title")
      && form.content == FormValue(r.postForm.value, "content")
      && Success(form.expires) == Atoi(FormValue(r.postForm.value, "expires"))
      && form.fieldErrors == FieldErrors(form.title, form.content, form.expires)
      && (DecideCreatePost(r).CreateRerender? ==> form.fieldErrors != map[])
      && (DecideCreatePost(r).CreateInsert? ==> form.fieldErrors == map[])
  {
    if r.postForm.Success? && Atoi(FormValue(r.postForm.value, "expires")).Success? {
      var values := r.postForm.value;
      FieldErrorsContents(FormValue(values, "title"), FormValue(values, "content"), Atoi(FormValue(values, "expires")).value);
    }
  }

  /** The page a successful insert redirects to. */
  function SnippetViewPath(id: Int): string {
    "/snippet/view/" + Itoa(id)
  }

  /**
   * snippetCreatePost: parse the body, read the expiry as an integer, build and check
   * the form, then either re-render it with 422, or insert it once and redirect with
   * 303 to its page (500 when the insert fails).
   */
  method SnippetCreatePost(app: Application, w: Response, r: Request)
    modifies w, app.snippets, app.session, app.errorLog
    ensures app.snippets.gets == old(app.snippets.gets)
    ensures match DecideCreatePost(r)
      case CreateBadRequest =>
        && w.State() == ErrorEffect(old(w.State()), "Bad Request", StatusBadRequest)
        && app.snippets.inserts == old(app.snippets.inserts)
        && unchanged(app.session) && app.errorLog.lines == old(app.errorLog.lines)
      case CreateRerender(form) =>
        var data := BaseTemplateData(app.currentYear, old(app.session.values), r).(form := Some(form));
        var page := RenderPage(app.templateCache, "create.tmpl.html", data);
        && app.snippets.inserts == old(app.snippets.inserts)
        && app.session.values == old(app.session.values) - {FlashKey}
        && app.session.modified == (old(app.session.modified) || FlashKey in old(app.session.values))
        && w.State() == RenderedState(old(w.State()), page, StatusUnprocessableEntity)
        && app.errorLog.lines == old(app.errorLog.lines) + RenderLog(page)
      case CreateInsert(form) =>
        var call := InsertCall(form.title, form.content, form.expires);
        && app.snippets.inserts == old(app.snippets.inserts) + [call]
        && unchanged(app.session)
        && match app.snippets.insertReply(call)
           case Failure(e) =>
             && w.State() == ErrorEffect(old(w.State()), StatusText(StatusInternalServerError), StatusInternalServerError)
             && app.errorLog.lines == old(app.errorLog.lines) + [ErrorText(e)]
           case Success(id) =>
             && w.State() == RedirectEffect(old(w.State()), r.verb, SnippetViewPath(id), StatusSeeOther)
             && app.errorLog.lines == old(app.errorLog.lines)
  {
    if r.postForm.Failure? {
      ClientError(w, StatusBadRequest);
      return;
    }
    var values := r.postForm.value;
    var expires := Atoi(FormValue(values, "expires"));
    if expires.Failure? {
      ClientError(w, StatusBadRequest);
      return;
    }
    var form := NewSnippetCreateForm(FormValue(values, "title"), FormValue(values, "content"), expires.value);
    RerenderOrInsert(app, w, r, form);
  }

  /**
   * The end of snippetCreatePost, once the form is checked: with field errors, the
   * create page again with 422 and the form; otherwise one insert, then a 303 to the
   * new snippet's page, or a 500 when the insert fails.
   */
  method RerenderOrInsert(app: Application, w: Response, r: Request, form: SnippetCreateForm)
    modifies w, app.snippets, app.session, app.errorLog
    ensures app.snippets.gets == old(app.snippets.gets)
    ensures |form.fieldErrors| > 0 ==>
      var data := BaseTemplateData(app.currentYear, old(app.session.values), r).(form := Some(form));
      var page := RenderPage(app.templateCache, "create.tmpl.html", data);
      && app.snippets.inserts == old(app.snippets.inserts)
      && app.session.values == old(app.session.values) - {FlashKey}
      && app.session.modified == (old(app.session.modified) || FlashKey in old(app.session.values))
      && w.State() == RenderedState(old(w.State()), page, StatusUnprocessableEntity)
      && app.errorLog.lines == old(app.errorLog.lines) + RenderLog(page)
    ensures |form.fieldErrors| == 0 ==>
      var call := InsertCall(form.title, form.content, form.expires);
      && app.snippets.inserts == old(app.snippets.inserts) + [call]
      && unchanged(app.session)
      && match app.snippets.insertReply(call)
         case Failure(e) =>
           && w.State() == ErrorEffect(old(w.State()), StatusText(StatusInternalServerError), StatusInternalServerError)
           && app.errorLog.lines == old(app.errorLog.lines) + [ErrorText(e)]
         case Success(id) =>
           && w.State() == RedirectEffect(old(w.State()), r.verb, SnippetViewPath(id), StatusSeeOther)
           && app.errorLog.lines == old(app.errorLog.lines)
  {
    if |form.fieldErrors| > 0 {
      var data := NewTemplateData(app, r);
      data := data.(form := Some(form));
      Render(app, w, StatusUnprocessableEntity, "create.tmpl.html", data);
      return;
    }
    var id := app.snippets.Insert(form.title, form.content, form.expires);
    if id.Failure? {
      ServerError(app, w, ErrorText(id.error));
      return;
    }
    Redirect(w, r, SnippetViewPath(id.value), StatusSeeOther);
  }

  /** The id a view path names: an integer of at least 1, or none. */
  function ViewId(idParam: string): Option<Int> {
    match Atoi(idParam)
    case Success(id) => if id < 1 then None else Some(id)
    case Failure(_) => None
  }

  /** Where snippetView ends: 404, 500 with the error's text, or the snippet's page. */
  datatype ViewDecision = ViewNotFound | ViewServerError(message: string) | ViewRender(snippet: Snippet)

  function DecideView(idParam: string, get: Int -> Result<Snippet, DbError>): ViewDecision {
    match ViewId(idParam)
    case None => ViewNotFound
    case Some(id) =>
      match get(id)
      case Success(s) => ViewRender(s)
      case Failure(ErrNoRecord) => ViewNotFound
      case Failure(e) => ViewServerError(ErrorText(e))
  }

  /**
   * A non-numeric id or one below 1 is a 404 whatever the store holds; for a valid id
   * ErrNoRecord is a 404, any other error a 500, and a row is rendered.
   */
  lemma ViewDecisions(idParam: string, get: Int -> Result<Snippet, DbError>)
    ensures ViewId(idParam).None? <==> Atoi(idParam).Failure? || Atoi(idParam).value < 1
    ensures ViewId(idParam).None? ==> DecideView(idParam, get) == ViewNotFound
    ensures ViewId(idParam).Some? ==> Atoi(idParam) == Success(ViewId(idParam).value)
    ensures ViewId(idParam).Some? ==>
      var reply := get(ViewId(idParam).value);
      DecideView(idParam, get) == (if reply.Success? then ViewRender(reply.value)
                                   else if reply.error == ErrNoRecord then ViewNotFound
                                   else ViewServerError(ErrorText(reply.error)))
  {
  }

  /**
   * The path a successful insert redirects to names the inserted id again for every
   * positive id. The last clause assumes a router that binds the path segment after
   * "/snippet/view/" to the "id" parameter; the repository's routes do not set one up.
   */
  lemma RedirectTargetNamesId(id: Int, get: Int -> Result<Snippet, DbError>)
    requires id >= 1
    ensures SnippetViewPath(id)[..14] == "/snippet/view/"
    ensures ViewId(SnippetViewPath(id)[14..]) == Some(id)
    ensures get(id).Success? ==> DecideView(SnippetViewPath(id)[14..], get) == ViewRender(get(id).value)
  {
    assert SnippetViewPath(id)[14..] == Itoa(id);
    AtoiItoa(id);
  }

  /**
   * A request routed without an "id" parameter (as a plain pattern such as
   * "/snippet/view" delivers it) is a 404 whatever the store holds.
   */
  lemma ViewWithoutIdParam(r: Request, get: Int -> Result<Snippet, DbError>)
    requires "id" !in r.params
    ensures DecideView(ParamByName(r, "id"), get) == ViewNotFound
  {
  }

  /** snippetView: check the id, look it up, and render the snippet's page with 200. */
  method SnippetView(app: Application, w: Response, r: Request)
    modifies w, app.snippets, app.session, app.errorLog
    ensures app.snippets.inserts == old(app.snippets.inserts)
    ensures app.snippets.gets == old(app.snippets.gets) +
      (match ViewId(ParamByName(r, "id")) case Some(id) => [id] case None => [])
    ensures match DecideView(ParamByName(r, "id"), app.snippets.getReply)
      case ViewNotFound =>
        && w.State() == ErrorEffect(old(w.State()), "Not Found", StatusNotFound)
        && unchanged(app.session) && app.errorLog.lines == old(app.errorLog.lines)
      case ViewServerError(message) =>
        && w.State() == ErrorEffect(old(w.State()), StatusText(StatusInternalServerError), StatusInternalServerError)
        && unchanged(app.session) && app.errorLog.lines == old(app.errorLog.lines) + [message]
      case ViewRender(s) =>
        var data := BaseTemplateData(app.currentYear, old(app.session.values), r).(snippet := Some(s));
        var page := RenderPage(app.templateCache, "view.tmpl.html", data);
        && app.session.values == old(app.session.values) - {FlashKey}
        && app.session.modified == (old(app.session.modified) || FlashKey in old(app.session.values))
        && w.State() == RenderedState(old(w.State()), page, StatusOK)
        && app.errorLog.lines == old(app.errorLog.lines) + RenderLog(page)
  {
    var id := Atoi(ParamByName(r, "id"));
    if id.Failure? || id.value < 1 {
      NotFound(w);
      return;
    }
    var snippet := app.snippets.Get(id.value);
    if snippet.Failure? {
      if snippet.error == ErrNoRecord {
        NotFound(w);
      } else {
        ServerError(app, w, ErrorText(snippet.error));
      }
      return;
    }
    var data := NewTemplateData(app, r);
    data := data.(snippet := Some(snippet.value));
    Render(app, w, StatusOK, "view.tmpl.html", data);
  }

  /** The form snippetCreate shows: empty fields, a one-year expiry, no errors. */
  const DefaultSnippetCreateForm: SnippetCreateForm := SnippetCreateForm("", "", 365, map[])

  /**
   * The default form has a permitted expiry and no errors; submitted unchanged it
   * would come back with exactly the two "cannot be blank" errors.
   */
  lemma DefaultFormSubmittedAsIs()
    ensures ExpiresError(DefaultSnippetCreateForm.expires) == None && DefaultSnippetCreateForm.fieldErrors == map[]
    ensures FieldErrors(DefaultSnippetCreateForm.title, DefaultSnippetCreateForm.content, DefaultSnippetCreateForm.expires)
      == map["title" := BlankMessage, "content" := BlankMessage]
  {
  }

  /** snippetCreate: render the create page with 200 and the default form. */
  method SnippetCreate(app: Application, w: Response, r: Request)
    modifies w, app.session, app.errorLog
    ensures
      var data := BaseTemplateData(app.currentYear, old(app.session.values), r).(form := Some(DefaultSnippetCreateForm));
      var page := RenderPage(app.templateCache, "create.tmpl.html", data);
      && app.session.values == old(app.session.values) - {FlashKey}
      && app.session.modified == (old(app.session.modified) || FlashKey in old(app.session.values))
      && w.State() == RenderedState(old(w.State()), page, StatusOK)
      && app.errorLog.lines == old(app.errorLog.lines) + RenderLog(page)
  {
    var data := NewTemplateData(app, r);
    data := data.(form := Some(DefaultSnippetCreateForm));
    Render(app, w, StatusOK, "create.tmpl.html", data);
  }
}
