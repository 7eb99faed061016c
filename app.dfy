/**
 * The application value every helper, handler and middleware stage hangs off,
 * with the records the templates receive.
 */
module App {
  import opened Results
  import opened Strconv
  import opened Models
  import opened Sessions

  /** A log.Logger: the lines written to it, in order. */
  class Logger {
    var lines: seq<string>

    constructor ()
      ensures lines == []
    {
      lines := [];
    }

    method Output(line: string)
      modifies this
      ensures lines == old(lines) + [line]
    {
      lines := lines + [line];
    }
  }

  /** snippetCreateForm: the submitted fields and the message recorded per failing field. */
  datatype SnippetCreateForm = SnippetCreateForm(
    title: string,
    content: string,
    expires: Int,
    fieldErrors: map<string, string>)

  /** templateData: what a page template is executed with; None stands for a nil pointer. */
  datatype TemplateData = TemplateData(
    currentYear: int,
    snippet: Option<Snippet>,
    snippets: seq<Snippet>,
    user: Option<User>,
    form: Option<SnippetCreateForm>,
    flash: string,
    isAuthenticated: bool)

  /** A parsed template set: executing its "base" template yields the page or an error. */
  datatype Template = Template(execute: TemplateData -> Result<string, string>)

  /**
   * The application: its two loggers, the database models, the template cache,
   * the session data loaded for the request being served, and the year the clock
   * reports while it is served.
   */
  class Application {
    const errorLog: Logger
    const infoLog: Logger
    const snippets: SnippetModel
    const users: UserModel
    const templateCache: map<string, Template>
    const session: Session
    const currentYear: int

    constructor (errorLog: Logger, infoLog: Logger, snippets: SnippetModel, users: UserModel,
                 templateCache: map<string, Template>, session: Session, currentYear: int)
      ensures this.errorLog == errorLog && this.infoLog == infoLog
      ensures this.snippets == snippets && this.users == users && this.session == session
      ensures this.templateCache == templateCache && this.currentYear == currentYear
    {
      this.errorLog := errorLog;
      this.infoLog := infoLog;
      this.snippets := snippets;
      this.users := users;
      this.templateCache := templateCache;
      this.session := session;
      this.currentYear := currentYear;
    }
  }
}
