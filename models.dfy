/**
 * The database models the web layer calls, as oracles: each keeps a log of the
 * calls it received and answers with a reply fixed when it was built. The SQL and
 * bcrypt behind them are not part of this model.
 */
module Models {
  import opened Results
  import opened Strconv

  /** A snippet row; created and expires are timestamps, left abstract. */
  datatype Snippet = Snippet(id: Int, title: string, content: string, created: int, expires: int)

  /** A user row; the password hash is bytes and created a timestamp, left abstract. */
  datatype User = User(id: Int, name: string, email: string, hashedPassword: seq<bv8>, created: int)

  /** models.ErrNoRecord, or any other error the driver reports. */
  datatype DbError = ErrNoRecord | DriverError(message: string)

  /** err.Error() */
  function ErrorText(e: DbError): string {
    match e
    case ErrNoRecord => "models: no matching record found"
    case DriverError(m) => m
  }

  /** The arguments of one SnippetModel.Insert call. */
  datatype InsertCall = InsertCall(title: string, content: string, expires: Int)

  /** SnippetModel: Insert answers with the new id or an error, Get with the row or an error. */
  class SnippetModel {
    var inserts: seq<InsertCall>
    var gets: seq<Int>
    const insertReply: InsertCall -> Result<Int, DbError>
    const getReply: Int -> Result<Snippet, DbError>

    constructor (insertReply: InsertCall -> Result<Int, DbError>, getReply: Int -> Result<Snippet, DbError>)
      ensures inserts == [] && gets == []
    {
      inserts, gets := [], [];
      this.insertReply := insertReply;
      this.getReply := getReply;
    }

    method Insert(title: string, content: string, expires: Int) returns (r: Result<Int, DbError>)
      modifies this
      ensures inserts == old(inserts) + [InsertCall(title, content, expires)] && gets == old(gets)
      ensures r == insertReply(InsertCall(title, content, expires))
    {
      inserts := inserts + [InsertCall(title, content, expires)];
      r := insertReply(InsertCall(title, content, expires));
    }

    method Get(id: Int) returns (r: Result<Snippet, DbError>)
      modifies this
      ensures gets == old(gets) + [id] && inserts == old(inserts)
      ensures r == getReply(id)
    {
      gets := gets + [id];
      r := getReply(id);
    }
  }

  /** UserModel: Exists answers whether a user id is still on record, or fails. */
  class UserModel {
    var existsCalls: seq<Int>
    const existsReply: Int -> Result<bool, DbError>

    constructor (existsReply: Int -> Result<bool, DbError>)
      ensures existsCalls == []
    {
      existsCalls := [];
      this.existsReply := existsReply;
    }

    method Exists(id: Int) returns (r: Result<bool, DbError>)
      modifies this
      ensures existsCalls == old(existsCalls) + [id]
      ensures r == existsReply(id)
    {
      existsCalls := existsCalls + [id];
      r := existsReply(id);
    }
  }

  /** UserModel.Exists as the repository writes it today: a stub that reports every user as absent. */
  function ExistsAsWritten(id: Int): Result<bool, DbError> {
    Success(false)
  }
}
