/**
 * The session data the session manager attached to the request being served,
 * with the typed accessors of the scs package the web layer calls. Loading,
 * saving, expiry and tokens are not part of this model.
 */
module Sessions {
  import opened Strconv

  /** A session value; anything that is neither an int nor a string is SessionOther. */
  datatype SessionValue = SessionInt(i: Int) | SessionString(s: string) | SessionOther

  /** GetInt: the int stored under key, or 0 when the key is absent or holds another type. */
  function IntOf(values: map<string, SessionValue>, key: string): Int {
    if key in values && values[key].SessionInt? then values[key].i else 0
  }

  /** The string PopString returns: the string stored under key, or "" when absent or not a string. */
  function StringOf(values: map<string, SessionValue>, key: string): string {
    if key in values && values[key].SessionString? then values[key].s else ""
  }

  class Session {
    var values: map<string, SessionValue>
    /** Whether the data changed while serving this request, so that it must be saved. */
    var modified: bool

    constructor (values: map<string, SessionValue>)
      ensures this.values == values && !modified
    {
      this.values := values;
      modified := false;
    }

    function GetInt(key: string): Int
      reads this
    {
      IntOf(values, key)
    }

    /** PopString: read the string and remove the key, whatever type it held. */
    method PopString(key: string) returns (s: string)
      modifies this
      ensures s == StringOf(old(values), key)
      ensures values == old(values) - {key}
      ensures modified == (old(modified) || key in old(values))
    {
      s := StringOf(values, key);
      if key in values {
        values := values - {key};
        modified := true;
      }
    }

    /** Put: store a value under key. */
    method Put(key: string, v: SessionValue)
      modifies this
      ensures values == old(values)[key := v] && modified
    {
      values := values[key := v];
      modified := true;
    }
  }

  /** The session key a one-time flash message is stored under. */
  const FlashKey: string := "flash"

  /** A flash message is read once: put, popped, then popped again in a later request, it is gone. */
  method FlashReadOnce(session: Session, message: string) returns (first: string, second: string)
    modifies session
    ensures first == message && second == ""
    ensures session.values == old(session.values) - {FlashKey} && session.modified
  {
    session.Put(FlashKey, SessionString(message));
    first := session.PopString(FlashKey);
    second := session.PopString(FlashKey);
  }
}
