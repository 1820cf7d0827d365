/**
 * The server-side session store: one row per session id (the id's text),
 * holding the session's payload, plus reading the id from the cookie.
 */
module Session {
  import opened Wrappers
  import opened Json
  import opened Uuids

  /** The payload of one session. */
  datatype SessionData = SessionData(
    answers: map<string, Value>,
    budget: Option<int>,
    currentStep: int,
    questions: seq<Value>,
    recipient: string,
    summary: Option<string>,
    suggestions: seq<Value>)

  /**
   * `SessionData()` with every field at its default: no answers, no budget,
   * step 1, no questions, empty recipient, no summary, no suggestions.
   */
  const DefaultData := SessionData(map[], None, 1, [], "", None, [])

  /** What `get_session` raises instead of returning. */
  datatype SessionError =
    | MalformedStoredId  // `UUID(session_id)` raised: the matching row's id is not UUID text
    | DuplicateId        // the insert of a freshly minted id hit an existing primary key

  /**
   * `get_session_id`: the cookie's UUID, or None when the cookie is absent,
   * empty, or not UUID text.
   */
  function GetSessionId(cookie: Option<string>): (id: Option<Uuid>)
    ensures cookie.None? || cookie == Some("") ==> id.None?
    ensures cookie.Some? && cookie.value != "" ==> id == ParseUuid(cookie.value)
  {
    if cookie.Some? && cookie.value != "" then ParseUuid(cookie.value) else None
  }

  /** The cookie value written for a session, `str(session_id)`, reads back as that session. */
  lemma CookieRoundTrip(u: Uuid)
    ensures GetSessionId(Some(Text(u))) == Some(u)
  {
    ParseText(u);
  }

  /** The session store: rows keyed by the text of the session id. */
  class SessionManager {
    var rows: map<string, SessionData>

    /** Every row's key is the canonical text of a UUID, as the manager itself writes them. */
    ghost predicate Valid()
      reads this
    {
      forall k | k in rows :: IsCanonical(k)
    }

    /** A manager over the store's current rows. */
    constructor (initial: map<string, SessionData>)
      ensures rows == initial
      ensures initial == map[] ==> Valid()
    {
      rows := initial;
    }

    /**
     * `get_session`: a non-empty id with a row gives that row's payload under
     * the same id and changes nothing; otherwise the freshly `minted` id (the
     * value `uuid4()` drew) is stored with the default payload.
     */
    method GetSession(sessionId: Option<string>, minted: Uuid)
      returns (r: Result<(Uuid, SessionData), SessionError>)
      modifies this
      ensures sessionId.Some? && sessionId.value != "" && sessionId.value in old(rows) ==>
        rows == old(rows) &&
        match ParseUuid(sessionId.value)
        case Some(u) => r == Success((u, old(rows)[sessionId.value]))
        case None => r == Failure(MalformedStoredId)
      ensures !(sessionId.Some? && sessionId.value != "" && sessionId.value in old(rows)) ==>
        if Text(minted) in old(rows) then
          r == Failure(DuplicateId) && rows == old(rows)
        else
          r == Success((minted, DefaultData)) && rows == old(rows)[Text(minted) := DefaultData]
      ensures old(Valid()) ==> Valid() && r != Failure(MalformedStoredId)
      ensures old(Valid()) && r.Success? ==> Text(r.value.0) in rows && rows[Text(r.value.0)] == r.value.1
    {
      if sessionId.Some? && sessionId.value != "" {
        var s := sessionId.value;
        if s in rows {
          var parsed := ParseUuid(s);
          if parsed.None? {
            return Failure(MalformedStoredId);
          }
          return Success((parsed.value, rows[s]));
        }
      }
      var key := Text(minted);
      if key in rows {
        return Failure(DuplicateId);
      }
      ParseText(minted);
      rows := rows[key := DefaultData];
      r := Success((minted, DefaultData));
    }

    /** `update_session`: overwrite an existing row's whole payload; a missing row is left missing. */
    method UpdateSession(sessionId: Uuid, data: SessionData)
      modifies this
      ensures Text(sessionId) in old(rows) ==> rows == old(rows)[Text(sessionId) := data]
      ensures Text(sessionId) !in old(rows) ==> rows == old(rows)
      ensures old(Valid()) ==> Valid()
    {
      var key := Text(sessionId);
      if key in rows {
        rows := rows[key := data];
      }
    }

    /** `delete_session`: remove the row if there is one; every other row stays. */
    method DeleteSession(sessionId: Uuid)
      modifies this
      ensures rows == old(rows) - {Text(sessionId)}
      ensures old(Valid()) ==> Valid()
    {
      rows := rows - {Text(sessionId)};
    }
  }

  /** A payload written with `update_session` reads back unchanged with `get_session`. */
  method UpdateThenGet(m: SessionManager, id: Uuid, data: SessionData, minted: Uuid)
    returns (r: Result<(Uuid, SessionData), SessionError>)
    requires Text(id) in m.rows
    modifies m
    ensures r == Success((id, data))
    ensures m.rows == old(m.rows)[Text(id) := data]
  {
    m.UpdateSession(id, data);
    ParseText(id);
    r := m.GetSession(Some(Text(id)), minted);
  }

  /** After `delete_session`, `get_session` with that id no longer finds it and starts afresh. */
  method DeleteThenGet(m: SessionManager, id: Uuid, minted: Uuid)
    returns (r: Result<(Uuid, SessionData), SessionError>)
    requires Text(minted) !in m.rows
    modifies m
    ensures r == Success((minted, DefaultData))
    ensures m.rows == (old(m.rows) - {Text(id)})[Text(minted) := DefaultData]
  {
    m.DeleteSession(id);
    r := m.GetSession(Some(Text(id)), minted);
  }
}
