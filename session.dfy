/**
 * CampactUserService::Session: a view of one server-side session, keyed by
 * its id and the name of the cookie that carries it. The session document
 * is fetched on first use and cached for the life of the object; a
 * response other than 200 is cached as an empty Hash.
 */
module SessionView {
  import opened Ruby
  import opened HttpClient

  const SessionsPath := "/v1/sessions"

  /** `get_request(...) || {}`: a falsy fetch result becomes an empty Hash. */
  function OrEmpty(v: Value): (d: Value)
    ensures Truthy(d)
    ensures Truthy(v) ==> d == v
    ensures !Truthy(v) ==> d == Hash([])
  {
    if Truthy(v) then v else Hash([])
  }

  /** `exists?`: `session && session['id']`. */
  function SessionExists(doc: Value): Result<Value> {
    AndIndex(doc, "id")
  }

  /** `user_id`: `session["user_id"]`. */
  function SessionUserId(doc: Value): Result<Value> {
    Index(doc, "user_id")
  }

  /** `session["permission_level"] == level`. */
  function PermissionIs(doc: Value, level: string): Result<bool> {
    Then(Index(doc, "permission_level"), (p: Value) => Ok(p == Str(level)))
  }

  /** `has_soft_login_session?`. */
  function SoftLogin(doc: Value): Result<bool> {
    PermissionIs(doc, "limited")
  }

  /** `has_hard_login_session?`. */
  function HardLogin(doc: Value): Result<bool> {
    PermissionIs(doc, "full")
  }

  /**
   * On a session Hash: soft login holds exactly for permission level
   * "limited", hard login exactly for "full", never both, and neither for
   * any other level or a missing one.
   */
  lemma LoginLevels(doc: Value)
    requires doc.Hash?
    ensures var level := Lookup(doc.members, "permission_level");
      && SoftLogin(doc) == Ok(level == Str("limited"))
      && HardLogin(doc) == Ok(level == Str("full"))
      && !(SoftLogin(doc) == Ok(true) && HardLogin(doc) == Ok(true))
      && (level != Str("limited") && level != Str("full") ==>
            SoftLogin(doc) == Ok(false) && HardLogin(doc) == Ok(false))
  {
  }

  /**
   * After a fetch that was not a 200 the cached document is `{}`: the
   * session does not exist and has no user id and no login.
   */
  lemma AbsentSession(response: Response, parse: string -> Option<Value>)
    requires response.status != 200
    ensures var doc := OrEmpty(Classify(response, parse).value);
      && doc == Hash([])
      && !Truthy(SessionExists(doc).value)
      && SessionUserId(doc) == Ok(Nil)
      && SoftLogin(doc) == Ok(false) && HardLogin(doc) == Ok(false)
  {
  }

  class Session {
    const client: Client
    const sessionId: string
    const sessionCookieName: string
    /** @session_info: None until a fetch has succeeded. */
    var info: Option<Value>
    /** Requests this session has handed to the client. */
    ghost var fetches: nat
    /** Fetches that raised, and so cached nothing. */
    ghost var failedFetches: nat

    /** The request every fetch of this session sends. */
    function SessionRequest(): Request {
      Request(SessionsPath, Timeout, Timeout, map["Cookie" := Some(sessionCookieName + "=" + sessionId + ";")])
    }

    /** What a fetch yields: the classified response, nil replaced by `{}`. */
    ghost function FetchOutcome(): Result<Value> {
      Then(Classify(client.server(SessionRequest()), client.parse), (v: Value) => Ok(OrEmpty(v)))
    }

    /** The document the next accessor call works on, or the exception it raises. */
    ghost function Current(): Result<Value>
      reads this
    {
      if info.Some? then Ok(info.value) else FetchOutcome()
    }

    /**
     * The cache holds a document (never nil) that the fetch gave, and at
     * most one request has succeeded: every other one raised.
     */
    ghost predicate Valid()
      reads this
    {
      && (info.Some? ==> Truthy(info.value) && FetchOutcome() == Ok(info.value))
      && fetches == failedFetches + (if info.Some? then 1 else 0)
    }

    /**
     * One accessor call: with a cached document nothing is sent and
     * nothing changes; otherwise exactly one session request is sent and
     * its document is cached unless the fetch raised.
     */
    twostate predicate Memoised()
      reads this, client
    {
      if old(info).Some? then
        && info == old(info) && fetches == old(fetches)
        && client.sent == old(client.sent)
      else
        && fetches == old(fetches) + 1
        && client.sent == old(client.sent) + [SessionRequest()]
        && info == (if FetchOutcome().Ok? then Some(FetchOutcome().value) else None)
    }

    constructor (client: Client, sessionId: string, sessionCookieName: string)
      ensures this.client == client && this.sessionId == sessionId
      ensures this.sessionCookieName == sessionCookieName
      ensures Valid() && info == None && fetches == 0
    {
      this.client := client;
      this.sessionId := sessionId;
      this.sessionCookieName := sessionCookieName;
      info := None;
      fetches, failedFetches := 0, 0;
    }

    /** Session#session: the memoised fetch. */
    method Document() returns (r: Result<Value>)
      requires Valid()
      modifies this, client
      ensures Valid() && Memoised()
      ensures r == old(Current())
      ensures r.Ok? ==> Truthy(r.value)
    {
      if info.Some? {
        return Ok(info.value);
      }
      SingleCookieRequest(SessionsPath, sessionCookieName, sessionId, client.otp);
      var fetched := client.GetRequest(SessionsPath, CookieOptions(sessionCookieName, sessionId));
      fetches := fetches + 1;
      if fetched.Err? {
        failedFetches := failedFetches + 1;
        return Err(fetched.fault);
      }
      var doc := OrEmpty(fetched.value);
      info := Some(doc);
      r := Ok(doc);
    }

    /** Session#exists? */
    method Exists() returns (r: Result<Value>)
      requires Valid()
      modifies this, client
      ensures Valid() && Memoised()
      ensures r == Then(old(Current()), SessionExists)
    {
      var doc := Document();
      r := Then(doc, SessionExists);
    }

    /** Session#user_id */
    method UserId() returns (r: Result<Value>)
      requires Valid()
      modifies this, client
      ensures Valid() && Memoised()
      ensures r == Then(old(Current()), SessionUserId)
    {
      var doc := Document();
      r := Then(doc, SessionUserId);
    }

    /** Session#has_soft_login_session? */
    method HasSoftLoginSession() returns (r: Result<bool>)
      requires Valid()
      modifies this, client
      ensures Valid() && Memoised()
      ensures r == Then(old(Current()), SoftLogin)
    {
      var doc := Document();
      r := Then(doc, SoftLogin);
    }

    /** Session#has_hard_login_session? */
    method HasHardLoginSession() returns (r: Result<bool>)
      requires Valid()
      modifies this, client
      ensures Valid() && Memoised()
      ensures r == Then(old(Current()), HardLogin)
    {
      var doc := Document();
      r := Then(doc, HardLogin);
    }
  }

  /**
   * Asking a fresh session all four questions sends exactly one request
   * when that fetch succeeds, and the answers all read the same document.
   */
  method AskEverything(s: Session) returns (present: Result<Value>, userId: Result<Value>, soft: Result<bool>, hard: Result<bool>)
    requires s.Valid() && s.info == None
    requires s.FetchOutcome().Ok?
    modifies s, s.client
    ensures s.Valid() && s.fetches == old(s.fetches) + 1
    ensures s.client.sent == old(s.client.sent) + [s.SessionRequest()]
    ensures var doc := s.FetchOutcome().value;
      && present == SessionExists(doc) && userId == SessionUserId(doc)
      && soft == SoftLogin(doc) && hard == HardLogin(doc)
  {
    present := s.Exists();
    userId := s.UserId();
    soft := s.HasSoftLoginSession();
    hard := s.HasHardLoginSession();
  }
}
