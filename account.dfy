/**
 * CampactUserService::Account: a view of one user account, fetched with
 * the caller's session cookie from `accounts/v1/<escaped user id>`. The
 * account document is memoised with `||=`, so only a truthy document is
 * kept: after a nil result the next access fetches again.
 */
module AccountView {
  import opened Ruby
  import opened UriEscape
  import opened HttpClient

  const AccountsPrefix := "accounts/v1/"

  /** The request path: the prefix followed by `URI.escape(user_id)`. */
  function AccountPath(userId: string): (path: string)
    ensures |path| >= |AccountsPrefix| && path[..|AccountsPrefix|] == AccountsPrefix
    ensures Unescape(path[|AccountsPrefix|..]) == Some(Utf8String(userId))
  {
    EscapeRoundTrip(userId);
    AccountsPrefix + Escape(userId)
  }

  /** `exists?`: `account && account["id"]`. */
  function AccountExists(doc: Value): Result<Value> {
    AndIndex(doc, "id")
  }

  /**
   * `subscribed_to_newsletter?`: the list at emailaddress/subscriptions,
   * or `[]` when there is none, includes the String "newsletter".
   */
  function Newsletter(doc: Value): Result<bool> {
    Then(Dig(doc, ["emailaddress", "subscriptions"]),
      (subscriptions: Value) => Includes(if Truthy(subscriptions) then subscriptions else Arr([]), "newsletter"))
  }

  /** `allow_prefill?`: preferences/prefill_forms, stringified, is "allowed". */
  function Prefill(doc: Value): Result<bool> {
    Then(Dig(doc, ["preferences", "prefill_forms"]), (prefill: Value) => Ok(ToS(prefill) == "allowed"))
  }

  /** `email`: the value at emailaddress/emailaddress. */
  function EmailIn(doc: Value): Result<Value> {
    Dig(doc, ["emailaddress", "emailaddress"])
  }

  /** `name`, `address`, `preferences`, `donor_info`: one top-level field each. */
  function Field(key: string): Value -> Result<Value> {
    (doc: Value) => Index(doc, key)
  }

  /**
   * On an account Hash, the newsletter flag is membership of the String
   * "newsletter" in the subscriptions list, and false when the list or the
   * emailaddress entry is missing.
   */
  lemma NewsletterMembership(doc: Value)
    requires doc.Hash?
    ensures var email := Lookup(doc.members, "emailaddress");
      && (email.Nil? ==> Newsletter(doc) == Ok(false))
      && (email.Hash? && Lookup(email.members, "subscriptions").Nil? ==> Newsletter(doc) == Ok(false))
      && (email.Hash? && Lookup(email.members, "subscriptions").Arr? ==>
            Newsletter(doc) == Ok(Str("newsletter") in Lookup(email.members, "subscriptions").elems))
  {
    DigTwo(doc, "emailaddress", "subscriptions");
  }

  /**
   * Subscriptions given as objects `{"type": "newsletter"}` do not count:
   * only the String "newsletter" in the list does.
   */
  lemma NewsletterIgnoresTypedEntries()
    ensures var entry := Hash([("type", Str("newsletter"))]);
      var doc := Hash([("emailaddress", Hash([("subscriptions", Arr([entry]))]))]);
      Newsletter(doc) == Ok(false)
  {
    var entry := Hash([("type", Str("newsletter"))]);
    var doc := Hash([("emailaddress", Hash([("subscriptions", Arr([entry]))]))]);
    NewsletterMembership(doc);
    assert Str("newsletter") != entry;
  }

  /**
   * Prefill is allowed exactly when the stored value is the String
   * "allowed"; a missing value stringifies to "" and gives false.
   */
  lemma {:induction false} PrefillOnlyWhenAllowed(doc: Value)
    requires doc.Hash?
    ensures var prefs := Lookup(doc.members, "preferences");
      && (Prefill(doc) == Ok(true) <==>
            prefs.Hash? && Lookup(prefs.members, "prefill_forms") == Str("allowed"))
      && (prefs.Nil? ==> Prefill(doc) == Ok(false))
  {
    var prefs := Lookup(doc.members, "preferences");
    DigTwo(doc, "preferences", "prefill_forms");
    if prefs.Hash? {
      ToSIsWord(Lookup(prefs.members, "prefill_forms"), "allowed");
    }
  }

  /** On an account Hash the e-mail address is nil when either level is missing. */
  lemma EmailMissing(doc: Value)
    requires doc.Hash?
    ensures var email := Lookup(doc.members, "emailaddress");
      && (email.Nil? ==> EmailIn(doc) == Ok(Nil))
      && (email.Hash? ==> EmailIn(doc) == Ok(Lookup(email.members, "emailaddress")))
  {
    DigTwo(doc, "emailaddress", "emailaddress");
  }

  class Account {
    const client: Client
    const sessionId: string
    const sessionCookieName: string
    const userId: string
    /** @account_info: nil until a truthy document has been fetched. */
    var info: Value
    /** Requests this account has handed to the client. */
    ghost var fetches: nat

    /** The request every fetch of this account sends. */
    function AccountRequest(): Request {
      Request(AccountPath(userId), Timeout, Timeout,
        map["Cookie" := Some(sessionCookieName + "=" + sessionId + ";")])
    }

    /** What a fetch yields: the classified response, nil included. */
    ghost function FetchOutcome(): Result<Value> {
      Classify(client.server(AccountRequest()), client.parse)
    }

    /** The document the next accessor call works on, or the exception it raises. */
    ghost function Current(): Result<Value>
      reads this
    {
      if Truthy(info) then Ok(info) else FetchOutcome()
    }

    /** The cache is either empty (falsy) or the document the fetch gives, after at least one fetch. */
    ghost predicate Valid()
      reads this
    {
      Truthy(info) ==> FetchOutcome() == Ok(info) && fetches >= 1
    }

    /**
     * One accessor call: with a truthy cache nothing is sent and nothing
     * changes; otherwise exactly one account request is sent and its
     * result, nil or not, replaces the cache unless the fetch raised.
     */
    twostate predicate Memoised()
      reads this, client
    {
      if Truthy(old(info)) then
        && info == old(info) && fetches == old(fetches)
        && client.sent == old(client.sent)
      else
        && fetches == old(fetches) + 1
        && client.sent == old(client.sent) + [AccountRequest()]
        && info == (if FetchOutcome().Ok? then FetchOutcome().value else old(info))
    }

    constructor (client: Client, sessionId: string, sessionCookieName: string, userId: string)
      ensures this.client == client && this.sessionId == sessionId
      ensures this.sessionCookieName == sessionCookieName && this.userId == userId
      ensures Valid() && info == Nil && fetches == 0
    {
      this.client := client;
      this.sessionId := sessionId;
      this.sessionCookieName := sessionCookieName;
      this.userId := userId;
      info := Nil;
      fetches := 0;
    }

    /** Account#account: the `||=` memo. */
    method Document() returns (r: Result<Value>)
      requires Valid()
      modifies this, client
      ensures Valid() && Memoised()
      ensures r == old(Current())
      ensures r.Ok? ==> info == r.value
    {
      var escaped := Escape(userId);
      if Truthy(info) {
        return Ok(info);
      }
      SingleCookieRequest(AccountsPrefix + escaped, sessionCookieName, sessionId, client.otp);
      var fetched := client.GetRequest(AccountsPrefix + escaped, CookieOptions(sessionCookieName, sessionId));
      fetches := fetches + 1;
      if fetched.Err? {
        return fetched;
      }
      info := fetched.value;
      r := Ok(info);
    }

    /** Account#exists?: `account && account["id"]`, reading the memo twice. */
    method Exists() returns (r: Result<Value>)
      requires Valid()
      modifies this, client
      ensures Valid() && Memoised()
      ensures r == Then(old(Current()), AccountExists)
    {
      var doc := Document();
      if doc.Err? || !Truthy(doc.value) {
        return Then(doc, AccountExists);
      }
      var again := Document();
      r := Then(again, (d: Value) => Index(d, "id"));
    }

    /** Account#subscribed_to_newsletter? */
    method SubscribedToNewsletter() returns (r: Result<bool>)
      requires Valid()
      modifies this, client
      ensures Valid() && Memoised()
      ensures r == Then(old(Current()), Newsletter)
    {
      var doc := Document();
      r := Then(doc, Newsletter);
    }

    /** Account#allow_prefill? */
    method AllowPrefill() returns (r: Result<bool>)
      requires Valid()
      modifies this, client
      ensures Valid() && Memoised()
      ensures r == Then(old(Current()), Prefill)
    {
      var doc := Document();
      r := Then(doc, Prefill);
    }

    /** Account#name */
    method Name() returns (r: Result<Value>)
      requires Valid()
      modifies this, client
      ensures Valid() && Memoised()
      ensures r == Then(old(Current()), Field("name"))
    {
      var doc := Document();
      r := Then(doc, Field("name"));
    }

    /** Account#email */
    method Email() returns (r: Result<Value>)
      requires Valid()
      modifies this, client
      ensures Valid() && Memoised()
      ensures r == Then(old(Current()), EmailIn)
    {
      var doc := Document();
      r := Then(doc, EmailIn);
    }

    /** Account#address */
    method Address() returns (r: Result<Value>)
      requires Valid()
      modifies this, client
      ensures Valid() && Memoised()
      ensures r == Then(old(Current()), Field("postaladdress"))
    {
      var doc := Document();
      r := Then(doc, Field("postaladdress"));
    }

    /** Account#preferences */
    method Preferences() returns (r: Result<Value>)
      requires Valid()
      modifies this, client
      ensures Valid() && Memoised()
      ensures r == Then(old(Current()), Field("preferences"))
    {
      var doc := Document();
      r := Then(doc, Field("preferences"));
    }

    /** Account#donor_info */
    method DonorInfo() returns (r: Result<Value>)
      requires Valid()
      modifies this, client
      ensures Valid() && Memoised()
      ensures r == Then(old(Current()), Field("donorclass"))
    {
      var doc := Document();
      r := Then(doc, Field("donorclass"));
    }
  }

  /**
   * A nil account document is not kept: two accessor calls on an account
   * the service does not return send two requests, and the field accessor
   * raises NoMethodError on the nil document.
   */
  method AskTwiceWhenMissing(a: Account) returns (present: Result<Value>, name: Result<Value>)
    requires a.Valid() && a.info == Nil
    requires a.FetchOutcome() == Ok(Nil)
    modifies a, a.client
    ensures a.fetches == old(a.fetches) + 2
    ensures a.client.sent == old(a.client.sent) + [a.AccountRequest(), a.AccountRequest()]
    ensures present == Ok(Nil) && name == Err(NoMethodError)
  {
    present := a.Exists();
    name := a.Name();
  }
}
