# campact_user_service in Dafny

A model of the Ruby client library `campact_user_service`. The library talks to
a user/session REST service. The model covers three parts:

- `CampactUserService::Client`. This covers how `Client.new` turns its options into
  Faraday connection settings: the endpoint, the shallow merge of Faraday options
  over the defaults, and the adapter. It also covers what `get_request` writes on
  the request (path, both timeouts, `Cookie` and `authorization` headers) and how
  the response becomes a result (the parsed document for status 200, nil otherwise).
- `CampactUserService::Session`. It fetches `/v1/sessions` once with the session
  cookie, keeps the document (nil becomes `{}`), and answers `exists?`, `user_id`,
  `has_soft_login_session?` and `has_hard_login_session?` from it.
- `CampactUserService::Account`. It fetches `accounts/v1/<URI.escape(user_id)>`
  with the session cookie and memoises the result with `||=`. Only a truthy
  document is kept. It answers `exists?`, `subscribed_to_newsletter?`,
  `allow_prefill?`, `name`, `email`, `address`, `preferences` and `donor_info`.

Files:

- `ruby.dfy` (module `Ruby`): the Ruby values `JSON.parse` produces, the exceptions,
  and `[]`, `dig`, `include?`, `to_s` and truthiness as Ruby 2.x defines them.
- `text.dfy` (module `Text`): splitting at a separator. The client's strings are
  read back with it.
- `uri_escape.dfy` (module `UriEscape`): `URI.escape` with its default unsafe set.
  This follows sections 2.2, 2.3 and 2.4.1 of RFC 2396, plus the brackets from
  RFC 2732. A non-safe character becomes the `%XX` escapes of its UTF-8 bytes.
- `client.dfy` (module `HttpClient`): the client.
- `session.dfy` (module `SessionView`) and `account.dfy` (module `AccountView`):
  the two views as classes with a cache field and a ghost count of fetches.

Black boxes:

- The transport and the remote service are modelled together as one function
  `server: Request -> Response` held by the client.
- `JSON.parse` is a function `parse: string -> Option<Value>`. None stands for
  `JSON::ParserError`.
- The one-time password is a function `otp: string -> string`. It maps a secret
  to the code at the moment of the call.
- The client keeps a ghost log `sent` of the requests handed to the transport.

## Model

| member | source | states |
|---|---|---|
| `HttpClient.Connect` | lib/campact_user_service/client.rb:12-22 | KeyError("host") exactly when `:host` is missing. Otherwise a fresh client whose scheme defaults to "https", whose connection URL is the endpoint, whose Faraday options are the merge and whose adapter is the one chosen, with nothing sent yet |
| `HttpClient.ConnectionOptions` | lib/campact_user_service/client.rb:16 | shallow merge: each caller key other than `:adapter` wins wholesale (including `:ssl` and `:headers`), each default the caller omits is kept, `:adapter` is never among the connection options |
| `HttpClient.AdapterFor` | lib/campact_user_service/client.rb:17 | the adapter is the caller's `:adapter` when truthy, otherwise Faraday's default; it is always truthy |
| `HttpClient.Endpoint` | lib/campact_user_service/client.rb:58-65 | the endpoint is `scheme://host`, then `:port` exactly when a port is given; when scheme and host contain no colon, scheme, host and port can be read back from it |
| `HttpClient.BaseUrlRoundTrip` | lib/campact_user_service/client.rb:58-65 | parsing the base URL gives back scheme, host and optional port (so distinct settings give distinct endpoints) when scheme and host contain no colon |
| `HttpClient.FormatCookies` | lib/campact_user_service/client.rb:67-74 | a String cookie passes through verbatim, any non-String non-Hash gives nil, a Hash gives a header from which its pairs can be read back (names without `=`, values without `;`) |
| `HttpClient.CookiePairsAppend` | lib/campact_user_service/client.rb:72 | the Hash serialisation of `a + b` is that of `a` followed by that of `b`: pairs in iteration order, no separator |
| `HttpClient.CookiePairsRoundTrip` | lib/campact_user_service/client.rb:72 | splitting the serialised header at `=` and `;` recovers exactly the pairs in order |
| `HttpClient.Authorization` | lib/campact_user_service/client.rb:76-83 | KeyError("user") when `:user` is missing, else KeyError("secret") when `:secret` is missing; otherwise a header beginning `Token ` from which user and password code are read back when the user has no colon |
| `HttpClient.AuthorizationRoundTrip` | lib/campact_user_service/client.rb:80-82 | `Token <user>:<code>` starts with `Token ` and splits back into user and code at the first colon after it |
| `HttpClient.PrepareRequest` | lib/campact_user_service/client.rb:25-36 | the request has the given path and both timeouts at 5; a Cookie header exactly when `:cookies` is given, holding format_cookies of it; an authorization header exactly when `:topt_authorization` is truthy; no other header; a KeyError from the authorization options is the only failure |
| `HttpClient.SingleCookieRequest` | lib/campact_user_service/session.rb:30 | a call with `cookies: {name => value}` carries only `Cookie: name=value;` and never fails before sending |
| `HttpClient.Classify` | lib/campact_user_service/client.rb:38-42 | status 200 gives the parsed body or JSON::ParserError; every other status gives nil and never raises |
| `HttpClient.NonSuccessIsNil` | lib/campact_user_service/client.rb:38-42 | for every status other than 200 (204, 404, 5xx included) the result is nil, which is falsy |
| `HttpClient.Client.GetRequest` | lib/campact_user_service/client.rb:24-43 | when the request cannot be prepared, nothing is sent and the KeyError is the result; otherwise exactly that request is appended to the log and the result is the classified response |
| `SessionView.Session.constructor` | lib/campact_user_service/session.rb:5-9 | client, session id and cookie name are stored; the cache is empty and no fetch has happened |
| `SessionView.Session.Document` | lib/campact_user_service/session.rb:29-31 | with a cached document, returns it and sends nothing; otherwise sends the single `/v1/sessions` request with the session cookie and caches the result with nil replaced by `{}`. The cache is never nil, and every fetch except the cached one raised |
| `SessionView.OrEmpty` | lib/campact_user_service/session.rb:30 | `result \|\| {}` is always truthy, keeps a truthy result and turns nil or false into `{}` |
| `SessionView.Session.Exists` | lib/campact_user_service/session.rb:11-13 | `session && session['id']` on the memoised document, with the same fetch-at-most-once bookkeeping |
| `SessionView.Session.UserId` | lib/campact_user_service/session.rb:15-17 | the document's `user_id`, nil when absent, on the memoised document |
| `SessionView.Session.HasSoftLoginSession` | lib/campact_user_service/session.rb:19-21 | whether `permission_level` equals "limited", on the memoised document |
| `SessionView.Session.HasHardLoginSession` | lib/campact_user_service/session.rb:23-25 | whether `permission_level` equals "full", on the memoised document |
| `SessionView.LoginLevels` | lib/campact_user_service/session.rb:19-25 | soft login iff the level is "limited", hard iff "full", never both, neither for any other or a missing level |
| `SessionView.AbsentSession` | lib/campact_user_service/session.rb:11-30 | after a non-200 fetch the cached document is `{}`: `exists?` is falsy, `user_id` is nil, both login predicates are false |
| `SessionView.AskEverything` | lib/campact_user_service/session.rb:11-31 | all four accessors on a fresh session send exactly one request when that fetch succeeds, and all answer from the same document |
| `AccountView.Account.constructor` | lib/campact_user_service/account.rb:5-10 | client, session id, cookie name and user id are stored; the cache is nil and nothing was fetched |
| `AccountView.AccountPath` | lib/campact_user_service/account.rb:49-51 | the path is `accounts/v1/` followed by an escaped id that decodes back to the UTF-8 bytes of the user id |
| `UriEscape.Escape` | lib/campact_user_service/account.rb:49 | the escaped id holds only RFC 2396 safe characters, `%` and hex digits (no control characters, no spaces) and is at least as long as the input |
| `UriEscape.EscapeRoundTrip` | lib/campact_user_service/account.rb:49 | percent-decoding the escaped id gives exactly the UTF-8 bytes of the id |
| `UriEscape.EscapeKeepsSafe` | lib/campact_user_service/account.rb:49 | an id made only of safe characters, `/` and `@` among them, is sent unchanged |
| `UriEscape.EscapeControlCharacters` | lib/campact_user_service/account.rb:49 | tab and carriage return become `%09%0D` |
| `UriEscape.EscapeKeepsSlash` | lib/campact_user_service/account.rb:49 | `foo@example.com/secrets` is left as it is, slash included |
| `AccountView.Account.Document` | lib/campact_user_service/account.rb:48-54 | with a truthy cache, returns it and sends nothing; otherwise sends the account request with the session cookie and stores its result, nil included, unless it raised. A nil result therefore leads to a new fetch on the next access |
| `AccountView.Account.Exists` | lib/campact_user_service/account.rb:12-14 | `account && account["id"]`: a nil document is the answer, otherwise its `id`; at most one request per call |
| `AccountView.Account.SubscribedToNewsletter` | lib/campact_user_service/account.rb:16-19 | the newsletter test on the memoised document; raises NoMethodError on a nil document |
| `AccountView.NewsletterMembership` | lib/campact_user_service/account.rb:16-19 | on a Hash: true iff the String "newsletter" is in emailaddress/subscriptions; false when that list or the emailaddress entry is missing |
| `AccountView.NewsletterIgnoresTypedEntries` | lib/campact_user_service/account.rb:17-18 | a subscription list `[{"type" => "newsletter"}]` gives false |
| `AccountView.Account.AllowPrefill` | lib/campact_user_service/account.rb:21-24 | the prefill test on the memoised document |
| `AccountView.PrefillOnlyWhenAllowed` | lib/campact_user_service/account.rb:21-24 | on a Hash: true iff preferences/prefill_forms is the String "allowed"; false when preferences is missing |
| `Ruby.ToSIsWord` | lib/campact_user_service/account.rb:23 | `to_s` of a value equals a lower-case word other than true/false only when the value is that String; nil, numbers, Arrays and Hashes never match |
| `AccountView.Account.Name` | lib/campact_user_service/account.rb:26-28 | the top-level `name` of the memoised document |
| `AccountView.Account.Email` | lib/campact_user_service/account.rb:30-32 | emailaddress/emailaddress of the memoised document |
| `AccountView.EmailMissing` | lib/campact_user_service/account.rb:30-32 | on a Hash: nil when emailaddress is missing, the inner value when emailaddress is a Hash, nil too when the inner key is missing |
| `AccountView.Account.Address` | lib/campact_user_service/account.rb:34-36 | the top-level `postaladdress`, unchanged |
| `AccountView.Account.Preferences` | lib/campact_user_service/account.rb:38-40 | the top-level `preferences`, unchanged |
| `AccountView.Account.DonorInfo` | lib/campact_user_service/account.rb:42-44 | the top-level `donorclass`, unchanged |
| `AccountView.AskTwiceWhenMissing` | lib/campact_user_service/account.rb:12-54 | when the service answers nil, `exists?` then `name` send two requests; `exists?` is nil and `name` raises NoMethodError |
| `Ruby.DigTwo` | lib/campact_user_service/account.rb:17 | two-level `dig` on a Hash: nil when the first key is missing, the inner value under a Hash, TypeError under any other value |
| `Ruby.Index` | lib/campact_user_service/account.rb:27 | `[]` with a String key: a lookup on a Hash, NoMethodError on nil, and a raise for any receiver that is neither a Hash nor a String |
| `Ruby.Includes` | lib/campact_user_service/account.rb:18 | `include?`: element membership on an Array, key membership on a Hash, NoMethodError when the receiver has no `include?` |

## Where the code and the RSpec files disagree

The RSpec files describe a later version of the library. The model follows the
code in `lib/`. The differences:

- `delete_request`, `Session#destroy`, `ResponseError` raising on 3xx–5xx, and "204
  gives true" are tested in spec/client_spec.rb and spec/session_spec.rb. The code
  has none of them. In the code every status other than 200 gives nil.
- The tests expect an 8-digit TOTP with a 30-second interval, set up through a
  client option. The code uses 6 digits, `now(true)`, and a per-call
  `:topt_authorization` option.
- The tests expect User-Agent `campact_user_service`. The code sends
  `campact_user_service_api`.
- The tests expect `/v1/accounts/` with `/` escaped to `%2F`. The code uses
  `accounts/v1/` and `URI.escape`, which keeps `/` (`UriEscape.EscapeKeepsSlash`).
- The tests give subscriptions as `{"type": ...}` Hashes. The code tests for the
  String "newsletter" (`AccountView.NewsletterIgnoresTypedEntries`).
- The tests build `Account.new` with 2 arguments, and so does
  lib/campact_user_service.rb:14. The code's constructor takes 4 arguments.

## Left out

- Faraday itself is not modelled: building the connection, SSL, adapters, the
  actual GET, and merging the connection's default headers into each request.
  `Connect` records the arguments handed to `Faraday.new`, and `Request` records
  only what `get_request` writes on the builder.
- The network is a deterministic function of the request. Answers that change
  over time, and transport failures (timeouts, refused connections), are not
  modelled.
- The one-time password is not computed. `ROTP::TOTP`, `Base32.encode`, SHA-256
  and the wall clock are out of scope. The code is `otp(secret)` at the moment of
  the call.
- `JSON.parse` is a black box, and parsed values have no Floats. A parsed Hash
  with repeated keys is not normalised (`Lookup` takes the first entry).
- `Ruby.Inspect`: `String#inspect` escaping is not modelled. `to_s` of Arrays and
  Hashes is only used to show it is never "allowed".
- `HttpClient.Connect`: `options.delete(:faraday)` also removes `:faraday` from the
  caller's Hash. That side effect on the argument is not modelled. A `:scheme` or
  `:port` given as nil is not distinguished from an absent one, and a port is
  kept as its interpolated text.
- `HttpClient.CallOptions`: a `:topt_authorization` value that is truthy but not a
  Hash (which would raise NoMethodError on `fetch`) is not modelled. User and
  secret are Strings.
- `Ruby.Dig`: only String keys and the receivers JSON can produce are modelled.
- Concurrent first access to the `||=` caches is out of scope: the code is
  sequential.
- example.rb, lib/campact_user_service.rb (the factory that wires `Client.new` into
  the views) and lib/campact_user_service/response_error.rb (never raised by the
  code) are not part of this model.
