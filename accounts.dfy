/**
 * The OpenStax Accounts client adapter: the token-response cleanup, the
 * configuration and endpoint set-up, the access-token passthrough, the two
 * user searches and message sending, over the delegate in module Sanction.
 */
module Accounts {
  import opened Wrappers
  import opened Urls
  import opened Html
  import opened Forms
  import Sanction

  // ---------------------------------------------------------------------
  // Token-response cleanup

  /** A decoded JSON value. */
  datatype JsonValue =
    | JNull
    | JBool(b: bool)
    | JNumber(n: int)
    | JString(s: string)
    | JArray(items: seq<JsonValue>)
    | JObject(fields: map<string, JsonValue>)

  const ExpiresIn: string := "expires_in"

  /** `data.get(key, default)`. */
  function GetOr(data: map<string, JsonValue>, key: string, default: JsonValue): (r: JsonValue)
    ensures key in data ==> r == data[key]
    ensures key !in data ==> r == default
  {
    if key in data then data[key] else default
  }

  /**
   * The parser given to the token exchange, applied to the decoded object:
   * `expires_in` is dropped exactly when it is present with a null value, and
   * every other entry is kept as it was.
   */
  method ParserRemoveNullExpiresIn(decoded: map<string, JsonValue>) returns (data: map<string, JsonValue>)
    ensures ExpiresIn in data <==> ExpiresIn in decoded && decoded[ExpiresIn] != JNull
    ensures forall k :: k in data ==> k in decoded && data[k] == decoded[k]
    ensures forall k :: k in decoded && k != ExpiresIn ==> k in data
    ensures !(ExpiresIn in decoded && decoded[ExpiresIn] == JNull) ==> data == decoded
    ensures forall k :: k in data ==> k != ExpiresIn || data[k] != JNull
  {
    data := decoded;
    if GetOr(data, ExpiresIn, JString("")) == JNull {
      data := data - {ExpiresIn};
    }
  }

  // ---------------------------------------------------------------------
  // Configuration

  /** The class-level defaults: server URL, application id and secret, application URL. */
  datatype Config = Config(
    serverUrl: Option<Url>,
    applicationId: Option<string>,
    applicationSecret: Option<string>,
    applicationUrl: Option<Url>)

  /** A string argument counts as given when it is present and not empty. */
  predicate TruthyText(s: Option<string>) {
    s.Some? && s.value != ""
  }

  /** A text setting: the argument when it is truthy, the class default otherwise. */
  function OverrideText(arg: Option<string>, default: Option<string>): (r: Option<string>)
    ensures TruthyText(arg) ==> r == arg
    ensures !TruthyText(arg) ==> r == default
    ensures TruthyText(r) <==> TruthyText(arg) || TruthyText(default)
  {
    if TruthyText(arg) then arg else default
  }

  /** A URL setting: the argument when it is truthy, the class default otherwise. */
  function OverrideUrl(arg: Option<Url>, default: Option<Url>): (r: Option<Url>)
    ensures TruthyUrl(arg) ==> r == arg
    ensures !TruthyUrl(arg) ==> r == default
    ensures TruthyUrl(r) <==> TruthyUrl(arg) || TruthyUrl(default)
  {
    if TruthyUrl(arg) then arg else default
  }

  // ---------------------------------------------------------------------
  // Endpoints

  const AuthorizePath: string := "/oauth/authorize"
  const TokenPath: string := "/oauth/token"
  const CallbackPath: string := "/callback"

  /** The authorization endpoint derived from the server URL. */
  function AuthorizeUrl(serverUrl: Option<Url>): (r: Url)
    ensures r.path == AuthorizePath && r.query == "" && r.fragment == ""
    ensures serverUrl.Some? ==> r.scheme == serverUrl.value.scheme && r.authority == serverUrl.value.authority
    ensures serverUrl.None? ==> r == PathOnly(AuthorizePath)
  {
    UrlJoin(serverUrl, AuthorizePath)
  }

  /** The token endpoint derived from the server URL. */
  function TokenUrl(serverUrl: Option<Url>): (r: Url)
    ensures r.path == TokenPath && r.query == "" && r.fragment == ""
    ensures serverUrl.Some? ==> r.scheme == serverUrl.value.scheme && r.authority == serverUrl.value.authority
    ensures serverUrl.None? ==> r == PathOnly(TokenPath)
  {
    UrlJoin(serverUrl, TokenPath)
  }

  /** The redirect URI derived from the application URL. */
  function RedirectUri(applicationUrl: Option<Url>): (r: Url)
    ensures r.path == CallbackPath && r.query == "" && r.fragment == ""
    ensures applicationUrl.Some? ==> r.scheme == applicationUrl.value.scheme && r.authority == applicationUrl.value.authority
    ensures applicationUrl.None? ==> r == PathOnly(CallbackPath)
  {
    UrlJoin(applicationUrl, CallbackPath)
  }

  /** The authorization and token endpoints share the server's origin and differ only in their paths. */
  lemma EndpointsShareOrigin(serverUrl: Option<Url>)
    ensures AuthorizeUrl(serverUrl).(path := TokenPath) == TokenUrl(serverUrl)
    ensures AuthorizeUrl(serverUrl) != TokenUrl(serverUrl)
  {
  }

  // ---------------------------------------------------------------------
  // Request paths and the message form

  const ApplicationUsersPath: string := "/api/application_users.json?"
  const UsersPath: string := "/api/users.json?"
  const MessagesPath: string := "/api/messages.json"

  /** The query form `{'q': query}`. */
  function QueryForm(query: string): (r: Form)
    ensures FormGet(r, "q") == Some(Str(query)) && |r| == 1
  {
    [("q", Str(query))]
  }

  /** The path `search` requests: the application-users endpoint and the encoded query. */
  function SearchPath(urlencode: Encoder, query: string): (r: string)
    ensures |r| >= |ApplicationUsersPath| && r[..|ApplicationUsersPath|] == ApplicationUsersPath
    ensures r[|ApplicationUsersPath|..] == urlencode(QueryForm(query), false)
  {
    ApplicationUsersPath + urlencode(QueryForm(query), false)
  }

  /** The path `global_search` requests: the users endpoint and the encoded query. */
  function GlobalSearchPath(urlencode: Encoder, query: string): (r: string)
    ensures |r| >= |UsersPath| && r[..|UsersPath|] == UsersPath
    ensures r[|UsersPath|..] == urlencode(QueryForm(query), false)
  {
    UsersPath + urlencode(QueryForm(query), false)
  }

  /**
   * The three kinds of request never share a path: whatever the encoder
   * produces, a search is never mistaken for a global search, and neither is
   * a message request.
   */
  lemma RequestPathsDistinct(urlencode: Encoder, q1: string, q2: string)
    ensures SearchPath(urlencode, q1) != GlobalSearchPath(urlencode, q2)
    ensures SearchPath(urlencode, q1) != MessagesPath
    ensures GlobalSearchPath(urlencode, q2) != MessagesPath
  {
    var s, g := SearchPath(urlencode, q1), GlobalSearchPath(urlencode, q2);
    assert s[5] == 'a' && g[5] == 'u' && MessagesPath[5] == 'm';
  }

  /** The query `send_message` looks the recipient up with. */
  function LookupQuery(username: string): (r: string)
    ensures |r| == 9 + |username| && r[..9] == "username:" && r[9..] == username
  {
    "username:" + username
  }

  /** The form of a message request, in the order the source lists its fields. */
  function MessageForm(userId: int, subject: string, body: string): (r: Form)
    ensures |r| == 5 && DistinctKeys(r)
    ensures r[0].0 == "user_id" && r[1].0 == "to[user_ids][]" && r[2].0 == "subject"
         && r[3].0 == "body[text]" && r[4].0 == "body[html]"
    ensures FormGet(r, "user_id") == Some(Int(userId))
    ensures FormGet(r, "to[user_ids][]") == Some(IntList([userId]))
    ensures FormGet(r, "subject") == Some(Str(subject))
    ensures FormGet(r, "body[text]") == Some(Str(body))
    ensures FormGet(r, "body[html]") == Some(Str(HtmlDocument(body)))
  {
    var form := [ ("user_id", Int(userId)),
                  ("to[user_ids][]", IntList([userId])),
                  ("subject", Str(subject)),
                  ("body[text]", Str(body)),
                  ("body[html]", Str(HtmlDocument(body))) ];
    FormGetDistinct(form, 2);
    FormGetDistinct(form, 3);
    FormGetDistinct(form, 4);
    form
  }

  // ---------------------------------------------------------------------
  // Recipient lookup

  /**
   * The id of the LAST entry whose username is exactly `username`, or None when
   * no entry has it: what the lookup loop of `send_message` leaves behind.
   */
  function LastMatchingId(users: seq<Sanction.User>, username: string): (r: Option<int>)
    ensures r.None? <==> forall i :: 0 <= i < |users| ==> users[i].username != username
    ensures r.Some? ==> exists i :: 0 <= i < |users| && users[i].username == username && users[i].id == r.value
                                    && forall j :: i < j < |users| ==> users[j].username != username
  {
    if users == [] then None
    else if users[|users| - 1].username == username then Some(users[|users| - 1].id)
    else LastMatchingId(users[..|users| - 1], username)
  }

  /** A match appended at the end wins over every earlier one. */
  lemma LastMatchWins(users: seq<Sanction.User>, u: Sanction.User)
    ensures LastMatchingId(users + [u], u.username) == Some(u.id)
  {
  }

  /** Entries with another username never change the outcome of the lookup. */
  lemma {:induction false} LookupIgnoresOthers(users: seq<Sanction.User>, others: seq<Sanction.User>, username: string)
    requires forall i :: 0 <= i < |others| ==> others[i].username != username
    ensures LastMatchingId(users + others, username) == LastMatchingId(users, username)
  {
    if others != [] {
      var init := others[..|others| - 1];
      assert (users + others)[..|users + others| - 1] == users + init;
      LookupIgnoresOthers(users, init, username);
    } else {
      assert users + others == users;
    }
  }

  /** What `send_message` raises when no entry matches. */
  datatype UserNotFoundException = UserNotFoundException(message: string)

  function NotFoundMessage(username: string): (r: string)
    ensures |r| == |username| + 17 && r[..6] == "User \""
    ensures r[6..6 + |username|] == username && r[6 + |username|..] == "\" not found"
  {
    "User \"" + username + "\" not found"
  }

  // ---------------------------------------------------------------------
  // The client

  class OpenstaxAccounts {
    const serverUrl: Option<Url>
    const applicationId: Option<string>
    const applicationSecret: Option<string>
    const applicationUrl: Option<Url>
    const redirectUri: Url
    const sanctionClient: Sanction.Client
    /** `urllib`'s form encoder, kept abstract. */
    const urlencode: Encoder

    /**
     * Builds the client: each argument replaces the class-level default only
     * when it is truthy; the delegate gets the endpoints derived from the
     * server URL, and the redirect URI is derived from the application URL.
     * `reply` is what the remote service will answer to every request.
     */
    constructor (serverUrl: Option<Url>, applicationId: Option<string>,
                 applicationSecret: Option<string>, applicationUrl: Option<Url>,
                 defaults: Config, urlencode: Encoder, reply: seq<Sanction.User>)
      ensures this.serverUrl == OverrideUrl(serverUrl, defaults.serverUrl)
      ensures this.applicationId == OverrideText(applicationId, defaults.applicationId)
      ensures this.applicationSecret == OverrideText(applicationSecret, defaults.applicationSecret)
      ensures this.applicationUrl == OverrideUrl(applicationUrl, defaults.applicationUrl)
      ensures redirectUri == RedirectUri(this.applicationUrl)
      ensures this.urlencode == urlencode
      ensures fresh(sanctionClient)
      ensures sanctionClient.resourceEndpoint == this.serverUrl
      ensures sanctionClient.authEndpoint == AuthorizeUrl(this.serverUrl)
      ensures sanctionClient.tokenEndpoint == TokenUrl(this.serverUrl)
      ensures sanctionClient.clientId == this.applicationId
      ensures sanctionClient.clientSecret == this.applicationSecret
      ensures sanctionClient.reply == reply
      ensures sanctionClient.accessToken == None && sanctionClient.requests == []
    {
      // Each setting starts as the class default; a truthy argument replaces it.
      var server, id, secret, application :=
        defaults.serverUrl, defaults.applicationId, defaults.applicationSecret, defaults.applicationUrl;
      if TruthyUrl(serverUrl) {
        server := serverUrl;
      }
      if TruthyText(applicationId) {
        id := applicationId;
      }
      if TruthyText(applicationSecret) {
        secret := applicationSecret;
      }
      if TruthyUrl(applicationUrl) {
        application := applicationUrl;
      }
      this.serverUrl, this.applicationId, this.applicationSecret, this.applicationUrl :=
        server, id, secret, application;

      var resourceUrl := server;
      var authorizeUrl := UrlJoin(server, AuthorizePath);
      var tokenUrl := UrlJoin(server, TokenPath);
      this.redirectUri := UrlJoin(application, CallbackPath);

      this.sanctionClient := new Sanction.Client(authorizeUrl, tokenUrl, resourceUrl, id, secret, reply);
      this.urlencode := urlencode;
    }

    /** The access token, read from the delegate. */
    function AccessToken(): (t: Option<string>)
      reads sanctionClient
      ensures t == sanctionClient.accessToken
    {
      sanctionClient.accessToken
    }

    /** Stores `t` as the delegate's access token; nothing else changes. */
    method SetAccessToken(t: Option<string>)
      modifies sanctionClient`accessToken
      ensures sanctionClient.accessToken == t && AccessToken() == t
      ensures sanctionClient.requests == old(sanctionClient.requests)
    {
      sanctionClient.accessToken := t;
    }

    /** Passes a request through to the delegate. */
    method Request(path: string, data: Option<string>) returns (result: Sanction.SearchResult)
      modifies sanctionClient`requests
      ensures sanctionClient.requests == old(sanctionClient.requests) + [Sanction.LoggedRequest(path, data)]
      ensures result == Sanction.SearchResult(sanctionClient.reply)
    {
      result := sanctionClient.Request(path, data);
    }

    /** Searches the application's users: one request, to the application-users path. */
    method Search(query: string) returns (result: Sanction.SearchResult)
      modifies sanctionClient`requests
      ensures sanctionClient.requests
           == old(sanctionClient.requests) + [Sanction.LoggedRequest(SearchPath(urlencode, query), None)]
      ensures result == Sanction.SearchResult(sanctionClient.reply)
    {
      result := Request(SearchPath(urlencode, query), None);
    }

    /** Searches all users: one request, to the users path. */
    method GlobalSearch(query: string) returns (result: Sanction.SearchResult)
      modifies sanctionClient`requests
      ensures sanctionClient.requests
           == old(sanctionClient.requests) + [Sanction.LoggedRequest(GlobalSearchPath(urlencode, query), None)]
      ensures result == Sanction.SearchResult(sanctionClient.reply)
    {
      result := Request(GlobalSearchPath(urlencode, query), None);
    }

    /**
     * Looks the recipient up by exact username (the last match wins) and, when
     * found, sends one message request; when not found, raises
     * UserNotFoundException after the lookup and issues nothing more.
     */
    method SendMessage(username: string, subject: string, body: string)
      returns (outcome: Outcome<UserNotFoundException>)
      modifies sanctionClient`requests
      ensures var lookup := Sanction.LoggedRequest(GlobalSearchPath(urlencode, LookupQuery(username)), None);
        match LastMatchingId(sanctionClient.reply, username)
        case None =>
          && outcome == Fail(UserNotFoundException(NotFoundMessage(username)))
          && sanctionClient.requests == old(sanctionClient.requests) + [lookup]
        case Some(id) =>
          && outcome == Pass
          && sanctionClient.requests == old(sanctionClient.requests) + [lookup,
               Sanction.LoggedRequest(MessagesPath, Some(urlencode(MessageForm(id, subject, body), true)))]
      ensures outcome.Fail? ==>
        forall k :: |old(sanctionClient.requests)| <= k < |sanctionClient.requests| ==>
          sanctionClient.requests[k].path != MessagesPath
    {
      var users := GlobalSearch(LookupQuery(username));
      var userid: Option<int> := None;
      var i := 0;
      while i < |users.users|
        invariant 0 <= i <= |users.users|
        invariant userid == LastMatchingId(users.users[..i], username)
      {
        assert users.users[..i + 1][..i] == users.users[..i];
        if users.users[i].username == username {
          userid := Some(users.users[i].id);
        }
        i := i + 1;
      }
      assert users.users[..i] == users.users;
      if userid.None? {
        RequestPathsDistinct(urlencode, "", LookupQuery(username));
        return Fail(UserNotFoundException(NotFoundMessage(username)));
      }
      var _ := Request(MessagesPath, Some(urlencode(MessageForm(userid.value, subject, body), true)));
      outcome := Pass;
    }
  }
}
