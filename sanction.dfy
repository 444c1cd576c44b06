/**
 * A stand-in for the OAuth2 client object the adapter delegates to. Its
 * endpoints and credentials are fixed when it is built; it holds the current
 * access token; and instead of talking HTTP, `Request` appends the request to
 * a log and answers with a fixed list of users.
 */
module Sanction {
  import opened Wrappers
  import opened Urls

  /** One user entry of a search reply. */
  datatype User = User(id: int, username: string)

  /** A decoded search reply: `{"users": [...]}`. */
  datatype SearchResult = SearchResult(users: seq<User>)

  /** One issued request: the path relative to the resource endpoint and the encoded body, if any. */
  datatype LoggedRequest = LoggedRequest(path: string, data: Option<string>)

  class Client {
    const authEndpoint: Url
    const tokenEndpoint: Url
    const resourceEndpoint: Option<Url>
    const clientId: Option<string>
    const clientSecret: Option<string>
    /** What the remote side answers to every request. */
    const reply: seq<User>

    var accessToken: Option<string>
    /** Every request issued so far, oldest first. */
    var requests: seq<LoggedRequest>

    constructor (authEndpoint: Url, tokenEndpoint: Url, resourceEndpoint: Option<Url>,
                 clientId: Option<string>, clientSecret: Option<string>, reply: seq<User>)
      ensures this.authEndpoint == authEndpoint && this.tokenEndpoint == tokenEndpoint
      ensures this.resourceEndpoint == resourceEndpoint
      ensures this.clientId == clientId && this.clientSecret == clientSecret
      ensures this.reply == reply
      ensures accessToken == None && requests == []
    {
      this.authEndpoint := authEndpoint;
      this.tokenEndpoint := tokenEndpoint;
      this.resourceEndpoint := resourceEndpoint;
      this.clientId := clientId;
      this.clientSecret := clientSecret;
      this.reply := reply;
      accessToken := None;
      requests := [];
    }

    /** Issues one request: it is logged, and the canned reply comes back. */
    method Request(path: string, data: Option<string>) returns (result: SearchResult)
      modifies this`requests
      ensures requests == old(requests) + [LoggedRequest(path, data)]
      ensures result == SearchResult(reply)
    {
      requests := requests + [LoggedRequest(path, data)];
      result := SearchResult(reply);
    }
  }
}
