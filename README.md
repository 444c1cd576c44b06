# OpenStax Accounts client adapter, modelled in Dafny

`openstax_accounts` is a thin OAuth2 client for the OpenStax Accounts service.
It wraps a `sanction` OAuth2 client (the *delegate*) and adds a few things of its own:

- a token-response parser that drops a null `expires_in`;
- a constructor where per-instance settings override the class-level defaults, and endpoint URLs are derived from the server and application URLs;
- an `access_token` property that passes through to the delegate;
- two user searches;
- `send_message`, which resolves a username to a user id and then posts a message.

This project models that layer and proves what it promises. It follows the source as it runs under Python 3.7: dictionaries keep insertion order, and `cgi.escape` still exists (it was removed in Python 3.8).

Modules:

- `Wrappers`: `Option` and `Outcome`.
- `Urls`: URLs as split records (scheme, authority, path, query, fragment; an empty string means absent), the five parts `urlsplit` gives. `urlparse`'s extra `params` part is not modelled; it is always empty for the URLs involved. `UrlJoin` resolves an absolute-path reference against a base, as section 5.2.2 of RFC 3986 describes.
- `Html`: `cgi.escape` with its default `quote=None`, which leaves quotes alone, as a character-wise `Escape`, and an `Unescape` that inverts it. Also the `<html><body>…</body></html>` wrapper.
- `Forms`: the key/value pairs given to `urlencode`. The encoder stays abstract: an `Encoder` is a function `(Form, doseq) -> string` that the client receives at construction.
- `Sanction`: a stand-in for the delegate. It is a class with fixed endpoints and credentials, a mutable access token and a mutable request log. `Request` appends `(path, data)` to the log and returns a canned list of users. The network is replaced by this canned reply, fixed when the client is built.
- `Accounts`: the adapter itself. It holds the parser, the override rule, the endpoint and path functions, the message form, the recipient lookup `LastMatchingId`, and the class `OpenstaxAccounts`, whose methods change the delegate's token and log.

`send_message` keeps its loop. The loop scans every search result and does not break, so the last exact match wins. Its invariant ties the running `userid` to `LastMatchingId` of the prefix scanned so far. When there is no match, `SendMessage` returns `Fail(UserNotFoundException(...))` after the lookup request, and the log gains no `/api/messages.json` entry.

## Model

| member | source | states |
|---|---|---|
| Accounts.GetOr | openstax_accounts/openstax_accounts.py:24 | `data.get(key, default)`: the stored value when the key is present, the default otherwise |
| Accounts.ParserRemoveNullExpiresIn | openstax_accounts/openstax_accounts.py:22-26 | `expires_in` is kept exactly when it is present and non-null; every other entry is kept unchanged; when `expires_in` is absent or non-null the result equals the input, since the `''` default is not null; no null `expires_in` survives |
| Accounts.OverrideText | openstax_accounts/openstax_accounts.py:44-47 | a text argument replaces the class default only when it is truthy (present and non-empty); the setting is truthy iff the argument or the default is |
| Accounts.OverrideUrl | openstax_accounts/openstax_accounts.py:42-49 | the same rule for the server and application URLs (the empty URL is the falsy one) |
| Urls.UrlJoin | openstax_accounts/openstax_accounts.py:52-54 | joining with an absolute path keeps the base's scheme and authority, takes the given path, and drops the base's query and fragment; with no base the result is the bare path reference |
| Urls.JoinRebases | openstax_accounts/openstax_accounts.py:52-54 | the join does not depend on the base's own path: joining onto a joined URL equals joining onto the original base |
| Urls.JoinEmptyBase | openstax_accounts/openstax_accounts.py:52-54 | an empty base URL joins like a missing one |
| Accounts.AuthorizeUrl | openstax_accounts/openstax_accounts.py:52 | the authorize endpoint has the server URL's scheme and authority and the path `/oauth/authorize`; with no server URL it is the bare path `/oauth/authorize` |
| Accounts.TokenUrl | openstax_accounts/openstax_accounts.py:53 | the token endpoint has the server URL's scheme and authority and the path `/oauth/token`; with no server URL it is the bare path `/oauth/token` |
| Accounts.RedirectUri | openstax_accounts/openstax_accounts.py:54 | the redirect URI has the application URL's scheme and authority and the path `/callback`; with no application URL it is the bare path `/callback` |
| Accounts.EndpointsShareOrigin | openstax_accounts/openstax_accounts.py:52-53 | the authorize and token endpoints differ only in their path, and they are distinct |
| Accounts.OpenstaxAccounts.constructor | openstax_accounts/openstax_accounts.py:40-61 | every setting follows the override rule; the delegate gets the authorize and token endpoints derived from the server URL, the server URL itself as resource endpoint, and the resolved id and secret; the redirect URI is derived from the application URL |
| Sanction.Client.constructor | openstax_accounts/openstax_accounts.py:56-61 | the delegate stores the endpoints and credentials it is given, and starts with no token and an empty request log |
| Accounts.OpenstaxAccounts.AccessToken | openstax_accounts/openstax_accounts.py:63-65 | reading `access_token` returns the delegate's stored token |
| Accounts.OpenstaxAccounts.SetAccessToken | openstax_accounts/openstax_accounts.py:67-69 | after setting `t`, the delegate stores `t` and reading `access_token` returns `t`; the request log is untouched |
| Sanction.Client.Request | openstax_accounts/openstax_accounts.py:85-86 | a request is appended to the log, and the canned reply comes back |
| Accounts.OpenstaxAccounts.Request | openstax_accounts/openstax_accounts.py:85-86 | the passthrough appends exactly the given path and data to the delegate's log |
| Accounts.QueryForm | openstax_accounts/openstax_accounts.py:89-90 | the form holds the single pair `q` = query |
| Accounts.SearchPath | openstax_accounts/openstax_accounts.py:88-90 | the path is `/api/application_users.json?` followed by the encoding of `{q: query}` |
| Accounts.GlobalSearchPath | openstax_accounts/openstax_accounts.py:92-94 | the path is `/api/users.json?` followed by the encoding of `{q: query}` |
| Accounts.RequestPathsDistinct | openstax_accounts/openstax_accounts.py:88-105 | whatever the encoder, a search path, a global-search path and the messages path are pairwise different |
| Accounts.OpenstaxAccounts.Search | openstax_accounts/openstax_accounts.py:88-90 | exactly one request is issued, with the search path and no body |
| Accounts.OpenstaxAccounts.GlobalSearch | openstax_accounts/openstax_accounts.py:92-94 | exactly one request is issued, with the global-search path and no body |
| Accounts.LookupQuery | openstax_accounts/openstax_accounts.py:97 | the lookup query is exactly `username:` followed by the username |
| Accounts.LastMatchingId | openstax_accounts/openstax_accounts.py:98-101 | None iff no entry has exactly that username; otherwise the id of a matching entry after which no entry matches (the last match) |
| Accounts.LastMatchWins | openstax_accounts/openstax_accounts.py:99-101 | a match at the end of the results decides the id, whatever came before |
| Accounts.LookupIgnoresOthers | openstax_accounts/openstax_accounts.py:99-101 | entries with other usernames never change the lookup |
| Accounts.NotFoundMessage | openstax_accounts/openstax_accounts.py:103 | the error message is `User "`, then the username, then `" not found` |
| Forms.FormGet | openstax_accounts/openstax_accounts.py:105-112 | the lookup finds nothing iff no pair has the name, and otherwise finds a value one of its pairs carries |
| Forms.FormGetDistinct | openstax_accounts/openstax_accounts.py:105-112 | in a form without repeated names, looking up a pair's name yields that pair's value |
| Accounts.MessageForm | openstax_accounts/openstax_accounts.py:105-112 | exactly five fields with distinct names, in the source's order (`user_id`, `to[user_ids][]`, `subject`, `body[text]`, `body[html]`): `user_id` is the id, `to[user_ids][]` is the one-element list of the id, `subject` and `body[text]` are passed through, `body[html]` is the HTML document of the body |
| Html.EscapeChar | openstax_accounts/openstax_accounts.py:111 | `&`, `<`, `>` become `&amp;`, `&lt;`, `&gt;`; every other character stands for itself |
| Html.Escape | openstax_accounts/openstax_accounts.py:111 | the escaped text holds no `<` or `>`, is no shorter, and equals the input when there was nothing to escape |
| Html.UnescapeEscapeChar | openstax_accounts/openstax_accounts.py:111 | the entity written for one character reads back as that character, whatever text follows |
| Html.UnescapeEscape | openstax_accounts/openstax_accounts.py:111 | escaping is lossless: unescaping the escaped text gives back the input |
| Html.HtmlDocument | openstax_accounts/openstax_accounts.py:110-111 | the document is `<html><body>`, then the escaped body, then `</body></html>` |
| Html.HtmlDocumentBody | openstax_accounts/openstax_accounts.py:110-111 | the part between the tags holds no markup, and the plain body is recovered from it |
| Accounts.OpenstaxAccounts.SendMessage | openstax_accounts/openstax_accounts.py:96-112 | always one lookup request, with query `username:<name>`. If no result matches exactly, it fails with `UserNotFoundException` and issues no message request. Otherwise it issues exactly one `/api/messages.json` request, whose body encodes the message form for the last match's id |

## Left out

- `auth_uri`, `request_token_with_code` and `request_application_token` (lines 71-83): they hand URL building and the token exchange to `sanction`, whose code is not part of this model. The parser they pass is modelled as `ParserRemoveNullExpiresIn`.
- `json.loads`: the parser starts from the already-decoded object. A reply that is not a JSON object is not modelled. JSON numbers are integers only, since nothing here reads them.
- urlencode's percent-encoding, the `doseq` list flattening and query round-tripping: `urlencode` is an abstract function parameter.
- Python 3.8 and later: `cgi.escape` is gone there, so the success path of `send_message` raises `AttributeError` after the lookup request. The model follows Python 3.7 and does not model this.
- Forms.FormGet: form fields are kept in the order the dictionary literal lists them, as Python 3.7 encodes them. Under Python 2 the encoded order is the dictionary's hash order, which is not modelled.
- Urls.UrlJoin: covers only absolute-path references without `.` segments, the only kind the client passes. It does not model urljoin's list of schemes for which a reference is returned unresolved.
- Accounts.OverrideUrl: URLs are already-split records. A URL string such as `?` is truthy but splits to the empty record, and that case is not modelled.
- Sanction.Client.constructor: a new delegate is taken to hold no access token. What `sanction` really starts with is not part of this model.
- Transport and HTTP failures, which propagate unchanged in the source. The canned reply always succeeds and always has a `users` list.
- Dynamic-typing failures: a missing `users`, `username` or `id` key, and the exceptions `int(userid)` can raise. User ids are integers. A matched entry whose id is null is not modelled.
- `main` (lines 115-127): Pyramid settings lookup, the eager application-token request and registry registration.
- The Python 2/3 import shims (lines 6-13).
