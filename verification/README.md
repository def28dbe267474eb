# MailjetClient request dispatch, modelled in Dafny

This project models the request-dispatch core of the Mailjet API v3 Java
client, the class `MailjetClient`:

- the constructor, which stores the API key and secret, installs a no-op
  request logger and registers the `Accept`, `user-agent` and HTTP Basic
  `Authorization` headers;
- `setDebug`, which stores the debug mode and installs a console logger for
  `VERBOSE_DEBUG`;
- the four verb methods `get`, `post`, `put` and `delete`. Each one builds
  `https://api.mailjet.com/v3` + the request's path. In `NOCALL_DEBUG` it answers
  with a JSON body describing the request and makes no transport call. In
  any other mode, when the request's path builds, it makes exactly one
  transport call with the registered headers, reads an empty reply body as
  `{}`, and returns the transport's status with the parsed JSON object. The
  two checked exceptions it catches become a `MailjetException`.

Everything the class delegates to stays uninterpreted. The HTTP transport,
the JSON parser, `String.getBytes` and `Base64.encode` are function-typed
fields of `Collaborators.Env`. The request's `buildUrl`, `queryString`, `_filters`,
`getBody` and `getContentType` are fields of `MailjetRequest.Request`. The
two of them that may throw hold a `Result`.

The client is an immutable value (`MailjetClient.Client`). A verb returns an
`Outcome`: the result, and `calls`, the log of the transport calls the method
made. `Session.Run` replays a sequence of `setDebug` and verb calls on one
client and concatenates those logs. This makes "no network call in dry-run
mode" a statement about a value.

Files: `wrappers.dfy` (Result), `json.dfy` (JSON values),
`collaborators.dfy` (transport calls, failures and the other collaborators),
`request.dfy` (request accessors), `auth.dfy` (Basic credentials),
`client.dfy` (client state, constructor, `setDebug`), `dispatch.dfy` (the
verb methods), `properties.dfy` (properties relating several calls),
`session.dfy` (the client over time).

Behaviour of the source that a reader might not expect:
- Debug modes are plain integers. `setDebug` accepts any value, and every
  value other than 2 takes the live path.
- Writes send `request.getContentType()`, not a fixed `application/json`.
- The constructor does not reject empty credentials.
- `get` says "Malformed URL" and the other verbs say "Malformed Url".
- The `delete` dry run shows the path without the filters. The live `delete`
  still sends the filters. `DispatchProperties.DeleteDryRunHidesFilters`
  states this choice, and `DispatchProperties.GetDryRunShowsQuery` states
  the contrasting `get` behaviour.
- A dry-run response is built by the one-argument `MailjetResponse`
  constructor, which is not part of this model. It is modelled as
  `Response.DryRun` and carries no status, so the model does not claim a
  status of 0.

## Model

| member | source | states |
|---|---|---|
| `MailjetClient.New` | src/main/java/com/mailjet/client/MailjetClient.java:42-90 | a new client keeps the key and secret unchanged, starts in NO_DEBUG with the no-op logger, and registers exactly the Accept, user-agent and Authorization headers with their fixed values |
| `MailjetClient.ColonKeyClientsShareHeaders` | src/main/java/com/mailjet/client/MailjetClient.java:84-89 | clients with key "a:b" and secret "c", and with key "a" and secret "b:c", register identical headers |
| `MailjetClient.SetDebug` | src/main/java/com/mailjet/client/MailjetClient.java:99-105 | any integer is stored verbatim; afterwards the logger is the console logger iff the mode is VERBOSE_DEBUG or the console logger was already installed; credentials and headers are untouched |
| `Auth.AuthorizationValue` | src/main/java/com/mailjet/client/MailjetClient.java:84-89 | the Authorization value always starts with "Basic " |
| `Auth.SplitJoin` | src/main/java/com/mailjet/client/MailjetClient.java:84 | splitting `apiKey ":" apiSecret` at the first colon, as a server reading Basic credentials does, gives back the key and the secret when the key has no colon |
| `Auth.ColonInKeyIsAmbiguous` | src/main/java/com/mailjet/client/MailjetClient.java:84 | a key containing a colon makes the join ambiguous: ("a:b", "c") and ("a", "b:c") give the same user-pass string |
| `Auth.CredentialsInjective` | src/main/java/com/mailjet/client/MailjetClient.java:84 | two colon-free keys with their secrets give the same user-pass string only if both keys and both secrets are equal |
| `Auth.AuthorizationRoundTrip` | src/main/java/com/mailjet/client/MailjetClient.java:84-89 | given decoders for Base64 and the byte encoding, the header value of a key without a colon decodes back to exactly (apiKey, apiSecret), provided `getBytes` (in the default charset) and Base64 encode this credential string without loss |
| `Auth.AuthorizationDeterminesCredentials` | src/main/java/com/mailjet/client/MailjetClient.java:84-89 | for keys without a colon, with `getBytes` and Base64 encoding the two credential strings without loss, two clients register the same Authorization header only if they hold the same key and secret |
| `Dispatch.Catch` | src/main/java/com/mailjet/client/MailjetClient.java:133-137 | a malformed-URL failure becomes MailjetException with the verb's "Malformed URL"/"Malformed Url" message, an unsupported-encoding failure becomes the "Unsupported Encoding" MailjetException (both iff), and every other exception escapes unchanged |
| `Dispatch.NormaliseBody` | src/main/java/com/mailjet/client/MailjetClient.java:126-130 | the text handed to the parser is never empty: an empty body becomes "{}" and a non-empty one is kept |
| `Dispatch.DryRunBody` | src/main/java/com/mailjet/client/MailjetClient.java:151-155 | the dry-run body is an object with exactly the key `url` for get/delete and exactly `url` and `payload` for writes, where the payload is the request body; it fails only for get with a failing query string |
| `Dispatch.LiveCall` | src/main/java/com/mailjet/client/MailjetClient.java:122-124 | the transport call has the verb's kind and the given URL; get/delete pass the filters as parameters, and post/put pass the content type and the body's bytes |
| `Dispatch.ParseReply` | src/main/java/com/mailjet/client/MailjetClient.java:132 | a parsed body gives a live response with the given status whose data is the JSON object the parser read; a parser exception escapes unchanged |
| `Dispatch.Complete` | src/main/java/com/mailjet/client/MailjetClient.java:124-137 | the live half succeeds iff the transport and the parser both do, and then carries the transport's status and the object parsed from the normalised body; a transport failure is mapped by the catch clauses and a parser failure escapes |
| `Dispatch.Send` | src/main/java/com/mailjet/client/MailjetClient.java:113-231 | for every verb: no transport call iff the mode is NOCALL_DEBUG or the path fails; at most one call, to base URL + path; a successful result is a dry run iff the mode is NOCALL_DEBUG and its data is always a JSON object; live, a transport failure goes through the catch clauses and a reply (status, body) gives the parse of the normalised body with that status; only the two mapped messages are ever thrown as MailjetException |
| `Dispatch.Get` | src/main/java/com/mailjet/client/MailjetClient.java:113-138 | the dry-run `url` is base + path + query string, with no call; the live call gets base + path and the filters as a parameter map; a path or query failure is mapped with the "Malformed URL" spelling |
| `Dispatch.Post` | src/main/java/com/mailjet/client/MailjetClient.java:146-172 | the dry run answers {url: base + path, payload: body} with no call; the live call is a POST of the body's bytes with the request's content type to base + path and no filters |
| `Dispatch.Put` | src/main/java/com/mailjet/client/MailjetClient.java:174-200 | as post, with a PUT transport call |
| `Dispatch.Delete` | src/main/java/com/mailjet/client/MailjetClient.java:202-231 | the dry-run `url` is base + path without the query string, with no call; the live call is a DELETE to base + path with the filters as parameters |
| `DispatchProperties.OnlyNoCallSteers` | src/main/java/com/mailjet/client/MailjetClient.java:118-120 | two clients with the same registered headers whose mode is NOCALL_DEBUG on both or on neither produce the same outcome; the logger does not matter |
| `DispatchProperties.LiveModesAgree` | src/main/java/com/mailjet/client/MailjetClient.java:118-124 | every mode other than NOCALL_DEBUG, including out-of-range integers, gives the same outcome, with exactly one transport call when the path builds |
| `DispatchProperties.DryRunMirrorsLiveCall` | src/main/java/com/mailjet/client/MailjetClient.java:149-159 | the dry-run `url` is the URL the live call sends to (plus the query string for get); for writes, the payload's bytes are what the live call sends; get/delete send the filters |
| `DispatchProperties.DeleteDryRunHidesFilters` | src/main/java/com/mailjet/client/MailjetClient.java:206-217 | delete requests that differ only in their filters have the same dry run but different live calls |
| `DispatchProperties.GetDryRunShowsQuery` | src/main/java/com/mailjet/client/MailjetClient.java:116-119 | get requests with different query strings have different dry-run results |
| `DispatchProperties.WritesIgnoreFiltersAndQuery` | src/main/java/com/mailjet/client/MailjetClient.java:177-187 | post and put give the same outcome whatever the request's filters and query string |
| `DispatchProperties.EmptyBodyReadsAsEmptyObject` | src/main/java/com/mailjet/client/MailjetClient.java:188-194 | for every verb, a reply with an empty body and a reply with body "{}" and the same status give the same outcome |
| `DispatchProperties.NonEmptyBodyParsedAsIs` | src/main/java/com/mailjet/client/MailjetClient.java:219-225 | for every verb, a non-empty reply body reaches the parser unchanged, and the response carries the transport's status |
| `Session.Run` | src/main/java/com/mailjet/client/MailjetClient.java:99-231 | a session yields one result per verb call and never more transport calls than verb calls |
| `Session.OfflineSessionMakesNoCalls` | src/main/java/com/mailjet/client/MailjetClient.java:118-120 | a client in NOCALL_DEBUG that is never set to another mode makes no transport call, whatever sequence of verbs it runs |
| `Session.LiveSessionCallsOncePerRequest` | src/main/java/com/mailjet/client/MailjetClient.java:116-124 | a client that stays out of NOCALL_DEBUG makes exactly one transport call per verb call whose path builds and none for a verb call whose `buildUrl()` throws |
| `Session.ConsoleLoggerIsSticky` | src/main/java/com/mailjet/client/MailjetClient.java:99-105 | a session ends with the console logger iff it started with it or some step set VERBOSE_DEBUG; no later setDebug restores the no-op logger |
| `Session.SessionKeepsCredentials` | src/main/java/com/mailjet/client/MailjetClient.java:45-56 | no sequence of setDebug and verb calls changes the key, the secret or the registered headers |
| `Session.LastModeWins` | src/main/java/com/mailjet/client/MailjetClient.java:99-100 | after a session, the debug mode is the value of its last setDebug |
| `Session.NoConfigureKeepsMode` | src/main/java/com/mailjet/client/MailjetClient.java:113-138 | verb calls alone never change the debug mode |

## Left out

- The HTTP transport (`BasicHttpClient`): sockets, TLS, the wire format of headers and parameters. It is the uninterpreted `Env.transport`, given the client's registered headers and the call.
- Session.Run: one `Env` answers every step, so the transport is a fixed function of headers and call; a server whose replies depend on earlier requests is not modelled. No property here depends on the contents of replies.
- JSON parsing (`new JSONObject(text)`) and `String.getBytes`: foreign libraries, and `Base64.encode`: a class of the same package that is not part of this model. All three are kept as the uninterpreted `Env` fields `parse`, `bytesOf` and `base64`. Base64 is not re-derived. The dry-run `new JSONObject().put(...)` calls are modelled as map literals.
- Json.Value: numbers are reals; the Java type org.json picks for a number (Integer, Long, Double, BigDecimal) is not kept.
- Auth.AuthorizationDeterminesCredentials: holds only when `getBytes` is lossless on the two credential strings. On a default charset such as US-ASCII, characters it cannot encode become `?`, so two different non-ASCII keys can give the same header; the model does not fix a charset.
- Auth.AuthorizationRoundTrip: holds only for keys without a colon; `MailjetClient.ColonKeyClientsShareHeaders` shows two different clients with the same headers.
- `MailjetRequest`: how it builds its path, query string and body, and which of its accessors throw. `MailjetRequest` is not part of this model; its accessors are fields of `Request`, and only `buildUrl` and `queryString` may fail.
- `MailjetResponse` and `MailjetException` are not part of this model beyond the values they are built from.
- Logging output: `ConsoleRequestLogger` and the no-op logger write nothing the model observes. Only which logger is installed is kept.
- A transport that returns `null`, and the `NullPointerException` that would follow: not modelled.
- Thread safety of the shared debug field: concurrency is out of scope.
- `Main`: an entry point with fixed credentials and console output, no logic.
