# MastodonKit core, modelled in Dafny

A model of the two behavioural pieces of the MastodonKit client library for the
Mastodon REST API:

- **Pagination cursor** (`pagination.dfy`, module `Pagination`): the closed
  three-variant enum `Pagination<T>` (`olderThan`, `newerThan`,
  `immediatelyNewer`). Its computed property `key` names the query parameter
  (`max_id`, `since_id`, `min_id`) and `value` returns the wrapped cursor.
  `FromQuery` reads a parameter back into a cursor. It is the inverse that the
  round-trip and determinism lemmas are stated against.
- **Request descriptor and transport** (`client.dfy`, module `Client`):
  - `Request<T>` is the immutable descriptor: path, HTTP method and a string-to-string parameter map.
  - `CreateAnApplication` is the app-registration factory, with its default redirect URI.
  - `Send` is the `send` method. It builds the URL request field by field as a local value. It encodes the parameters as the body. It starts the data task only when encoding succeeds. It then runs the completion closure.
  - `HandleResponse` is that closure, with its early returns.
  - The caller's completion handler is the class `Completion`. It records every call in order, so the length of `calls` counts the invocations.
  - `BuildUrlRequest`, `Handle` and `Outcomes` are the specification functions. `Send` and `HandleResponse` are proved against them.

`wrappers.dfy` holds the stock `Option` datatype.

The JSON encoder, the JSON decoder and the network are parameters:

- `encode: map<string, string> -> Result<Bytes>`
- `decode: Bytes -> Result<T>`
- `network: UrlRequest -> Response`, which is the network's answer to the exact request it is given.

Each one either succeeds or fails, and the model never looks inside them.

The Swift field `Request.method` is named `httpMethod` in the model, because
`method` is a Dafny keyword.

The model follows the code where the code is unusual:

- A response with no error and no data makes no completion call at all (Client.swift:24-26). `SilentDropReachable` shows that the network can always produce this case.
- Every request gets a JSON body, including GET requests.

## Model

| member | source | states |
|---|---|---|
| Pagination.Key | Sources/MastodonKit/Pagination.swift:6-15 | the key is always one of `max_id`, `since_id`, `min_id`; it is `max_id` iff olderThan, `since_id` iff newerThan, `min_id` iff immediatelyNewer, so distinct variants give distinct keys |
| Pagination.Value | Sources/MastodonKit/Pagination.swift:17-24 | the cursor is one of the three variants wrapping exactly the returned value |
| Pagination.FromQuery | Sources/MastodonKit/Pagination.swift:6-24 | reading a query parameter back succeeds exactly on the three key names, and yields a cursor whose key and value are the ones read |
| Pagination.KeyIgnoresPayload | Sources/MastodonKit/Pagination.swift:8-13 | the key depends only on the variant: any two payloads in the same variant give the same fixed key |
| Pagination.ValueRoundTrip | Sources/MastodonKit/Pagination.swift:17-24 | wrap(v).value == v for all three variants, so the value ignores the variant |
| Pagination.KeyValueDetermine | Sources/MastodonKit/Pagination.swift:6-24 | two cursors with the same key and the same value are equal |
| Pagination.FromQueryRoundTrip | Sources/MastodonKit/Pagination.swift:6-24 | serialising a cursor to (key, value) and reading it back gives the same cursor |
| Pagination.KeyOnto | Sources/MastodonKit/Pagination.swift:6-15 | each of the three names is the key of some cursor wrapping any given value |
| Client.CreateAnApplication | Sources/MastodonKit/Client.swift:52-60 | total; path is `/api/v1/apps`, method is `POST`, parameters have exactly the keys `client_name` and `redirect_uris`, holding the two arguments unchanged |
| Client.CreateAnApplicationDefault | Sources/MastodonKit/Client.swift:52-59 | when the redirect URIs are omitted, `redirect_uris` is `urn:ietf:wg:oauth:2.0:oob` |
| Client.CreateAnApplicationInjective | Sources/MastodonKit/Client.swift:56-59 | equal descriptors come from equal arguments: nothing the caller passes is lost |
| Client.BuildUrlRequest | Sources/MastodonKit/Client.swift:11-16 | a request is produced iff encoding succeeds, and then it has URL base + path, the single header `Content-Type: application/json`, the descriptor's method and the encoded parameters as body; otherwise it carries the encoder's error |
| Client.Handle | Sources/MastodonKit/Client.swift:18-35 | at most one completion call; an error gives exactly one failure with that error, whatever the data and without decoding; no error and no data gives no call; data gives exactly one call carrying the decoder's result |
| Client.Outcomes | Sources/MastodonKit/Client.swift:10-40 | at most one completion call per send; an encoding failure gives exactly one failure with the encoder's error; otherwise the calls are the handler's for the network's answer to the built request; a success is reported iff encoding succeeds, the answer has no error but has data, and decoding succeeds |
| Client.SilentDropReachable | Sources/MastodonKit/Client.swift:24-26 | for every request whose parameters encode, some network answer leaves the completion handler uncalled |
| Client.HandleResponse | Sources/MastodonKit/Client.swift:18-36 | the closure appends to the completion's calls exactly the calls `Handle` specifies |
| Client.Send | Sources/MastodonKit/Client.swift:10-40 | no task is started iff encoding fails; a started task carries the request `BuildUrlRequest` specifies; the completion's calls grow by exactly `Outcomes` |
| Client.Completion.Complete | Sources/MastodonKit/Client.swift:10 | one invocation of the completion handler appends its argument to the recorded calls and changes nothing else |

## Left out

- Sources/MastodonKit/Account.swift and Sources/MastodonKit/Application.swift: plain field declarations whose JSON coding is compiler-synthesised. `Application` appears only as a type tag for `Request<Application>`.
- JSON encoding and decoding (`JSONEncoder`, `JSONDecoder`, `makeJSONDecoder`) and the shared `dateFormatter` with its `yyyy-MM-dd'T'HH:mm:ss.SZ` format are not modelled. They are Foundation code with no visible logic, so encode and decode are caller-supplied functions that either succeed or fail.
- `URL.appendingPathComponent` keeps the URL as its base and appended components. Foundation's escaping and slash rules are not modelled.
- `URLRequest.addValue` is modelled as documented by Foundation: it sets the field, or appends to an existing value after a comma. Header-name case-insensitivity is not modelled.
- `URLSession` task creation, `resume()` and the asynchronous timing of the callback are not modelled, because they are network I/O and concurrency. The network's answer is a function of the request. The closure runs where the task is started, so the model says which calls happen and in what order, not when.
- The `URLResponse` argument of the closure is never read by the source, so `Response` omits it.
- `Client.init(baseURL:)` is the constructor of the `Client` datatype. It has no behaviour of its own.
