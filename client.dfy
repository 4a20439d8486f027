/** The transport of Sources/MastodonKit/Client.swift: the request descriptor, its
    app-registration factory, and `send`, which builds a URL request, encodes the
    parameters as its body, hands it to the network and reports the decoded
    response to a completion handler.

    Foundation and the network are not modelled: the JSON encoder, the JSON decoder
    and the network's answer are inputs (functions the caller supplies), and the
    asynchronous callback runs at the point where the task is started. */
module Client {
  import opened Wrappers

  type Bytes = seq<bv8>

  /** Swift's `any Error`, passed on to the completion handler unchanged. */
  datatype Error = Error(description: string)

  /** Swift's `Result<T, Error>`, the argument of the completion handler. */
  datatype Result<T> = Success(value: T) | Failure(error: Error)

  /** A URL as a base and the path components appended to it; Foundation's
      escaping and slash handling are not modelled. */
  datatype Url = Url(base: string, components: seq<string>)

  /** `URL.appendingPathComponent`, kept structural. */
  function AppendingPathComponent(u: Url, component: string): Url
  {
    Url(u.base, u.components + [component])
  }

  /** The fields of a `URLRequest` that `send` sets. */
  datatype UrlRequest = UrlRequest(url: Url, headers: map<string, string>, httpMethod: string, httpBody: Option<Bytes>)

  /** `URLRequest(url:)`: no header fields, method GET, no body. */
  function NewUrlRequest(url: Url): UrlRequest
  {
    UrlRequest(url, map[], "GET", None)
  }

  /** `addValue(_:forHTTPHeaderField:)`: sets the field, or appends the value to
      one already set, comma-separated. */
  function AddValue(r: UrlRequest, value: string, field: string): UrlRequest
  {
    var v := if field in r.headers then r.headers[field] + "," + value else value;
    r.(headers := r.headers[field := v])
  }

  /** The server's answer to a data task, as the completion closure sees it
      (the `URLResponse` argument is never read). */
  datatype Response = Response(data: Option<Bytes>, error: Option<Error>)

  /** The client holds only the base URL that request paths are joined onto. */
  datatype Client = Client(baseURL: Url)

  /** The result type of app registration. Its fields are plain declarations
      decoded by synthesised code, so it is only a type tag here. */
  datatype Application = ApplicationTag

  /** `Client.Request<T>`: an immutable description of one API call whose
      response decodes to a `T`. */
  datatype Request<T> = Request(path: string, httpMethod: string, parameters: map<string, string>)

  /** The out-of-band redirect URI used when the caller gives none. */
  const OutOfBand := "urn:ietf:wg:oauth:2.0:oob"

  /** `createAnApplication`: registers an app by POSTing its name and redirect
      URIs to /api/v1/apps. Total: every pair of strings yields a request. */
  function CreateAnApplication(clientName: string, redirectURIs: string := OutOfBand): (r: Request<Application>)
    ensures r.path == "/api/v1/apps" && r.httpMethod == "POST"
    ensures r.parameters.Keys == {"client_name", "redirect_uris"} && |r.parameters| == 2
    ensures r.parameters["client_name"] == clientName
    ensures r.parameters["redirect_uris"] == redirectURIs
  {
    Request("/api/v1/apps", "POST", map["client_name" := clientName, "redirect_uris" := redirectURIs])
  }

  /** Omitting the redirect URIs registers the out-of-band sentinel. */
  lemma CreateAnApplicationDefault(clientName: string)
    ensures CreateAnApplication(clientName).parameters["redirect_uris"] == "urn:ietf:wg:oauth:2.0:oob"
    ensures CreateAnApplication(clientName) == CreateAnApplication(clientName, OutOfBand)
  {
  }

  /** The descriptor keeps both arguments: different arguments give different
      requests. */
  lemma CreateAnApplicationInjective(name1: string, uris1: string, name2: string, uris2: string)
    requires CreateAnApplication(name1, uris1) == CreateAnApplication(name2, uris2)
    ensures name1 == name2 && uris1 == uris2
  {
  }

  /** The URL request `send` starts a task with, or the error that encoding the
      parameters raised, in which case no task is started. */
  function BuildUrlRequest<T>(client: Client, request: Request<T>, encode: map<string, string> -> Result<Bytes>): (t: Result<UrlRequest>)
    ensures t.Success? <==> encode(request.parameters).Success?
    ensures t.Failure? ==> t.error == encode(request.parameters).error
    ensures t.Success? ==>
      && t.value.url == AppendingPathComponent(client.baseURL, request.path)
      && t.value.headers == map["Content-Type" := "application/json"]
      && t.value.httpMethod == request.httpMethod
      && t.value.httpBody == Some(encode(request.parameters).value)
  {
    match encode(request.parameters)
    case Failure(e) => Failure(e)
    case Success(body) =>
      var r := AddValue(NewUrlRequest(AppendingPathComponent(client.baseURL, request.path)), "application/json", "Content-Type");
      Success(r.(httpMethod := request.httpMethod, httpBody := Some(body)))
  }

  /** The completion calls the data task's closure makes for one response, in
      order: a transport error is reported as one failure whatever the data and
      without decoding; missing data is reported by no call at all; data is
      reported by one call carrying the decoder's result. */
  function Handle<T>(response: Response, decode: Bytes -> Result<T>): (calls: seq<Result<T>>)
    ensures |calls| <= 1
    ensures response.error.Some? ==> calls == [Failure(response.error.value)]
    ensures response.error.None? ==> (calls == [] <==> response.data.None?)
    ensures response.error.None? && response.data.Some? ==> calls == [decode(response.data.value)]
  {
    if response.error.Some? then [Failure(response.error.value)]
    else if response.data.None? then []
    else [decode(response.data.value)]
  }

  /** The completion calls one `send` makes, given the encoder, the network's
      answer to the request it is sent, and the decoder. */
  function Outcomes<T>(client: Client, request: Request<T>, encode: map<string, string> -> Result<Bytes>,
                       network: UrlRequest -> Response, decode: Bytes -> Result<T>): (calls: seq<Result<T>>)
    ensures |calls| <= 1
    ensures encode(request.parameters).Failure? ==> calls == [Failure(encode(request.parameters).error)]
    ensures encode(request.parameters).Success? ==>
      calls == Handle(network(BuildUrlRequest(client, request, encode).value), decode)
    ensures (|calls| == 1 && calls[0].Success?) <==>
      && encode(request.parameters).Success?
      && var response := network(BuildUrlRequest(client, request, encode).value);
      && response.error.None? && response.data.Some? && decode(response.data.value).Success?
  {
    match BuildUrlRequest(client, request, encode)
    case Failure(e) => [Failure(e)]
    case Success(r) => Handle(network(r), decode)
  }

  /** Whatever the request, the network can answer so that the caller is never
      told anything: no error and no data leaves the completion uncalled. */
  lemma SilentDropReachable<T>(client: Client, request: Request<T>, encode: map<string, string> -> Result<Bytes>,
                               decode: Bytes -> Result<T>)
    requires encode(request.parameters).Success?
    ensures exists network: UrlRequest -> Response :: Outcomes(client, request, encode, network, decode) == []
  {
    var silent: UrlRequest -> Response := _ => Response(None, None);
    assert Outcomes(client, request, encode, silent, decode) == [];
  }

  /** The caller's completion handler; it records every invocation in order, so
      the number of calls is the length of `calls`. */
  class Completion<T> {
    var calls: seq<Result<T>>

    constructor ()
      ensures calls == []
    {
      calls := [];
    }

    method Complete(r: Result<T>)
      modifies this
      ensures calls == old(calls) + [r]
    {
      calls := calls + [r];
    }
  }

  /** The body of the data task's closure: early return after an error, silent
      return without data, else one call with the decoding's outcome. */
  method HandleResponse<T>(response: Response, decode: Bytes -> Result<T>, completion: Completion<T>)
    modifies completion
    ensures completion.calls == old(completion.calls) + Handle(response, decode)
  {
    if response.error.Some? {
      completion.Complete(Failure(response.error.value));
      return;
    }
    if response.data.None? {
      return;
    }
    var data := response.data.value;
    match decode(data) {
      case Success(value) => completion.Complete(Success(value));
      case Failure(e) => completion.Complete(Failure(e));
    }
  }

  /** `send`: builds the URL request field by field, encodes the parameters as
      its body and starts a data task with it; returns the started task's
      request, or None when encoding failed and the failure was reported
      instead. */
  method Send<T>(client: Client, request: Request<T>, encode: map<string, string> -> Result<Bytes>,
                 network: UrlRequest -> Response, decode: Bytes -> Result<T>, completion: Completion<T>)
    returns (task: Option<UrlRequest>)
    modifies completion
    ensures task.None? <==> encode(request.parameters).Failure?
    ensures task.Some? ==> Success(task.value) == BuildUrlRequest(client, request, encode)
    ensures completion.calls == old(completion.calls) + Outcomes(client, request, encode, network, decode)
  {
    var url := AppendingPathComponent(client.baseURL, request.path);
    var urlRequest := NewUrlRequest(url);
    urlRequest := AddValue(urlRequest, "application/json", "Content-Type");
    urlRequest := urlRequest.(httpMethod := request.httpMethod);
    match encode(request.parameters) {
      case Failure(e) =>
        completion.Complete(Failure(e));
        task := None;
      case Success(body) =>
        urlRequest := urlRequest.(httpBody := Some(body));
        task := Some(urlRequest);
        HandleResponse(network(urlRequest), decode, completion);
    }
  }
}
