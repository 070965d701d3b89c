/** One notification delivery, `notify` (main.go:58-74). The HTTP client is
    not modelled: whether the endpoint parses as a URL and what the server
    answers to a request are supplied by the caller as a `Net`. */
module Notifier {

  /** The outgoing POST as `notify` assembles it. */
  datatype Request = Request(verb: string, url: string, headers: map<string, string>, body: string)

  /** What `client.Do` yields for a request: a transport error, or a
      response with its status code. */
  datatype Exchange = TransportError(reason: string) | Response(status: int)

  /** The network as seen by the program: `http.NewRequest`'s URL check and
      the server's answer to each request. */
  datatype Net = Net(parsesAsUrl: string -> bool, exchange: Request -> Exchange)

  /** Why a delivery failed: the request could not be built, or the send
      failed or was not answered with 200. */
  datatype NotifyError = BadRequest | DeliveryFailed

  datatype Outcome = Pass | Fail(error: NotifyError)

  const StatusOK: int := 200

  /** The request of main.go:60-67: a plain-text POST of the message to the
      endpoint, carrying a bearer credential only for a non-empty token. */
  function BuildRequest(msg: string, endpoint: string, token: string): (r: Request)
    ensures r.verb == "POST" && r.url == endpoint && r.body == msg
    ensures "Authorization" in r.headers <==> token != ""
    ensures "Authorization" in r.headers ==> r.headers["Authorization"] == "Bearer " + token
    ensures "Content-Type" in r.headers && r.headers["Content-Type"] == "text/plain"
    ensures r.headers.Keys <= {"Authorization", "Content-Type"}
  {
    var auth := if token != "" then map["Authorization" := "Bearer " + token] else map[];
    Request("POST", endpoint, auth["Content-Type" := "text/plain"], msg)
  }

  /** `notify`: succeeds exactly when the request can be built, the send
      completes and the server answers 200. */
  function Notify(msg: string, endpoint: string, token: string, net: Net): (o: Outcome)
    ensures o.Pass? <==>
      && net.parsesAsUrl(endpoint)
      && net.exchange(BuildRequest(msg, endpoint, token)) == Response(StatusOK)
    ensures o == Fail(BadRequest) <==> !net.parsesAsUrl(endpoint)
  {
    if !net.parsesAsUrl(endpoint) then Fail(BadRequest)
    else
      match net.exchange(BuildRequest(msg, endpoint, token))
      case TransportError(_) => Fail(DeliveryFailed)
      case Response(status) => if status != StatusOK then Fail(DeliveryFailed) else Pass
  }
}
