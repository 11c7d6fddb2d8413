/**
  The outcome rule of sendToWebhook (main.go:222-248). The transport itself
  (request building, JSON encoding, the HTTP client) is an oracle: it is given
  as the outcome of the one request the function issues.
*/
module Webhook {
  import opened Wrappers
  import opened Events

  /** What the network did with one POST. */
  datatype HttpOutcome =
    | RequestError          // http.NewRequest refused the URL
    | TransportError        // client.Do failed
    | Response(statusCode: int)

  /** The error sendToWebhook returns. */
  datatype SendError = RequestFailed | TransportFailed | NonOKStatus(code: int)

  const StatusOK: int := 200

  /** One delivery attempt: the URL posted to, the body sent, and the error returned (None is nil). */
  datatype Attempt = Attempt(url: string, payload: WebhookPayload, err: Option<SendError>)

  /** Posts the payload of `info` to `url`; success is exactly status 200. */
  function SendToWebhook(url: string, info: LogInfo, outcome: HttpOutcome): (a: Attempt)
    ensures a.url == url && a.payload == ToWebhookPayload(info)
    ensures a.err.None? <==> outcome == Response(StatusOK)
    ensures outcome.Response? && outcome.statusCode != StatusOK ==> a.err == Some(NonOKStatus(outcome.statusCode))
  {
    var err :=
      match outcome
      case RequestError => Some(RequestFailed)
      case TransportError => Some(TransportFailed)
      case Response(code) => if code != StatusOK then Some(NonOKStatus(code)) else None;
    Attempt(url, ToWebhookPayload(info), err)
  }
}
