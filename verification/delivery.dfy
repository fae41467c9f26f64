/** Delivery of one message to one webhook, and the classification of its outcome. */
module Delivery {
  import opened Wrappers
  import opened Types

  /** What the HTTP requester reports for one POST: the response status code, or an error
      raised before any response was available (connection refused, timeout, ...). */
  datatype PostOutcome = Response(statusCode: int) | TransportError(reason: string)

  /** The requester, abstracted as a function from target URL and request body to outcome. */
  type Requester = (string, Message) -> PostOutcome

  /** Why a delivery failed. */
  datatype SendError = Transport(reason: string) | UnexpectedStatus(statusCode: int)

  /** One delivery attempt: where it went, what was sent, and how it was classified. */
  datatype Attempt = Attempt(url: string, body: Message, result: Outcome<SendError>)

  /** The first status code that counts as a rejection (HTTP 400 Bad Request). */
  const StatusBadRequest: int := 400

  /** Classifies a requester outcome: a transport error or any status of 400 and above is a
      failure; every status below 400, redirects included, is a success. */
  function Classify(o: PostOutcome): (r: Outcome<SendError>)
    ensures r.Pass? <==> o.Response? && o.statusCode < StatusBadRequest
    ensures o.TransportError? ==> r == Fail(Transport(o.reason))
    ensures o.Response? && o.statusCode >= StatusBadRequest ==> r == Fail(UnexpectedStatus(o.statusCode))
  {
    match o
    case TransportError(reason) => Fail(Transport(reason))
    case Response(code) =>
      if code >= StatusBadRequest then Fail(UnexpectedStatus(code)) else Pass
  }

  /** Builds the webhook body from a stream message and posts it to the webhook's URL. */
  function SendToWebhook(post: Requester, hook: Webhook, m: PluginMessage): (a: Attempt)
    ensures a.url == hook.url
    ensures a.body.content == m.message
    ensures a.result.Pass? <==> post(hook.url, a.body).Response? && post(hook.url, a.body).statusCode < StatusBadRequest
    ensures a.result.Fail? && a.result.error.Transport? ==> post(hook.url, a.body) == TransportError(a.result.error.reason)
    ensures a.result.Fail? && a.result.error.UnexpectedStatus? ==> post(hook.url, a.body) == Response(a.result.error.statusCode)
  {
    var body := Message(m.message);
    Attempt(hook.url, body, Classify(post(hook.url, body)))
  }

  /** The attempt depends on the stream message only through its text: title, priority and
      application id never reach the webhook. */
  lemma SendIgnoresOtherMembers(post: Requester, hook: Webhook, m1: PluginMessage, m2: PluginMessage)
    requires m1.message == m2.message
    ensures SendToWebhook(post, hook, m1) == SendToWebhook(post, hook, m2)
  {
  }
}
