/** What the quote provider sends back, the errors the client raises, and how a
    reply is classified before any parsing (`StockAPI.get`). */
module Payload {
  import opened Wrappers
  import opened Text

  /** An object of string fields, keyed by the provider's numbered names ("05. price"). */
  type Fields = map<string, string>

  /** The decoded JSON body of a provider reply, reduced to the shapes the client reads. */
  datatype Body = Body(
    note: Option<string>,                       // the `Note` the provider adds when throttling
    records: map<string, Fields>,                // objects of fields, e.g. "Global Quote"
    lists: map<string, seq<Fields>>,             // arrays of objects, e.g. "bestMatches"
    series: map<string, seq<(string, Fields)>>)  // keyed objects, entries in `Object.entries` order

  /** How the HTTP transport settled: a 2xx reply with its body, or a rejection
      carrying the HTTP status when there was a response at all. */
  datatype Reply = Received(body: Body) | Failed(status: Option<int>, message: string)

  /** The errors the client throws; `Message` is the `message` of the thrown `Error`. */
  datatype ApiError =
    | RateLimited
    | Transport(reason: string)
    | InvalidTime
  {
    function Message(): string {
      match this
      case RateLimited => RateLimitMessage
      case Transport(m) => m
      case InvalidTime => "Invalid time value"
    }
  }

  const RateLimitNotice := "API call frequency"
  const RateLimitMessage := "API rate limit exceeded"
  const TooManyRequests := 429

  /** The two throttling signals: a notice in an otherwise successful body, or HTTP 429. */
  predicate Throttled(reply: Reply)
    ensures reply.Failed? ==> (Throttled(reply) <==> reply.status == Some(TooManyRequests))
    ensures reply.Received? && reply.body.note.None? ==> !Throttled(reply)
  {
    match reply
    case Received(b) => b.note.Some? && Contains(b.note.value, RateLimitNotice)
    case Failed(status, _) => status == Some(TooManyRequests)
  }

  /** `get`: both throttling signals become the same rate-limit error, every other
      rejection is rethrown unchanged, and every other body is returned as it is. */
  function Get(reply: Reply): (r: Result<Body, ApiError>)
    ensures r == Err(RateLimited) <==> Throttled(reply)
    ensures reply.Received? && !Throttled(reply) ==> r == Ok(reply.body)
    ensures reply.Failed? && !Throttled(reply) ==> r == Err(Transport(reply.message))
  {
    match reply
    case Received(b) =>
      if b.note.Some? && Contains(b.note.value, RateLimitNotice) then Err(RateLimited) else Ok(b)
    case Failed(status, m) =>
      if status == Some(TooManyRequests) then Err(RateLimited) else Err(Transport(m))
  }

  /** Whatever shape it took, a throttled reply is reported as the same failure. */
  lemma ThrottleSignalsAgree(a: Reply, b: Reply)
    requires Throttled(a) && Throttled(b)
    ensures Get(a) == Get(b) && Get(a).Err? && Get(a).error.Message() == RateLimitMessage
  {
  }
}
