/** What a handler or middleware decides, before anything is written: pass the
    request on, fail with an error kind, or send a JSON document; plus the store calls
    it made on the way. */
module Outcomes {
  import opened Wrappers
  import opened Data
  import opened Http
  import opened Errors
  import opened Store

  datatype Reply =
    | Forward(principal: Principal)
    | Fail(kind: ErrorKind)
    | Send(status: int, data: Json, headers: Header)

  datatype Outcome = Outcome(reply: Reply, effects: seq<Effect>)

  /** Writes a reply. A document that cannot be encoded turns into a server error,
      as every handler does after its final `writeJSON`; a forwarded request is
      written by the next handler, not here. */
  function Render(x: Exchange, req: Request, reply: Reply, encode: Encoder, unshown: UnshownTable)
    : (x': Exchange)
    ensures reply.Forward? ==> x' == x
    ensures reply.Fail? ==> x' == Respond(x, req, reply.kind, encode, unshown)
    ensures reply.Send? && encode(reply.data).Success? ==>
      && x'.status == Some(if x.status.Some? then x.status.value else reply.status)
      && x'.body == x.body + encode(reply.data).value + "\n"
      && x'.log == x.log
      && x'.header.Keys == x.header.Keys + reply.headers.Keys + {ContentType}
      && x'.header[ContentType] == [ApplicationJson]
      && (forall k :: k in reply.headers && k != ContentType ==> x'.header[k] == reply.headers[k])
      && (forall k :: k in x.header && k !in reply.headers && k != ContentType ==> x'.header[k] == x.header[k])
    ensures reply.Send? && encode(reply.data).Failure? ==>
      && x'.status == Some(if x.status.Some? then x.status.value else 500)
      && |x'.log| > |x.log|
      && x'.log[|x.log|] == LogEntry(encode(reply.data).error, req.verb, req.url)
  {
    match reply
    case Forward(_) => x
    case Fail(k) => Respond(x, req, k, encode, unshown)
    case Send(status, data, headers) =>
      var (x1, err) := WriteJSON(x, status, data, headers, encode);
      match err
      case None => x1
      case Some(e) => Respond(x1, req, ServerError(e), encode, unshown)
  }
}
