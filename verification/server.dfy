/**
 * The Rack application of the webhook server: the HTTP status of a request
 * and the rule that forwards page events, and only those, to the event
 * handler block.
 */
module Server {
  import opened Wrappers
  import opened RubyValues

  const StatusOk: int := 200
  const StatusNotFound: int := 404
  const StatusMethodNotAllowed: int := 405

  const WebhookPath: string := "/webhooks/analytics"

  /** A Rack response `[status, headers, body]`. */
  datatype Response = Response(status: int, headers: map<string, string>, body: seq<string>)

  /** What `app` returns, and whether it passed the payload on. */
  datatype Reply = Reply(response: Response, forwarded: bool)

  /** The status: 405 for any request method but POST, whatever the path; for POST,
      200 on the webhook path and 404 elsewhere. */
  function RouteStatus(requestMethod: string, path: string): (status: int)
    ensures status in {StatusOk, StatusNotFound, StatusMethodNotAllowed}
    ensures status == StatusMethodNotAllowed <==> requestMethod != "POST"
    ensures status == StatusOk <==> requestMethod == "POST" && path == WebhookPath
  {
    if requestMethod != "POST" then StatusMethodNotAllowed
    else if path == WebhookPath then StatusOk
    else StatusNotFound
  }

  /** The response every request gets that does not raise, 404 and 405
      included: `[status, {}, ["OK"]]`. */
  function Acknowledge(status: int): Response
  {
    Response(status, map[], ["OK"])
  }

  /** app: `body` is the parsed request body, `handler` the event-handler
      block, returning the exception it raises, if any. The body is looked at
      only for status 200, and the handler is called only when its `type` is
      "page"; an exception from a lookup or from the handler leaves app. */
  function App(requestMethod: string, path: string, body: Json, handler: Json -> Option<Error>): (r: Result<Reply, Error>)
    ensures r.Ok? ==> r.value.response == Acknowledge(RouteStatus(requestMethod, path))
    ensures RouteStatus(requestMethod, path) != StatusOk ==> r == Ok(Reply(Acknowledge(RouteStatus(requestMethod, path)), false))
    ensures r.Ok? && r.value.forwarded ==> RouteStatus(requestMethod, path) == StatusOk && HasType(body, "page")
    ensures RouteStatus(requestMethod, path) == StatusOk && HasType(body, "page") ==>
              r == if handler(body).Some? then Err(handler(body).value) else Ok(Reply(Acknowledge(StatusOk), true))
    ensures RouteStatus(requestMethod, path) == StatusOk && body.Hash? && "type" in body.fields
            && Field(body, "type").Str? && Field(body, "type").s != "page" ==>
              r == Ok(Reply(Acknowledge(StatusOk), false))
    ensures RouteStatus(requestMethod, path) == StatusOk && body.Hash? && "type" !in body.fields ==>
              r == Err(KeyError("type"))
    ensures RouteStatus(requestMethod, path) == StatusOk && r.Err? && handler(body).None? ==>
              !(body.Hash? && "type" in body.fields && Field(body, "type").Str?)
  {
    var status := RouteStatus(requestMethod, path);
    var response := Acknowledge(status);
    if status != StatusOk then Ok(Reply(response, false))
    else
      match Fetch(body, "type")
      case Err(e) => Err(e)
      case Ok(ty) =>
        match StrEquals(ty, "page")
        case Err(e) => Err(e)
        case Ok(isPage) =>
          if !isPage then Ok(Reply(response, false))
          else if handler(body).Some? then Err(handler(body).value)
          else Ok(Reply(response, true))
  }
}
