// The contact endpoint: the method check, the required-field check and the
// choice of one status per request.
module ContactRoute {

  /** A field of the parsed JSON body as JavaScript sees it. */
  datatype JsValue =
    | Undefined
    | Null
    | Bool(b: bool)
    | Number(n: real)
    | Str(s: string)
    | Composite   // an object or an array

  /** JavaScript truthiness: `false`, `0`, `""`, `null` and `undefined` are falsy. */
  predicate Truthy(v: JsValue) {
    match v
    case Undefined => false
    case Null => false
    case Bool(b) => b
    case Number(n) => n != 0.0
    case Str(s) => s != ""
    case Composite => true
  }

  datatype Request = Request(httpMethod: string, name: JsValue, email: JsValue, message: JsValue)

  datatype Body = ErrorBody(error: string) | MessageBody(message: string)

  datatype Response = Response(status: int, body: Body)

  /** What the handler writes with `console.log` and `console.error`. */
  datatype LogLine = Received(name: JsValue, email: JsValue, message: JsValue) | SendFailed

  datatype Outcome = Outcome(response: Response, logged: seq<LogLine>)

  predicate HasRequiredFields(req: Request) {
    Truthy(req.name) && Truthy(req.email) && Truthy(req.message)
  }

  /**
   * Where, if anywhere, the `try` block throws. Formatting the log line
   * converts each field to a string, which throws for a body field whose
   * conversion fails, before anything is written; `AfterLogLine` is any
   * throw once the line has been written.
   */
  datatype Throw = NoThrow | InLogLine | AfterLogLine

  /** `handler(req, res)`, with `thrown` saying where the `try` block throws. */
  function Handler(req: Request, thrown: Throw): (o: Outcome)
    ensures o.response.status == 405 <==> req.httpMethod != "POST"
    ensures o.response.status == 400 <==> req.httpMethod == "POST" && !HasRequiredFields(req)
    ensures o.response.status == 200 <==> req.httpMethod == "POST" && HasRequiredFields(req) && thrown == NoThrow
    ensures o.response.status == 500 <==> req.httpMethod == "POST" && HasRequiredFields(req) && thrown != NoThrow
    ensures o.response.status in {200, 400, 405, 500}
    ensures o.logged != [] <==> req.httpMethod == "POST" && HasRequiredFields(req)
    ensures Received(req.name, req.email, req.message) in o.logged
            <==> req.httpMethod == "POST" && HasRequiredFields(req) && thrown != InLogLine
    ensures SendFailed in o.logged <==> o.response.status == 500
    ensures o.response.status == 500 ==> o.logged[|o.logged| - 1] == SendFailed
  {
    if req.httpMethod == "POST" then
      if !Truthy(req.name) || !Truthy(req.email) || !Truthy(req.message) then
        Outcome(Response(400, ErrorBody("Name, email, and message are required.")), [])
      else
        match thrown
        case NoThrow =>
          Outcome(Response(200, MessageBody("Message sent successfully")), [Received(req.name, req.email, req.message)])
        case InLogLine =>
          Outcome(Response(500, ErrorBody("Failed to send message")), [SendFailed])
        case AfterLogLine =>
          Outcome(Response(500, ErrorBody("Failed to send message")), [Received(req.name, req.email, req.message), SendFailed])
    else
      Outcome(Response(405, ErrorBody("Method not allowed")), [])
  }

  /** Answers other than 500 do not depend on whether, or where, the `try` block throws. */
  lemma OnlyFailureDependsOnThrow(req: Request, thrown: Throw)
    ensures Handler(req, NoThrow).response.status != 500
    ensures Handler(req, thrown).response.status != 500 ==> Handler(req, thrown) == Handler(req, NoThrow)
    ensures Handler(req, thrown).response.status == 500 ==> Handler(req, thrown).response == Handler(req, AfterLogLine).response
  {
  }

  /** A request whose fields are all non-empty strings is answered 200 when nothing throws. */
  lemma {:induction false} NonEmptyStringsAccepted(name: string, email: string, message: string)
    requires name != "" && email != "" && message != ""
    ensures Handler(Request("POST", Str(name), Str(email), Str(message)), NoThrow).response
         == Response(200, MessageBody("Message sent successfully"))
  {
  }
}
