/** What the API routes share: a request whose body may fail to parse, the agent
    service's readiness and the outcome of its call as parameters, and the four
    kinds of reply a route sends. A route's result also records what, if anything,
    it forwarded to the agent service. */
module Api {
  import opened Js
  import opened Outcomes

  /** A request whose body parsed as JSON, or one whose body did not. */
  datatype Request = Json(body: Js.Value) | Unparsable

  /** The reply a route sends: 200 with a payload, 400 with an error message, 503
      "Agent service not initialized", or 500 with an error message (the `details`
      field of a 500 reply is not modelled). */
  datatype Reply<+S> = Success(payload: S) | BadRequest(error: string) | Unavailable | ServerError(error: string)
  {
    function Status(): int
    {
      match this
      case Success(_) => 200
      case BadRequest(_) => 400
      case Unavailable => 503
      case ServerError(_) => 500
    }
  }

  /** A reply together with the request the route passed to the agent service. */
  datatype Handled<+P, +S> = Handled(reply: Reply<S>, forwarded: Option<P>)

  /** The body a route can destructure, if any: a body that failed to parse or is
      JSON `null` makes the route's destructuring throw. */
  function Body(request: Request): (body: Option<Js.Value>)
    ensures body.Some? <==> request.Json? && Destructurable(request.body)
    ensures body.Some? ==> body.value == request.body
  {
    if request.Json? && Destructurable(request.body) then Some(request.body) else None
  }

  /** The identifiers the agent service hands back for a new token. */
  datatype Minted = Minted(tokenId: string, transactionId: string)

  const MissingRequiredFields := "Missing required fields"
}
