/** The credit-token route: it checks the body's required fields, then the credit
    type, then the agent service's readiness, and forwards a token request whose
    metadata carries the credit's provenance. */
module CreditsCreate {
  import opened Js
  import opened Api
  import opened Outcomes
  import Types

  /** The fields that must be present and truthy, in the order the route tests
      them; `decimals` is optional. */
  const RequiredFields: seq<string> :=
    ["name", "symbol", "initialSupply", "maxSupply", "creditType", "vintageYear", "zoneId", "methodology"]

  const InvalidCreditType := "Invalid credit type"

  const CreateFailed := "Failed to create credit token"

  datatype CreditMetadata = CreditMetadata(creditType: Js.Value, vintageYear: Js.Value, zoneId: Js.Value, methodology: Js.Value)

  datatype TokenRequest = TokenRequest(
    name: Js.Value,
    symbol: Js.Value,
    decimals: Js.Value,
    initialSupply: Js.Value,
    maxSupply: Js.Value,
    metadata: CreditMetadata)

  /** The success payload; the message text built from the credit type and name is
      represented by the two values it interpolates. */
  datatype CreditCreated = CreditCreated(tokenId: string, transactionId: string, creditType: Js.Value, name: Js.Value)

  predicate HasRequiredFields(body: Js.Value)
  {
    && Truthy(Get(body, "name")) && Truthy(Get(body, "symbol"))
    && Truthy(Get(body, "initialSupply")) && Truthy(Get(body, "maxSupply"))
    && Truthy(Get(body, "creditType")) && Truthy(Get(body, "vintageYear"))
    && Truthy(Get(body, "zoneId")) && Truthy(Get(body, "methodology"))
  }

  /** The whitelist test: the credit type must be one of the four names, compared
      strictly, so only a string can pass. */
  predicate WhitelistedType(body: Js.Value)
  {
    Get(body, "creditType") in {Str("carbon"), Str("biodiversity"), Str("water"), Str("soil")}
  }

  predicate ValidBody(body: Js.Value)
  {
    HasRequiredFields(body) && WhitelistedType(body)
  }

  /** The first validation error, if any. */
  function Validate(body: Js.Value): (error: Option<string>)
    ensures error == Some(MissingRequiredFields) <==> !HasRequiredFields(body)
    ensures error == Some(InvalidCreditType) <==> HasRequiredFields(body) && !WhitelistedType(body)
    ensures error.None? <==> ValidBody(body)
  {
    if !HasRequiredFields(body) then Some(MissingRequiredFields)
    else if !WhitelistedType(body) then Some(InvalidCreditType)
    else None
  }

  /** `decimals` falls back to 2 only when the key is absent; an explicit `null` or
      0 is passed on as given. */
  function Decimals(body: Js.Value): (d: Js.Value)
    ensures Get(body, "decimals").Undefined? ==> d == Num(2.0)
    ensures !Get(body, "decimals").Undefined? ==> d == Get(body, "decimals")
  {
    if Get(body, "decimals").Undefined? then Num(2.0) else Get(body, "decimals")
  }

  function TokenRequestOf(body: Js.Value): TokenRequest
  {
    TokenRequest(
      Get(body, "name"), Get(body, "symbol"), Decimals(body),
      Get(body, "initialSupply"), Get(body, "maxSupply"),
      CreditMetadata(Get(body, "creditType"), Get(body, "vintageYear"), Get(body, "zoneId"), Get(body, "methodology")))
  }

  /** The route. */
  function CreateCredit(request: Request, ready: bool, service: Call<Minted>): (h: Handled<TokenRequest, CreditCreated>)
    ensures Body(request).None? ==> h == Handled(ServerError(CreateFailed), None)
    ensures Body(request).Some? ==>
      var body := Body(request).value;
      && (h.reply == BadRequest(MissingRequiredFields) <==> !HasRequiredFields(body))
      && (h.reply == BadRequest(InvalidCreditType) <==> HasRequiredFields(body) && !WhitelistedType(body))
      && (h.reply.Unavailable? <==> ValidBody(body) && !ready)
      && (h.forwarded.Some? <==> ValidBody(body) && ready)
      && (h.reply.Success? <==> ValidBody(body) && ready && service.Returned? && Stringifiable(Get(body, "name")))
    ensures h.forwarded.Some? ==>
      var body := request.body;
      var sent := h.forwarded.value;
      && sent.name == Get(body, "name") && sent.symbol == Get(body, "symbol")
      && sent.initialSupply == Get(body, "initialSupply") && sent.maxSupply == Get(body, "maxSupply")
      && sent.decimals == Decimals(body)
      && sent.metadata == CreditMetadata(Get(body, "creditType"), Get(body, "vintageYear"),
                                         Get(body, "zoneId"), Get(body, "methodology"))
    ensures h.reply.Success? ==>
      && service.Returned?
      && h.reply.payload == CreditCreated(service.value.tokenId, service.value.transactionId,
                                          Get(request.body, "creditType"), Get(request.body, "name"))
    ensures h.reply.ServerError? ==> h.reply.error == CreateFailed
  {
    match Body(request)
    case None => Handled(ServerError(CreateFailed), None)
    case Some(body) =>
      match Validate(body)
      case Some(error) => Handled(BadRequest(error), None)
      case None =>
        if !ready then Handled(Unavailable, None)
        else
          var sent := TokenRequestOf(body);
          match service
          case Threw => Handled(ServerError(CreateFailed), Some(sent))
          case Returned(minted) =>
            // the success message interpolates the name, which can throw after the token exists
            if !Stringifiable(Get(body, "name")) then Handled(ServerError(CreateFailed), Some(sent))
            else
              Handled(Success(CreditCreated(minted.tokenId, minted.transactionId, Get(body, "creditType"),
                                            Get(body, "name"))), Some(sent))
  }

  /** Every listed field is required on its own: making any one of them falsy gets
      the missing-fields reply, whatever the other fields hold. */
  lemma AnyFalsyFieldIsMissing(request: Request, ready: bool, service: Call<Minted>, field: string)
    requires request.Json? && Destructurable(request.body)
    requires field in RequiredFields && !Truthy(Get(request.body, field))
    ensures CreateCredit(request, ready, service).reply == BadRequest(MissingRequiredFields)
  {
  }

  /** An invalid body is answered the same way whether or not the service is ready,
      and never with 503. */
  lemma InvalidBodyIgnoresReadiness(request: Request, ready: bool, service: Call<Minted>)
    requires Body(request).None? || !ValidBody(Body(request).value)
    ensures CreateCredit(request, ready, service) == CreateCredit(request, !ready, service)
    ensures !CreateCredit(request, ready, service).reply.Unavailable?
    ensures CreateCredit(request, ready, service).forwarded.None?
  {
  }

  /** The route's whitelist is exactly the platform's set of credit type names. */
  lemma WhitelistIsCreditTypes(body: Js.Value)
    ensures WhitelistedType(body) <==>
      Get(body, "creditType").Str? && Types.ParseCreditType(Get(body, "creditType").s).Some?
  {
  }

  /** A name the success message cannot interpolate gets 500, although the service
      has already created the token. */
  lemma UnprintableNameFailsAfterMinting(request: Request, minted: Minted)
    requires Body(request).Some? && ValidBody(request.body)
    requires Get(request.body, "name") == Obj(map["toString" := Num(1.0)])
    ensures CreateCredit(request, true, Returned(minted)) ==
            Handled(ServerError(CreateFailed), Some(TokenRequestOf(request.body)))
  {
  }

  function ExampleBody(initialSupply: Js.Value, decimals: Option<Js.Value>): Js.Value
  {
    var fields := map[
      "name" := Str("Amazon Carbon"), "symbol" := Str("AMC"), "initialSupply" := initialSupply,
      "maxSupply" := Num(1000.0), "creditType" := Str("carbon"), "vintageYear" := Num(2024.0),
      "zoneId" := Str("zone-1"), "methodology" := Str("VCS")];
    Obj(if decimals.Some? then fields["decimals" := decimals.value] else fields)
  }

  /** The fields of the example body, looked up one by one. */
  lemma ExampleBodyFields(initialSupply: Js.Value, decimals: Option<Js.Value>)
    ensures var body := ExampleBody(initialSupply, decimals);
      && Get(body, "name") == Str("Amazon Carbon") && Get(body, "symbol") == Str("AMC")
      && Get(body, "initialSupply") == initialSupply && Get(body, "maxSupply") == Num(1000.0)
      && Get(body, "creditType") == Str("carbon") && Get(body, "vintageYear") == Num(2024.0)
      && Get(body, "zoneId") == Str("zone-1") && Get(body, "methodology") == Str("VCS")
      && Get(body, "decimals") == (if decimals.Some? then decimals.value else Undefined)
  {
  }

  /** A supply of 0 is falsy and so reported as missing. */
  lemma ExampleZeroSupplyIsMissing(minted: Minted)
    ensures CreateCredit(Json(ExampleBody(Num(0.0), None)), true, Returned(minted)).reply
            == BadRequest(MissingRequiredFields)
  {
    ExampleBodyFields(Num(0.0), None);
  }

  /** An absent `decimals` is sent as 2, while an explicit `null` is sent as `null`. */
  lemma ExampleDecimalsDefault(minted: Minted)
    ensures CreateCredit(Json(ExampleBody(Num(10.0), None)), true, Returned(minted)).forwarded
            == Some(TokenRequestOf(ExampleBody(Num(10.0), None)))
    ensures TokenRequestOf(ExampleBody(Num(10.0), None)).decimals == Num(2.0)
    ensures TokenRequestOf(ExampleBody(Num(10.0), Some(Null))).decimals == Null
  {
    ExampleBodyFields(Num(10.0), None);
    ExampleBodyFields(Num(10.0), Some(Null));
  }
}
