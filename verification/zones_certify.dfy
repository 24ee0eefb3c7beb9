/** The zone-certification route: it checks the body's required fields, then the
    location's coordinates, then the agent service's readiness, and forwards a
    certificate request for the zone. The clock's ISO time is a parameter. */
module ZonesCertify {
  import opened Js
  import opened Api
  import opened Outcomes

  const RequiredFields: seq<string> := ["name", "symbol", "zoneId", "location", "area", "certifications"]

  const InvalidCoordinates := "Invalid location coordinates"

  const CertifyFailed := "Failed to create zone certification"

  datatype Coordinates = Coordinates(lat: Js.Value, lng: Js.Value)

  datatype ZoneMetadata = ZoneMetadata(
    location: Coordinates,
    area: Js.Value,
    verificationDate: string,
    certifications: Js.Value)

  datatype CertificateRequest = CertificateRequest(name: Js.Value, symbol: Js.Value, zoneId: Js.Value, metadata: ZoneMetadata)

  /** The success payload; its message names the same zone id. */
  datatype ZoneCertified = ZoneCertified(tokenId: string, transactionId: string, zoneId: Js.Value)

  predicate HasRequiredFields(body: Js.Value)
  {
    && Truthy(Get(body, "name")) && Truthy(Get(body, "symbol")) && Truthy(Get(body, "zoneId"))
    && Truthy(Get(body, "location")) && Truthy(Get(body, "area")) && Truthy(Get(body, "certifications"))
  }

  /** Both coordinates must be truthy, so a latitude or longitude of exactly 0 is
      refused. */
  predicate HasCoordinates(body: Js.Value)
  {
    var location := Get(body, "location");
    Truthy(Get(location, "lat")) && Truthy(Get(location, "lng"))
  }

  predicate ValidBody(body: Js.Value)
  {
    HasRequiredFields(body) && HasCoordinates(body)
  }

  /** The request to the agent service: the two coordinates and nothing else from
      the location, with area and certifications as given. */
  function CertificateRequestOf(body: Js.Value, now: string): (sent: CertificateRequest)
    ensures sent.metadata.location.lat == Get(Get(body, "location"), "lat")
    ensures sent.metadata.location.lng == Get(Get(body, "location"), "lng")
    ensures sent.metadata.area == Get(body, "area") && sent.metadata.certifications == Get(body, "certifications")
    ensures sent.metadata.verificationDate == now
    ensures sent.name == Get(body, "name") && sent.symbol == Get(body, "symbol") && sent.zoneId == Get(body, "zoneId")
  {
    var location := Get(body, "location");
    CertificateRequest(
      Get(body, "name"), Get(body, "symbol"), Get(body, "zoneId"),
      ZoneMetadata(Coordinates(Get(location, "lat"), Get(location, "lng")), Get(body, "area"), now,
                   Get(body, "certifications")))
  }

  /** The route. */
  function CertifyZone(request: Request, ready: bool, now: string, service: Call<Minted>)
    : (h: Handled<CertificateRequest, ZoneCertified>)
    ensures Body(request).None? ==> h == Handled(ServerError(CertifyFailed), None)
    ensures Body(request).Some? ==>
      var body := Body(request).value;
      && (h.reply == BadRequest(MissingRequiredFields) <==> !HasRequiredFields(body))
      && (h.reply == BadRequest(InvalidCoordinates) <==> HasRequiredFields(body) && !HasCoordinates(body))
      && (h.reply.Unavailable? <==> ValidBody(body) && !ready)
      && (h.forwarded.Some? <==> ValidBody(body) && ready)
      && (h.reply.Success? <==> ValidBody(body) && ready && service.Returned? && Stringifiable(Get(body, "zoneId")))
    ensures h.forwarded.Some? ==> h.forwarded.value == CertificateRequestOf(request.body, now)
    ensures h.reply.Success? ==>
      && service.Returned? && h.forwarded.Some?
      && h.reply.payload == ZoneCertified(service.value.tokenId, service.value.transactionId, h.forwarded.value.zoneId)
    ensures h.reply.ServerError? ==> h.reply.error == CertifyFailed
  {
    match Body(request)
    case None => Handled(ServerError(CertifyFailed), None)
    case Some(body) =>
      if !HasRequiredFields(body) then Handled(BadRequest(MissingRequiredFields), None)
      else if !HasCoordinates(body) then Handled(BadRequest(InvalidCoordinates), None)
      else if !ready then Handled(Unavailable, None)
      else
        var sent := CertificateRequestOf(body, now);
        match service
        case Threw => Handled(ServerError(CertifyFailed), Some(sent))
        case Returned(minted) =>
          // the success message interpolates the zone id, which can throw after the NFT exists
          if !Stringifiable(Get(body, "zoneId")) then Handled(ServerError(CertifyFailed), Some(sent))
          else Handled(Success(ZoneCertified(minted.tokenId, minted.transactionId, Get(body, "zoneId"))), Some(sent))
  }

  /** Every listed field is required on its own. */
  lemma AnyFalsyFieldIsMissing(request: Request, ready: bool, now: string, service: Call<Minted>, field: string)
    requires request.Json? && Destructurable(request.body)
    requires field in RequiredFields && !Truthy(Get(request.body, field))
    ensures CertifyZone(request, ready, now, service).reply == BadRequest(MissingRequiredFields)
  {
  }

  /** An invalid body is answered the same way whether or not the service is ready,
      and never with 503. */
  lemma InvalidBodyIgnoresReadiness(request: Request, ready: bool, now: string, service: Call<Minted>)
    requires Body(request).None? || !ValidBody(Body(request).value)
    ensures CertifyZone(request, ready, now, service) == CertifyZone(request, !ready, now, service)
    ensures !CertifyZone(request, ready, now, service).reply.Unavailable?
    ensures CertifyZone(request, ready, now, service).forwarded.None?
  {
  }

  /** The successful reply names the zone of the request. */
  lemma SuccessEchoesZone(request: Request, ready: bool, now: string, service: Call<Minted>)
    requires CertifyZone(request, ready, now, service).reply.Success?
    ensures CertifyZone(request, ready, now, service).reply.payload.zoneId == Get(request.body, "zoneId")
    ensures Truthy(CertifyZone(request, ready, now, service).reply.payload.zoneId)
  {
  }

  /** A zone id the success message cannot interpolate gets 500, although the
      service has already minted the certificate. */
  lemma UnprintableZoneFailsAfterMinting(request: Request, now: string, minted: Minted)
    requires Body(request).Some? && ValidBody(request.body)
    requires Get(request.body, "zoneId") == Obj(map["toString" := Num(1.0)])
    ensures CertifyZone(request, true, now, Returned(minted)) ==
            Handled(ServerError(CertifyFailed), Some(CertificateRequestOf(request.body, now)))
  {
  }

  /** A location given as a number or a string is truthy, so it passes the
      required-fields check, but has no coordinates. */
  lemma LocationWithoutObjectHasNoCoordinates(body: Js.Value)
    requires !Get(body, "location").Obj?
    ensures !HasCoordinates(body)
  {
  }

  /** A zone on the equator (latitude 0) is refused as having invalid coordinates. */
  lemma EquatorIsRefused(rest: map<string, Js.Value>, lng: real)
    requires forall f | f in RequiredFields && f != "location" :: f in rest && Truthy(rest[f])
    ensures var location := Obj(map["lat" := Num(0.0), "lng" := Num(lng)]);
      var body := Obj(rest["location" := location]);
      CertifyZone(Json(body), true, "", Threw).reply == BadRequest(InvalidCoordinates)
  {
    var location := Obj(map["lat" := Num(0.0), "lng" := Num(lng)]);
    var body := Obj(rest["location" := location]);
    assert Get(body, "location") == location;
    assert !Truthy(Get(location, "lat"));
    assert forall f | f in RequiredFields && f != "location" :: Get(body, f) == rest[f];
    assert RequiredFields[0] == "name" && RequiredFields[1] == "symbol" && RequiredFields[2] == "zoneId";
    assert RequiredFields[4] == "area" && RequiredFields[5] == "certifications";
  }
}
