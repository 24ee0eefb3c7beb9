/** The monitoring-submission route: it requires a topic id and data, then the
    agent service's readiness, and forwards a message built from the data with
    defaults and, for the three sensor types, the type's own readings overlaid by
    the data's `metrics`. The clock's ISO time is a parameter. */
module MonitoringSubmit {
  import opened Js
  import opened Api
  import opened Outcomes

  const TopicAndDataRequired := "Topic ID and data are required"

  const SubmitFailed := "Failed to submit monitoring data"

  const DefaultType := "monitoring_update"

  const DefaultSource := "econexus_platform"

  /** The readings each sensor type copies from the top level of `data`. */
  const SatelliteKeys: seq<string> := ["ndvi", "forestCover", "waterQuality"]

  const BioacousticKeys: seq<string> := ["speciesDetected", "soundscapeIndex", "recordings"]

  const SensorKeys: seq<string> := ["temperature", "humidity", "soilMoisture", "airQuality"]

  datatype Message = Message(timestamp: string, kind: Js.Value, source: Js.Value, metrics: Js.Value, metadata: Js.Value)

  datatype Submission = Submission(topicId: Js.Value, message: Message)

  /** The service's receipt for a submitted message. */
  datatype Receipt = Receipt(sequenceNumber: string, transactionId: string)

  datatype Submitted = Submitted(sequenceNumber: string, transactionId: string, timestamp: string)

  /** The readings a sensor type copies, or none for any other type. */
  function ReadingKeys(kind: Js.Value): seq<string>
  {
    if kind == Str("satellite") then SatelliteKeys
    else if kind == Str("bioacoustic") then BioacousticKeys
    else if kind == Str("sensor") then SensorKeys
    else []
  }

  /** The object literal `{ k1: data.k1, …, kn: data.kn }`. */
  function Readings(data: Js.Value, keys: seq<string>): (m: map<string, Js.Value>)
    ensures m.Keys == set k | k in keys
    ensures forall k | k in m :: m[k] == Get(data, k)
  {
    if |keys| == 0 then map[]
    else Readings(data, keys[..|keys| - 1])[keys[|keys| - 1] := Get(data, keys[|keys| - 1])]
  }

  /** `metrics` is the type's readings overlaid by the data's own metrics: every key
      of either is present, the data's metrics win, and a reading they do not
      override keeps the top-level value. */
  predicate Overlaid(metrics: Js.Value, data: Js.Value, keys: seq<string>)
  {
    var own := OwnProps(Get(data, "metrics"));
    && metrics.Obj?
    && metrics.props.Keys == (set k | k in keys) + own.Keys
    && (forall k | k in own :: metrics.props[k] == own[k])
    && (forall k | k in keys && k !in own :: metrics.props[k] == Get(data, k))
  }

  /** The message sent for `data` at time `now`. */
  function MessageOf(data: Js.Value, now: string): (message: Message)
    ensures message.timestamp == now
    ensures Truthy(Get(data, "type")) ==> message.kind == Get(data, "type")
    ensures !Truthy(Get(data, "type")) ==> message.kind == Str(DefaultType)
    ensures Truthy(Get(data, "source")) ==> message.source == Get(data, "source")
    ensures !Truthy(Get(data, "source")) ==> message.source == Str(DefaultSource)
    ensures Truthy(Get(data, "metadata")) ==> message.metadata == Get(data, "metadata")
    ensures !Truthy(Get(data, "metadata")) ==> message.metadata == Obj(map[])
    ensures ReadingKeys(Get(data, "type")) != [] ==> Overlaid(message.metrics, data, ReadingKeys(Get(data, "type")))
    ensures ReadingKeys(Get(data, "type")) == [] ==>
      message.metrics == (if Truthy(Get(data, "metrics")) then Get(data, "metrics") else Obj(map[]))
  {
    var keys := ReadingKeys(Get(data, "type"));
    var metrics :=
      if keys == [] then Or(Get(data, "metrics"), Obj(map[]))
      else Obj(Spread(Readings(data, keys), Get(data, "metrics")));
    Message(now, Or(Get(data, "type"), Str(DefaultType)), Or(Get(data, "source"), Str(DefaultSource)), metrics,
            Or(Get(data, "metadata"), Obj(map[])))
  }

  predicate ValidBody(body: Js.Value)
  {
    Truthy(Get(body, "topicId")) && Truthy(Get(body, "data"))
  }

  /** The route. */
  function SubmitMonitoring(request: Request, ready: bool, now: string, service: Call<Receipt>)
    : (h: Handled<Submission, Submitted>)
    ensures Body(request).None? ==> h == Handled(ServerError(SubmitFailed), None)
    ensures Body(request).Some? ==>
      var body := Body(request).value;
      && (h.reply == BadRequest(TopicAndDataRequired) <==> !ValidBody(body))
      && (h.reply.Unavailable? <==> ValidBody(body) && !ready)
      && (h.forwarded.Some? <==> ValidBody(body) && ready)
      && (h.reply.Success? <==> ValidBody(body) && ready && service.Returned?)
    ensures h.forwarded.Some? ==>
      h.forwarded.value == Submission(Get(request.body, "topicId"), MessageOf(Get(request.body, "data"), now))
    ensures h.reply.Success? ==>
      && service.Returned? && h.forwarded.Some?
      && h.reply.payload.timestamp == h.forwarded.value.message.timestamp
      && h.reply.payload.sequenceNumber == service.value.sequenceNumber
      && h.reply.payload.transactionId == service.value.transactionId
    ensures h.reply.ServerError? ==> h.reply.error == SubmitFailed
  {
    match Body(request)
    case None => Handled(ServerError(SubmitFailed), None)
    case Some(body) =>
      if !ValidBody(body) then Handled(BadRequest(TopicAndDataRequired), None)
      else if !ready then Handled(Unavailable, None)
      else
        var message := MessageOf(Get(body, "data"), now);
        var sent := Submission(Get(body, "topicId"), message);
        match service
        case Threw => Handled(ServerError(SubmitFailed), Some(sent))
        case Returned(receipt) =>
          Handled(Success(Submitted(receipt.sequenceNumber, receipt.transactionId, message.timestamp)), Some(sent))
  }

  /** An invalid body is answered the same way whether or not the service is ready,
      and never with 503. */
  lemma InvalidBodyIgnoresReadiness(request: Request, ready: bool, now: string, service: Call<Receipt>)
    requires Body(request).None? || !ValidBody(Body(request).value)
    ensures SubmitMonitoring(request, ready, now, service) == SubmitMonitoring(request, !ready, now, service)
    ensures !SubmitMonitoring(request, ready, now, service).reply.Unavailable?
    ensures SubmitMonitoring(request, ready, now, service).forwarded.None?
  {
  }

  /** The reply's timestamp is the clock reading the message was stamped with. */
  lemma ReplyTimestampIsMessageTimestamp(request: Request, ready: bool, now: string, service: Call<Receipt>)
    requires SubmitMonitoring(request, ready, now, service).reply.Success?
    ensures SubmitMonitoring(request, ready, now, service).reply.payload.timestamp == now
  {
  }

  /** A satellite reading given both at the top level and inside `metrics` is taken
      from `metrics`. */
  lemma MetricsOverrideReadings(data: Js.Value, now: string, key: string)
    requires Get(data, "type") == Str("satellite")
    requires Get(data, "metrics").Obj? && key in Get(data, "metrics").props
    ensures MessageOf(data, now).metrics.props[key] == Get(data, "metrics").props[key]
  {
  }

  /** A satellite reading missing from `metrics` is copied from the top level, even
      when that value is absent. */
  lemma ReadingsFillTheRest(data: Js.Value, now: string)
    requires Get(data, "type") == Str("satellite") && !Get(data, "metrics").Obj?
    requires !Get(data, "metrics").Arr? && !Get(data, "metrics").Str?
    ensures MessageOf(data, now).metrics == Obj(map[
      "ndvi" := Get(data, "ndvi"), "forestCover" := Get(data, "forestCover"),
      "waterQuality" := Get(data, "waterQuality")])
  {
    SatelliteReadings(data);
    SpreadOfNothing(Readings(data, SatelliteKeys), Get(data, "metrics"));
  }

  /** The satellite readings object, written out. */
  lemma SatelliteReadings(data: Js.Value)
    ensures Readings(data, SatelliteKeys) == map[
      "ndvi" := Get(data, "ndvi"), "forestCover" := Get(data, "forestCover"),
      "waterQuality" := Get(data, "waterQuality")]
  {
    assert SatelliteKeys[..2] == ["ndvi", "forestCover"];
    assert SatelliteKeys[..2][..1] == ["ndvi"];
    assert ["ndvi"][..0] == [];
  }

  /** Types other than the three sensor types never gain readings: an unknown type
      keeps the data's metrics as they are. */
  lemma OtherTypesKeepMetrics(data: Js.Value, now: string)
    requires Get(data, "type") !in {Str("satellite"), Str("bioacoustic"), Str("sensor")}
    ensures MessageOf(data, now).metrics == Or(Get(data, "metrics"), Obj(map[]))
  {
  }
}
