/** The analytics decoder: which messages the projection accepts and what it keeps of them. */
module Analytics {
  import opened Schema

  const TOPICS := {
    JourneyEntered, RecommendationCreated, NotificationSent, NotificationDelivered, NotificationFailed,
    RecommendationImpressed, RecommendationClicked, RecommendationDismissed, RedemptionSucceeded, MerchantVerified,
    VisitAttributed}

  datatype ProductEvent = ProductEvent(
    event: Id, topic: Topic, occurredAt: int, producer: Producer,
    trace: string, journey: Id, recommendation: Id, user: Hash,
    offer: Id, redemption: Id, merchant: Id, copySource: string, attribution: Attribution)

  /** A JSON null decodes to a payload without fields. */
  const NO_FIELDS := Object("", "", "", "", "", "", NoAttribution)

  /** `data` is None when the bytes are not a JSON envelope. */
  function DecodeEvent(data: Option<Envelope>): Option<ProductEvent> {
    match data
    case None => None
    case Some(e) =>
      if e.event == "" || e.version != 1 || e.occurredAt == Unset || e.producer == NoProducer || e.trace == ""
          || e.topic !in TOPICS || e.payload == Malformed then None
      else if !e.occurredAt.At? || e.payload == NotAnObject || e.journey == "" then None
      else
        var fields := if e.payload.Object? then e.payload else NO_FIELDS;
        var attribution := if e.topic == MerchantVerified then ObservedPosVerified else fields.attribution;
        if e.topic == VisitAttributed && attribution != InferredVisit then None
        else Some(ProductEvent(
          e.event, e.topic, e.occurredAt.time, e.producer, e.trace, e.journey, e.recommendation, e.user,
          fields.offer, fields.redemption, fields.merchant, fields.copySource, attribution))
  }

  /** What the decoder accepts. */
  lemma DecodeAccepts(e: Envelope)
    ensures DecodeEvent(None) == None
    ensures DecodeEvent(Some(e)).Some? <==>
      && e.event != "" && e.version == 1 && e.occurredAt.At? && e.producer != NoProducer && e.trace != ""
      && e.journey != "" && (e.payload.Object? || e.payload == NullPayload) && !e.topic.Unlisted?
      && (e.topic == VisitAttributed ==> e.payload.Object? && e.payload.attribution == InferredVisit)
  {
  }

  /** What it keeps, field by field. */
  lemma DecodeKeeps(e: Envelope)
    requires DecodeEvent(Some(e)).Some?
    ensures var d := DecodeEvent(Some(e)).value;
      && d.event == e.event && d.topic == e.topic && d.occurredAt == e.occurredAt.time && d.producer == e.producer
      && d.trace == e.trace && d.journey == e.journey && d.recommendation == e.recommendation && d.user == e.user
      && (e.payload.Object? ==>
        && d.offer == e.payload.offer && d.redemption == e.payload.redemption && d.merchant == e.payload.merchant
        && d.copySource == e.payload.copySource)
      && (!e.payload.Object? ==> d.offer == d.redemption == d.merchant == d.copySource == "")
      && d.attribution == (if e.topic == MerchantVerified then ObservedPosVerified
        else if e.payload.Object? then e.payload.attribution else NoAttribution)
  {
  }
}
