/** `handle_address` and `handle_success_payment` as their code evidently
    intends them, beside the versions the dispatcher runs, with the inputs
    that show where the two part. */
module Corrected {
  import opened Options
  import opened Domain
  import opened Zones
  import opened Handlers

  // ---------------------------------------------------- the unknown address

  /** The intended reading of the geocoder's answer: an HTTP error and an
      unknown address both ask the customer to try again. */
  function LocateIntended(b: MessageBody, geocode: Geocode): Located {
    if b.Location? then At(Some(b.pos), Some("not provided"))
    else match geocode
      case HttpError => Retry(AddressRetry)
      case NotFound => Retry(AddressNotFound)
      case Found(pos) => At(Some(pos), MessageText(b))
  }

  /** `handle_address` with the not-found answer handled as its `except
      AssertionError` branch intends: delivery data is stored only with a position. */
  function HandleAddressIntended(u: Update, env: Env): (s: Step)
    ensures s.outcome.Next? ==> s.outcome.state in {WaitingAddress, HandleDelivery}
    ensures forall e :: e in s.effects && e.SetDeliveryData? ==> e.delivery.location.Some?
  {
    if !u.Message? then Step([], Raised)
    else match LocateIntended(u.body, env.geocode)
      case Retry(reply) => Step([reply], Next(WaitingAddress))
      case At(pos, address) =>
        match Resolve(pos, address, env.pizzerias)
        case None => Step([], Raised)
        case Some(quote) =>
          Step([SetDeliveryData(quote.delivery), OfferFulfilment(quote.keyboard)], Next(HandleDelivery))
  }

  /** As written, the not-found reply is never sent: an unknown address goes
      on to store delivery data without a position and offer the nearest
      pizzeria's buttons. The intended handler replies and keeps waiting. On
      every other geocoder answer the two agree. */
  lemma NotFoundReplyIsDead(u: Update, env: Env)
    ensures AddressNotFound !in HandleAddressStep(u, env).effects
    ensures u.Message? && !u.body.Location? && env.geocode.NotFound? && |env.pizzerias| > 0 ==>
      var q := Resolve(None, MessageText(u.body), env.pizzerias).value;
      && q.delivery.location.None?
      && HandleAddressStep(u, env) == Step([SetDeliveryData(q.delivery), OfferFulfilment(q.keyboard)], Next(HandleDelivery))
    ensures u.Message? && !u.body.Location? && env.geocode.NotFound? ==>
      HandleAddressIntended(u, env) == Step([AddressNotFound], Next(WaitingAddress))
    ensures !env.geocode.NotFound? ==> HandleAddressStep(u, env) == HandleAddressIntended(u, env)
  {
    if u.Message? && !u.body.Location? {
      var c := FetchCoordinates(env.geocode);
      assert c != Some(NonePair);
    }
  }

  /** A delivery slot stored without a position makes every later payment
      message raise before anything is done: the order is paid for, but the
      courier is never told. */
  lemma UnlocatedOrderIsNeverSent(u: Update, slots: Slots)
    requires slots.delivery.Some? && slots.delivery.value.location.None?
    ensures HandleSuccessPaymentStep(u, slots) == Step([], Raised)
  {
  }

  /** The intended handler: an HTTP error or an unknown address keeps the chat
      waiting for an address and stores no delivery data. */
  lemma GeocoderFailureKeepsWaiting(chat: ChatId, text: string, env: Env)
    requires env.geocode.HttpError? || env.geocode.NotFound?
    ensures var s := HandleAddressIntended(Message(chat, Text(text)), env);
      && s.outcome == Next(WaitingAddress)
      && forall e :: e in s.effects ==> !e.SetDeliveryData?
  {
  }

  // ----------------------------------- order completed on an unpaid message

  /** `handle_success_payment` reading the payment before any side effect, so
      that only a successful-payment message completes the order. */
  function HandleSuccessPaymentIntended(u: Update, slots: Slots): (s: Step)
    ensures s.outcome.Next? ==> s.outcome.state == HandleFeedback
  {
    if !u.Message? || !u.body.SuccessfulPayment? then Step([], Raised)
    else HandleSuccessPaymentStep(u, slots)
  }

  /** As written, a text message in HANDLE_RECEIPT, sent before the payment
      went through, gets the courier notified and the feedback scheduled, then
      raises. The intended handler does nothing for it. */
  lemma UnpaidMessageNotifiesCourier(chat: ChatId, text: string, delivery: DeliveryData, summary: Cart)
    requires delivery.location.Some?
    ensures var slots := Slots(None, Some(summary), Some(delivery));
      var s := HandleSuccessPaymentStep(Message(chat, Text(text)), slots);
      && NotifyCourier(delivery.pizzeria.courier, summary, delivery.cost) in s.effects
      && ScheduleFeedback(FeedbackDelay) in s.effects
      && s.outcome == Raised
      && HandleSuccessPaymentIntended(Message(chat, Text(text)), slots) == Step([], Raised)
  {
    var s := HandleSuccessPaymentStep(Message(chat, Text(text)), Slots(None, Some(summary), Some(delivery)));
    assert s.effects[1] == NotifyCourier(delivery.pizzeria.courier, summary, delivery.cost);
    assert s.effects[3] == ScheduleFeedback(FeedbackDelay);
  }

  /** On a successful-payment message the two handlers agree. */
  lemma PaymentHandledAlike(u: Update, slots: Slots)
    requires u.Message? && u.body.SuccessfulPayment?
    ensures HandleSuccessPaymentStep(u, slots) == HandleSuccessPaymentIntended(u, slots)
  {
  }

  /** The intended handler tells the courier of an order only on a
      successful-payment message, with the stored delivery data and cached
      summary, and schedules the feedback question an hour later. */
  lemma CourierOnlyOnPayment(u: Update, slots: Slots)
    ensures var s := HandleSuccessPaymentIntended(u, slots);
      (exists e :: e in s.effects && e.NotifyCourier?) ==>
        && u.Message? && u.body.SuccessfulPayment?
        && slots.delivery.Some? && slots.delivery.value.location.Some? && slots.summary.Some?
        && s.outcome == Next(HandleFeedback)
        && NotifyCourier(slots.delivery.value.pizzeria.courier, slots.summary.value, slots.delivery.value.cost) in s.effects
        && ScheduleFeedback(FeedbackDelay) in s.effects
  {
  }
}
