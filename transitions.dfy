/** Properties of the per-state handlers: the buttons the bot sends lead where
    they say, and the checkout rules hold whatever the backend answers. */
module Transitions {
  import opened Options
  import opened PyText
  import opened Domain
  import opened Keyboards
  import opened Zones
  import opened Handlers

  /** The decimal rendering of a number holds no colon, so it never splits. */
  lemma StrHasNoColon(n: int)
    ensures ':' !in Str(n)
  {
  }

  /** Pressing a navigation button with a non-negative offset in the menu shows
      the menu at exactly that offset. */
  lemma NavButtonShowsPage(p: PageMeta, n: Nav, chat: ChatId, env: Env)
    requires n in NavButtons(p) && n.offset >= 0
    ensures HandleMenuStep(Callback(chat, NavButton(n).data), env) == Step(MenuEffects(n.offset, env), Next(HandleMenu))
  {
    var data := NavButton(n).data;
    assert data == NatStr(n.offset);
    NatStrValue(n.offset);
    assert data != "cart" by {
      assert IsDigits(data) && !IsDigit('c');
    }
  }

  /** Pressing a product's menu button opens that product: its record is fetched
      by id and the chat's product context gets its id, caption and the price
      text of the button; an id the backend does not know raises. */
  lemma ProductButtonOpensProduct(l: Listing, chat: ChatId, env: Env)
    requires ':' !in l.id
    ensures var s := HandleMenuStep(Callback(chat, ProductData(l.id, l.amount)), env);
      match env.catalogue(l.id)
      case None => s == Step([], Raised)
      case Some(p) =>
        var context := ProductContext(p.id, Describe(p), PriceText(l.amount));
        s == Step([SetProductContext(context), ShowProduct(context)], Next(HandleDescription))
  {
    var data := ProductData(l.id, l.amount);
    StrHasNoColon(l.amount);
    assert ':' !in PriceText(l.amount) by {
      assert PriceText(l.amount) == Str(l.amount) + ['.', '0', '0'];
    }
    assert data == l.id + [':'] + PriceText(l.amount);
    SplitPair(l.id, ':', PriceText(l.amount));
    assert data[|l.id|] == ':';
    assert !IsDigits(data) && data != "cart";
  }

  /** The buy button (callback data `1`) adds one of the product last opened. */
  lemma BuyAddsOne(chat: ChatId, slots: Slots, env: Env)
    requires slots.product.Some?
    ensures var s := HandleDescriptionStep(Callback(chat, Str(1)), slots, env);
      && s.effects[0] == AddToCart(slots.product.value.id, 1)
      && s.outcome == Next(HandleDescription)
  {
    StrRoundTrip(1);
    assert Str(1) == "1";
  }

  /** A cart line's `-` and `+` buttons set its quantity one lower or one
      higher, and the filler between them changes nothing. */
  lemma QuantityButtonsSetQuantity(item: CartItem, chat: ChatId, env: Env)
    requires item.quantity >= 1 && ':' !in item.id
    ensures HandleChangeCartStep(Callback(chat, QuantityRow(item)[0].data), env)
      == Step([UpdateCartItem(item.id, item.quantity - 1), ShowChangeCart(ChangeCartKeyboard(env.cart.items))], Next(HandleChangeCart))
    ensures HandleChangeCartStep(Callback(chat, QuantityRow(item)[2].data), env)
      == Step([UpdateCartItem(item.id, item.quantity + 1), ShowChangeCart(ChangeCartKeyboard(env.cart.items))], Next(HandleChangeCart))
    ensures HandleChangeCartStep(Callback(chat, QuantityRow(item)[1].data), env) == Step([], Next(HandleChangeCart))
  {
    SetsQuantity(item.quantity - 1, item.id, chat, env);
    SetsQuantity(item.quantity + 1, item.id, chat, env);
  }

  lemma SetsQuantity(q: nat, id: string, chat: ChatId, env: Env)
    requires ':' !in id
    ensures HandleChangeCartStep(Callback(chat, QuantityData(q, id)), env)
      == Step([UpdateCartItem(id, q), ShowChangeCart(ChangeCartKeyboard(env.cart.items))], Next(HandleChangeCart))
  {
    var data := QuantityData(q, id);
    StrHasNoColon(q);
    assert data == Str(q) + [':'] + id;
    SplitPair(Str(q), ':', id);
    StrRoundTrip(q);
    assert Str(q) == NatStr(q);
    assert data[0] == Str(q)[0];
  }

  /** Every row of the edit keyboard acts on its own cart line: its quantity
      buttons change that line and no other. */
  lemma ChangeCartKeyboardActsPerLine(items: seq<CartItem>, k: nat, chat: ChatId, env: Env)
    requires k < |items| && items[k].quantity >= 1 && ':' !in items[k].id
    ensures ChangeCartKeyboard(items)[2 * k + 1] == QuantityRow(items[k])
    ensures HandleChangeCartStep(Callback(chat, ChangeCartKeyboard(items)[2 * k + 1][0].data), env)
      == Step([UpdateCartItem(items[k].id, items[k].quantity - 1), ShowChangeCart(ChangeCartKeyboard(env.cart.items))], Next(HandleChangeCart))
    ensures HandleChangeCartStep(Callback(chat, ChangeCartKeyboard(items)[2 * k + 1][2].data), env)
      == Step([UpdateCartItem(items[k].id, items[k].quantity + 1), ShowChangeCart(ChangeCartKeyboard(env.cart.items))], Next(HandleChangeCart))
  {
    ChangeCartKeyboardRow(items, k);
    QuantityButtonsSetQuantity(items[k], chat, env);
  }

  /** In the cart, only the four cart buttons act; any other callback data
      makes `handle_cart` return `None` and do nothing. */
  lemma CartIgnoresOtherData(chat: ChatId, data: string, slots: Slots, env: Env)
    requires data !in {"menu", "change", "clear", "checkout"}
    ensures HandleCartStep(Callback(chat, data), slots, env) == Step([], ReturnedNone)
  {
  }

  /** Checkout needs the summary cached by the last cart view; with it the
      chat moves on to give an address, without it the handler raises. */
  lemma CheckoutNeedsSummary(chat: ChatId, slots: Slots, env: Env)
    ensures var s := HandleCartStep(Callback(chat, "checkout"), slots, env);
      (s.outcome == Next(WaitingAddress) <==> slots.summary.Some?) && (slots.summary.None? ==> s.outcome == Raised)
  {
  }

  // ------------------------------------------------------------- the address

  /** A shared location is stored with the address "not provided", and the chat
      moves on to choose delivery; with no pizzeria at all `min` raises. */
  lemma LocationNotProvided(chat: ChatId, pos: Position, env: Env)
    ensures var s := HandleAddressStep(Message(chat, Location(pos)), env);
      if |env.pizzerias| == 0 then s == Step([], Raised)
      else
        && s.outcome == Next(HandleDelivery)
        && s.effects[0].SetDeliveryData?
        && s.effects[0].delivery.address == Some("not provided")
        && s.effects[0].delivery.location == Some(pos)
  {
  }

  /** A geocoder HTTP error asks for the address again, keeps the chat waiting
      for one and stores no delivery data. */
  lemma GeocoderErrorKeepsWaiting(chat: ChatId, text: string, env: Env)
    requires env.geocode.HttpError?
    ensures HandleAddressStep(Message(chat, Text(text)), env) == Step([AddressRetry], Next(WaitingAddress))
  {
  }

  /** A resolved address stores the delivery data of the first nearest
      pizzeria with the zone's cost, offers the zone's buttons, and moves on. */
  lemma AddressResolved(u: Update, env: Env)
    requires u.Message? && Locate(u.body, env.geocode).At? && |env.pizzerias| > 0
    ensures var s := HandleAddressStep(u, env);
      var nearest := env.pizzerias[FirstNearest(env.pizzerias)];
      && s.outcome == Next(HandleDelivery)
      && |s.effects| == 2
      && s.effects[0].SetDeliveryData?
      && s.effects[0].delivery.pizzeria == nearest
      && s.effects[0].delivery.location == Locate(u.body, env.geocode).pos
      && (forall p :: p in env.pizzerias ==> nearest.distance <= p.distance)
      && s.effects[0].delivery.cost == StoredCost(Classify(nearest.distance))
      && s.effects[1] == OfferFulfilment(FulfilmentKeyboard(Classify(nearest.distance)))
  {
  }

  // ------------------------------------------------------------ the delivery

  /** Cancel empties the cart and pickup does not; both go back to START;
      data that is none of the choices makes the handler return `None`. */
  lemma DeliveryChoices(chat: ChatId, data: string, env: Env)
    ensures HandleDeliveryStep(Callback(chat, "cancel"), env) == Step([ClearCart, Farewell(true)], Next(Start))
    ensures var s := HandleDeliveryStep(Callback(chat, "pickup"), env);
      s.outcome == Next(Start) && ClearCart !in s.effects
    ensures data != "cancel" && data != "pickup" && !StartsWith(data, "delivery") ==>
      HandleDeliveryStep(Callback(chat, data), env) == Step([], ReturnedNone)
  {
  }

  /** Choosing delivery at a fee sends one invoice to the chat, payable by it:
      one line per cart line and a delivery line exactly when the fee is not 0. */
  lemma DeliveryButtonInvoices(chat: ChatId, fee: int, env: Env)
    ensures HandleDeliveryStep(Callback(chat, DeliveryChoice(fee)), env)
      == Step([SendInvoice(Str(chat), InvoicePrices(env.cart.items, fee))], Next(HandlePrecheckout))
  {
    var data := DeliveryChoice(fee);
    assert data == "delivery" + [':'] + Str(fee);
    assert data[..8] == "delivery";
    StrHasNoColon(fee);
    SplitPair("delivery", ':', Str(fee));
    StrRoundTrip(fee);
  }

  /** The button a zone offers charges the cost stored for that zone: pressing
      any delivery button of the keyboard shown after an address invoices the
      cart plus the stored cost, with a delivery line only when it is not 0. */
  lemma OfferedDeliveryChargesStoredCost(d: real, chat: ChatId, data: string, env: Env)
    requires Offers(FulfilmentKeyboard(Classify(d)), Button(data)) && data != "pickup"
    ensures var s := HandleDeliveryStep(Callback(chat, data), env);
      if d < 20.0 then
        s == Step([SendInvoice(Str(chat), InvoicePrices(env.cart.items, StoredCost(Classify(d))))], Next(HandlePrecheckout))
      else
        data == "cancel" && s.outcome == Next(Start) && ClearCart in s.effects
  {
    var t := Classify(d);
    var kb := FulfilmentKeyboard(t);
    var row :| row in kb && Button(data) in row;
    assert |kb| == 1 && row == kb[0];
    ZoneTable(d);
    if d < 20.0 {
      assert data == DeliveryChoice(OfferedFee(t).value);
      DeliveryButtonInvoices(chat, OfferedFee(t).value, env);
    }
  }

  // ----------------------------------------------------- payment and feedback

  /** The invoice payload is the chat id; a pre-checkout query carrying it is
      accepted exactly when it comes from that same id. */
  lemma PayloadAcceptedOnlyFromItsChat(chat: ChatId, sender: ChatId)
    ensures HandlePrecheckoutStep(PreCheckout(sender, Str(chat))).outcome == Next(HandleReceipt) <==> sender == chat
    ensures sender != chat ==> HandlePrecheckoutStep(PreCheckout(sender, Str(chat))) == Step([AnswerPrecheckout(false)], Next(HandlePrecheckout))
  {
    StrInjective(chat, sender);
  }

  /** The courier is told of an order only from a message in a chat whose
      delivery data (with a position) and cart summary are stored, with that
      data and summary, after the customer address is stored and together with
      the feedback question an hour later; the chat moves on to HANDLE_FEEDBACK
      exactly when that message is a successful payment. */
  lemma CourierNotifiedWithStoredOrder(u: Update, slots: Slots)
    ensures var s := HandleSuccessPaymentStep(u, slots);
      (exists e :: e in s.effects && e.NotifyCourier?) ==>
        var d := slots.delivery.value;
        && u.Message? && slots.delivery.Some? && d.location.Some? && slots.summary.Some?
        && s.effects[0] == CreateCustomerAddress(d.address, d.location.value)
        && NotifyCourier(d.pizzeria.courier, slots.summary.value, d.cost) in s.effects
        && ScheduleFeedback(FeedbackDelay) in s.effects
        && (s.outcome == Next(HandleFeedback) <==> u.body.SuccessfulPayment?)
  {
  }

  /** Yes empties the cart and no does not, both back to START; anything else
      keeps asking and does nothing. */
  lemma FeedbackAnswers(chat: ChatId, data: string)
    ensures var s := HandleFeedbackStep(Callback(chat, data));
      && (data == "yes" ==> s.outcome == Next(Start) && ClearCart in s.effects)
      && (data == "no" ==> s.outcome == Next(Start) && ClearCart !in s.effects)
      && (data != "yes" && data != "no" ==> s == Step([], Next(HandleFeedback)))
  {
  }
}
