/** The per-state handlers of `tgbot.py`. Each is a function of the update, the
    chat's Redis slots and the answers of the external services, and yields the
    actions it performs in order and how it ends: returning a state name,
    falling off its end (Python's `None`), or raising. */
module Handlers {
  import opened Options
  import opened PyText
  import opened Domain
  import opened Keyboards
  import opened Zones

  /** How a handler ends. */
  datatype Outcome = Next(state: State) | ReturnedNone | Raised

  datatype Step = Step(effects: seq<Effect>, outcome: Outcome)

  /** The chat's three Redis slots as the handler reads them (absent when never written). */
  datatype Slots = Slots(product: Option<ProductContext>, summary: Option<Cart>, delivery: Option<DeliveryData>)

  /** The delay, in seconds, after which the feedback question is scheduled. */
  const FeedbackDelay := 3600

  /** The description text used when the product record has none. */
  const NoDescription := "нет описания"

  // ------------------------------------------------------------ shared steps

  /** `show_menu` at an offset: the listing there, rendered as the menu keyboard. */
  function MenuEffects(offset: int, env: Env): seq<Effect> {
    [ShowMenu(offset, MenuKeyboard(env.listing(offset)))]
  }

  /** `show_cart`: cache the cart as the chat's summary, then show it. */
  function CartEffects(cart: Cart): seq<Effect> {
    [SetCartSummary(cart), ShowCart(CartKeyboard(cart.total))]
  }

  /** The caption stored with an opened product: its name, then its description. */
  function Describe(p: Product): string {
    p.name + "\n" + p.description.GetOr(NoDescription)
  }

  // ---------------------------------------------------------------- start

  /** `start`: greet and show the first menu page; it needs a message to reply to. */
  function HandleStart(u: Update, env: Env): (s: Step)
    ensures s.outcome == (if u.Message? then Next(HandleMenu) else Raised)
    ensures u.Message? ==> s.effects == MenuEffects(0, env)
  {
    if u.Message? then Step(MenuEffects(0, env), Next(HandleMenu)) else Step([], Raised)
  }

  // ----------------------------------------------------------- handle_menu

  /** `handle_menu`: the cart button, a page button (all digits) or a product
      button `"<id>:<price>"`; anything else fails to unpack and raises. */
  function HandleMenuStep(u: Update, env: Env): (s: Step)
    ensures s.outcome.Next? ==> s.outcome.state in {HandleCart, HandleMenu, HandleDescription}
  {
    if !u.Callback? then Step([], Raised)
    else if u.data == "cart" then Step(CartEffects(env.cart), Next(HandleCart))
    else if IsDigits(u.data) then Step(MenuEffects(DigitsValue(u.data), env), Next(HandleMenu))
    else
      var parts := Split(u.data, ':');
      if |parts| != 2 then Step([], Raised)
      else match env.catalogue(parts[0])
        case None => Step([], Raised)
        case Some(p) =>
          var context := ProductContext(p.id, Describe(p), parts[1]);
          Step([SetProductContext(context), ShowProduct(context)], Next(HandleDescription))
  }

  // ---------------------------------------------------- handle_description

  /** The quantity of the product the cart reports: that of the LAST line with
      this product id (the loop overwrites), or 0 when there is none. */
  function InCart(items: seq<CartItem>, productId: string): (q: int)
    ensures (exists k :: 0 <= k < |items| && items[k].productId == productId && q == items[k].quantity
               && forall j :: k < j < |items| ==> items[j].productId != productId)
         || ((forall k :: 0 <= k < |items| ==> items[k].productId != productId) && q == 0)
    decreases |items|
  {
    if |items| == 0 then 0
    else if items[|items| - 1].productId == productId then items[|items| - 1].quantity
    else
      var q := InCart(items[..|items| - 1], productId);
      assert forall k :: 0 <= k < |items| - 1 ==> items[..|items| - 1][k] == items[k];
      q
  }

  /** `handle_description`'s loop over the returned cart lines. */
  method QuantityInCart(items: seq<CartItem>, productId: string) returns (inCart: int)
    ensures inCart == InCart(items, productId)
  {
    inCart := 0;
    for i := 0 to |items|
      invariant inCart == InCart(items[..i], productId)
    {
      if items[i].productId == productId {
        inCart := items[i].quantity;
      }
      assert items[..i + 1][..i] == items[..i];
    }
    assert items[..|items|] == items;
  }

  /** `handle_description`: back to the menu, to the cart, or buy: parse the
      quantity, read the product context (absent: raise), add to the cart and
      report how many are in it, or alert when the backend returned no lines. */
  function HandleDescriptionStep(u: Update, slots: Slots, env: Env): (s: Step)
    ensures s.outcome.Next? ==> s.outcome.state in {HandleMenu, HandleCart, HandleDescription}
  {
    if !u.Callback? then Step([], Raised)
    else if u.data == "menu" then Step(MenuEffects(0, env), Next(HandleMenu))
    else if u.data == "cart" then Step(CartEffects(env.cart), Next(HandleCart))
    else match ParseInt(u.data)
      case None => Step([], Raised)
      case Some(quantity) =>
        match slots.product
        case None => Step([], Raised)
        case Some(context) =>
          var add := AddToCart(context.id, quantity);
          if |env.added| == 0 then Step([add, AlertFailure], Next(HandleDescription))
          else Step([add, ShowInCart(InCart(env.added, context.id))], Next(HandleDescription))
  }

  // ----------------------------------------------------------- handle_cart

  /** `handle_cart`: menu, change, clear (empties the cart first) or checkout
      (needs the cached summary); any other data falls off the end. */
  function HandleCartStep(u: Update, slots: Slots, env: Env): (s: Step)
    ensures s.outcome.Next? ==> s.outcome.state in {HandleMenu, HandleChangeCart, WaitingAddress}
  {
    if !u.Callback? then Step([], Raised)
    else if u.data == "menu" then Step(MenuEffects(0, env), Next(HandleMenu))
    else if u.data == "change" then Step([ShowChangeCart(ChangeCartKeyboard(env.cart.items))], Next(HandleChangeCart))
    else if u.data == "clear" then Step([ClearCart] + MenuEffects(0, env), Next(HandleMenu))
    else if u.data == "checkout" then
      match slots.summary
      case None => Step([], Raised)
      case Some(summary) => Step([AskAddress(summary)], Next(WaitingAddress))
    else Step([], ReturnedNone)
  }

  // ---------------------------------------------------- handle_change_cart

  /** `handle_change_cart`: data starting with a digit is `"<quantity>:<item id>"`
      and sets that line's quantity; `cart` goes back to the cart; anything else
      stays. Empty data raises on `data[0]`. */
  function HandleChangeCartStep(u: Update, env: Env): (s: Step)
    ensures s.outcome.Next? ==> s.outcome.state in {HandleCart, HandleChangeCart}
  {
    if !u.Callback? || |u.data| == 0 then Step([], Raised)
    else if IsDigit(u.data[0]) then
      var parts := Split(u.data, ':');
      if |parts| != 2 then Step([], Raised)
      else match ParseInt(parts[0])
        case None => Step([], Raised)
        case Some(quantity) =>
          Step([UpdateCartItem(parts[1], quantity), ShowChangeCart(ChangeCartKeyboard(env.cart.items))], Next(HandleChangeCart))
    else if u.data == "cart" then Step(CartEffects(env.cart), Next(HandleCart))
    else Step([], Next(HandleChangeCart))
  }

  // -------------------------------------------------------- handle_address

  /** What the address text of a message is: its text, or nothing for a
      message that has none. */
  function MessageText(b: MessageBody): Option<string> {
    if b.Text? then Some(b.text) else None
  }

  /** The Python value `fetch_coordinates` returns: a coordinate pair, `None`,
      or the pair `(None, None)` that `handle_address` tests for. */
  datatype PyCoordinates = Pair(pos: Position) | NoneValue | NonePair

  /** `fetch_coordinates`: the pair of the first place found, `None` when
      nothing is found; absent when `raise_for_status` raises an HTTP error. */
  function FetchCoordinates(g: Geocode): (r: Option<PyCoordinates>)
    ensures r != Some(NonePair)
    ensures r.None? <==> g.HttpError?
  {
    match g
    case HttpError => None
    case NotFound => Some(NoneValue)
    case Found(pos) => Some(Pair(pos))
  }

  /** The position and address a message resolves to (the position absent when
      the geocoder answered `None`), or the reply asking to try again. */
  datatype Located = At(pos: Option<Position>, address: Option<string>) | Retry(reply: Effect)

  /** A shared location is used as it is, with the address "not provided". A
      text is geocoded: an HTTP error asks again; the not-found reply is tied
      to the answer `(None, None)`, which the geocoder never gives, so an
      unknown address goes on with no position and the message text. */
  function Locate(b: MessageBody, geocode: Geocode): Located {
    if b.Location? then At(Some(b.pos), Some("not provided"))
    else match FetchCoordinates(geocode)
      case None => Retry(AddressRetry)
      case Some(c) =>
        if c == NonePair then Retry(AddressNotFound)
        else At(if c.Pair? then Some(c.pos) else None, MessageText(b))
  }

  /** `handle_address`: ask again, or store the nearest pizzeria's quote and
      offer its buttons; with no pizzeria at all `min` raises. */
  function HandleAddressStep(u: Update, env: Env): (s: Step)
    ensures s.outcome.Next? ==> s.outcome.state in {WaitingAddress, HandleDelivery}
  {
    if !u.Message? then Step([], Raised)
    else match Locate(u.body, env.geocode)
      case Retry(reply) => Step([reply], Next(WaitingAddress))
      case At(pos, address) =>
        match Resolve(pos, address, env.pizzerias)
        case None => Step([], Raised)
        case Some(quote) =>
          Step([SetDeliveryData(quote.delivery), OfferFulfilment(quote.keyboard)], Next(HandleDelivery))
  }

  // ------------------------------------------------------- handle_delivery

  /** The invoice lines: one per cart line at `amount * 100`, then a delivery
      line at `fee * 100` only when the fee is not zero. */
  function InvoicePrices(items: seq<CartItem>, fee: int): (ps: seq<LabeledPrice>)
    ensures |ps| == |items| + (if fee != 0 then 1 else 0)
    ensures forall k :: 0 <= k < |items| ==> ps[k] == ItemPrice(items[k].name, items[k].quantity, items[k].amount * 100)
    ensures (exists k :: 0 <= k < |ps| && ps[k].DeliveryPrice?) <==> fee != 0
    ensures fee != 0 ==> ps[|ps| - 1] == DeliveryPrice(fee * 100)
  {
    var ps := seq(|items|, k requires 0 <= k < |items| => ItemPrice(items[k].name, items[k].quantity, items[k].amount * 100))
      + (if fee != 0 then [DeliveryPrice(fee * 100)] else []);
    assert fee != 0 ==> ps[|items|].DeliveryPrice?;
    ps
  }

  function LineTotal(items: seq<CartItem>): int
    decreases |items|
  {
    if |items| == 0 then 0 else LineTotal(items[..|items| - 1]) + items[|items| - 1].amount
  }

  function PriceTotal(ps: seq<LabeledPrice>): int
    decreases |ps|
  {
    if |ps| == 0 then 0 else PriceTotal(ps[..|ps| - 1]) + ps[|ps| - 1].amount
  }

  /** The invoice charges, in kopecks, one hundred times the cart lines' amounts plus the fee. */
  lemma {:induction false} InvoiceTotal(items: seq<CartItem>, fee: int)
    ensures PriceTotal(InvoicePrices(items, fee)) == 100 * (LineTotal(items) + fee)
    decreases |items|
  {
    var lines := InvoicePrices(items, 0);
    ItemsTotal(items);
    if fee != 0 {
      var ps := InvoicePrices(items, fee);
      assert ps[..|ps| - 1] == lines;
    } else {
      assert InvoicePrices(items, fee) == lines;
    }
  }

  lemma {:induction false} ItemsTotal(items: seq<CartItem>)
    ensures PriceTotal(InvoicePrices(items, 0)) == 100 * LineTotal(items)
    decreases |items|
  {
    if |items| > 0 {
      var n := |items| - 1;
      ItemsTotal(items[..n]);
      assert InvoicePrices(items, 0)[..n] == InvoicePrices(items[..n], 0);
    }
  }

  /** `handle_delivery`: cancel empties the cart and pickup does not, both back
      to START; `delivery...` reads the fee after the first colon and sends the
      invoice, with the chat id as payload; anything else falls off the end. */
  function HandleDeliveryStep(u: Update, env: Env): (s: Step)
    ensures s.outcome.Next? ==> s.outcome.state in {Start, HandlePrecheckout}
  {
    if !u.Callback? then Step([], Raised)
    else if u.data == "cancel" then Step([ClearCart, Farewell(true)], Next(Start))
    else if u.data == "pickup" then Step([Farewell(false)], Next(Start))
    else if StartsWith(u.data, "delivery") then
      var parts := Split(u.data, ':');
      if |parts| < 2 then Step([], Raised)
      else match ParseInt(parts[1])
        case None => Step([], Raised)
        case Some(fee) => Step([SendInvoice(Str(u.chat), InvoicePrices(env.cart.items, fee))], Next(HandlePrecheckout))
    else Step([], ReturnedNone)
  }

  // ----------------------------------------------------- handle_precheckout

  /** `handle_precheckout`: accept exactly when the invoice payload is the
      sender's id as a string. */
  function HandlePrecheckoutStep(u: Update): (s: Step)
    ensures !u.PreCheckout? ==> s == Step([], Raised)
    ensures u.PreCheckout? ==> s.effects == [AnswerPrecheckout(u.payload == Str(u.sender))]
    ensures u.PreCheckout? ==> (s.outcome == Next(HandleReceipt) <==> u.payload == Str(u.sender))
    ensures u.PreCheckout? ==> (s.outcome == Next(HandlePrecheckout) <==> u.payload != Str(u.sender))
  {
    if !u.PreCheckout? then Step([], Raised)
    else if u.payload != Str(u.sender) then Step([AnswerPrecheckout(false)], Next(HandlePrecheckout))
    else Step([AnswerPrecheckout(true)], Next(HandleReceipt))
  }

  // ------------------------------------------------- handle_success_payment

  /** The order's side effects once the customer address is stored: send the
      courier the summary and the delivery cost, then the location, then
      schedule the feedback question. */
  function OrderEffects(delivery: DeliveryData, summary: Cart): seq<Effect>
    requires delivery.location.Some?
  {
    [ NotifyCourier(delivery.pizzeria.courier, summary, delivery.cost),
      SendCourierLocation(delivery.pizzeria.courier, delivery.location.value),
      ScheduleFeedback(FeedbackDelay) ]
  }

  /** `handle_success_payment`: it runs on any message. A missing delivery slot,
      or one without a location (`float(None[0])`), raises before anything is
      done; then the customer address is stored, a missing summary raises, the
      order is sent to the courier and the feedback scheduled, and only then is
      the paid amount read, which raises when the message is not a payment. */
  function HandleSuccessPaymentStep(u: Update, slots: Slots): (s: Step)
    ensures s.outcome.Next? ==> s.outcome.state == HandleFeedback
  {
    if !u.Message? then Step([], Raised)
    else match slots.delivery
      case None => Step([], Raised)
      case Some(delivery) =>
        if delivery.location.None? then Step([], Raised)
        else
          var address := CreateCustomerAddress(delivery.address, delivery.location.value);
          match slots.summary
          case None => Step([address], Raised)
          case Some(summary) =>
            var done := [address] + OrderEffects(delivery, summary);
            if !u.body.SuccessfulPayment? then Step(done, Raised)
            else Step(done + [ConfirmPayment(u.body.totalAmount)], Next(HandleFeedback))
  }

  // -------------------------------------------------------- handle_feedback

  /** `handle_feedback`: yes empties the cart, no only apologises, both back to
      START; any other data stays, doing nothing. */
  function HandleFeedbackStep(u: Update): (s: Step)
    ensures s.outcome.Next? ==> s.outcome.state in {Start, HandleFeedback}
  {
    if !u.Callback? then Step([], Raised)
    else if u.data == "yes" then Step([ClearCart, FeedbackReply(true)], Next(Start))
    else if u.data == "no" then Step([FeedbackReply(false)], Next(Start))
    else Step([], Next(HandleFeedback))
  }

  // ------------------------------------------------------------ the table

  /** The conversation graph: the states each state's handler may return. */
  function Successors(s: State): set<State> {
    match s
    case Start => {HandleMenu}
    case HandleMenu => {HandleCart, HandleMenu, HandleDescription}
    case HandleDescription => {HandleMenu, HandleCart, HandleDescription}
    case HandleCart => {HandleMenu, HandleChangeCart, WaitingAddress}
    case HandleChangeCart => {HandleCart, HandleChangeCart}
    case WaitingAddress => {WaitingAddress, HandleDelivery}
    case HandleDelivery => {Start, HandlePrecheckout}
    case HandleFeedback => {Start, HandleFeedback}
    case HandlePrecheckout => {HandlePrecheckout, HandleReceipt}
    case HandleReceipt => {HandleFeedback}
  }

  /** The handler registered for each state; it only ever moves along the graph. */
  function Handle(s: State, u: Update, slots: Slots, env: Env): (r: Step)
    ensures r.outcome.Next? ==> r.outcome.state in Successors(s)
  {
    match s
    case Start => HandleStart(u, env)
    case HandleMenu => HandleMenuStep(u, env)
    case HandleDescription => HandleDescriptionStep(u, slots, env)
    case HandleCart => HandleCartStep(u, slots, env)
    case HandleChangeCart => HandleChangeCartStep(u, env)
    case WaitingAddress => HandleAddressStep(u, env)
    case HandleDelivery => HandleDeliveryStep(u, env)
    case HandleFeedback => HandleFeedbackStep(u)
    case HandlePrecheckout => HandlePrecheckoutStep(u)
    case HandleReceipt => HandleSuccessPaymentStep(u, slots)
  }
}
