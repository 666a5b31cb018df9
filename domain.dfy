/** The entities the pizza bot handles: conversation states, inbound Telegram
    updates, the records it reads from the Moltin backend, the per-chat Redis
    slots, and the externally visible actions a handler performs. */
module Domain {
  import opened Options

  /** A Telegram chat (or, for a pre-checkout query, user) identifier. */
  type ChatId = int

  /** The ten conversation states registered in the dispatcher's table. */
  datatype State =
    | Start
    | HandleMenu
    | HandleDescription
    | HandleCart
    | HandleChangeCart
    | WaitingAddress
    | HandleDelivery
    | HandleFeedback
    | HandlePrecheckout
    | HandleReceipt

  /** A point as Telegram or the geocoder reports it; only ever passed along. */
  datatype Position = Position(lat: real, lon: real)

  /** What a message carries: the bot registers handlers for text, locations and successful payments. */
  datatype MessageBody =
    | Text(text: string)
    | Location(pos: Position)
    | SuccessfulPayment(totalAmount: int)

  /** One update as python-telegram-bot hands it to the dispatcher. */
  datatype Update =
    | Message(chat: ChatId, body: MessageBody)
    | Callback(chat: ChatId, data: string)
    | PreCheckout(sender: ChatId, payload: string)
    | Unhandled

  /** An inline button, identified by the callback data it sends back. */
  datatype Button = Button(data: string)

  type Keyboard = seq<seq<Button>>

  /** A product in the catalogue listing: `price[0].amount` and `status`. */
  datatype Listing = Listing(id: string, name: string, amount: int, status: string)

  /** The paging block `meta.page` of a product listing. */
  datatype PageMeta = PageMeta(current: int, total: int, offset: int, limit: int)

  datatype ProductPage = ProductPage(data: seq<Listing>, page: PageMeta)

  /** A product record; `description` is absent when the backend has none. */
  datatype Product = Product(id: string, name: string, description: Option<string>)

  /** The `_product_context` slot: the product last opened and its price text. */
  datatype ProductContext = ProductContext(id: string, description: string, price: string)

  /** A cart line: line id, product id, name, quantity and `value.amount`. */
  datatype CartItem = CartItem(id: string, productId: string, name: string, quantity: int, amount: int)

  /** The cart as the backend reports it, with its display total. */
  datatype Cart = Cart(items: seq<CartItem>, total: int)

  /** A pizzeria with its distance from the customer, in kilometres. */
  datatype Pizzeria = Pizzeria(address: string, courier: string, distance: real)

  /** What the geocoder answers for an address text. */
  datatype Geocode = Found(pos: Position) | NotFound | HttpError

  /** The `delivery_data_` slot. `address` is the message text (absent when the
      message had none) or "not provided" for a shared location; `location` is
      absent (JSON `null`) when the geocoder found nothing for the text. */
  datatype DeliveryData = DeliveryData(cost: int, address: Option<string>, location: Option<Position>, pizzeria: Pizzeria)

  /** An invoice line; amounts are in kopecks. */
  datatype LabeledPrice =
    | ItemPrice(name: string, quantity: int, amount: int)
    | DeliveryPrice(amount: int)

  /** The answers the external services give while one update is handled:
      the product listing at each offset, the product record for each id, the
      cart lines returned by an add-to-cart call, the cart when it is read,
      the geocoder's answer, and the pizzerias with their distances from the
      position the update resolves to. */
  datatype Env = Env(
    listing: int -> ProductPage,
    catalogue: string -> Option<Product>,
    added: seq<CartItem>,
    cart: Cart,
    geocode: Geocode,
    pizzerias: seq<Pizzeria>)

  /** The actions a handler performs, in the order it performs them. The first
      three are writes to the chat's Redis slots; the rest are calls to the
      backend, to Telegram and to the job queue. */
  datatype Effect =
    | SetProductContext(context: ProductContext)
    | SetCartSummary(cart: Cart)
    | SetDeliveryData(delivery: DeliveryData)
    | AddToCart(productId: string, quantity: int)
    | UpdateCartItem(itemId: string, quantity: int)
    | ClearCart
    | CreateCustomerAddress(address: Option<string>, location: Position)
    | NotifyCourier(courier: string, summary: Cart, cost: int)
    | SendCourierLocation(courier: string, location: Position)
    | ScheduleFeedback(delaySeconds: int)
    | SendInvoice(payload: string, prices: seq<LabeledPrice>)
    | AnswerPrecheckout(ok: bool)
    | ConfirmPayment(totalAmount: int)
    | ShowMenu(offset: int, keyboard: Keyboard)
    | ShowCart(keyboard: Keyboard)
    | ShowChangeCart(keyboard: Keyboard)
    | ShowProduct(context: ProductContext)
    | ShowInCart(quantity: int)
    | AlertFailure
    | AskAddress(summary: Cart)
    | AddressRetry
    | AddressNotFound
    | OfferFulfilment(keyboard: Keyboard)
    | Farewell(cancelled: bool)
    | FeedbackReply(received: bool)
}
