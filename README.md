# Pizza-shop Telegram bot: dialogue state machine

This project models the core of `tgbot.py`, a Telegram bot that sells pizza.
The bot shows a paged menu from the shop backend and opens products. It
fills and edits the customer's cart, then asks for an address or a shared
location. It picks the nearest pizzeria and offers pickup or delivery by
distance, sends an invoice, and approves the pre-checkout query. On payment
it notifies the pizzeria's courier and asks for feedback an hour later.

Every chat's dialogue state is a name stored in Redis. `handle_users_reply`
reads that name, looks up the handler registered for it and runs it. It
writes the returned name back only when the handler returns one without
raising.

The model is organised as follows:

- `options.dfy` holds `Option`.
- `pytext.dfy` holds the Python string operations the handlers rely on:
  `str.isdigit`, `int()`, `str()`, `split` and `startswith`, over ASCII digits.
- `domain.dfy` holds the entities:
  - updates (message, callback, pre-checkout query);
  - products, cart lines and pizzerias;
  - delivery data and invoice lines;
  - the *effects*, which are every action a handler performs: Redis slot
    writes, backend calls and Telegram replies;
  - the answers of the external services (`Env`).
- `keyboards.dfy` holds the callback-data formats and the inline keyboards:
  - the menu page, with its product rows and `<<<`/`>>>` buttons;
  - the cart view;
  - the quantity editor.

  The two loops that build keyboards are methods proved equal to the
  keyboard functions.
- `zones.dfy` holds the nearest pizzeria (the first minimum, as Python's
  `min` picks it) and the distance tiers. Below 0.5 km delivery is free,
  below 5 km it costs 100, below 20 km it costs 300, and beyond that there
  is pickup only.
- `handlers.dfy` holds `start` and the nine `handle_*` functions as the code
  is written, and the table that registers them. Each is a function from the
  update, the chat's three Redis slots and `Env` to a `Step`: the actions
  performed in order, and how the handler ends. It can end by returning a
  state, by falling off its end (`None`), or by raising. Each handler's
  contract gives the states it may return. The loop of `handle_description`
  is a method proved equal to a function.
- `transitions.dfy` holds properties of the handlers.
- `session.dfy` holds the dispatcher:
  - `Dispatch` is a function over the store;
  - `SessionStore` is a class whose fields are the Redis keys;
  - its method `HandleUsersReply` is proved to compute `Dispatch`, and it
    logs every action performed.
- `dispatch.dfy` holds properties of the dispatcher, including whole
  conversations.
- `corrected.dfy` holds the intended versions of `handle_address` and
  `handle_success_payment`, beside the lemmas that compare them with the
  handlers as written (see "## Findings"). The dispatcher runs the handlers
  as written.

Where a reader might expect otherwise, the model follows the code:

- A distance exactly at a tier boundary belongs to the dearer tier, because
  the code compares with `<`.
- The delivery fee charged is the one in the pressed button's callback data,
  not the cost stored with the delivery data. `Transitions.OfferedDeliveryChargesStoredCost`
  proves that the buttons the bot itself offers carry the stored cost.
- A chat with no stored state whose update is not `/start` does not default
  to START. `db.get` gives `None`, `.decode` raises outside the `try`, and
  nothing happens (`MissingSession`).
- There is no guard against processing a payment twice; the only such guard
  is the state change. The feedback job is scheduled unconditionally. The
  cached cart summary is never cleared.
- `handle_cart` and `handle_delivery` fall off their end on callback data
  they do not know. With redis-py 3 or later, writing `None` raises inside the
  `try`, so the stored state is left as it was (`NoneRejected`).

## Model

| member | source | states |
|---|---|---|
| PyText.NatStr | tgbot.py:98-120 | the decimal rendering of an offset is all digits with no leading zero |
| PyText.ParseInt | tgbot.py:200 | `int()` of an all-digit string is its decimal value; a negative result needs a leading `-` |
| PyText.NatStrValue | tgbot.py:150-152 | an offset rendered as a page button's data reads back as that offset |
| PyText.Str | tgbot.py:416 | see PyText.StrRoundTrip and PyText.StrInjective, which state what `str()` of an integer reads back as |
| PyText.StrRoundTrip | tgbot.py:416 | `int(str(n)) == n` for every integer, negative ones included |
| PyText.StrInjective | tgbot.py:487 | `str(a) == str(b)` exactly when `a == b` |
| PyText.Split | tgbot.py:153 | `split` yields at least one part and no part holds the separator |
| PyText.JoinSplit | tgbot.py:153 | joining the parts of a split with the separator gives back the string |
| PyText.SplitWithoutSep | tgbot.py:153 | a string without the separator splits into itself alone |
| PyText.SplitAfterHead | tgbot.py:303 | a separator-free head followed by the separator splits off as the first part |
| PyText.SplitPair | tgbot.py:303 | `a + ":" + b` with no colon in either splits into exactly `[a, b]` |
| Keyboards.ProductRows | tgbot.py:89-97 | the product rows are exactly those of the listings with a non-zero price and status `live` |
| Keyboards.NavButtons | tgbot.py:98-120 | `>>>` (offset + limit) exactly on pages before the last, `<<<` (offset − limit) exactly on pages after the first, none when there is one page |
| Keyboards.BuildMenuKeyboard | tgbot.py:87-121 | the loop builds the menu keyboard: product rows, navigation, then the cart button |
| Keyboards.CartKeyboard | tgbot.py:63-69 | the menu button always; change, clear and checkout exactly when the cart total is positive |
| Keyboards.LabelledRows | tgbot.py:268-284 | two rows per cart line, whatever the line's own row is |
| Keyboards.LabelledRowsAt | tgbot.py:268-284 | line k owns row 2k, its label with data `none`, and row 2k+1, its own row |
| Keyboards.ChangeCartRows | tgbot.py:268-284 | two rows per cart line |
| Keyboards.ChangeCartRowsAt | tgbot.py:268-284 | row 2k is line k's label (data `none`), row 2k+1 its `-`, filler and `+` buttons |
| Keyboards.ChangeCartKeyboardRow | tgbot.py:268-286 | in the whole edit keyboard, done button included, row 2k+1 is line k's quantity row |
| Keyboards.BuildChangeCartKeyboard | tgbot.py:266-286 | the loop builds the edit keyboard: two rows per line, then the done button |
| Zones.Classify | tgbot.py:359-378 | see Zones.ZoneTable and Zones.TierBoundaries, which state the tier of every distance |
| Zones.FirstNearest | tgbot.py:344-355 | the index of a pizzeria no farther than any other, and the first such |
| Zones.Nearest | tgbot.py:355 | no pizzeria exactly when the list is empty; otherwise one from the list at the least distance |
| Zones.FirstNearestUnique | tgbot.py:355 | the first minimum is unique, so the choice among pizzerias at the same distance is determined |
| Zones.ZoneTable | tgbot.py:359-384 | the tier table: pickup always; delivery:0 below 0.5 km, delivery:100 below 5, delivery:300 below 20 (each with that stored cost), else cancel and cost 0; a delivery button is offered exactly for the stored cost below 20 km |
| Zones.DeliveryChoiceInjective | tgbot.py:362-377 | different fees give different delivery callback data |
| Zones.CostMonotone | tgbot.py:359-378 | within delivery range a farther pizzeria never costs less |
| Zones.TierBoundaries | tgbot.py:359-378 | 0.5, 5 and 20 km belong to the dearer tier |
| Zones.Resolve | tgbot.py:344-386 | no quote exactly when there is no pizzeria; otherwise the first nearest pizzeria with the zone's cost, the given position and address, and the zone's buttons |
| Handlers.HandleMenuStep | tgbot.py:144-187 | `handle_menu` returns only HANDLE_CART, HANDLE_MENU or HANDLE_DESCRIPTION; its buttons are stated by Transitions.NavButtonShowsPage and Transitions.ProductButtonOpensProduct |
| Handlers.HandleDescriptionStep | tgbot.py:190-231 | `handle_description` returns only HANDLE_MENU, HANDLE_CART or HANDLE_DESCRIPTION; the buy button is stated by Transitions.BuyAddsOne |
| Handlers.HandleCartStep | tgbot.py:234-258 | `handle_cart` returns only HANDLE_MENU, HANDLE_CHANGE_CART or WAITING_ADDRESS; see Transitions.CartIgnoresOtherData and Transitions.CheckoutNeedsSummary |
| Handlers.HandleChangeCartStep | tgbot.py:300-315 | `handle_change_cart` returns only HANDLE_CART or HANDLE_CHANGE_CART; see Transitions.SetsQuantity and Transitions.QuantityButtonsSetQuantity |
| Handlers.FetchCoordinates | geofunctions.py:6-24 | the geocoder gives a pair or `None`, never `(None, None)`; no answer exactly when the HTTP request fails |
| Handlers.HandleAddressStep | tgbot.py:318-394 | `handle_address` as written returns only WAITING_ADDRESS or HANDLE_DELIVERY; see Transitions.LocationNotProvided, Transitions.GeocoderErrorKeepsWaiting, Transitions.AddressResolved and Corrected.NotFoundReplyIsDead |
| Handlers.HandleDeliveryStep | tgbot.py:397-441 | `handle_delivery` returns only START or HANDLE_PRECHECKOUT; see Transitions.DeliveryChoices and Transitions.DeliveryButtonInvoices |
| Handlers.HandleSuccessPaymentStep | tgbot.py:498-535 | `handle_success_payment` as written returns only HANDLE_FEEDBACK; see Transitions.CourierNotifiedWithStoredOrder and Corrected.UnpaidMessageNotifiesCourier |
| Handlers.HandleFeedbackStep | tgbot.py:457-482 | `handle_feedback` returns only START or HANDLE_FEEDBACK; see Transitions.FeedbackAnswers |
| Handlers.Handle | tgbot.py:556-564 | the handler registered for a state returns only a state of the conversation graph `Successors` gives for it |
| Handlers.InCart | tgbot.py:215-218 | the quantity of the last cart line holding the product, 0 when no line does |
| Handlers.QuantityInCart | tgbot.py:215-218 | the loop computes that quantity |
| Handlers.InvoicePrices | tgbot.py:420-425 | one line per cart line at `amount * 100`; a delivery line at `fee * 100`, last, exactly when the fee is not 0 |
| Handlers.InvoiceTotal | tgbot.py:420-425 | the invoice charges 100 × (the lines' amounts + the fee) |
| Handlers.ItemsTotal | tgbot.py:420-423 | without a fee the invoice charges 100 × the lines' amounts |
| Handlers.HandlePrecheckoutStep | tgbot.py:485-495 | one answer, approving exactly when the payload is the sender's id as a string; HANDLE_RECEIPT on approval, HANDLE_PRECHECKOUT otherwise |
| Transitions.StrHasNoColon | tgbot.py:276 | a number's rendering holds no colon |
| Transitions.NavButtonShowsPage | tgbot.py:98-120 | pressing a page button shows the menu at exactly its offset |
| Transitions.ProductButtonOpensProduct | tgbot.py:144-187 | pressing a product button stores and shows that product with the button's price text; an unknown id raises |
| Transitions.BuyAddsOne | tgbot.py:199-210 | the buy button adds one of the product last opened |
| Transitions.QuantityButtonsSetQuantity | tgbot.py:274-284 | `-` sets the line's quantity one lower, `+` one higher, the filler changes nothing |
| Transitions.SetsQuantity | tgbot.py:300-310 | `"<q>:<id>"` updates line `id` to quantity `q` and redraws the editor |
| Transitions.ChangeCartKeyboardActsPerLine | tgbot.py:268-284 | each line's quantity buttons act on that line |
| Transitions.CartIgnoresOtherData | tgbot.py:234-258 | data other than menu, change, clear or checkout does nothing and returns `None` |
| Transitions.CheckoutNeedsSummary | tgbot.py:247-258 | checkout reaches WAITING_ADDRESS exactly when a cart summary is cached, and raises otherwise |
| Transitions.LocationNotProvided | tgbot.py:321-357 | a location is stored with the address "not provided" and leads to HANDLE_DELIVERY; with no pizzeria it raises |
| Transitions.GeocoderErrorKeepsWaiting | tgbot.py:326-337 | an HTTP error from the geocoder asks again and keeps WAITING_ADDRESS |
| Transitions.AddressResolved | tgbot.py:344-394 | an address that resolves stores the nearest pizzeria, the zone's cost and the position found, offers the zone's buttons and leads to HANDLE_DELIVERY |
| Transitions.DeliveryChoices | tgbot.py:397-414 | cancel clears the cart, pickup does not, both lead to START; unknown data returns `None` |
| Transitions.DeliveryButtonInvoices | tgbot.py:415-441 | `delivery:<fee>` sends one invoice for the cart plus that fee, payload the chat id, and leads to HANDLE_PRECHECKOUT |
| Transitions.OfferedDeliveryChargesStoredCost | tgbot.py:359-425 | any delivery button the zone keyboard offers invoices exactly the stored cost; beyond 20 km only cancel is offered |
| Transitions.PayloadAcceptedOnlyFromItsChat | tgbot.py:485-495 | a pre-checkout query carrying a chat's invoice payload is approved exactly when it comes from that chat |
| Transitions.CourierNotifiedWithStoredOrder | tgbot.py:498-535 | as written, whenever the courier is notified the update is a message and the stored delivery data (with a position) and summary exist; the address is stored first, the courier gets that order and its cost, feedback is scheduled after 3600 s, and HANDLE_FEEDBACK follows exactly when the message is a successful payment |
| Transitions.FeedbackAnswers | tgbot.py:457-482 | yes clears the cart and no does not, both lead to START; anything else stays in HANDLE_FEEDBACK doing nothing |
| Corrected.HandleAddressIntended | tgbot.py:318-394 | corrected handler: returns only WAITING_ADDRESS or HANDLE_DELIVERY, and any delivery data it stores has a position |
| Corrected.NotFoundReplyIsDead | tgbot.py:326-342 | as written, the not-found reply is never sent: an unknown address stores delivery data with no position and leads to HANDLE_DELIVERY; the corrected handler replies and keeps waiting; on every other geocoder answer the two agree |
| Corrected.UnlocatedOrderIsNeverSent | tgbot.py:498-510 | as written, delivery data without a position makes the payment handler raise before any action |
| Corrected.GeocoderFailureKeepsWaiting | tgbot.py:326-342 | corrected handler: an HTTP error or an unknown address keeps WAITING_ADDRESS and stores no delivery data |
| Corrected.HandleSuccessPaymentIntended | tgbot.py:498-535 | corrected handler: returns only HANDLE_FEEDBACK |
| Corrected.UnpaidMessageNotifiesCourier | tgbot.py:498-535 | as written, a text message in HANDLE_RECEIPT notifies the courier and schedules feedback, then raises; the corrected handler does nothing |
| Corrected.PaymentHandledAlike | tgbot.py:498-535 | on a successful-payment message the as-written and corrected handlers agree |
| Corrected.CourierOnlyOnPayment | tgbot.py:498-535 | corrected handler: the courier is notified only on a successful payment, with the stored delivery data (with a position) and summary, and feedback is scheduled after 3600 s |
| Session.RegistryIsExact | tgbot.py:556-563 | the table registers exactly the ten state names, each for its own handler |
| Session.RegistryLookup | tgbot.py:556-563 | every state's name is registered, for that state's handler |
| Session.RegisteredName | tgbot.py:556-563 | every registered name is the name of the state it selects |
| Session.Dispatch | tgbot.py:538-572 | see Dispatching.CommitOnlyOnCompletion, Dispatching.StoredStateSelectsHandler, Dispatching.UnknownChatNeedsStart and Dispatching.OtherChatsUntouched |
| Session.Performed | tgbot.py:568-572 | a call raising part-way leaves a prefix of the actions performed |
| Session.SessionStore.Perform | tgbot.py:568-570 | performing actions writes exactly the slots `ApplyAll` gives and logs every action in order |
| Session.SessionStore.HandleUsersReply | tgbot.py:538-572 | the method's new store, verdict and logged actions are those of `Dispatch` |
| Dispatching.StartResetsAnySession | tgbot.py:551-552 | `/start` runs START whatever is stored, even for a new chat; `start` (tgbot.py:135-141) shows the first menu page, and HANDLE_MENU is committed |
| Dispatching.UnknownChatNeedsStart | tgbot.py:553-554 | a new chat's first update other than `/start` fails before any handler and changes nothing |
| Dispatching.StoredStateSelectsHandler | tgbot.py:553-569 | otherwise the handler registered for the stored name runs |
| Dispatching.ApplyAllTouchesOnlyChat | tgbot.py:568-570 | a handler's slot writes touch only its own chat's slots and never a state key |
| Dispatching.ApplyAllTouchesStates | tgbot.py:568-570 | a handler's actions leave the state keys unchanged |
| Dispatching.CommitOnlyOnCompletion | tgbot.py:568-572 | the state is written back exactly when the handler returns a state and nothing raises, and then it is that state |
| Dispatching.OtherChatsUntouched | tgbot.py:538-572 | an update leaves every other chat's state and slots as they were |
| Dispatching.CheckoutFailureStaysInCart | tgbot.py:247-258 | a failure during checkout leaves the chat in HANDLE_CART |
| Dispatching.DispatchKeepsRegistered | tgbot.py:556-572 | the dispatcher only writes registered names, so a registered store stays registered |
| Dispatching.RunKeepsRegistered | tgbot.py:538-572 | over any sequence of updates the stored names stay registered |
| Dispatching.PaymentNotifiesOnce | tgbot.py:498-535 | a payment notifies the courier exactly once |
| Dispatching.PaymentCommitsFeedback | tgbot.py:498-535 | a payment in HANDLE_RECEIPT performs the order's actions and commits HANDLE_FEEDBACK |
| Dispatching.MessageInFeedbackDoesNothing | tgbot.py:457-459 | in HANDLE_FEEDBACK a message raises before doing anything |
| Dispatching.PaymentReplayNotifiesOnce | tgbot.py:498-572 | a payment message delivered twice notifies the courier once; the second does nothing |
| Dispatching.ApplyAllInert | tgbot.py:568-570 | actions that write no slot leave the store as it was |
| Dispatching.UnpaidMessageRepeatsOrder | tgbot.py:498-572 | as written, a text message in HANDLE_RECEIPT stores the address, notifies the courier and schedules feedback, then raises and leaves the chat in HANDLE_RECEIPT; a second such message repeats it, so the courier is notified twice |
| Dispatching.DispatchCommits | tgbot.py:564-570 | a handler returning a state without raising commits it after its actions |
| Dispatching.LocationCommitsDelivery | tgbot.py:318-394 | a location in WAITING_ADDRESS stores the nearest pizzeria's quote and commits HANDLE_DELIVERY |
| Dispatching.DeliveryCommitsPrecheckout | tgbot.py:415-441 | a delivery button sends the invoice and commits HANDLE_PRECHECKOUT |
| Dispatching.OwnPrecheckoutCommitsReceipt | tgbot.py:485-495 | the chat's own pre-checkout query is approved and commits HANDLE_RECEIPT |
| Dispatching.PaidAfterDelivery | tgbot.py:397-535 | delivery button, own pre-checkout query and payment commit HANDLE_FEEDBACK, performing invoice, approval and order in turn |
| Dispatching.CheckoutFromLocation | tgbot.py:318-535 | from a location within 20 km, the offered delivery button, own approval and payment end in HANDLE_FEEDBACK with one notification, to the nearest courier, at the stored cost |
| Dispatching.OfferedAtStoredCost | tgbot.py:359-378 | within 20 km the zone keyboard offers the delivery button at the stored cost |
| Dispatching.CheckoutNotifiesOnce | tgbot.py:318-535 | the actions from a quote through invoice, approval and payment hold one courier notification |
| Dispatching.NotificationsAppend | tgbot.py:498-535 | notifications of consecutive runs add up |
| Dispatching.NoNotification | tgbot.py:318-495 | any sequence of actions none of which messages the courier counts no notification |

## Left out

- Telegram and the shop backend are not called: their answers are the `Env` parameter, and a call that raises is the `interrupt` parameter of `Dispatch`. The access-token cache (`token_generator`, `get_access_token`) is not part of this model.
- `main()`, the Redis connection, the job-queue timer, the `ask_feedback` job body, `init_setup.py`, `load_test_data.py` and `moltin.py` are not part of this model. Scheduling feedback is recorded as an action with its delay.
- Message texts, images, captions, markdown and the deletion of the previous message are not modelled. The Telegram actions are recorded by kind, with the data that decides behaviour: keyboards, payloads, prices, the courier and the summary.
- The summary is stored as the cart itself, not as its rendered text. Delivery data is stored as a value, not as its JSON text.
- Distances are given with each pizzeria (`Pizzeria.distance`). The geodesic computation of `get_distance` is floating point and not part of this model. When the geocoder found nothing, the position passed to `get_distance` is `None`; what geopy does with it is outside this model: its distances are still those given, and a raise is the `interrupt` parameter of `Dispatch`.
- PyText.ParseInt: models `int()` on an optional sign and ASCII digits only. Python also accepts surrounding whitespace, underscores and non-ASCII digits.
- Keyboards.PriceText: renders a price as the integer amount followed by `.00`. This agrees with `f"{price:.2f}"` for integral amounts only.
- Handlers.HandleStart: leaves out the reply that removes the custom keyboard, because it changes no state.
- Session.Dispatch: models redis-py 3 or later, where writing `None` raises (`NoneRejected`). redis-py 2 would store the string `"None"` and make the chat's next update fail.
- Session.SessionStore.HandleUsersReply: the log records the actions, not the external calls' replies.

## Findings

| source | as written | input that shows it | evidently intended | confidence | as-written member | corrected member |
|---|---|---|---|---|---|---|
| tgbot.py:326-342 | `assert current_pos != (None, None)`, but `fetch_coordinates` returns `None` for an unknown address (geofunctions.py:19-20), so the not-found reply is never sent; the handler goes on with no position, and a later payment raises at line 507 before the courier is told | a text address the geocoder finds nothing for | reply "address not found" and keep waiting for an address | high; not executed | Corrected.NotFoundReplyIsDead | Corrected.HandleAddressIntended |
| tgbot.py:498-535 | the courier is notified and feedback scheduled before `successful_payment` is read at line 532; the handler runs on any message in HANDLE_RECEIPT | a text message sent in HANDLE_RECEIPT, before paying | only a successful-payment message completes the order | high; not executed | Dispatching.UnpaidMessageRepeatsOrder | Corrected.HandleSuccessPaymentIntended |
