/** Properties of `handle_users_reply` over the store: how the handler is
    selected, when the state is committed, that one chat never touches
    another's keys, and that the stored names always stay registered. */
module Dispatching {
  import opened Options
  import opened PyText
  import opened Domain
  import opened Keyboards
  import opened Zones
  import opened Handlers
  import opened Transitions
  import opened Session

  /** A `/start` message runs START whatever the chat's stored state, even for
      a chat never seen: the chat is committed to HANDLE_MENU. */
  lemma StartResetsAnySession(st: Store, chat: ChatId, env: Env)
    ensures var r := Dispatch(st, Message(chat, Text("/start")), env, None);
      && r.verdict == Committed(HandleMenu)
      && r.store.states == st.states[chat := "HANDLE_MENU"]
      && r.performed == MenuEffects(0, env)
  {
    RegistryLookup(Start);
    ApplyAllTouchesStates(st, chat, MenuEffects(0, env));
  }

  /** A chat whose first update is not `/start` has no stored state: the
      dispatcher fails before any handler runs, and nothing changes. */
  lemma UnknownChatNeedsStart(st: Store, u: Update, env: Env, interrupt: Option<nat>)
    requires !u.Unhandled? && ChatOf(u) !in st.states && UserReply(u) != Some("/start")
    ensures Dispatch(st, u, env, interrupt) == Result(st, MissingSession, [])
  {
  }

  /** Otherwise the handler that runs is the one registered for the stored name. */
  lemma StoredStateSelectsHandler(st: Store, u: Update, s: State, env: Env)
    requires !u.Unhandled? && UserReply(u) != Some("/start")
    requires ChatOf(u) in st.states && st.states[ChatOf(u)] == StateName(s)
    ensures Dispatch(st, u, env, None).performed == Handle(s, u, SlotsOf(st, ChatOf(u)), env).effects
  {
    RegistryLookup(s);
  }

  /** Slot writes never touch the state key, and never another chat's slots. */
  lemma {:induction false} ApplyAllTouchesOnlyChat(st: Store, chat: ChatId, effects: seq<Effect>, other: ChatId)
    requires other != chat
    ensures ApplyAll(st, chat, effects).states == st.states
    ensures SlotsOf(ApplyAll(st, chat, effects), other) == SlotsOf(st, other)
    decreases |effects|
  {
    if |effects| > 0 {
      ApplyAllTouchesOnlyChat(st, chat, effects[..|effects| - 1], other);
    }
  }

  /** The commit rule: the chat's state becomes the handler's return value
      exactly when the handler returns a state and nothing raised; in every
      other case the stored state map is left as it was. */
  lemma CommitOnlyOnCompletion(st: Store, u: Update, env: Env, interrupt: Option<nat>)
    requires !u.Unhandled?
    ensures var r := Dispatch(st, u, env, interrupt);
      && r.store.states == (if r.verdict.Committed? then st.states[ChatOf(u) := StateName(r.verdict.next)] else st.states)
      && (r.verdict.Committed? <==>
            && SelectedName(st, u).Some? && SelectedName(st, u).value in Registry
            && interrupt.None?
            && Handle(Registry[SelectedName(st, u).value], u, SlotsOf(st, ChatOf(u)), env).outcome.Next?)
      && (r.verdict.Committed? ==>
            r.verdict.next == Handle(Registry[SelectedName(st, u).value], u, SlotsOf(st, ChatOf(u)), env).outcome.state)
  {
    var chat := ChatOf(u);
    var sel := SelectedName(st, u);
    if sel.Some? && sel.value in Registry {
      var step := Handle(Registry[sel.value], u, SlotsOf(st, chat), env);
      ApplyAllTouchesStates(st, chat, Performed(step.effects, interrupt));
    }
  }

  lemma {:induction false} ApplyAllTouchesStates(st: Store, chat: ChatId, effects: seq<Effect>)
    ensures ApplyAll(st, chat, effects).states == st.states
    decreases |effects|
  {
    if |effects| > 0 {
      ApplyAllTouchesStates(st, chat, effects[..|effects| - 1]);
    }
  }

  /** An update for one chat leaves every other chat's state and slots as they were. */
  lemma OtherChatsUntouched(st: Store, u: Update, env: Env, interrupt: Option<nat>, other: ChatId)
    requires !u.Unhandled? ==> other != ChatOf(u)
    ensures var r := Dispatch(st, u, env, interrupt);
      && Lookup(r.store.states, other) == Lookup(st.states, other)
      && SlotsOf(r.store, other) == SlotsOf(st, other)
  {
    if !u.Unhandled? {
      var chat := ChatOf(u);
      var sel := SelectedName(st, u);
      if sel.Some? && sel.value in Registry {
        var step := Handle(Registry[sel.value], u, SlotsOf(st, chat), env);
        ApplyAllTouchesOnlyChat(st, chat, Performed(step.effects, interrupt), other);
      }
    }
  }

  /** A backend failure while checking out leaves the chat in HANDLE_CART, so
      the same button can be pressed again. */
  lemma CheckoutFailureStaysInCart(st: Store, chat: ChatId, env: Env, k: nat)
    requires Lookup(st.states, chat) == Some("HANDLE_CART")
    ensures var r := Dispatch(st, Callback(chat, "checkout"), env, Some(k));
      r.verdict == HandlerRaised && Lookup(r.store.states, chat) == Some("HANDLE_CART")
  {
    CommitOnlyOnCompletion(st, Callback(chat, "checkout"), env, Some(k));
  }

  /** Every name the dispatcher writes is registered, so a store that starts
      registered stays so: a chat can never reach an unregistered state. */
  lemma DispatchKeepsRegistered(st: Store, u: Update, env: Env, interrupt: Option<nat>)
    requires Registered(st)
    ensures Registered(Dispatch(st, u, env, interrupt).store)
    ensures !Dispatch(st, u, env, interrupt).verdict.UnregisteredState?
  {
    RegistryLookup(Start);
    if !u.Unhandled? {
      CommitOnlyOnCompletion(st, u, env, interrupt);
      var r := Dispatch(st, u, env, interrupt);
      if r.verdict.Committed? {
        RegistryLookup(r.verdict.next);
      }
    }
  }

  /** One update with the services' answers and the failure, if any, it meets. */
  datatype Event = Event(update: Update, env: Env, interrupt: Option<nat>)

  function Run(st: Store, events: seq<Event>): Store
    decreases |events|
  {
    if |events| == 0 then st
    else
      var e := events[|events| - 1];
      Dispatch(Run(st, events[..|events| - 1]), e.update, e.env, e.interrupt).store
  }

  /** From an empty store, or any registered one, every sequence of updates
      leaves only registered state names behind. */
  lemma {:induction false} RunKeepsRegistered(st: Store, events: seq<Event>)
    requires Registered(st)
    ensures Registered(Run(st, events))
    decreases |events|
  {
    if |events| > 0 {
      var e := events[|events| - 1];
      RunKeepsRegistered(st, events[..|events| - 1]);
      DispatchKeepsRegistered(Run(st, events[..|events| - 1]), e.update, e.env, e.interrupt);
    }
  }

  function Notifications(effects: seq<Effect>): nat
    decreases |effects|
  {
    if |effects| == 0 then 0
    else Notifications(effects[..|effects| - 1]) + (if effects[|effects| - 1].NotifyCourier? then 1 else 0)
  }

  /** The actions of a confirmed payment: store the address, tell the courier,
      send the location, schedule the feedback, thank the customer. */
  function PaymentEffects(d: DeliveryData, summary: Cart, amount: int): seq<Effect>
    requires d.location.Some?
  {
    [CreateCustomerAddress(d.address, d.location.value)] + OrderEffects(d, summary) + [ConfirmPayment(amount)]
  }

  lemma PaymentNotifiesOnce(d: DeliveryData, summary: Cart, amount: int)
    requires d.location.Some?
    ensures Notifications(PaymentEffects(d, summary, amount)) == 1
  {
    var e := PaymentEffects(d, summary, amount);
    assert |e| == 5 && e[1].NotifyCourier?;
    assert e[..1][..0] == [] && Notifications(e[..1]) == 0;
    assert e[..2][..1] == e[..1] && Notifications(e[..2]) == 1;
    assert e[..3][..2] == e[..2] && Notifications(e[..3]) == 1;
    assert e[..4][..3] == e[..3] && Notifications(e[..4]) == 1;
    assert e[..4] == e[..|e| - 1];
  }

  /** In HANDLE_RECEIPT, with the delivery data and the summary stored, a
      payment message commits HANDLE_FEEDBACK. */
  lemma PaymentCommitsFeedback(st: Store, chat: ChatId, amount: int, env: Env)
    requires Lookup(st.states, chat) == Some("HANDLE_RECEIPT")
    requires chat in st.deliveries && chat in st.summaries && st.deliveries[chat].location.Some?
    ensures var r := Dispatch(st, Message(chat, SuccessfulPayment(amount)), env, None);
      && r.verdict == Committed(HandleFeedback)
      && r.performed == PaymentEffects(st.deliveries[chat], st.summaries[chat], amount)
      && Lookup(r.store.states, chat) == Some("HANDLE_FEEDBACK")
  {
    RegistryLookup(HandleReceipt);
    ApplyAllTouchesStates(st, chat, PaymentEffects(st.deliveries[chat], st.summaries[chat], amount));
  }

  /** In HANDLE_FEEDBACK any message raises before doing anything. */
  lemma MessageInFeedbackDoesNothing(st: Store, chat: ChatId, body: MessageBody, env: Env)
    requires Lookup(st.states, chat) == Some("HANDLE_FEEDBACK")
    requires body != Text("/start")
    ensures Dispatch(st, Message(chat, body), env, None) == Result(st, HandlerRaised, [])
  {
    RegistryLookup(HandleFeedback);
  }

  /** A payment confirmation delivered twice notifies the courier once: the
      first commits HANDLE_FEEDBACK, where the repeated message raises before
      doing anything. */
  lemma PaymentReplayNotifiesOnce(st: Store, chat: ChatId, amount: int, env: Env)
    requires Lookup(st.states, chat) == Some("HANDLE_RECEIPT")
    requires chat in st.deliveries && chat in st.summaries && st.deliveries[chat].location.Some?
    ensures var u := Message(chat, SuccessfulPayment(amount));
      var first := Dispatch(st, u, env, None);
      var second := Dispatch(first.store, u, env, None);
      && first.verdict == Committed(HandleFeedback)
      && second.verdict == HandlerRaised && second.store == first.store && second.performed == []
      && Notifications(first.performed + second.performed) == 1
  {
    var u := Message(chat, SuccessfulPayment(amount));
    PaymentCommitsFeedback(st, chat, amount, env);
    var first := Dispatch(st, u, env, None);
    MessageInFeedbackDoesNothing(first.store, chat, SuccessfulPayment(amount), env);
    var second := Dispatch(first.store, u, env, None);
    assert first.performed + second.performed == first.performed;
    PaymentNotifiesOnce(st.deliveries[chat], st.summaries[chat], amount);
  }

  /** Actions that write no slot leave the store as it was. */
  lemma {:induction false} ApplyAllInert(st: Store, chat: ChatId, e: seq<Effect>)
    requires forall k :: 0 <= k < |e| ==> !e[k].SetProductContext? && !e[k].SetCartSummary? && !e[k].SetDeliveryData?
    ensures ApplyAll(st, chat, e) == st
    decreases |e|
  {
    if |e| > 0 {
      var front := e[..|e| - 1];
      assert forall k :: 0 <= k < |front| ==> front[k] == e[k];
      ApplyAllInert(st, chat, front);
    }
  }

  /** As written, a message in HANDLE_RECEIPT that is not a payment still
      stores the address, notifies the courier, sends the location and
      schedules the feedback before it raises; the chat stays in
      HANDLE_RECEIPT, so a second such message notifies the courier again. */
  lemma UnpaidMessageRepeatsOrder(st: Store, chat: ChatId, text: string, env: Env)
    requires Lookup(st.states, chat) == Some("HANDLE_RECEIPT") && text != "/start"
    requires chat in st.deliveries && chat in st.summaries && st.deliveries[chat].location.Some?
    ensures var d := st.deliveries[chat];
      var u := Message(chat, Text(text));
      var first := Dispatch(st, u, env, None);
      var second := Dispatch(first.store, u, env, None);
      && first.verdict == HandlerRaised && first.store == st
      && first.performed == [CreateCustomerAddress(d.address, d.location.value)] + OrderEffects(d, st.summaries[chat])
      && second == first
      && Notifications(first.performed + second.performed) == 2
  {
    var d := st.deliveries[chat];
    var u := Message(chat, Text(text));
    var done := [CreateCustomerAddress(d.address, d.location.value)] + OrderEffects(d, st.summaries[chat]);
    RegistryLookup(HandleReceipt);
    assert HandleSuccessPaymentStep(u, SlotsOf(st, chat)) == Step(done, Raised);
    ApplyAllInert(st, chat, done);
    var first := Dispatch(st, u, env, None);
    assert first == Result(st, HandlerRaised, done);
    NotificationsAppend(done, done);
    NotificationsAppend([done[0]], OrderEffects(d, st.summaries[chat]));
    NotificationsAppend([done[1]], done[2..]);
    assert done[1..] == [done[1]] + done[2..];
    assert [done[0]] + OrderEffects(d, st.summaries[chat]) == done;
    NoNotification([done[0]]);
    NoNotification(done[2..]);
    assert Notifications([done[1]]) == 1 by {
      assert [done[1]][..0] == [];
    }
  }

  /** When the selected handler returns a state and nothing raises, the
      dispatcher performs its actions and commits that state. */
  lemma DispatchCommits(st: Store, u: Update, s: State, env: Env, step: Step)
    requires !u.Unhandled? && SelectedName(st, u) == Some(StateName(s))
    requires Handle(s, u, SlotsOf(st, ChatOf(u)), env) == step && step.outcome.Next?
    ensures Dispatch(st, u, env, None) == Result(
      ApplyAll(st, ChatOf(u), step.effects).(states := st.states[ChatOf(u) := StateName(step.outcome.state)]),
      Committed(step.outcome.state), step.effects)
  {
    RegistryLookup(s);
    ApplyAllTouchesStates(st, ChatOf(u), step.effects);
  }

  /** A shared location in WAITING_ADDRESS stores the quote of the nearest
      pizzeria and commits HANDLE_DELIVERY. */
  lemma LocationCommitsDelivery(st: Store, chat: ChatId, pos: Position, env: Env)
    requires Lookup(st.states, chat) == Some("WAITING_ADDRESS") && |env.pizzerias| > 0
    ensures var q := Resolve(Some(pos), Some("not provided"), env.pizzerias).value;
      var r := Dispatch(st, Message(chat, Location(pos)), env, None);
      && r.verdict == Committed(HandleDelivery)
      && r.performed == [SetDeliveryData(q.delivery), OfferFulfilment(q.keyboard)]
      && r.store == st.(states := st.states[chat := "HANDLE_DELIVERY"], deliveries := st.deliveries[chat := q.delivery])
  {
    var u := Message(chat, Location(pos));
    var q := Resolve(Some(pos), Some("not provided"), env.pizzerias).value;
    var e := [SetDeliveryData(q.delivery), OfferFulfilment(q.keyboard)];
    assert HandleAddressStep(u, env) == Step(e, Next(HandleDelivery));
    DispatchCommits(st, u, WaitingAddress, env, Step(e, Next(HandleDelivery)));
    assert e[..1][..0] == [] && e[..|e| - 1] == e[..1];
    assert ApplyAll(st, chat, e[..1]) == ApplyEffect(st, chat, e[0]);
    assert ApplyAll(st, chat, e) == ApplyEffect(ApplyAll(st, chat, e[..1]), chat, e[1]);
  }

  /** The delivery button at a fee commits HANDLE_PRECHECKOUT after sending the invoice. */
  lemma DeliveryCommitsPrecheckout(st: Store, chat: ChatId, fee: int, env: Env)
    requires Lookup(st.states, chat) == Some("HANDLE_DELIVERY")
    ensures var r := Dispatch(st, Callback(chat, DeliveryChoice(fee)), env, None);
      && r.verdict == Committed(HandlePrecheckout)
      && r.performed == [SendInvoice(Str(chat), InvoicePrices(env.cart.items, fee))]
      && r.store == st.(states := st.states[chat := "HANDLE_PRECHECKOUT"])
  {
    var u := Callback(chat, DeliveryChoice(fee));
    var e := [SendInvoice(Str(chat), InvoicePrices(env.cart.items, fee))];
    DeliveryButtonInvoices(chat, fee, env);
    assert DeliveryChoice(fee) != "/start" by {
      assert DeliveryChoice(fee)[0] == 'd';
    }
    DispatchCommits(st, u, HandleDelivery, env, Step(e, Next(HandlePrecheckout)));
    assert e[..|e| - 1] == [];
  }

  /** A pre-checkout query from the chat the invoice was sent to commits HANDLE_RECEIPT. */
  lemma OwnPrecheckoutCommitsReceipt(st: Store, chat: ChatId, env: Env)
    requires Lookup(st.states, chat) == Some("HANDLE_PRECHECKOUT")
    ensures var r := Dispatch(st, PreCheckout(chat, Str(chat)), env, None);
      && r.verdict == Committed(HandleReceipt)
      && r.performed == [AnswerPrecheckout(true)]
      && r.store == st.(states := st.states[chat := "HANDLE_RECEIPT"])
  {
    var e := [AnswerPrecheckout(true)];
    DispatchCommits(st, PreCheckout(chat, Str(chat)), HandlePrecheckout, env, Step(e, Next(HandleReceipt)));
    assert e[..|e| - 1] == [];
  }

  /** From HANDLE_DELIVERY, with the quote and the summary stored: the
      delivery button, the chat's own pre-checkout query and the payment
      commit HANDLE_FEEDBACK, performing the invoice, the approval and the
      order actions in turn. */
  lemma PaidAfterDelivery(st: Store, chat: ChatId, fee: int, amount: int, env: Env)
    requires Lookup(st.states, chat) == Some("HANDLE_DELIVERY")
    requires chat in st.deliveries && chat in st.summaries && st.deliveries[chat].location.Some?
    ensures var r2 := Dispatch(st, Callback(chat, DeliveryChoice(fee)), env, None);
      var r3 := Dispatch(r2.store, PreCheckout(chat, Str(chat)), env, None);
      var r4 := Dispatch(r3.store, Message(chat, SuccessfulPayment(amount)), env, None);
      && r2.performed == [SendInvoice(Str(chat), InvoicePrices(env.cart.items, fee))]
      && r3.performed == [AnswerPrecheckout(true)]
      && r4.performed == PaymentEffects(st.deliveries[chat], st.summaries[chat], amount)
      && r4.verdict == Committed(HandleFeedback)
      && Lookup(r4.store.states, chat) == Some("HANDLE_FEEDBACK")
  {
    DeliveryCommitsPrecheckout(st, chat, fee, env);
    var s2 := st.(states := st.states[chat := "HANDLE_PRECHECKOUT"]);
    OwnPrecheckoutCommitsReceipt(s2, chat, env);
    var s3 := s2.(states := s2.states[chat := "HANDLE_RECEIPT"]);
    PaymentCommitsFeedback(s3, chat, amount, env);
  }

  /** The whole checkout from a shared location: when the nearest pizzeria is
      within 20 km, pressing the delivery button offered, paying from the same
      chat and confirming ends in HANDLE_FEEDBACK, with the invoice charging
      the cart plus the stored cost and exactly one notification, to the
      nearest pizzeria's courier, carrying that cost. */
  lemma CheckoutFromLocation(st: Store, chat: ChatId, pos: Position, amount: int, env: Env)
    requires Lookup(st.states, chat) == Some("WAITING_ADDRESS") && chat in st.summaries
    requires |env.pizzerias| > 0 && env.pizzerias[FirstNearest(env.pizzerias)].distance < 20.0
    ensures var nearest := env.pizzerias[FirstNearest(env.pizzerias)];
      var cost := StoredCost(Classify(nearest.distance));
      var r1 := Dispatch(st, Message(chat, Location(pos)), env, None);
      var r2 := Dispatch(r1.store, Callback(chat, DeliveryChoice(cost)), env, None);
      var r3 := Dispatch(r2.store, PreCheckout(chat, Str(chat)), env, None);
      var r4 := Dispatch(r3.store, Message(chat, SuccessfulPayment(amount)), env, None);
      && Offers(FulfilmentKeyboard(Classify(nearest.distance)), Button(DeliveryChoice(cost)))
      && r2.performed == [SendInvoice(Str(chat), InvoicePrices(env.cart.items, cost))]
      && r4.verdict == Committed(HandleFeedback)
      && Lookup(r4.store.states, chat) == Some("HANDLE_FEEDBACK")
      && Notifications(r1.performed + r2.performed + r3.performed + r4.performed) == 1
      && NotifyCourier(nearest.courier, st.summaries[chat], cost) in r4.performed
  {
    var nearest := env.pizzerias[FirstNearest(env.pizzerias)];
    var cost := StoredCost(Classify(nearest.distance));
    OfferedAtStoredCost(nearest.distance);
    var q := Resolve(Some(pos), Some("not provided"), env.pizzerias).value;
    LocationCommitsDelivery(st, chat, pos, env);
    var r1 := Dispatch(st, Message(chat, Location(pos)), env, None);
    PaidAfterDelivery(r1.store, chat, cost, amount, env);
    CheckoutNotifiesOnce(q, st.summaries[chat], amount, Str(chat), InvoicePrices(env.cart.items, cost));
    assert PaymentEffects(q.delivery, st.summaries[chat], amount)[1] == NotifyCourier(nearest.courier, st.summaries[chat], cost);
  }

  lemma OfferedAtStoredCost(d: real)
    requires d < 20.0
    ensures Offers(FulfilmentKeyboard(Classify(d)), Button(DeliveryChoice(StoredCost(Classify(d)))))
  {
    ZoneTable(d);
  }

  /** The actions of a checkout from a quote to a payment notify the courier once. */
  lemma CheckoutNotifiesOnce(q: Quote, summary: Cart, amount: int, payload: string, prices: seq<LabeledPrice>)
    requires q.delivery.location.Some?
    ensures Notifications([SetDeliveryData(q.delivery), OfferFulfilment(q.keyboard)] + [SendInvoice(payload, prices)]
      + [AnswerPrecheckout(true)] + PaymentEffects(q.delivery, summary, amount)) == 1
  {
    var p1 := [SetDeliveryData(q.delivery), OfferFulfilment(q.keyboard)];
    var p2 := [SendInvoice(payload, prices)];
    var p3 := [AnswerPrecheckout(true)];
    var p4 := PaymentEffects(q.delivery, summary, amount);
    PaymentNotifiesOnce(q.delivery, summary, amount);
    NotificationsAppend(p1, p2);
    NotificationsAppend(p1 + p2, p3);
    NotificationsAppend(p1 + p2 + p3, p4);
    NoNotification(p1);
    NoNotification(p2);
    NoNotification(p3);
  }

  lemma {:induction false} NotificationsAppend(a: seq<Effect>, b: seq<Effect>)
    ensures Notifications(a + b) == Notifications(a) + Notifications(b)
    decreases |b|
  {
    if |b| == 0 {
      assert a + b == a;
    } else {
      NotificationsAppend(a, b[..|b| - 1]);
      assert (a + b)[..|a + b| - 1] == a + b[..|b| - 1];
    }
  }

  /** Actions with no courier notification among them count none. */
  lemma {:induction false} NoNotification(e: seq<Effect>)
    requires forall k :: 0 <= k < |e| ==> !e[k].NotifyCourier?
    ensures Notifications(e) == 0
    decreases |e|
  {
    if |e| > 0 {
      var front := e[..|e| - 1];
      assert forall k :: 0 <= k < |front| ==> front[k] == e[k];
      NoNotification(front);
    }
  }
}
