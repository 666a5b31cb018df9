/** `handle_users_reply` and the Redis store behind it: one state name per
    chat, plus the chat's product-context, cart-summary and delivery-data
    slots. A `/start` reply selects START whatever is stored; otherwise the
    stored name selects the handler; the handler's state is written back only
    when it returns one without raising. */
module Session {
  import opened Options
  import opened PyText
  import opened Domain
  import opened Handlers

  /** The name each state is stored under. */
  function StateName(s: State): string {
    match s
    case Start => "START"
    case HandleMenu => "HANDLE_MENU"
    case HandleDescription => "HANDLE_DESCRIPTION"
    case HandleCart => "HANDLE_CART"
    case HandleChangeCart => "HANDLE_CHANGE_CART"
    case WaitingAddress => "WAITING_ADDRESS"
    case HandleDelivery => "HANDLE_DELIVERY"
    case HandleFeedback => "HANDLE_FEEDBACK"
    case HandlePrecheckout => "HANDLE_PRECHECKOUT"
    case HandleReceipt => "HANDLE_RECEIPT"
  }

  /** `states_functions`: the ten registered names and the handler (state) each selects. */
  const Registry: map<string, State> := map[
    "START" := Start, "HANDLE_MENU" := HandleMenu,
    "HANDLE_DESCRIPTION" := HandleDescription, "HANDLE_CART" := HandleCart,
    "HANDLE_CHANGE_CART" := HandleChangeCart,
    "WAITING_ADDRESS" := WaitingAddress, "HANDLE_DELIVERY" := HandleDelivery,
    "HANDLE_FEEDBACK" := HandleFeedback, "HANDLE_PRECHECKOUT" := HandlePrecheckout,
    "HANDLE_RECEIPT" := HandleReceipt]

  /** Each state's name is registered, for that state's handler. */
  lemma RegistryLookup(s: State)
    ensures StateName(s) in Registry && Registry[StateName(s)] == s
  {
    match s
    case Start =>
    case HandleMenu =>
    case HandleDescription =>
    case HandleCart =>
    case HandleChangeCart =>
    case WaitingAddress =>
    case HandleDelivery =>
    case HandleFeedback =>
    case HandlePrecheckout =>
    case HandleReceipt =>
  }

  /** Every registered name is the name of the state it selects. */
  lemma RegisteredName(n: string)
    requires n in Registry
    ensures n == StateName(Registry[n])
  {
  }

  /** The table registers exactly the ten state names, each for its own state. */
  lemma RegistryIsExact()
    ensures forall s: State :: StateName(s) in Registry && Registry[StateName(s)] == s
    ensures forall n :: n in Registry ==> n == StateName(Registry[n])
  {
    forall s: State
      ensures StateName(s) in Registry && Registry[StateName(s)] == s
    {
      RegistryLookup(s);
    }
    forall n | n in Registry
      ensures n == StateName(Registry[n])
    {
      RegisteredName(n);
    }
  }

  /** The Redis contents the bot uses: the state key and the three slots of each chat. */
  datatype Store = Store(
    states: map<ChatId, string>,
    products: map<ChatId, ProductContext>,
    summaries: map<ChatId, Cart>,
    deliveries: map<ChatId, DeliveryData>)

  /** Every stored state name is one the dispatcher can look up. */
  predicate Registered(st: Store) {
    forall c :: c in st.states ==> st.states[c] in Registry
  }

  /** The chat an update belongs to: the message's chat, or the paying user. */
  function ChatOf(u: Update): ChatId
    requires !u.Unhandled?
  {
    match u
    case Message(chat, _) => chat
    case Callback(chat, _) => chat
    case PreCheckout(sender, _) => sender
  }

  /** `user_reply`: the text of a message (none for a location or a payment),
      the callback data, or the empty string for a pre-checkout query. */
  function UserReply(u: Update): Option<string>
    requires !u.Unhandled?
  {
    match u
    case Message(_, body) => MessageText(body)
    case Callback(_, data) => Some(data)
    case PreCheckout(_, _) => Some("")
  }

  /** The state name the dispatcher looks up: START on `/start`, otherwise
      whatever is stored (absent for a chat never seen). */
  function SelectedName(st: Store, u: Update): Option<string>
    requires !u.Unhandled?
  {
    if UserReply(u) == Some("/start") then Some("START")
    else if ChatOf(u) in st.states then Some(st.states[ChatOf(u)])
    else None
  }

  function Lookup<V>(m: map<ChatId, V>, chat: ChatId): Option<V> {
    if chat in m then Some(m[chat]) else None
  }

  function SlotsOf(st: Store, chat: ChatId): Slots {
    Slots(Lookup(st.products, chat), Lookup(st.summaries, chat), Lookup(st.deliveries, chat))
  }

  /** The effect of one action on the store: slot writes overwrite the chat's slot. */
  function ApplyEffect(st: Store, chat: ChatId, e: Effect): Store {
    match e
    case SetProductContext(c) => st.(products := st.products[chat := c])
    case SetCartSummary(c) => st.(summaries := st.summaries[chat := c])
    case SetDeliveryData(d) => st.(deliveries := st.deliveries[chat := d])
    case _ => st
  }

  function ApplyAll(st: Store, chat: ChatId, effects: seq<Effect>): Store
    decreases |effects|
  {
    if |effects| == 0 then st
    else ApplyEffect(ApplyAll(st, chat, effects[..|effects| - 1]), chat, effects[|effects| - 1])
  }

  /** The actions actually carried out when a call raised after `k` of them
      (`interrupt == Some(k)`), or all of them. */
  function Performed(effects: seq<Effect>, interrupt: Option<nat>): (done: seq<Effect>)
    ensures done <= effects
    ensures interrupt.None? ==> done == effects
  {
    match interrupt
    case None => effects
    case Some(k) => if k < |effects| then effects[..k] else effects
  }

  /** How one update ended for the dispatcher. */
  datatype Verdict =
    | Ignored                     // no message, callback or pre-checkout query
    | MissingSession              // `db.get` gave None: `.decode` raises outside the try
    | UnregisteredState(name: string)  // `states_functions[name]` raises outside the try
    | Committed(next: State)      // the handler's state was written back
    | HandlerRaised               // the handler raised; the exception was caught
    | NoneRejected                // the handler returned None; writing it raises, caught

  datatype Result = Result(store: Store, verdict: Verdict, performed: seq<Effect>)

  /** One run of `handle_users_reply`. `interrupt` is a call into Telegram or
      the backend raising after that many of the handler's actions. */
  function Dispatch(st: Store, u: Update, env: Env, interrupt: Option<nat>): Result {
    if u.Unhandled? then Result(st, Ignored, [])
    else
      var chat := ChatOf(u);
      match SelectedName(st, u)
      case None => Result(st, MissingSession, [])
      case Some(name) =>
        if name !in Registry then Result(st, UnregisteredState(name), [])
        else
          var step := Handle(Registry[name], u, SlotsOf(st, chat), env);
          var done := Performed(step.effects, interrupt);
          var after := ApplyAll(st, chat, done);
          if interrupt.Some? || step.outcome.Raised? then Result(after, HandlerRaised, done)
          else if step.outcome.ReturnedNone? then Result(after, NoneRejected, done)
          else Result(after.(states := after.states[chat := StateName(step.outcome.state)]), Committed(step.outcome.state), done)
  }

  /** The per-chat Redis store and the dispatcher that reads and writes it. */
  class SessionStore {
    var states: map<ChatId, string>
    var productContexts: map<ChatId, ProductContext>
    var cartSummaries: map<ChatId, Cart>
    var deliveries: map<ChatId, DeliveryData>
    /** Every action carried out, with its chat, in order. */
    ghost var log: seq<(ChatId, Effect)>

    function Value(): Store
      reads this
    {
      Store(states, productContexts, cartSummaries, deliveries)
    }

    constructor ()
      ensures Value() == Store(map[], map[], map[], map[]) && log == []
    {
      states, productContexts, cartSummaries, deliveries := map[], map[], map[], map[];
      log := [];
    }

    /** Carry out a handler's actions in order: slot writes go to Redis, and
        every action is logged. */
    method Perform(chat: ChatId, effects: seq<Effect>)
      modifies this
      ensures Value() == ApplyAll(old(Value()), chat, effects)
      ensures log == old(log) + seq(|effects|, i requires 0 <= i < |effects| => (chat, effects[i]))
    {
      for i := 0 to |effects|
        invariant Value() == ApplyAll(old(Value()), chat, effects[..i])
        invariant log == old(log) + seq(i, j requires 0 <= j < i => (chat, effects[j]))
      {
        var e := effects[i];
        match e {
          case SetProductContext(c) => productContexts := productContexts[chat := c];
          case SetCartSummary(c) => cartSummaries := cartSummaries[chat := c];
          case SetDeliveryData(d) => deliveries := deliveries[chat := d];
          case _ =>
        }
        log := log + [(chat, e)];
        assert effects[..i + 1][..i] == effects[..i];
      }
      assert effects[..|effects|] == effects;
    }

    /** `handle_users_reply`. */
    method HandleUsersReply(u: Update, env: Env, interrupt: Option<nat>) returns (v: Verdict)
      modifies this
      ensures var r := Dispatch(old(Value()), u, env, interrupt);
        && Value() == r.store && v == r.verdict
        && log == old(log) + seq(|r.performed|, i requires 0 <= i < |r.performed| => (ChatOf(u), r.performed[i]))
    {
      if u.Unhandled? {
        return Ignored;
      }
      var chat := ChatOf(u);
      var name: string;
      if UserReply(u) == Some("/start") {
        name := "START";
      } else if chat in states {
        name := states[chat];
      } else {
        return MissingSession;
      }
      if name !in Registry {
        return UnregisteredState(name);
      }
      var slots := Slots(Lookup(productContexts, chat), Lookup(cartSummaries, chat), Lookup(deliveries, chat));
      var step := Handle(Registry[name], u, slots, env);
      var done := Performed(step.effects, interrupt);
      Perform(chat, done);
      if interrupt.Some? || step.outcome.Raised? {
        v := HandlerRaised;
      } else if step.outcome.ReturnedNone? {
        v := NoneRejected;
      } else {
        states := states[chat := StateName(step.outcome.state)];
        v := Committed(step.outcome.state);
      }
    }
  }
}
