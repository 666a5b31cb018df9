/** Delivery-zone resolution in `handle_address`: the nearest pizzeria (the
    first one at the smallest distance, as Python's `min` picks it), the fee
    tier of its distance, the cost stored in the chat's delivery data and the
    buttons the customer is offered. Distances are given, in kilometres. */
module Zones {
  import opened Options
  import opened PyText
  import opened Domain
  import opened Keyboards

  /** `min(distances, key=distance)`: the index of the first pizzeria whose
      distance is no larger than any other. */
  function FirstNearest(ps: seq<Pizzeria>): (i: nat)
    requires |ps| > 0
    ensures i < |ps|
    ensures forall k :: 0 <= k < |ps| ==> ps[i].distance <= ps[k].distance
    ensures forall k :: 0 <= k < i ==> ps[k].distance > ps[i].distance
    decreases |ps|
  {
    if |ps| == 1 then 0
    else
      var j := FirstNearest(ps[..|ps| - 1]);
      if ps[|ps| - 1].distance < ps[j].distance then |ps| - 1 else j
  }

  /** The nearest pizzeria, or `None` where `min` of an empty list raises. */
  function Nearest(ps: seq<Pizzeria>): (r: Option<Pizzeria>)
    ensures r.None? <==> |ps| == 0
    ensures r.Some? ==> r.value in ps && forall p :: p in ps ==> r.value.distance <= p.distance
  {
    if |ps| == 0 then None else Some(ps[FirstNearest(ps)])
  }

  /** The two properties of `FirstNearest` pin it down: no other index is both a
      minimum and preceded only by strictly farther pizzerias. */
  lemma FirstNearestUnique(ps: seq<Pizzeria>, i: nat)
    requires i < |ps|
    requires forall k :: 0 <= k < |ps| ==> ps[i].distance <= ps[k].distance
    requires forall k :: 0 <= k < i ==> ps[k].distance > ps[i].distance
    ensures i == FirstNearest(ps)
  {
  }

  /** The fee tiers of `handle_address`. */
  datatype Tier = Free | Standard | Extended | PickupOnly

  /** Thresholds at 0.5, 5 and 20 km; each bound belongs to the dearer tier. */
  function Classify(d: real): Tier {
    if d < 0.5 then Free
    else if d < 5.0 then Standard
    else if d < 20.0 then Extended
    else PickupOnly
  }

  /** The fee on the delivery button, absent when only pickup is possible. */
  function OfferedFee(t: Tier): Option<int> {
    match t
    case Free => Some(0)
    case Standard => Some(100)
    case Extended => Some(300)
    case PickupOnly => None
  }

  /** The `cost` written into the delivery data: it starts at 0 and is raised
      only in the 100 and 300 tiers. */
  function StoredCost(t: Tier): int {
    match t
    case Standard => 100
    case Extended => 300
    case _ => 0
  }

  /** The single row of buttons offered: pickup first, then delivery at the
      tier's fee, or cancel when delivery is not possible. */
  function FulfilmentKeyboard(t: Tier): Keyboard {
    match OfferedFee(t)
    case Some(fee) => [[Button("pickup"), Button(DeliveryChoice(fee))]]
    case None => [[Button("pickup"), Button("cancel")]]
  }

  /** The zone table: which buttons a distance earns and what cost is stored.
      Pickup is always offered; delivery exactly below 20 km; its fee is 0, 100
      or 300 and always equals the stored cost; beyond that, cancel instead
      and a stored cost of 0. */
  lemma ZoneTable(d: real)
    ensures Offers(FulfilmentKeyboard(Classify(d)), Button("pickup"))
    ensures d < 0.5 ==> Offers(FulfilmentKeyboard(Classify(d)), Button(DeliveryChoice(0))) && StoredCost(Classify(d)) == 0
    ensures 0.5 <= d < 5.0 ==> Offers(FulfilmentKeyboard(Classify(d)), Button(DeliveryChoice(100))) && StoredCost(Classify(d)) == 100
    ensures 5.0 <= d < 20.0 ==> Offers(FulfilmentKeyboard(Classify(d)), Button(DeliveryChoice(300))) && StoredCost(Classify(d)) == 300
    ensures 20.0 <= d ==> Offers(FulfilmentKeyboard(Classify(d)), Button("cancel")) && StoredCost(Classify(d)) == 0
    ensures forall fee :: Offers(FulfilmentKeyboard(Classify(d)), Button(DeliveryChoice(fee))) <==> d < 20.0 && fee == StoredCost(Classify(d))
  {
    var t := Classify(d);
    var kb := FulfilmentKeyboard(t);
    assert kb[0] in kb;
    forall fee
      ensures Offers(kb, Button(DeliveryChoice(fee))) <==> d < 20.0 && fee == StoredCost(t)
    {
      if Offers(kb, Button(DeliveryChoice(fee))) {
        assert |kb| == 1;
        assert Button(DeliveryChoice(fee)) in kb[0];
        assert DeliveryChoice(fee) != "pickup" && DeliveryChoice(fee) != "cancel" by {
          assert DeliveryChoice(fee)[0] == 'd';
        }
        if t.PickupOnly? {
          assert false;
        }
        assert DeliveryChoice(fee) == DeliveryChoice(OfferedFee(t).value);
        DeliveryChoiceInjective(fee, OfferedFee(t).value);
      }
    }
  }

  /** Different fees give different delivery buttons. */
  lemma DeliveryChoiceInjective(a: int, b: int)
    requires DeliveryChoice(a) == DeliveryChoice(b)
    ensures a == b
  {
    assert DeliveryChoice(a)[9..] == Str(a);
    assert DeliveryChoice(b)[9..] == Str(b);
    StrInjective(a, b);
  }

  /** A farther pizzeria never costs less, as long as delivery is still offered. */
  lemma CostMonotone(d1: real, d2: real)
    requires d1 <= d2 < 20.0
    ensures StoredCost(Classify(d1)) <= StoredCost(Classify(d2))
  {
  }

  /** The boundaries: 0.5, 5 and 20 km fall into the dearer tier. */
  lemma TierBoundaries()
    ensures Classify(0.4999) == Free && Classify(0.5) == Standard && Classify(0.5001) == Standard
    ensures Classify(4.999) == Standard && Classify(5.0) == Extended && Classify(5.001) == Extended
    ensures Classify(19.999) == Extended && Classify(20.0) == PickupOnly && Classify(20.001) == PickupOnly
  {
  }

  /** What `handle_address` computes once it has a position: the delivery data
      to store and the keyboard to offer, or `None` when `min` raises on an
      empty pizzeria list. */
  datatype Quote = Quote(delivery: DeliveryData, keyboard: Keyboard)

  function Resolve(pos: Option<Position>, address: Option<string>, ps: seq<Pizzeria>): (r: Option<Quote>)
    ensures r.None? <==> |ps| == 0
    ensures r.Some? ==> var n := r.value.delivery.pizzeria;
      && n == ps[FirstNearest(ps)]
      && r.value.delivery.location == pos
      && r.value.delivery.address == address
      && r.value.delivery.cost == StoredCost(Classify(n.distance))
      && r.value.keyboard == FulfilmentKeyboard(Classify(n.distance))
  {
    match Nearest(ps)
    case None => None
    case Some(nearest) =>
      var tier := Classify(nearest.distance);
      Some(Quote(DeliveryData(StoredCost(tier), address, pos, nearest), FulfilmentKeyboard(tier)))
  }
}
