/**
 * The older delivery handlers (the top-level `delivery` package): which
 * handler can take a delivery group, the price per item, and the candidate
 * handlers offered for a delivery.
 */
module LegacyDelivery {
  import Delivery

  /** A product: whether it is a physical product, a digital one, and its weight. */
  datatype Product = Product(isPhysical: bool, isDigital: bool, weight: real)

  /** An item of a delivery group. */
  datatype Item = Item(product: Product, quantity: int)

  /** The handler classes. */
  datatype Handler = BaseDelivery | DummyShipping | DigitalDelivery

  /** `can_handle_item`: the base accepts anything, the others check the product's class. */
  function CanHandleItem(h: Handler, item: Item): (ok: bool)
    ensures h == BaseDelivery ==> ok
    ensures h == DummyShipping ==> (ok <==> item.product.isPhysical)
    ensures h == DigitalDelivery ==> (ok <==> item.product.isDigital)
  {
    match h
    case BaseDelivery => true
    case DummyShipping => item.product.isPhysical
    case DigitalDelivery => item.product.isDigital
  }

  /** `can_handle`: `all(...)` over the items, stopping at the first refusal. */
  function CanHandle(h: Handler, group: seq<Item>): bool
    decreases |group|
  {
    if group == [] then true
    else if !CanHandleItem(h, group[0]) then false
    else CanHandle(h, group[1..])
  }

  /** A group is handled iff every item is; in particular an empty group is handled by every handler. */
  lemma {:induction false} CanHandleAll(h: Handler, group: seq<Item>)
    ensures CanHandle(h, group) <==> forall i :: 0 <= i < |group| ==> CanHandleItem(h, group[i])
    decreases |group|
  {
    if group != [] {
      CanHandleAll(h, group[1..]);
      if forall i :: 0 <= i < |group[1..]| ==> CanHandleItem(h, group[1..][i]) {
        forall i | 0 < i < |group|
          ensures CanHandleItem(h, group[i])
        {
          assert group[i] == group[1..][i - 1];
        }
      }
    }
  }

  /** The base handler takes every group. */
  lemma BaseHandlesEverything(group: seq<Item>)
    ensures CanHandle(BaseDelivery, group)
  {
    CanHandleAll(BaseDelivery, group);
  }

  /** The group's items as delivery lines: the product's weight and the quantity. */
  function Lines(group: seq<Item>): (lines: seq<Delivery.Line>)
    ensures |lines| == |group|
    ensures forall i :: 0 <= i < |group| ==>
      lines[i] == Delivery.Line(group[i].product.weight, group[i].quantity)
  {
    seq(|group|, i requires 0 <= i < |group| => Delivery.Line(group[i].product.weight, group[i].quantity))
  }

  /** `get_price_per_item`: zero, except (Σ weights) × (Σ quantities) for `DummyShipping`. */
  function GetPricePerItem(h: Handler, group: seq<Item>): (price: real)
    ensures h != DummyShipping ==> price == 0.0
    ensures h == DummyShipping ==>
      price == Delivery.SumWeights(Lines(group)) * (Delivery.SumQuantities(Lines(group)) as real)
  {
    if h == DummyShipping then Delivery.SumWeights(Lines(group)) * (Delivery.SumQuantities(Lines(group)) as real)
    else 0.0
  }

  /** Appending items of non-negative weight and quantity never lowers either sum the dummy price multiplies. */
  lemma {:induction false} PriceSumsGrow(group: seq<Item>, more: seq<Item>)
    requires forall i :: 0 <= i < |more| ==> more[i].product.weight >= 0.0 && more[i].quantity >= 0
    ensures Delivery.SumWeights(Lines(group + more)) >= Delivery.SumWeights(Lines(group))
    ensures Delivery.SumQuantities(Lines(group + more)) >= Delivery.SumQuantities(Lines(group))
    decreases |more|
  {
    if more != [] {
      var front := more[..|more| - 1];
      PriceSumsGrow(group, front);
      var all := Lines(group + more);
      assert all[..|all| - 1] == Lines(group + front);
    } else {
      assert group + more == group;
    }
  }

  /** The handlers `get_delivery_methods` considers, in this order. */
  const Candidates: seq<Handler> := [DummyShipping, DigitalDelivery]

  /** The candidates, in order, that can handle the group. */
  function FilterHandlers(handlers: seq<Handler>, group: seq<Item>): (r: seq<Handler>)
    ensures |r| <= |handlers|
    ensures forall h :: h in r <==> h in handlers && CanHandle(h, group)
    decreases |handlers|
  {
    if handlers == [] then []
    else (if CanHandle(handlers[0], group) then [handlers[0]] else []) + FilterHandlers(handlers[1..], group)
  }

  /** Filtering keeps the order of the handlers: it distributes over concatenation. */
  lemma {:induction false} FilterHandlersAppend(a: seq<Handler>, b: seq<Handler>, group: seq<Item>)
    ensures FilterHandlers(a + b, group) == FilterHandlers(a, group) + FilterHandlers(b, group)
    decreases |a|
  {
    if a == [] {
      assert a + b == b;
    } else {
      assert (a + b)[0] == a[0] && (a + b)[1..] == a[1..] + b;
      FilterHandlersAppend(a[1..], b, group);
    }
  }

  /** `get_delivery_methods`: the candidate handlers that accept the group, dummy shipping first. */
  function GetDeliveryMethods(group: seq<Item>): (r: seq<Handler>)
    ensures forall h :: h in r <==> (h == DummyShipping || h == DigitalDelivery) && CanHandle(h, group)
    ensures BaseDelivery !in r
    ensures CanHandle(DummyShipping, group) && CanHandle(DigitalDelivery, group) ==>
      r == [DummyShipping, DigitalDelivery]
    ensures CanHandle(DummyShipping, group) && !CanHandle(DigitalDelivery, group) ==> r == [DummyShipping]
    ensures !CanHandle(DummyShipping, group) && CanHandle(DigitalDelivery, group) ==> r == [DigitalDelivery]
    ensures !CanHandle(DummyShipping, group) && !CanHandle(DigitalDelivery, group) ==> r == []
  {
    assert Candidates[1..] == [DigitalDelivery] && Candidates[1..][1..] == [];
    FilterHandlers(Candidates, group)
  }

  /** A group of only physical, non-digital items gets dummy shipping alone. */
  lemma PhysicalGroupShipped(group: seq<Item>)
    requires group != []
    requires forall i :: 0 <= i < |group| ==> group[i].product.isPhysical && !group[i].product.isDigital
    ensures GetDeliveryMethods(group) == [DummyShipping]
  {
    CanHandleAll(DummyShipping, group);
    CanHandleAll(DigitalDelivery, group);
    assert !CanHandleItem(DigitalDelivery, group[0]);
  }
}
