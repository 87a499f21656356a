/**
  The properties the controller projects for its analytics events: one
  projection of a line item (`lineItemProps`), one of a variant
  (`variantProps`), and the two events wired to them, CART_ADD and
  CART_REMOVE. The event transport is not modelled.
 */
module Tracking {
  import opened Wrappers
  import opened CartTypes
  import opened LineItems
  import Controller

  /** The properties carried by a tracking event. `sku` is never known at this layer. */
  datatype TrackingProps = TrackingProps(id: string, title: string, price: string, quantity: int, sku: Option<string>)

  /** A named tracking event. */
  datatype TrackingEvent = TrackingEvent(name: string, props: TrackingProps)

  const CartAddEvent: string := "CART_ADD"
  const CartRemoveEvent: string := "CART_REMOVE"

  /** The quantity `variantProps` reports when it is given none. */
  const DefaultTrackedQuantity: int := 0

  /** `lineItemProps(lineItem, quantity)`: the variant's id, the item's title and price, the given quantity, no SKU. */
  function LineItemProps(item: LineItem, quantity: int): (p: TrackingProps)
    ensures p.id == item.variantId && p.title == item.title && p.price == item.price
    ensures p.quantity == quantity && p.sku.None?
  {
    TrackingProps(item.variantId, item.title, item.price, quantity, None)
  }

  /** `variantProps(variant, quantity = 0)`. */
  function VariantProps(variant: Variant, quantity: Option<int>): (p: TrackingProps)
    ensures p.id == variant.id && p.title == variant.productTitle && p.price == variant.price
    ensures quantity.Some? ==> p.quantity == quantity.value
    ensures quantity.None? ==> p.quantity == DefaultTrackedQuantity
    ensures p.sku.None?
  {
    TrackingProps(variant.id, variant.productTitle, variant.price, quantity.GetOr(DefaultTrackedQuantity), None)
  }

  /** The two projections describe a product the same way: a line item and the variant it holds yield equal properties. */
  lemma ProjectionsAgree(item: LineItem, variant: Variant, quantity: int)
    requires item.variantId == variant.id && item.title == variant.productTitle && item.price == variant.price
    ensures LineItemProps(item, quantity) == VariantProps(variant, Some(quantity))
  {
  }

  /**
    The CART_REMOVE projector: the first line item with the id, projected
    with quantity 0. For an id no line item has, the projector reads a
    property of `undefined` and throws; that is `Err(LookupMiss(id))`.
   */
  function RemovalEvent(items: seq<LineItem>, id: string): (e: Result<TrackingEvent, Failure>)
    ensures e.Err? <==> Absent(items, id)
    ensures e.Err? ==> e.error == LookupMiss(id)
    ensures forall k :: IsFirstMatch(items, id, k) ==>
              e == Ok(TrackingEvent(CartRemoveEvent, LineItemProps(items[k], Controller.RemovalQuantity)))
  {
    match LineItemFromId(items, id)
    case Some(item) => Ok(TrackingEvent(CartRemoveEvent, LineItemProps(item, Controller.RemovalQuantity)))
    case None => Err(LookupMiss(id))
  }

  /**
    The instrumented `removeItem`: the CART_REMOVE projector runs first, so
    when it throws no remote call is made and nothing changes; otherwise the
    removal proceeds as `removeItem`.
   */
  function TrackedRemoveItem(s: Controller.CartState, id: string, reply: Reply): (r: Controller.Outcome<string>)
    ensures r.calls == [] <==> Absent(s.model.lineItems, id)
    ensures Absent(s.model.lineItems, id) ==> r.state == s && r.result == Err(LookupMiss(id))
    ensures !Absent(s.model.lineItems, id) ==> r == Controller.RemoveItem(s, id, reply)
  {
    match RemovalEvent(s.model.lineItems, id)
    case Err(f) => Controller.Outcome(s, [], Err(f))
    case Ok(_) => Controller.RemoveItem(s, id, reply)
  }

  /** Once a quantity change routes to removal, the item exists, so the instrumented removal never throws there. */
  lemma SetQuantityRemovalIsTracked(s: Controller.CartState, id: string, reply: Reply, k: int)
    requires IsFirstMatch(s.model.lineItems, id, k)
    ensures RemovalEvent(s.model.lineItems, id).Ok?
    ensures TrackedRemoveItem(s, id, reply) == Controller.RemoveItem(s, id, reply)
  {
  }

  /**
    The CART_ADD event as the source wires it: the projector receives the
    caller's arguments, so a call that leaves the quantity out reaches
    `variantProps` with no quantity, which reports 0.
   */
  function AddEventAsWritten(variant: Variant, quantity: Option<int>): (e: TrackingEvent)
    ensures e == TrackingEvent(CartAddEvent, VariantProps(variant, quantity))
    ensures quantity.None? ==> e.props.quantity == DefaultTrackedQuantity
  {
    TrackingEvent(CartAddEvent, VariantProps(variant, quantity))
  }

  /** With the quantity left out, the CART_ADD event reports 0 while the cart service is sent 1. */
  lemma AddEventAsWrittenMisreportsDefault(s: Controller.CartState, variant: Variant)
    ensures AddEventAsWritten(variant, None).props.quantity == 0
    ensures Controller.BeginAdd(s, variant, None).call.quantity == 1
  {
  }

  /** Corrected CART_ADD event: it reports the quantity actually added, with the default applied first. */
  function AddEvent(variant: Variant, quantity: Option<int>): (e: TrackingEvent)
    ensures e.name == CartAddEvent
    ensures e.props.id == variant.id && e.props.title == variant.productTitle && e.props.sku.None?
    ensures forall s: Controller.CartState ::
              e.props.quantity == Controller.BeginAdd(s, variant, quantity).call.quantity
  {
    TrackingEvent(CartAddEvent, VariantProps(variant, Some(quantity.GetOr(Controller.DefaultAddQuantity))))
  }
}
