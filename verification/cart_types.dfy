/**
  The plain data the cart controller works on: the snapshot the remote cart
  service returns, its line items, the product variants that can be added,
  and the remote calls the controller issues.
 */
module CartTypes {

  /** One entry of a cart. `id` is the line item's own id; `variantId` names the product variant. */
  datatype LineItem = LineItem(
    id: string,
    variantId: string,
    title: string,
    price: string,
    quantity: int)

  /** A product variant as handed to `addVariantToCart`. */
  datatype Variant = Variant(id: string, productTitle: string, price: string)

  /** An immutable snapshot of the remote cart at one point in time. */
  datatype Cart = Cart(id: string, lineItems: seq<LineItem>, checkoutUrl: string)

  /** The remote calls the controller can issue, with the arguments it passes. */
  datatype RemoteCall =
    | FetchCart(cartId: string)
    | CreateCart
    | UpdateLineItem(lineItemId: string, quantity: int)
    | AddVariants(variant: Variant, quantity: int)

  /** How the service answered one remote call: the returned cart, or a rejected promise. */
  datatype Reply = Resolved(cart: Cart) | Rejected

  /** Why an operation did not produce its value. */
  datatype Failure =
    | LookupMiss(lineItemId: string)   // no line item has the requested id (a TypeError in the source)
    | RemoteRejected(call: RemoteCall) // the remote call's promise rejected
}
