/**
  The cart controller's decision logic: the visibility state machine, the
  quantity routing rule, snapshot replacement after a mutation, and the view
  flags derived from the held state.

  Every remote call is given its answer as a `Reply` parameter instead of
  being awaited; each operation reports the calls it issued, in order, so
  that what reaches the cart service can be stated. The counters `renders`
  and `toggleRenders` count the controller's own re-renders and those of the
  companion toggle widget.
 */
module Controller {
  import opened Wrappers
  import opened CartTypes
  import opened LineItems

  /** The state the controller holds between events. */
  datatype CartState = CartState(
    isVisible: bool,
    model: Cart,
    renders: nat,
    toggleRenders: nat)

  /** What one operation left behind: the new state, the remote calls it issued, and what its promise settles to. */
  datatype Outcome<+T> = Outcome(state: CartState, calls: seq<RemoteCall>, result: Result<T, Failure>)

  /** The state at the moment a remote call goes out, together with that call. */
  datatype Issued = Issued(state: CartState, call: RemoteCall)

  /** What `setQuantity` settles to: the updated cart, or the removed line item's element (named by its line item id). */
  datatype Routed = Updated(cart: Cart) | Removed(lineItemId: string)

  /** The quantity `addVariantToCart` sends when the caller gives none. */
  const DefaultAddQuantity: int := 1

  /** The quantity the removal path always sends; the service drops the line item. */
  const RemovalQuantity: int := 0

  /** The class the view's wrapper carries while the cart is open. */
  const ActiveClass: string := "is-active"

  /** Visibility and the held model of two states agree. */
  ghost predicate SameView(a: CartState, b: CartState) {
    a.isVisible == b.isVisible && a.model == b.model
  }

  // ---------------------------------------------------------------------------
  // Visibility state machine
  // ---------------------------------------------------------------------------

  /** `close`: the cart is hidden whatever it was before, and re-rendered once. */
  function Close(s: CartState): (r: CartState)
    ensures !r.isVisible
    ensures r.model == s.model
    ensures r.renders == s.renders + 1 && r.toggleRenders == s.toggleRenders
  {
    s.(isVisible := false, renders := s.renders + 1)
  }

  /** `toggleVisibility`: visibility flips, and the cart is re-rendered once. */
  function ToggleVisibility(s: CartState): (r: CartState)
    ensures r.isVisible != s.isVisible
    ensures r.model == s.model
    ensures r.renders == s.renders + 1 && r.toggleRenders == s.toggleRenders
  {
    s.(isVisible := !s.isVisible, renders := s.renders + 1)
  }

  /** Closing twice leaves the same visibility and model as closing once; each close re-renders. */
  lemma CloseIdempotent(s: CartState)
    ensures SameView(Close(Close(s)), Close(s))
    ensures Close(Close(s)).renders == s.renders + 2
  {
  }

  /** Toggling twice restores the original visibility. */
  lemma ToggleInvolutive(s: CartState)
    ensures SameView(ToggleVisibility(ToggleVisibility(s)), s)
    ensures ToggleVisibility(ToggleVisibility(s)).renders == s.renders + 2
  {
  }

  // ---------------------------------------------------------------------------
  // Adding a variant
  // ---------------------------------------------------------------------------

  /** The synchronous part of `addVariantToCart`: open and render the cart, then issue `addVariants`. */
  function BeginAdd(s: CartState, variant: Variant, quantity: Option<int>): (r: Issued)
    ensures r.state.isVisible
    ensures r.state.model == s.model
    ensures r.state.renders == s.renders + 1 && r.state.toggleRenders == s.toggleRenders
    ensures r.call.AddVariants? && r.call.variant == variant
    ensures quantity.Some? ==> r.call.quantity == quantity.value
    ensures quantity.None? ==> r.call.quantity == DefaultAddQuantity
  {
    Issued(s.(isVisible := true, renders := s.renders + 1),
           AddVariants(variant, quantity.GetOr(DefaultAddQuantity)))
  }

  /** The continuation of `addVariantToCart`: re-render both views and hand back the cart; the held model is not reassigned. */
  function SettleAdd(issued: Issued, reply: Reply): (r: Outcome<Cart>)
    ensures r.calls == [issued.call]
    ensures SameView(r.state, issued.state)
    ensures reply.Resolved? ==> r.result == Ok(reply.cart)
    ensures reply.Resolved? ==> r.state.renders == issued.state.renders + 1
    ensures reply.Resolved? ==> r.state.toggleRenders == issued.state.toggleRenders + 1
    ensures reply.Rejected? ==> r.state == issued.state && r.result == Err(RemoteRejected(issued.call))
  {
    match reply
    case Resolved(cart) =>
      var st := issued.state;
      Outcome(st.(renders := st.renders + 1, toggleRenders := st.toggleRenders + 1), [issued.call], Ok(cart))
    case Rejected =>
      Outcome(issued.state, [issued.call], Err(RemoteRejected(issued.call)))
  }

  /** `addVariantToCart(variant, quantity = 1)` given the service's reply. */
  function AddVariantToCart(s: CartState, variant: Variant, quantity: Option<int>, reply: Reply): (r: Outcome<Cart>)
    ensures r.state.isVisible
    ensures r.state.model == s.model
    ensures r.calls == [AddVariants(variant, quantity.GetOr(DefaultAddQuantity))]
    ensures reply.Resolved? ==> r.result == Ok(reply.cart)
    ensures reply.Resolved? ==> r.state.renders == s.renders + 2 && r.state.toggleRenders == s.toggleRenders + 1
    ensures reply.Rejected? ==> r.result.Err? && r.state.renders == s.renders + 1 && r.state.toggleRenders == s.toggleRenders
  {
    SettleAdd(BeginAdd(s, variant, quantity), reply)
  }

  /** The cart is already open when `addVariants` goes out, and stays open whether or not the call succeeds. */
  lemma AddOpensBeforeCall(s: CartState, variant: Variant, quantity: Option<int>, reply: Reply)
    ensures BeginAdd(s, variant, quantity).state.isVisible
    ensures AddVariantToCart(s, variant, quantity, reply).calls == [BeginAdd(s, variant, quantity).call]
    ensures SameView(AddVariantToCart(s, variant, quantity, reply).state, BeginAdd(s, variant, quantity).state)
  {
  }

  // ---------------------------------------------------------------------------
  // Updating and removing line items
  // ---------------------------------------------------------------------------

  /** `updateItem(id, qty)`: send the quantity; on success the returned cart replaces the held model and is returned. */
  function UpdateItem(s: CartState, id: string, qty: int, reply: Reply): (r: Outcome<Cart>)
    ensures r.calls == [UpdateLineItem(id, qty)]
    ensures r.state.isVisible == s.isVisible
    ensures reply.Resolved? ==> r.state.model == reply.cart && r.result == Ok(reply.cart)
    ensures reply.Resolved? ==> r.state.renders == s.renders + 1 && r.state.toggleRenders == s.toggleRenders + 1
    ensures reply.Rejected? ==> r.state == s && r.result == Err(RemoteRejected(UpdateLineItem(id, qty)))
  {
    var call := UpdateLineItem(id, qty);
    match reply
    case Resolved(cart) =>
      Outcome(s.(model := cart, renders := s.renders + 1, toggleRenders := s.toggleRenders + 1), [call], Ok(cart))
    case Rejected =>
      Outcome(s, [call], Err(RemoteRejected(call)))
  }

  /**
    `removeItem(id)`: send quantity 0; on success re-render the toggle and
    replace the held model. The controller's own view is not re-rendered here
    (the element is hidden and detached directly, which is not modelled).
   */
  function RemoveItem(s: CartState, id: string, reply: Reply): (r: Outcome<string>)
    ensures r.calls == [UpdateLineItem(id, RemovalQuantity)]
    ensures r.state.isVisible == s.isVisible && r.state.renders == s.renders
    ensures reply.Resolved? ==> r.state.model == reply.cart && r.result == Ok(id)
    ensures reply.Resolved? ==> r.state.toggleRenders == s.toggleRenders + 1
    ensures reply.Rejected? ==> r.state == s && r.result == Err(RemoteRejected(UpdateLineItem(id, RemovalQuantity)))
  {
    var call := UpdateLineItem(id, RemovalQuantity);
    match reply
    case Resolved(cart) =>
      Outcome(s.(model := cart, toggleRenders := s.toggleRenders + 1), [call], Ok(id))
    case Rejected =>
      Outcome(s, [call], Err(RemoteRejected(call)))
  }

  /** Recast an update's outcome as a `setQuantity` outcome. */
  function AsUpdated(o: Outcome<Cart>): Outcome<Routed> {
    match o.result
    case Ok(cart) => Outcome(o.state, o.calls, Ok(Updated(cart)))
    case Err(e) => Outcome(o.state, o.calls, Err(e))
  }

  /** Recast a removal's outcome as a `setQuantity` outcome. */
  function AsRemoved(o: Outcome<string>): Outcome<Routed> {
    match o.result
    case Ok(id) => Outcome(o.state, o.calls, Ok(Removed(id)))
    case Err(e) => Outcome(o.state, o.calls, Err(e))
  }

  /**
    `setQuantity(target, fn)`: find the first line item with the id, compute
    the new quantity from its current one, and route a positive result to
    `updateItem` and anything else to `removeItem`. A missing line item is the
    source's TypeError, raised before any remote call.
   */
  function SetQuantity(s: CartState, id: string, fn: int -> int, reply: Reply): (r: Outcome<Routed>)
    ensures Absent(s.model.lineItems, id) <==> r.calls == []
    ensures Absent(s.model.lineItems, id) ==> r.state == s && r.result == Err(LookupMiss(id))
    ensures forall c :: c in r.calls ==> c.UpdateLineItem? && c.lineItemId == id && c.quantity >= 0
    ensures forall k :: IsFirstMatch(s.model.lineItems, id, k) && fn(s.model.lineItems[k].quantity) > 0 ==>
              r.calls == [UpdateLineItem(id, fn(s.model.lineItems[k].quantity))]
    ensures forall k :: IsFirstMatch(s.model.lineItems, id, k) && fn(s.model.lineItems[k].quantity) <= 0 ==>
              r.calls == [UpdateLineItem(id, RemovalQuantity)]
    ensures r.result.Ok? ==> (r.result.value.Updated? <==> r.calls[0].quantity > 0)
  {
    match LineItemFromId(s.model.lineItems, id)
    case None => Outcome(s, [], Err(LookupMiss(id)))
    case Some(item) =>
      var newQty := fn(item.quantity);
      if newQty > 0 then AsUpdated(UpdateItem(s, id, newQty, reply))
      else AsRemoved(RemoveItem(s, id, reply))
  }

  /** `onQuantityIncrement(qty)`: step the current quantity by `delta` (+1 and -1 in the bound events). */
  function OnQuantityIncrement(s: CartState, id: string, delta: int, reply: Reply): (r: Outcome<Routed>)
    ensures forall k :: IsFirstMatch(s.model.lineItems, id, k) ==>
              r.calls == [UpdateLineItem(id, if s.model.lineItems[k].quantity + delta > 0
                                             then s.model.lineItems[k].quantity + delta else RemovalQuantity)]
  {
    SetQuantity(s, id, prevQty => prevQty + delta, reply)
  }

  /** `onQuantityBlur`: set the quantity to the value typed into the input. */
  function OnQuantityBlur(s: CartState, id: string, value: int, reply: Reply): (r: Outcome<Routed>)
    ensures !Absent(s.model.lineItems, id) && value > 0 ==> r.calls == [UpdateLineItem(id, value)]
    ensures !Absent(s.model.lineItems, id) && value <= 0 ==> r.calls == [UpdateLineItem(id, RemovalQuantity)]
  {
    SetQuantity(s, id, _ => value, reply)
  }

  /** The routing rule in full: when the line item exists, `setQuantity` is exactly `updateItem` on a positive new quantity and exactly `removeItem` otherwise. */
  lemma SetQuantityRoutes(s: CartState, id: string, fn: int -> int, reply: Reply, k: int)
    requires IsFirstMatch(s.model.lineItems, id, k)
    ensures fn(s.model.lineItems[k].quantity) > 0 ==>
              SetQuantity(s, id, fn, reply) == AsUpdated(UpdateItem(s, id, fn(s.model.lineItems[k].quantity), reply))
    ensures fn(s.model.lineItems[k].quantity) <= 0 ==>
              SetQuantity(s, id, fn, reply) == AsRemoved(RemoveItem(s, id, reply))
  {
    LookupReturnsEarliest(s.model.lineItems, id, k);
  }

  /** Setting a quantity from the input is exactly `updateItem` with that value when it is positive, and exactly `removeItem` otherwise. */
  lemma BlurRoutes(s: CartState, id: string, value: int, reply: Reply, k: int)
    requires IsFirstMatch(s.model.lineItems, id, k)
    ensures value > 0 ==> OnQuantityBlur(s, id, value, reply) == AsUpdated(UpdateItem(s, id, value, reply))
    ensures value <= 0 ==> OnQuantityBlur(s, id, value, reply) == AsRemoved(RemoveItem(s, id, reply))
  {
    SetQuantityRoutes(s, id, _ => value, reply, k);
  }

  /** Decrementing a line item of quantity 1 is a removal, not an update to 0. */
  lemma DecrementFromOneRemoves(s: CartState, id: string, reply: Reply, k: int)
    requires IsFirstMatch(s.model.lineItems, id, k)
    requires s.model.lineItems[k].quantity == 1
    ensures OnQuantityIncrement(s, id, -1, reply) == AsRemoved(RemoveItem(s, id, reply))
  {
    SetQuantityRoutes(s, id, prevQty => prevQty + -1, reply, k);
  }

  // ---------------------------------------------------------------------------
  // View flags
  // ---------------------------------------------------------------------------

  /** The two flags `viewData` derives from the held state. */
  datatype ViewFlags = ViewFlags(wrapperClass: string, isEmpty: bool)

  /** `wrapperClass` and `isEmpty` of `viewData`. */
  function ViewFlagsOf(s: CartState): (v: ViewFlags)
    ensures v.isEmpty <==> s.model.lineItems == []
    ensures v.wrapperClass == ActiveClass <==> s.isVisible
    ensures v.wrapperClass == "" <==> !s.isVisible
  {
    ViewFlags(if s.isVisible then ActiveClass else "", |s.model.lineItems| < 1)
  }

  /** Removing the last line item, answered by an empty cart, leaves the view empty; visibility is untouched. */
  lemma RemovingLastItemEmptiesView(s: CartState, id: string, cart: Cart)
    requires cart.lineItems == []
    ensures ViewFlagsOf(RemoveItem(s, id, Resolved(cart)).state).isEmpty
    ensures ViewFlagsOf(RemoveItem(s, id, Resolved(cart)).state).wrapperClass == ViewFlagsOf(s).wrapperClass
  {
  }

  /** After `close` the wrapper is inactive; once an add is under way it is active. */
  lemma WrapperFollowsVisibility(s: CartState, variant: Variant, quantity: Option<int>)
    ensures ViewFlagsOf(Close(s)).wrapperClass == ""
    ensures ViewFlagsOf(BeginAdd(s, variant, quantity).state).wrapperClass == ActiveClass
  {
  }
}
