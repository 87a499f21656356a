/**
  Sequences of settled mutations. A step is a mutation whose remote call
  went out, applied once its reply has landed, in landing order; this is the
  "last response wins" policy for the held snapshot, without the promise
  interleaving that produces the landing order. An instrumented removal whose
  CART_REMOVE projector throws issues no call (`Tracking.TrackedRemoveItem`),
  so it is never a step.
 */
module History {
  import opened Wrappers
  import opened CartTypes
  import opened LineItems
  import opened Controller
  import Tracking

  /** A mutation entry point as the user triggered it. */
  datatype Mutation =
    | AddRequest(variant: Variant, requested: Option<int>)
    | UpdateRequest(lineItemId: string, quantity: int)
    | RemoveRequest(lineItemId: string)

  /** A mutation together with the reply its remote call received. */
  datatype Step = Step(mutation: Mutation, reply: Reply)

  /** The state after one settled mutation. */
  function Apply(s: CartState, step: Step): CartState {
    match step.mutation
    case AddRequest(v, q) => AddVariantToCart(s, v, q, step.reply).state
    case UpdateRequest(id, q) => UpdateItem(s, id, q, step.reply).state
    case RemoveRequest(id) => RemoveItem(s, id, step.reply).state
  }

  /** The state after the steps, applied first to last. */
  function Run(s: CartState, steps: seq<Step>): CartState
    decreases |steps|
  {
    if steps == [] then s else Run(Apply(s, steps[0]), steps[1..])
  }

  /** Whether a step replaces the held snapshot: a successful update or removal (an add does not). */
  predicate Replaces(step: Step) {
    !step.mutation.AddRequest? && step.reply.Resolved?
  }

  /** Reference definition: the cart of the latest replacing step, or `held` when there is none. */
  function LastSnapshot(steps: seq<Step>, held: Cart): Cart
    decreases |steps|
  {
    if steps == [] then held
    else if Replaces(steps[|steps| - 1]) then steps[|steps| - 1].reply.cart
    else LastSnapshot(steps[..|steps| - 1], held)
  }

  /** Reference definition: how many steps were answered with a cart. */
  function ResolvedCount(steps: seq<Step>): nat
    decreases |steps|
  {
    if steps == [] then 0
    else ResolvedCount(steps[..|steps| - 1]) + (if steps[|steps| - 1].reply.Resolved? then 1 else 0)
  }

  /** Running a sequence extended by one step is running the sequence, then applying the step. */
  lemma {:induction false} RunSnoc(s: CartState, steps: seq<Step>, step: Step)
    ensures Run(s, steps + [step]) == Apply(Run(s, steps), step)
    decreases |steps|
  {
    if steps == [] {
      assert Run(s, [step]) == Run(Apply(s, step), []);
    } else {
      assert (steps + [step])[1..] == steps[1..] + [step];
      RunSnoc(Apply(s, steps[0]), steps[1..], step);
    }
  }

  /** Last response wins: the held model is the cart of the latest successful update or removal, or the original one. */
  lemma {:induction false} LastResponseWins(s: CartState, steps: seq<Step>)
    ensures Run(s, steps).model == LastSnapshot(steps, s.model)
    decreases |steps|
  {
    if steps != [] {
      var init, last := steps[..|steps| - 1], steps[|steps| - 1];
      assert steps == init + [last];
      RunSnoc(s, init, last);
      LastResponseWins(s, init);
    }
  }

  /** The companion toggle is re-rendered exactly once per mutation that received a cart. */
  lemma {:induction false} ToggleRenderedOncePerResolved(s: CartState, steps: seq<Step>)
    ensures Run(s, steps).toggleRenders == s.toggleRenders + ResolvedCount(steps)
    decreases |steps|
  {
    if steps != [] {
      var init, last := steps[..|steps| - 1], steps[|steps| - 1];
      assert steps == init + [last];
      RunSnoc(s, init, last);
      ToggleRenderedOncePerResolved(s, init);
    }
  }

  /** Mutations never hide the cart: it ends up visible exactly when it was, or some step was an add. */
  lemma {:induction false} VisibleAfterAnyAdd(s: CartState, steps: seq<Step>)
    ensures Run(s, steps).isVisible <==>
              (s.isVisible || exists i :: 0 <= i < |steps| && steps[i].mutation.AddRequest?)
    decreases |steps|
  {
    if steps != [] {
      var init, last := steps[..|steps| - 1], steps[|steps| - 1];
      assert steps == init + [last];
      RunSnoc(s, init, last);
      VisibleAfterAnyAdd(s, init);
      assert forall i :: 0 <= i < |init| ==> init[i] == steps[i];
    }
  }

  /**
    The tracking event a mutation's instrumentation projects from the state
    it starts in, as the source wires it: adds through `variantProps` with the
    caller's arguments, updates not at all, removals through the CART_REMOVE
    projector, which throws for an absent id.
   */
  function EventFor(s: CartState, m: Mutation): (e: Result<Option<Tracking.TrackingEvent>, Failure>)
    ensures e.Err? <==> m.RemoveRequest? && Absent(s.model.lineItems, m.lineItemId)
    ensures m.UpdateRequest? ==> e == Ok(None)
    ensures m.AddRequest? ==> e == Ok(Some(Tracking.AddEventAsWritten(m.variant, m.requested)))
    ensures m.RemoveRequest? && e.Ok? ==> e.value.Some? && e.value.value.name == Tracking.CartRemoveEvent
  {
    match m
    case AddRequest(v, q) => Ok(Some(Tracking.AddEventAsWritten(v, q)))
    case UpdateRequest(_, _) => Ok(None)
    case RemoveRequest(id) =>
      match Tracking.RemovalEvent(s.model.lineItems, id)
      case Ok(ev) => Ok(Some(ev))
      case Err(f) => Err(f)
  }

  /**
    A tracked removal reports the quantity its call sends, and so does a
    tracked add whose caller gave the quantity (without one, see
    `Tracking.AddEventAsWrittenMisreportsDefault`).
   */
  lemma EventQuantityMatchesCall(s: CartState, m: Mutation, reply: Reply)
    requires EventFor(s, m).Ok? && EventFor(s, m).value.Some?
    ensures m.AddRequest? && m.requested.Some? ==>
              EventFor(s, m).value.value.props.quantity == AddVariantToCart(s, m.variant, m.requested, reply).calls[0].quantity
    ensures m.RemoveRequest? ==>
              EventFor(s, m).value.value.props.quantity == Tracking.TrackedRemoveItem(s, m.lineItemId, reply).calls[0].quantity
  {
  }
}
