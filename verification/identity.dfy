/**
  Cart-identity resolution (`fetchData`): reuse the cart whose id is kept in
  persistent storage, or create one and try to remember its id. Storage is a
  map from keys to strings; whether `setItem` throws is a parameter.
 */
module Identity {
  import opened Wrappers
  import opened CartTypes

  /** The persistent key-value store (`localStorage`). */
  type Storage = map<string, string>

  /** The single key under which the last cart id is kept. */
  const LastCartIdKey: string := "lastCartId"

  /** Whether `setItem` succeeded or threw (storage unavailable, quota exceeded). */
  datatype WriteAttempt = WriteSucceeds | WriteThrows

  /** What `fetchData` did: the remote call it issued, the storage afterwards, and what its promise settles to. */
  datatype Resolution = Resolution(call: RemoteCall, storage: Storage, result: Result<Cart, Failure>)

  /**
    The stored cart id as the source's truthiness test sees it: `getItem`
    yields null for a missing key, and the empty string is falsy too.
   */
  function StoredCartId(storage: Storage): (r: Option<string>)
    ensures r.Some? <==> LastCartIdKey in storage && storage[LastCartIdKey] != ""
    ensures r.Some? ==> r.value == storage[LastCartIdKey] && r.value != ""
  {
    if LastCartIdKey in storage && storage[LastCartIdKey] != "" then Some(storage[LastCartIdKey]) else None
  }

  /** `setItem(lastCartId, id)`, or nothing when it throws. */
  function Remember(storage: Storage, id: string, write: WriteAttempt): (r: Storage)
    ensures write.WriteSucceeds? ==> LastCartIdKey in r && r[LastCartIdKey] == id
    ensures write.WriteThrows? ==> r == storage
    ensures forall k :: k in storage && k != LastCartIdKey ==> k in r && r[k] == storage[k]
    ensures forall k :: k in r && k != LastCartIdKey ==> k in storage
  {
    match write
    case WriteSucceeds => storage[LastCartIdKey := id]
    case WriteThrows => storage
  }

  /** `fetchData`, given the service's reply to the one call it issues and whether the storage write throws. */
  function FetchData(storage: Storage, reply: Reply, write: WriteAttempt): (r: Resolution)
    ensures r.call == CreateCart <==> StoredCartId(storage).None?
    ensures StoredCartId(storage).Some? ==> r.call == FetchCart(StoredCartId(storage).value) && r.storage == storage
    ensures reply.Resolved? ==> r.result == Ok(reply.cart)
    ensures reply.Rejected? ==> r.result == Err(RemoteRejected(r.call)) && r.storage == storage
    ensures StoredCartId(storage).None? && reply.Resolved? && write.WriteSucceeds? ==>
              r.storage == storage[LastCartIdKey := reply.cart.id]
    ensures write.WriteThrows? ==> r.storage == storage
  {
    match StoredCartId(storage)
    case Some(id) =>
      var call := FetchCart(id);
      Resolution(call, storage, match reply case Resolved(cart) => Ok(cart) case Rejected => Err(RemoteRejected(call)))
    case None =>
      match reply
      case Resolved(cart) => Resolution(CreateCart, Remember(storage, cart.id, write), Ok(cart))
      case Rejected => Resolution(CreateCart, storage, Err(RemoteRejected(CreateCart)))
  }

  /**
    Identity survives a reload: once a created cart's id has been stored, the
    next resolution fetches that very cart and creates nothing, provided the
    id is non-empty (an empty id is falsy and leads to another creation).
   */
  lemma CreatedIdentityIsReused(storage: Storage, cart: Cart, reply: Reply, write: WriteAttempt)
    requires StoredCartId(storage).None?
    ensures var first := FetchData(storage, Resolved(cart), WriteSucceeds);
            cart.id != "" ==> FetchData(first.storage, reply, write).call == FetchCart(cart.id)
    ensures var first := FetchData(storage, Resolved(cart), WriteSucceeds);
            cart.id == "" ==> FetchData(first.storage, reply, write).call == CreateCart
  {
  }

  /** A failed write loses nothing but the new id: the next resolution creates again. */
  lemma FailedWriteCreatesAgain(storage: Storage, cart: Cart, reply: Reply, write: WriteAttempt)
    requires StoredCartId(storage).None?
    ensures FetchData(storage, Resolved(cart), WriteThrows).result == Ok(cart)
    ensures FetchData(FetchData(storage, Resolved(cart), WriteThrows).storage, reply, write).call == CreateCart
  {
  }
}
