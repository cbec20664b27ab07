/** The values the delivery screen works with: catalog items, the cart and
    the ledger of requested carts, with the pure operations the handlers of
    the App component build their new state from. */
module Delivery {

  datatype Option<T> = None | Some(value: T)

  /** A catalog entry. Its `status` is free text in the component's type. */
  datatype DeliveryItem = DeliveryItem(
    id: int,
    name: string,
    status: string,
    destination: string,
    availability: string)

  /** Workflow status of a requested cart; `Delivered` is representable but
      no operation produces it. */
  datatype CartStatus = Pending | Processing | Delivered

  /** A submitted cart: a snapshot of the cart's items plus workflow status. */
  datatype RequestedCart = RequestedCart(
    id: int,
    items: seq<DeliveryItem>,
    requestDate: string,
    status: CartStatus)

  // ---------------------------------------------------------------------
  // The catalog

  /** The four built-in delivery items, numbered 1 to 4. */
  function Catalog(): (c: seq<DeliveryItem>)
    ensures |c| == 4
    ensures forall i :: 0 <= i < |c| ==> c[i].id == i + 1
    ensures DistinctIds(c)
  {
    [ DeliveryItem(1, "Electronics Package", "In Transit",
                   "123 Tech Street, Silicon Valley", "Next Day Delivery"),
      DeliveryItem(2, "Fashion Items", "Out for Delivery",
                   "456 Fashion Ave, New York", "Same Day Delivery"),
      DeliveryItem(3, "Books Bundle", "Processing",
                   "789 Library Road, Boston", "2-3 Business Days"),
      DeliveryItem(4, "Home Decor", "Delivered",
                   "321 Home Street, Chicago", "Standard Shipping") ]
  }

  // ---------------------------------------------------------------------
  // The cart

  /** Some element of `items` carries identifier `id`. */
  predicate HasId(items: seq<DeliveryItem>, id: int) {
    exists i :: 0 <= i < |items| && items[i].id == id
  }

  /** No two elements of `items` share an identifier. */
  predicate DistinctIds(items: seq<DeliveryItem>) {
    forall i, j :: 0 <= i < j < |items| ==> items[i].id != items[j].id
  }

  /** The first element of `items` whose identifier is `id`, if any
      (the array `find` used by the add-item handler). */
  function Find(items: seq<DeliveryItem>, id: int): (r: Option<DeliveryItem>)
    ensures r.None? <==> !HasId(items, id)
    ensures r.Some? ==> r.value.id == id
    ensures r.Some? ==> exists i :: 0 <= i < |items| && items[i] == r.value
                                    && !HasId(items[..i], id)
  {
    if |items| == 0 then None
    else if items[0].id == id then
      assert items[..0] == [];
      Some(items[0])
    else
      var r := Find(items[1..], id);
      assert HasId(items, id) ==> HasId(items[1..], id) by {
        if HasId(items, id) {
          var k :| 0 <= k < |items| && items[k].id == id;
          assert items[1..][k - 1].id == id;
        }
      }
      assert r.Some? ==> exists i :: 0 <= i < |items| && items[i] == r.value
                                     && !HasId(items[..i], id) by {
        if r.Some? {
          var i :| 0 <= i < |items[1..]| && items[1..][i] == r.value
                   && !HasId(items[1..][..i], id);
          assert items[..i + 1] == [items[0]] + items[1..][..i];
          assert items[i + 1] == r.value;
        }
      }
      r
  }

  /** The cart after adding `item`: appended at the end when no element has
      its identifier, otherwise the cart unchanged. */
  function AddToCart(cart: seq<DeliveryItem>, item: DeliveryItem): (r: seq<DeliveryItem>)
    ensures HasId(cart, item.id) ==> r == cart
    ensures !HasId(cart, item.id) ==> r == cart + [item] && |r| == |cart| + 1
    ensures HasId(r, item.id)
    ensures DistinctIds(cart) ==> DistinctIds(r)
  {
    if Find(cart, item.id).None? then
      assert (cart + [item])[|cart|].id == item.id;
      cart + [item]
    else cart
  }

  /** Adding the same item a second time changes nothing. */
  lemma AddToCartIdempotent(cart: seq<DeliveryItem>, item: DeliveryItem)
    ensures AddToCart(AddToCart(cart, item), item) == AddToCart(cart, item)
  {
  }

  // ---------------------------------------------------------------------
  // The ledger of requested carts

  /** Entry `i` of the ledger has identifier `i + 1`. */
  predicate SequentialIds(ledger: seq<RequestedCart>) {
    forall i :: 0 <= i < |ledger| ==> ledger[i].id == i + 1
  }

  /** Every entry is `Pending` or `Processing`. */
  predicate NoDelivered(ledger: seq<RequestedCart>) {
    forall i :: 0 <= i < |ledger| ==> ledger[i].status != Delivered
  }

  /** Sequential identifiers are unique identifiers. */
  lemma SequentialIdsUnique(ledger: seq<RequestedCart>, i: int, j: int)
    requires SequentialIds(ledger)
    requires 0 <= i < |ledger| && 0 <= j < |ledger|
    ensures ledger[i].id == ledger[j].id <==> i == j
  {
  }

  /** The ledger after a delivery request for `cart`: one new `Pending`
      entry numbered one past the old length, holding the cart's items. */
  function AppendRequest(ledger: seq<RequestedCart>, cart: seq<DeliveryItem>,
                         requestDate: string): (r: seq<RequestedCart>)
    ensures |r| == |ledger| + 1 && r[..|ledger|] == ledger
    ensures r[|ledger|].id == |ledger| + 1 && r[|ledger|].status == Pending
    ensures r[|ledger|].items == cart && r[|ledger|].requestDate == requestDate
    ensures SequentialIds(ledger) ==> SequentialIds(r)
    ensures NoDelivered(ledger) ==> NoDelivered(r)
  {
    ledger + [RequestedCart(|ledger| + 1, cart, requestDate, Pending)]
  }

  /** One entry after accepting `cartId`: only the status may change, and it
      is `Processing` afterwards exactly when the entry matched or already
      was `Processing`. */
  function Accepted(entry: RequestedCart, cartId: int): (r: RequestedCart)
    ensures r.id == entry.id && r.items == entry.items && r.requestDate == entry.requestDate
    ensures r.status == Processing <==> entry.id == cartId || entry.status == Processing
    ensures entry.id != cartId ==> r == entry
  {
    if entry.id == cartId then entry.(status := Processing) else entry
  }

  /** The ledger after accepting `cartId`: every entry with that identifier
      becomes `Processing`, all others and all other fields stay. */
  function AcceptAll(ledger: seq<RequestedCart>, cartId: int): (r: seq<RequestedCart>)
    ensures |r| == |ledger|
    ensures forall i :: 0 <= i < |ledger| ==>
              r[i].id == ledger[i].id && r[i].items == ledger[i].items
              && r[i].requestDate == ledger[i].requestDate
    ensures forall i :: 0 <= i < |ledger| ==>
              r[i].status == if ledger[i].id == cartId then Processing else ledger[i].status
  {
    if ledger == [] then []
    else [Accepted(ledger[0], cartId)] + AcceptAll(ledger[1..], cartId)
  }

  /** Accepting the same cart twice is the same as accepting it once. */
  lemma AcceptIdempotent(ledger: seq<RequestedCart>, cartId: int)
    ensures AcceptAll(AcceptAll(ledger, cartId), cartId) == AcceptAll(ledger, cartId)
  {
  }

  /** Accepting an identifier no entry has leaves the ledger as it was. */
  lemma AcceptUnknownId(ledger: seq<RequestedCart>, cartId: int)
    requires forall i :: 0 <= i < |ledger| ==> ledger[i].id != cartId
    ensures AcceptAll(ledger, cartId) == ledger
  {
  }

  /** On a ledger numbered 1..n, accepting `cartId` in that range changes
      exactly the entry at index `cartId - 1`, and only its status. */
  lemma AcceptTargetsOneEntry(ledger: seq<RequestedCart>, cartId: int)
    requires SequentialIds(ledger) && 1 <= cartId <= |ledger|
    ensures AcceptAll(ledger, cartId)
            == ledger[cartId - 1 := ledger[cartId - 1].(status := Processing)]
  {
  }

  /** Accepting keeps the numbering and never yields `Delivered`. */
  lemma AcceptPreservesLedgerInvariants(ledger: seq<RequestedCart>, cartId: int)
    ensures SequentialIds(ledger) ==> SequentialIds(AcceptAll(ledger, cartId))
    ensures NoDelivered(ledger) ==> NoDelivered(AcceptAll(ledger, cartId))
  {
  }
}
