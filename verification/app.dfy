/** The App component as an object: one field per state slot, one method per
    event handler (and per inline back button). Each method states the new
    value of every field and that it is the `Session.Step` of the old state. */
module AppComponent {
  import opened Delivery
  import opened Session

  class App {
    var selectedItem: Option<DeliveryItem>
    var isDetailPage: bool
    var isDevToolsOpen: bool
    var isCartOpen: bool
    var addedItems: seq<DeliveryItem>
    var requestedCarts: seq<RequestedCart>

    /** The component's state as a value. */
    function Snapshot(): State
      reads this
    {
      State(selectedItem, isDetailPage, isDevToolsOpen, isCartOpen,
            addedItems, requestedCarts)
    }

    ghost predicate Valid()
      reads this
    {
      Inv(Snapshot())
    }

    /** Mounting the component: list view, empty cart, empty ledger. */
    constructor ()
      ensures Valid() && Snapshot() == Initial()
    {
      selectedItem := None;
      isDetailPage := false;
      isDevToolsOpen := false;
      isCartOpen := false;
      addedItems := [];
      requestedCarts := [];
    }

    /** Opens the detail page of `item`, closing the other views. */
    method HandleDetails(item: DeliveryItem)
      requires Valid()
      modifies this
      ensures Valid()
      ensures selectedItem == Some(item) && isDetailPage
      ensures !isDevToolsOpen && !isCartOpen
      ensures addedItems == old(addedItems) && requestedCarts == old(requestedCarts)
      ensures Snapshot() == Step(old(Snapshot()), Details(item))
    {
      selectedItem := Some(item);
      isDetailPage := true;
      isDevToolsOpen := false;
      isCartOpen := false;
    }

    /** Leaves the detail page. */
    method HandleBack()
      requires Valid()
      modifies this
      ensures Valid()
      ensures !isDetailPage && selectedItem == None
      ensures isDevToolsOpen == old(isDevToolsOpen) && isCartOpen == old(isCartOpen)
      ensures addedItems == old(addedItems) && requestedCarts == old(requestedCarts)
      ensures Snapshot() == Step(old(Snapshot()), Back)
    {
      isDetailPage := false;
      selectedItem := None;
    }

    /** Puts `item` at the end of the cart unless an item with its
        identifier is already there. */
    method HandleAddItem(item: DeliveryItem)
      requires Valid()
      modifies this
      ensures Valid()
      ensures HasId(old(addedItems), item.id) ==> addedItems == old(addedItems)
      ensures !HasId(old(addedItems), item.id) ==> addedItems == old(addedItems) + [item]
      ensures selectedItem == old(selectedItem) && isDetailPage == old(isDetailPage)
      ensures isDevToolsOpen == old(isDevToolsOpen) && isCartOpen == old(isCartOpen)
      ensures requestedCarts == old(requestedCarts)
      ensures Snapshot() == Step(old(Snapshot()), AddItem(item))
    {
      if Find(addedItems, item.id).None? {
        addedItems := addedItems + [item];
      }
    }

    /** Opens the dev tools, closing the other views. */
    method HandleDevTools()
      requires Valid()
      modifies this
      ensures Valid()
      ensures isDevToolsOpen && !isDetailPage && !isCartOpen && selectedItem == None
      ensures addedItems == old(addedItems) && requestedCarts == old(requestedCarts)
      ensures Snapshot() == Step(old(Snapshot()), DevTools)
    {
      isDevToolsOpen := true;
      isDetailPage := false;
      isCartOpen := false;
      selectedItem := None;
    }

    /** Opens the cart, closing the other views. */
    method HandleCart()
      requires Valid()
      modifies this
      ensures Valid()
      ensures isCartOpen && !isDetailPage && !isDevToolsOpen && selectedItem == None
      ensures addedItems == old(addedItems) && requestedCarts == old(requestedCarts)
      ensures Snapshot() == Step(old(Snapshot()), Cart)
    {
      isCartOpen := true;
      isDetailPage := false;
      isDevToolsOpen := false;
      selectedItem := None;
    }

    /** Submits the cart: appends a `Pending` entry numbered one past the
        ledger's length holding the cart's items, empties the cart and
        closes the cart view. */
    method HandleRequestDelivery(requestDate: string)
      requires Valid()
      modifies this
      ensures Valid()
      ensures |requestedCarts| == |old(requestedCarts)| + 1
      ensures requestedCarts[..|old(requestedCarts)|] == old(requestedCarts)
      ensures requestedCarts[|old(requestedCarts)|]
              == RequestedCart(|old(requestedCarts)| + 1, old(addedItems), requestDate, Pending)
      ensures addedItems == [] && !isCartOpen
      ensures selectedItem == old(selectedItem) && isDetailPage == old(isDetailPage)
      ensures isDevToolsOpen == old(isDevToolsOpen)
      ensures Snapshot() == Step(old(Snapshot()), RequestDelivery(requestDate))
    {
      var newCart := RequestedCart(|requestedCarts| + 1, addedItems, requestDate, Pending);
      requestedCarts := requestedCarts + [newCart];
      addedItems := [];
      isCartOpen := false;
    }

    /** Marks every ledger entry numbered `cartId` as `Processing`. */
    method HandleAcceptDelivery(cartId: int)
      requires Valid()
      modifies this
      ensures Valid()
      ensures |requestedCarts| == |old(requestedCarts)|
      ensures forall i :: 0 <= i < |requestedCarts| ==>
                requestedCarts[i]
                == if old(requestedCarts)[i].id == cartId
                   then old(requestedCarts)[i].(status := Processing)
                   else old(requestedCarts)[i]
      ensures selectedItem == old(selectedItem) && isDetailPage == old(isDetailPage)
      ensures isDevToolsOpen == old(isDevToolsOpen) && isCartOpen == old(isCartOpen)
      ensures addedItems == old(addedItems)
      ensures Snapshot() == Step(old(Snapshot()), AcceptDelivery(cartId))
    {
      requestedCarts := AcceptAll(requestedCarts, cartId);
    }

    /** The cart view's back button. */
    method BackFromCart()
      requires Valid()
      modifies this
      ensures Valid()
      ensures !isCartOpen
      ensures selectedItem == old(selectedItem) && isDetailPage == old(isDetailPage)
      ensures isDevToolsOpen == old(isDevToolsOpen)
      ensures addedItems == old(addedItems) && requestedCarts == old(requestedCarts)
      ensures Snapshot() == Step(old(Snapshot()), CloseCart)
    {
      isCartOpen := false;
    }

    /** The dev tools view's back button. */
    method BackFromDevTools()
      requires Valid()
      modifies this
      ensures Valid()
      ensures !isDevToolsOpen
      ensures selectedItem == old(selectedItem) && isDetailPage == old(isDetailPage)
      ensures isCartOpen == old(isCartOpen)
      ensures addedItems == old(addedItems) && requestedCarts == old(requestedCarts)
      ensures Snapshot() == Step(old(Snapshot()), CloseDevTools)
    {
      isDevToolsOpen := false;
    }

    /** The view the component renders; exactly the one whose flag is set,
        or the item list when none is. */
    method CurrentView() returns (v: View)
      requires Valid()
      ensures v == CartView <==> isCartOpen
      ensures v == DevToolsView <==> isDevToolsOpen
      ensures isDetailPage ==> selectedItem.Some? && v == DetailPage(selectedItem.value)
      ensures v == ItemList <==> !isCartOpen && !isDevToolsOpen && !isDetailPage
    {
      v := ActiveView(Snapshot());
      ActiveViewFollowsFlags(Snapshot());
    }
  }
}
