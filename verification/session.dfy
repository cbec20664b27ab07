/** The App component's session state as one value, the transition each
    handler performs on it, and the view the component renders from it. */
module Session {
  import opened Delivery

  /** The six state slots of the component. */
  datatype State = State(
    selectedItem: Option<DeliveryItem>,
    isDetailPage: bool,
    isDevToolsOpen: bool,
    isCartOpen: bool,
    addedItems: seq<DeliveryItem>,
    requestedCarts: seq<RequestedCart>)

  /** One user action: a handler, or one of the two inline back buttons. */
  datatype Event =
    | Details(item: DeliveryItem)
    | Back
    | AddItem(item: DeliveryItem)
    | DevTools
    | Cart
    | RequestDelivery(requestDate: string)
    | AcceptDelivery(cartId: int)
    | CloseCart
    | CloseDevTools

  /** The four screens, one of which is rendered. */
  datatype View = ItemList | DetailPage(item: DeliveryItem) | CartView | DevToolsView

  /** Start-up: list view, nothing selected, empty cart and ledger. */
  function Initial(): (s: State)
    ensures Inv(s) && ActiveView(s) == ItemList
  {
    State(None, false, false, false, [], [])
  }

  /** At most one view flag is set, and the detail flag is set exactly
      when an item is selected. */
  predicate FlagsOk(s: State) {
    (s.isCartOpen ==> !s.isDevToolsOpen && !s.isDetailPage)
    && (s.isDevToolsOpen ==> !s.isDetailPage)
    && (s.isDetailPage <==> s.selectedItem.Some?)
  }

  /** The session invariant. */
  predicate Inv(s: State) {
    FlagsOk(s)
    && DistinctIds(s.addedItems)
    && SequentialIds(s.requestedCarts)
    && NoDelivered(s.requestedCarts)
  }

  /** The state after `e`; every handler keeps the session invariant. */
  function Step(s: State, e: Event): (r: State)
    ensures Inv(s) ==> Inv(r)
  {
    match e
    case Details(item) =>
      s.(selectedItem := Some(item), isDetailPage := true,
         isDevToolsOpen := false, isCartOpen := false)
    case Back =>
      s.(isDetailPage := false, selectedItem := None)
    case AddItem(item) =>
      s.(addedItems := AddToCart(s.addedItems, item))
    case DevTools =>
      s.(isDevToolsOpen := true, isDetailPage := false,
         isCartOpen := false, selectedItem := None)
    case Cart =>
      s.(isCartOpen := true, isDetailPage := false,
         isDevToolsOpen := false, selectedItem := None)
    case RequestDelivery(requestDate) =>
      s.(requestedCarts := AppendRequest(s.requestedCarts, s.addedItems, requestDate),
         addedItems := [], isCartOpen := false)
    case AcceptDelivery(cartId) =>
      AcceptPreservesLedgerInvariants(s.requestedCarts, cartId);
      s.(requestedCarts := AcceptAll(s.requestedCarts, cartId))
    case CloseCart =>
      s.(isCartOpen := false)
    case CloseDevTools =>
      s.(isDevToolsOpen := false)
  }

  /** The state after the events in order. */
  function Run(s: State, events: seq<Event>): State
    decreases |events|
  {
    if events == [] then s else Run(Step(s, events[0]), events[1..])
  }

  /** Every sequence of actions keeps the session invariant. */
  lemma {:induction false} RunPreservesInv(s: State, events: seq<Event>)
    requires Inv(s)
    ensures Inv(Run(s, events))
    decreases |events|
  {
    if events != [] {
      RunPreservesInv(Step(s, events[0]), events[1..]);
    }
  }

  /** Every state reachable from start-up satisfies the invariant. */
  lemma ReachableInv(events: seq<Event>)
    ensures Inv(Run(Initial(), events))
  {
    RunPreservesInv(Initial(), events);
  }

  // ---------------------------------------------------------------------
  // How the ledger may change

  /** `after` extends `before`: no entry is removed or reordered, identifier,
      items and request date are fixed, and a status either stays or becomes
      `Processing`. */
  predicate LedgerEvolves(before: seq<RequestedCart>, after: seq<RequestedCart>) {
    |before| <= |after|
    && forall i :: 0 <= i < |before| ==>
         after[i].id == before[i].id && after[i].items == before[i].items
         && after[i].requestDate == before[i].requestDate
         && (after[i].status == before[i].status || after[i].status == Processing)
  }

  lemma LedgerEvolvesTransitive(a: seq<RequestedCart>, b: seq<RequestedCart>,
                                c: seq<RequestedCart>)
    requires LedgerEvolves(a, b) && LedgerEvolves(b, c)
    ensures LedgerEvolves(a, c)
  {
  }

  /** One action changes the ledger only as `LedgerEvolves` allows. */
  lemma StepEvolvesLedger(s: State, e: Event)
    ensures LedgerEvolves(s.requestedCarts, Step(s, e).requestedCarts)
  {
  }

  /** Any sequence of actions changes the ledger only as `LedgerEvolves`
      allows: an entry, once created, keeps its items whatever happens to
      the cart, and once `Processing` it stays `Processing`. */
  lemma {:induction false} RunEvolvesLedger(s: State, events: seq<Event>)
    ensures LedgerEvolves(s.requestedCarts, Run(s, events).requestedCarts)
    decreases |events|
  {
    if events != [] {
      var t := Step(s, events[0]);
      StepEvolvesLedger(s, events[0]);
      RunEvolvesLedger(t, events[1..]);
      LedgerEvolvesTransitive(s.requestedCarts, t.requestedCarts,
                              Run(t, events[1..]).requestedCarts);
    }
  }

  // ---------------------------------------------------------------------
  // The rendered view

  /** The render choice: cart first, then dev tools, then the detail page
      (only with a selected item), otherwise the item list. */
  function ActiveView(s: State): (v: View)
    ensures v == CartView <==> s.isCartOpen
    ensures v == DevToolsView <==> !s.isCartOpen && s.isDevToolsOpen
    ensures v.DetailPage? <==>
              !s.isCartOpen && !s.isDevToolsOpen && s.isDetailPage && s.selectedItem.Some?
    ensures v.DetailPage? ==> s.selectedItem == Some(v.item)
    ensures v == ItemList <==>
              !s.isCartOpen && !s.isDevToolsOpen && !(s.isDetailPage && s.selectedItem.Some?)
  {
    if s.isCartOpen then CartView
    else if s.isDevToolsOpen then DevToolsView
    else if s.isDetailPage && s.selectedItem.Some? then DetailPage(s.selectedItem.value)
    else ItemList
  }

  /** Under the flag invariant the priority never decides anything: the
      rendered view is the one whose flag is set, or the list if none is. */
  lemma ActiveViewFollowsFlags(s: State)
    requires FlagsOk(s)
    ensures ActiveView(s) == CartView <==> s.isCartOpen
    ensures ActiveView(s) == DevToolsView <==> s.isDevToolsOpen
    ensures ActiveView(s).DetailPage? <==> s.isDetailPage
    ensures s.isDetailPage ==> ActiveView(s) == DetailPage(s.selectedItem.value)
    ensures ActiveView(s) == ItemList
            <==> !s.isCartOpen && !s.isDevToolsOpen && !s.isDetailPage
  {
  }

  // ---------------------------------------------------------------------
  // Scenarios

  /** Adding the same item twice to an empty cart gives a cart of one. */
  lemma AddTwiceKeepsOne(s: State, item: DeliveryItem)
    requires s.addedItems == []
    ensures Run(s, [AddItem(item), AddItem(item)]).addedItems == [item]
  {
    var t := Step(s, AddItem(item));
    assert t.addedItems == [item];
    assert Step(t, AddItem(item)).addedItems == [item];
    RunCons(t, AddItem(item), []);
    RunCons(s, AddItem(item), [AddItem(item)]);
  }

  /** Submitting a cart snapshots it into a new pending entry, empties the
      cart and closes the cart view. */
  lemma RequestSnapshotsCart(s: State, requestDate: string)
    ensures Step(s, RequestDelivery(requestDate)).requestedCarts
            == s.requestedCarts
               + [RequestedCart(|s.requestedCarts| + 1, s.addedItems, requestDate, Pending)]
    ensures Step(s, RequestDelivery(requestDate)).addedItems == []
    ensures !Step(s, RequestDelivery(requestDate)).isCartOpen
  {
  }

  /** Running `e` then `rest` is stepping once, then running `rest`. */
  lemma RunCons(s: State, e: Event, rest: seq<Event>)
    ensures Run(s, [e] + rest) == Run(Step(s, e), rest)
  {
    assert ([e] + rest)[1..] == rest;
  }

  /** From start-up: open an item, add it, open the cart, submit, open the
      dev tools and accept cart 1. */
  lemma FirstDeliveryAccepted(item: DeliveryItem, requestDate: string)
    ensures Run(Initial(), [Details(item), AddItem(item), Cart,
                            RequestDelivery(requestDate), DevTools, AcceptDelivery(1)])
            == State(None, false, true, false, [],
                     [RequestedCart(1, [item], requestDate, Processing)])
  {
    var s0 := Initial();
    var s1 := Step(s0, Details(item));
    var s2 := Step(s1, AddItem(item));
    assert s2.addedItems == [item];
    var s3 := Step(s2, Cart);
    var s4 := Step(s3, RequestDelivery(requestDate));
    assert s4.requestedCarts == [RequestedCart(1, [item], requestDate, Pending)];
    var s5 := Step(s4, DevTools);
    var s6 := Step(s5, AcceptDelivery(1));
    assert s6 == State(None, false, true, false, [],
                       [RequestedCart(1, [item], requestDate, Processing)]);
    RunCons(s5, AcceptDelivery(1), []);
    RunCons(s4, DevTools, [AcceptDelivery(1)]);
    RunCons(s3, RequestDelivery(requestDate), [DevTools, AcceptDelivery(1)]);
    RunCons(s2, Cart, [RequestDelivery(requestDate), DevTools, AcceptDelivery(1)]);
    RunCons(s1, AddItem(item), [Cart, RequestDelivery(requestDate), DevTools, AcceptDelivery(1)]);
    RunCons(s0, Details(item), [AddItem(item), Cart, RequestDelivery(requestDate), DevTools,
                                AcceptDelivery(1)]);
  }
}
