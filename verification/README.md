# e-Delivery session state, modelled in Dafny

The e-Delivery screen is one React component, `App`. It shows a catalog of
four delivery items and a detail page per item. It also keeps a cart and a
"developer tools" panel. In that panel a delivery agent accepts submitted
carts. All of its behaviour beyond rendering lives in six state slots and the
event handlers that update them. This project models that state machine:

- the **cart** (`addedItems`), an ordered list of items with no two sharing an `id`;
- the **ledger** (`requestedCarts`), an append-only list of submitted carts
  numbered 1..n, each `Pending` until accepted, then `Processing`;
- the **view router**: the flags `isDetailPage`, `isDevToolsOpen`,
  `isCartOpen`, the `selectedItem`, and the choice of which of the four
  screens is rendered.

Files:

- `delivery.dfy` (module `Delivery`): the `DeliveryItem`, `CartStatus` and
  `RequestedCart` values and the built-in catalog. It also holds the pure
  operations the handlers build their new values from: `Find` (the array
  `find`), `AddToCart`, `AppendRequest` and `AcceptAll` (the `map` in the
  accept handler). Beside them are the cart and ledger invariants and lemmas
  about them.
- `session.dfy` (module `Session`): the six slots as one `State` value, one
  `Event` per handler or inline back button, and `Step`, the transition each
  one performs. `Run` folds a sequence of events. `ActiveView` is the render
  choice. Lemmas here relate many steps: the invariant holds on every
  reachable state, and the ledger only ever evolves as allowed.
- `app.dfy` (module `AppComponent`): class `App`, with one field per state
  slot and one method per handler. Each method states the new value of every
  field. It also states that the new state is `Step` of the old one, so the
  lemmas of `Session` apply to every sequence of calls.

Each handler is modelled as one atomic update of the state. The session
invariant `Inv` says four things:

- no two cart items share an `id`;
- ledger entry `i` has `id == i + 1`;
- no entry is `Delivered`;
- at most one view flag is set, and `isDetailPage` holds exactly when an
  item is selected.

The constructor establishes it and every handler keeps it.

The Accept button is rendered only for `Pending` entries
(src/App.tsx:203-205). The handler itself (src/App.tsx:104-111) sets
`Processing` on every entry whose `id` matches, whatever its status, and
`AcceptAll` does the same. Since no entry is ever `Delivered`, accepting a
`Processing` entry leaves it `Processing`.

## Model

| member | source | states |
|---|---|---|
| Delivery.Catalog | src/App.tsx:27-56 | four items, numbered 1 to 4, so their ids are distinct |
| Delivery.Find | src/App.tsx:71 | nothing is found exactly when no element has the id; a found item has the id and is the first element that has it |
| Delivery.AddToCart | src/App.tsx:70-73 | a present id leaves the cart unchanged; otherwise the item is appended at the end and the length grows by one; the id is present afterwards; distinct ids are preserved |
| Delivery.AddToCartIdempotent | src/App.tsx:70-73 | adding the same item a second time changes nothing |
| Delivery.SequentialIdsUnique | src/App.tsx:93 | on a ledger numbered 1..n, two entries share an id only if they are the same entry |
| Delivery.AppendRequest | src/App.tsx:92-98 | exactly one entry is appended, with id old length + 1, the cart's items, the given date and status Pending; earlier entries are unchanged; numbering and absence of Delivered are preserved |
| Delivery.Accepted | src/App.tsx:107-109 | id, items and date are kept; a non-matching entry is unchanged; the status is Processing afterwards exactly when the id matched or it already was Processing |
| Delivery.AcceptAll | src/App.tsx:105-110 | same length; id, items and date of every entry unchanged; status becomes Processing where the id matches, otherwise unchanged |
| Delivery.AcceptIdempotent | src/App.tsx:104-111 | accepting the same id twice equals accepting it once |
| Delivery.AcceptUnknownId | src/App.tsx:104-111 | accepting an id no entry has leaves the ledger equal to what it was |
| Delivery.AcceptTargetsOneEntry | src/App.tsx:104-111 | on a ledger numbered 1..n, accepting an id in 1..n changes only the status of the entry at index id - 1, to Processing |
| Delivery.AcceptPreservesLedgerInvariants | src/App.tsx:104-111 | accepting keeps the 1..n numbering and never produces Delivered |
| Session.Initial | src/App.tsx:20-25 | the start-up state satisfies the invariant and renders the item list |
| Session.Step | src/App.tsx:58-111 | every handler and back button keeps the invariant: distinct cart ids, ledger numbered 1..n, no Delivered, at most one view flag, detail flag iff an item is selected |
| Session.RunPreservesInv | src/App.tsx:58-111 | every sequence of actions from a state satisfying the invariant ends in one satisfying it |
| Session.ReachableInv | src/App.tsx:20-111 | every state reachable from start-up satisfies the invariant |
| Session.StepEvolvesLedger | src/App.tsx:91-111 | one action never removes or reorders entries, never changes an entry's id, items or date, and only leaves a status as it was or sets it to Processing |
| Session.RunEvolvesLedger | src/App.tsx:91-111 | the same over any sequence of actions: submitted items stay as snapshotted whatever happens to the cart later, and a Processing entry stays Processing |
| Session.ActiveView | src/App.tsx:315-321 | the cart view exactly when the cart flag is set; dev tools exactly when its flag is set and the cart flag is not; the detail page of the selected item exactly when neither is set and the detail flag is set with an item selected; the list otherwise |
| Session.ActiveViewFollowsFlags | src/App.tsx:315-321 | under the flag invariant the rendered screen is the cart, dev tools or detail page exactly when its flag is set (the detail page showing the selected item), and the list exactly when none is |
| Session.AddTwiceKeepsOne | src/App.tsx:70-75 | adding one item twice to an empty cart leaves a cart holding just that item |
| Session.RequestSnapshotsCart | src/App.tsx:91-102 | submitting appends the entry (old length + 1, the cart's items, the date, Pending), empties the cart and closes the cart view |
| Session.FirstDeliveryAccepted | src/App.tsx:58-111 | from start-up, opening an item, adding it, opening the cart, submitting, opening dev tools and accepting cart 1 leaves one Processing entry holding that item, the dev tools open and the cart empty |
| AppComponent.App.constructor | src/App.tsx:20-25 | nothing selected, no view flag, empty cart and ledger; the invariant holds |
| AppComponent.App.HandleDetails | src/App.tsx:58-63 | selects the item, sets the detail flag, clears the cart and dev tools flags; cart and ledger unchanged |
| AppComponent.App.HandleBack | src/App.tsx:65-68 | clears the detail flag and the selection; everything else unchanged |
| AppComponent.App.HandleAddItem | src/App.tsx:70-75 | appends the item only when its id is absent, otherwise the cart is unchanged; nothing else changes; the invariant is kept |
| AppComponent.App.HandleDevTools | src/App.tsx:77-82 | sets the dev tools flag, clears the detail and cart flags and the selection |
| AppComponent.App.HandleCart | src/App.tsx:84-89 | sets the cart flag, clears the detail and dev tools flags and the selection |
| AppComponent.App.HandleRequestDelivery | src/App.tsx:91-102 | the ledger grows by exactly the entry (old length + 1, old cart, date, Pending) with earlier entries unchanged; the cart is empty and the cart view closed |
| AppComponent.App.HandleAcceptDelivery | src/App.tsx:104-111 | same ledger length; each entry with the id becomes Processing, every other entry is unchanged; nothing else changes |
| AppComponent.App.BackFromCart | src/App.tsx:117 | clears the cart flag only |
| AppComponent.App.BackFromDevTools | src/App.tsx:175 | clears the dev tools flag only |
| AppComponent.App.CurrentView | src/App.tsx:315-321 | the rendered screen is the one whose flag is set (the detail page of the selected item), or the list when no flag is set |

## Left out

- Rendering: all JSX, CSS classes and icons (src/App.tsx:114-372) are presentation. Only the choice of screen (src/App.tsx:315-321) is modelled.
- The two `alert` acknowledgments (src/App.tsx:74, src/App.tsx:101) are blocking UI side effects with no effect on state. The add-item alert fires even when the item was already in the cart; the model does not record it.
- The request date comes from the clock and the locale (`new Date().toLocaleString()`). It is an opaque string parameter of `HandleRequestDelivery`.
- React's scheduling is not modelled. State updates are batched, and `handleAddItem` reads the cart from the render closure while `handleAcceptDelivery` uses a functional updater. Every handler is an atomic, sequential update of the current state.
- The UI offers "Request Delivery" only for a non-empty cart (src/App.tsx:159) and "Accept" only for Pending entries (src/App.tsx:203-205). The handlers do not check either condition. The model imposes neither as a precondition: an empty cart produces an entry with no items, and accepting a Processing entry leaves it Processing.
- Identifiers are `number` in the component. The model uses mathematical integers; non-integer and floating-point ids are not modelled.
- `handleDetails` is only reached with catalog items. The model accepts any item and does not track catalog membership of selected or carted items.
