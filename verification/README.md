# FoodOrderApp state core in Dafny

A model of the client-side state of the FoodOrderApp storefront, with proofs about it:

- **Cart store** (`CartStore`, `cart_store.dfy`). This is `cartReducer` over an ordered list of line items. ADD_ITEM bumps an existing id or appends the item with quantity 1. REMOVE_ITEM decrements or splices. CLEAR-CART empties the list, and any other action type leaves the state alone. The reducer is modelled as written: REMOVE_ITEM stores its list under the extra key `item`, and it crashes on a missing id (`Failure(MissingEntry(id))`). `ReduceFixed` is the corrected reducer.
- **Progress controller** (`Progress`, `progress.dfy`). One progress string (`""`, `"cart"` or `"checkout"`) and the four unconditional transitions `showCart`, `hideCart`, `showCheckout` and `hideCheckout`. A `View` enum and its tag strings form a round trip.
- **Request lifecycle** (`HttpRequest`, `http_request.dfy`). This covers the `useHttp` hook: the error text of `sendHttpRequest`, the auto-fetch condition on the config, the config sent (`{...config, body}`), and the state record `{data, isLoading, error, success}`. The record moves through request start, success, failure and `clearData`. The network is a parameter: what `fetch` and `response.json()` produced is given as a `Fetched` value.
- **Cart surface** (`CartView`, `cart_view.dfy`). The total, as the left fold of `acc + quantity * price` from 0. The open predicate `progress === "cart"`. What the Close, Go to Checkout, increase and decrease buttons do.
- **Checkout surface** (`CheckoutView`, `checkout_view.dfy`). The same total. The open predicate `progress === "checkout"`. `handleClose`. The customer object built from the five form inputs. The POST request carrying `{order: {items, customer}}`.

`Outcomes` (`outcomes.dfy`) holds `Option`, `Result` and JavaScript string truthiness (`m || fallback`).

Prices and quantities are integers (minor units). The model follows the code as written, including these behaviours:

- REMOVE_ITEM does not update `items`.
- "Go to Checkout" calls `hideCart`.
- `clearData` leaves `error` as it was.
- The checkout submits with a plain `fetch`, not through the hook. It neither clears the cart nor resets progress afterwards.
- The modal ignores its `onClose` prop, so no dialog teardown drives a progress transition. The two surfaces are never open together because both read the single progress string.

## Model

| member | source | states |
|---|---|---|
| CartStore.AddItemAction | FoodOrderApp/src/Components/store/CartContext.jsx:78-80 | `addItem(item)` dispatches an action tagged `ADD_ITEM` that carries the whole item |
| CartStore.RemoveItemAction | FoodOrderApp/src/Components/store/CartContext.jsx:82-84 | `removeItem(id)` dispatches an action tagged `REMOVE_ITEM` that carries the id |
| CartStore.ClearCartAction | FoodOrderApp/src/Components/store/CartContext.jsx:86-88 | `clearCart()` dispatches an action tagged `CLEAR-CART` |
| CartStore.FindIndex | FoodOrderApp/src/Components/store/CartContext.jsx:12-14 | returns the first position holding the id; no earlier entry has it; -1 exactly when no entry has it |
| CartStore.AddToItems | FoodOrderApp/src/Components/store/CartContext.jsx:12-33 | for an id already present: same length, the first matching entry's quantity goes up by 1 with its other fields and position kept, and every other entry is unchanged; for a new id: the item is appended at the end with quantity exactly 1, whatever quantity it came with |
| CartStore.RemoveFromItems | FoodOrderApp/src/Components/store/CartContext.jsx:41-61 | fails exactly when the id is absent (the read of `.quantity` of `undefined`); an entry of quantity 1 is spliced out and the rest keep their order; otherwise that entry alone is decremented in place |
| CartStore.Reduce | FoodOrderApp/src/Components/store/CartContext.jsx:10-73 | the reducer as written: fails only on REMOVE_ITEM of an absent id; on a successful REMOVE_ITEM, `items` is unchanged and the computed list sits under `item`; CLEAR-CART yields empty `items`; an unrecognised type returns the state unchanged |
| CartStore.ReduceFixed | FoodOrderApp/src/Components/store/CartContext.jsx:40-64 | the corrected reducer: REMOVE_ITEM replaces `items` with the removal result, which is never longer; every other action behaves as in `Reduce` |
| CartStore.AddKeepsValid | FoodOrderApp/src/Components/store/CartContext.jsx:12-33 | ADD_ITEM keeps ids unique and quantities positive |
| CartStore.RemoveKeepsValid | FoodOrderApp/src/Components/store/CartContext.jsx:46-61 | the removal computation keeps ids unique and quantities positive |
| CartStore.ReduceKeepsValid | FoodOrderApp/src/Components/store/CartContext.jsx:10-73 | every successful step of either reducer keeps the cart invariant (unique ids, positive quantities) |
| CartStore.AddThenRemove | FoodOrderApp/src/Components/store/CartContext.jsx:22-61 | with positive quantities, removing an id right after adding it gives back the original items |
| CartStore.AddTwice | FoodOrderApp/src/Components/store/CartContext.jsx:22-33 | adding the same new item twice gives one entry of quantity 2, never two entries |
| CartStore.RemoveQuantityTimes | FoodOrderApp/src/Components/store/CartContext.jsx:46-61 | removing an id as many times as its entry's quantity splices exactly that entry out |
| CartStore.RemoveQuantityTimesDropsId | FoodOrderApp/src/Components/store/CartContext.jsx:46-61 | in a valid cart, that many removals leave no entry with the id and one entry fewer |
| CartStore.RemoveItemKeepsLine | FoodOrderApp/src/Components/store/CartContext.jsx:63 | as written, removing the only line (quantity 1) leaves `items` holding that line and puts `[]` under `item` |
| CartStore.RemoveItemFixedEmpties | FoodOrderApp/src/Components/store/CartContext.jsx:50-63 | with the corrected reducer the same removal empties `items` |
| Progress.Tag | FoodOrderApp/src/Components/store/UserProgressContext.jsx:11-27 | each view has its own tag, and `""`, `"cart"` and `"checkout"` each name exactly one view |
| Progress.TagParseRoundTrip | FoodOrderApp/src/Components/store/UserProgressContext.jsx:11-27 | parsing a tag gives its view back; a parsed string is its view's tag; the progress strings are exactly the three tags |
| Progress.InitialIsClosed | FoodOrderApp/src/Components/store/UserProgressContext.jsx:11 | the initial progress `""` names the closed view |
| Progress.Step | FoodOrderApp/src/Components/store/UserProgressContext.jsx:13-27 | from any progress: `showCart` gives `"cart"`, `showCheckout` gives `"checkout"`, and both hides give `""`; the result is always one of the three tags |
| Progress.HideCartIsHideCheckout | FoodOrderApp/src/Components/store/UserProgressContext.jsx:17-27 | `hideCart` and `hideCheckout` give the same result from every progress |
| Progress.StepIdempotent | FoodOrderApp/src/Components/store/UserProgressContext.jsx:13-27 | applying any transition twice equals applying it once |
| Progress.RunEndsAtLast | FoodOrderApp/src/Components/store/UserProgressContext.jsx:13-27 | after any non-empty sequence of transitions, the progress is the tag of the last one's target (`showCart` then `showCheckout` ends at `"checkout"`) |
| Progress.RunKeepsProgress | FoodOrderApp/src/Components/store/UserProgressContext.jsx:11-27 | every sequence of transitions keeps progress within the three tags |
| HttpRequest.ErrorText | FoodOrderApp/src/Components/hooks/useHttp.js:8-12 | the thrown text is the body's message when truthy, otherwise "Something went wrong, failed to send request."; it is never empty |
| HttpRequest.SendHttpRequest | FoodOrderApp/src/Components/hooks/useHttp.js:3-15 | an ok response yields its parsed body unchanged; a non-ok one fails with `ErrorText` of its message; a rejection passes its message through |
| HttpRequest.WithBody | FoodOrderApp/src/Components/hooks/useHttp.js:34 | the config sent has `body` replaced by the argument and keeps the method and headers; an absent config spreads to one with neither |
| HttpRequest.AutoFetch | FoodOrderApp/src/Components/hooks/useHttp.js:49-53 | the request fires on mount exactly when the config is absent or its method is absent, empty or `"GET"` |
| HttpRequest.Initial | FoodOrderApp/src/Components/hooks/useHttp.js:20-23 | the state starts with the initial data, not loading, no error and no success |
| HttpRequest.Start | FoodOrderApp/src/Components/hooks/useHttp.js:32 | starting a request sets `isLoading` and touches nothing else |
| HttpRequest.Settle | FoodOrderApp/src/Components/hooks/useHttp.js:35-40 | afterwards `isLoading` is false; on success, `data` is the body and `success` is true, while the old `error` stays; on failure, `error` is the message or "Something went wrong!", while `data` and `success` stay |
| HttpRequest.ClearData | FoodOrderApp/src/Components/hooks/useHttp.js:25-28 | `data` returns to the initial value and `success` to false; `error` and `isLoading` are left alone |
| HttpRequest.SendRequest | FoodOrderApp/src/Components/hooks/useHttp.js:30-41 | one call: the request sent is the url with `WithBody`; the in-flight state is loading and the settled state is not; the settled state for each of ok, non-ok and rejected |
| HttpRequest.CaughtFallbackOnlyOnRejection | FoodOrderApp/src/Components/hooks/useHttp.js:8-38 | every failure leaves a non-empty error; the caught fallback text is used exactly when a rejection carried no message |
| HttpRequest.WithBodyLastWins | FoodOrderApp/src/Components/hooks/useHttp.js:34 | replacing the body of an already-replaced config keeps only the last body |
| HttpRequest.ErrorSurvivesSuccess | FoodOrderApp/src/Components/hooks/useHttp.js:35-38 | a success after a failure sets the data and `success` but keeps the earlier error |
| HttpRequest.ClearAfterSuccess | FoodOrderApp/src/Components/hooks/useHttp.js:25-36 | clearing after a success gives the initial data with no success and the original error; clearing again changes nothing |
| HttpRequest.AutoFetchExamples | FoodOrderApp/src/Components/hooks/useHttp.js:50 | the menu's empty config `{}` and an absent config fire; a `"POST"` config does not |
| HttpRequest.BadEmailExample | FoodOrderApp/src/Components/hooks/useHttp.js:8-40 | a non-ok response whose body says "bad email" settles with that error, not loading, and the data unchanged |
| CartView.Total | FoodOrderApp/src/Components/Cart.jsx:13-16 | the fold from 0 equals the sum of `quantity * price` over the lines, so an empty cart totals 0 |
| CartView.TotalFromIsSum | FoodOrderApp/src/Components/Cart.jsx:13-16 | the left fold from any start adds the independently defined sum of `quantity * price` |
| CartView.TotalAfterAdd | FoodOrderApp/src/Components/Cart.jsx:13-16 | ADD_ITEM raises the total by exactly the bumped line's price: the stored line's price for an existing id, the item's price for a new one |
| CartView.WorkedExample | FoodOrderApp/src/Components/Cart.jsx:52-70 | lines (10, 2), (5, 3), (7, 1) fold through 20 and 35 to 42 |
| CartView.RenderCart | FoodOrderApp/src/Components/Cart.jsx:13-41 | the cart surface is open exactly when progress names the cart view; it lists the cart's items and shows their sum |
| CartView.Press | FoodOrderApp/src/Components/Cart.jsx:18-46 | Close and Go to Checkout both set progress to `""` and leave the cart; increase dispatches ADD_ITEM with the whole entry; decrease fails exactly on an absent id and otherwise leaves `items` and progress unchanged |
| CartView.PressFixed | FoodOrderApp/src/Components/Cart.jsx:43-46 | with corrected wiring, Go to Checkout sets progress to `"checkout"`; decrease replaces `items` with the removal result |
| CartView.BottomButtonsClose | FoodOrderApp/src/Components/Cart.jsx:18-46 | from any progress, either bottom button of the cart leads to the closed view, never to the checkout |
| CartView.DecreaseOnRenderedLine | FoodOrderApp/src/Components/Cart.jsx:27-37 | the decrease button of a listed line never crashes; as written, the rendered surface is unchanged afterwards |
| CartView.IncreaseOnRenderedLine | FoodOrderApp/src/Components/Cart.jsx:36 | in a valid cart, the increase button of line i raises that line's quantity by 1 and the total by its price, keeping the length and progress |
| CartView.GoToCheckoutFixedOpensCheckout | FoodOrderApp/src/Components/Cart.jsx:46 | with corrected wiring, Go to Checkout from the open cart opens the checkout view and closes the cart |
| CheckoutView.RenderCheckout | FoodOrderApp/src/Components/Checkout.jsx:12-52 | the checkout surface is open exactly when progress names the checkout view; it shows the sum of the cart's lines |
| CheckoutView.SurfacesAgree | FoodOrderApp/src/Components/Checkout.jsx:49 | for every progress at most one of the two surfaces is open, and both show the same total for the same cart |
| CheckoutView.HandleClose | FoodOrderApp/src/Components/Checkout.jsx:17-19 | Close calls `hideCheckout`: progress names the closed view, neither surface is open, and the cart is untouched |
| CheckoutView.FormEntries | FoodOrderApp/src/Components/Checkout.jsx:25-28 | the form yields one pair per input, in document order, each keyed by its input id and carrying that input's value |
| CheckoutView.FromEntries | FoodOrderApp/src/Components/Checkout.jsx:28 | the object's keys are exactly the entries' keys |
| CheckoutView.FromEntriesDistinct | FoodOrderApp/src/Components/Checkout.jsx:28 | with distinct keys, every entry's value survives under its key |
| CheckoutView.CustomerData | FoodOrderApp/src/Components/Checkout.jsx:54-59 | the customer object has exactly the keys name, email, street, postal-code and city, each mapped to its input's value |
| CheckoutView.SubmitRequest | FoodOrderApp/src/Components/Checkout.jsx:34-45 | the order goes to the orders URL as a POST with a JSON content type; its body carries the cart items as they are and, as customer, the object built from the form (`CustomerData`) |
| CheckoutView.SubmittedOrderMatchesCheckout | FoodOrderApp/src/Components/Checkout.jsx:39-44 | the submitted items total what the checkout shows, and the customer maps name, email, street, postal-code and city to the form's values |

## Left out

- React mechanics are not modelled: `useReducer` and `useState` scheduling, re-rendering, context propagation, and the `useCallback`/`useEffect` memoisation that keeps the effect from re-firing. `AutoFetch` models only the condition the effect tests.
- Overlapping `sendRequest` calls are not modelled. They are a concurrency concern, and each `SendRequest` models one call from start to settlement.
- `fetch` and JSON parsing are abstract. The body is parsed before `ok` is checked, so a response whose body does not parse counts as a rejection (`Rejected`).
- HttpRequest.ErrorText: a body `message` is modelled as an optional string. Non-string messages (numbers, objects) and their truthiness are not modelled.
- The modal's `<dialog>` and portal handling are not modelled. The modal ignores its `onClose` prop, so no teardown callback drives a progress transition.
- Prices are integers in minor units. Floating-point prices and `currencyFormatter` are left out.
- What the checkout does after submitting is not modelled, because the code ignores the order response. It neither clears the cart nor resets progress.
- App.jsx, Button.jsx, Input.jsx markup and the render branches of Meals.jsx are presentation only. Input.jsx is used only for the fact that each input is named by its id.
- The default context objects are no-op stubs used outside a provider, so they are not modelled.
- An action whose `type` is one of the three known tags but whose payload has the wrong shape is not modelled. The `Action` subset type rules it out.

## Findings

| source | as written | input that shows it | evidently intended | confidence | as-written member | corrected member |
|---|---|---|---|---|---|---|
| FoodOrderApp/src/Components/store/CartContext.jsx:63 | REMOVE_ITEM returns its new list under the key `item`, so the `items` the cart exposes never shrinks or decrements | a cart holding one line of quantity 1, then REMOVE_ITEM of that id: `items` still holds the line | store the list under `items`, as ADD_ITEM and CLEAR-CART do | high; not executed | CartStore.RemoveItemKeepsLine | CartStore.ReduceFixed |
| FoodOrderApp/src/Components/Cart.jsx:46 | the "Go to Checkout" button calls the same `hideCart` handler as Close | progress `"cart"`, press Go to Checkout: progress becomes `""`, not `"checkout"` | call `showCheckout`; App.jsx also never mounts the checkout surface, so that is needed too | medium; not executed | CartView.BottomButtonsClose | CartView.PressFixed |
