# Cart reducer of the storefront demo

This project models the cart store of a small React storefront. The file
src/context/CartProvider.tsx defines the cart item and cart state types, an initial
state with an empty cart, the four action tags and a reducer. The reducer takes the
current state and an action (a string tag and an optional item). It recognises four
tags: `ADD`, `REMOVE`, `QUANTITY` and `SUBMIT`. It throws an `Error` when a
recognised action has no payload or the tag is unknown. Otherwise it returns a new
state. The reducer is not exported, and nothing in the repository calls it.

The model follows the reducer as written. Right now `ADD`, `REMOVE` and `QUANTITY`
are stubs: with a payload, each returns a copy of the state with the cart
unchanged. `SUBMIT` returns the state with an empty cart. The model does not
include add-or-increment by sku, removal by sku, quantity replacement or totals,
because the reducer does none of these.

Files:
- `wrappers.dfy`: `Option` (an optional property) and `Result` (a returned value,
  or a thrown error with its message).
- `cart_provider.dfy`: the data types, the initial state, the action tags and the
  reducer `Reduce`. It also defines `Dispatch`, which models no code in the
  repository. It describes a run of the reducer seen as a state machine: a sequence
  of actions applied one after another, stopping at the first throw. The
  `Dispatch*` lemmas are about such runs.
- `cart_properties.dfy`: lemmas about a single action and about a dispatched
  sequence.

## Model

| member | source | states |
|---|---|---|
| CartProvider.Reduce | src/context/CartProvider.tsx:27-63 | the reducer succeeds exactly when the tag is one of the four recognised ones and a payload is present; on success the cart is either the input cart or empty, so it never gets longer |
| CartProperties.InitialCartIsEmpty | src/context/CartProvider.tsx:11 | the initial state has no items |
| CartProperties.MissingPayloadFails | src/context/CartProvider.tsx:28-56 | a recognised action with no payload throws "action.payload missing in <TAG> action" for its own tag, and produces no state |
| CartProperties.UnknownTagFails | src/context/CartProvider.tsx:60-61 | any tag other than the four throws "Unidentified action type", with or without a payload |
| CartProperties.StubActionsKeepState | src/context/CartProvider.tsx:29-50 | ADD, REMOVE and QUANTITY with a payload return the input state unchanged |
| CartProperties.SubmitEmptiesCart | src/context/CartProvider.tsx:53-57 | SUBMIT with a payload returns the initial (empty) state, whatever the cart held |
| CartProperties.SubmitIdempotent | src/context/CartProvider.tsx:53-57 | SUBMIT applied twice gives the same state as SUBMIT applied once |
| CartProperties.PayloadFieldsIrrelevant | src/context/CartProvider.tsx:29-57 | two payloads with any field values give the same result for the same state and tag; only the payload's presence matters |
| CartProperties.ErrorIndependentOfState | src/context/CartProvider.tsx:27-63 | whether an action throws, and with which message, depends only on the action and not on the state |
| CartProperties.DispatchAppend | src/context/CartProvider.tsx:27-63 | helper for `DispatchEndingInSubmitEmpties`: running `xs + ys` equals running `xs` and then `ys` from the state that results, and a throw in `xs` ends the run (a general law of runs that holds for any step function, not a fact about this reducer) |
| CartProperties.DispatchKeepsOrEmptiesCart | src/context/CartProvider.tsx:27-63 | after any successful run of dispatches, the cart is the starting cart or empty, so its length never grows |
| CartProperties.DispatchFromInitialStaysEmpty | src/context/CartProvider.tsx:11-63 | starting from the initial state, no successful run of dispatches gives a non-empty cart |
| CartProperties.DispatchEndingInSubmitEmpties | src/context/CartProvider.tsx:53-57 | a successful run whose last action is SUBMIT with a payload ends with an empty cart |
| CartProperties.DispatchFailsAtFirstRejected | src/context/CartProvider.tsx:27-63 | a run throws exactly when one of its actions is rejected; it then throws the error of the first rejected action, and every action before that one is accepted |
| CartProperties.DispatchIgnoresPayloadFields | src/context/CartProvider.tsx:29-57 | two runs with the same tags and the same payload presence at each position end in the same result |

## Left out

- Price and quantity are JavaScript doubles. They are modelled as `real`, because
  the reducer does no arithmetic on them. NaN, rounding and infinities are not modelled.
- The spread copies `{...state}` give a fresh object. The model compares states
  as values, so object identity is not represented.
- `!action.payload` is modelled as the payload being absent. A typed payload is
  an object, and an object is always truthy. A `null` that gets past the type
  checker counts as absent, just like `undefined`.
- The file has no context provider and no `useReducer` call, and nothing calls the
  reducer. src/main.tsx:6 imports a `CartContextProvider` that the file does not
  define. So no dispatching code is modelled. `Dispatch` is a definition of runs
  of the reducer, not a model of code in the repository.
- The server submission mentioned at src/context/CartProvider.tsx:52 does not exist
  in the code, so it is not modelled.
- src/context/ProductProvider.tsx (a hard-coded product catalog in component state),
  src/App.tsx (a toggle between the cart and product views) and src/main.tsx (DOM
  bootstrap) are not part of this model. They are static data, presentation and
  framework wiring.
- Add-or-increment by sku, removal by sku, quantity replacement, item and price
  totals, currency formatting and display ordering are not modelled. A shopping
  cart would normally do these, but the reducer does none of them: ADD, REMOVE and
  QUANTITY return the state unchanged (src/context/CartProvider.tsx:35, 42, 49).
