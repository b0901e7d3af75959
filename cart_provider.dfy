/** The cart store of the storefront: its state, its actions and the reducer
    that maps a state and an action to the next state (src/context/CartProvider.tsx). */
module CartProvider {
  import opened Wrappers

  /** A JavaScript `number`. The reducer does no arithmetic on it, so an
      unbounded real stands in for the IEEE double. */
  type Number = real

  /** One line of the cart (`CartItemType`). */
  datatype CartItem = CartItem(sku: string, name: string, price: Number, qty: Number)

  /** The whole store (`CartStateType`). */
  datatype CartState = CartState(cart: seq<CartItem>)

  /** The state the store starts in (`initCartState`). */
  const InitCartState: CartState := CartState([])

  /** The four recognised action tags (`REDUCER_ACTION_TYPE`). */
  const ADD: string := "ADD"
  const REMOVE: string := "REMOVE"
  const QUANTITY: string := "QUANTITY"
  const SUBMIT: string := "SUBMIT"

  /** A dispatched action (`ReducerAction`): a free-form string tag and an
      optional item. */
  datatype Action = Action(tag: string, payload: Option<CartItem>)

  /** The tag is one of the values of `REDUCER_ACTION_TYPE`. */
  predicate IsRecognisedTag(tag: string) {
    tag == ADD || tag == REMOVE || tag == QUANTITY || tag == SUBMIT
  }

  /** The action is one the reducer accepts without throwing. */
  predicate IsAccepted(a: Action) {
    IsRecognisedTag(a.tag) && a.payload.Some?
  }

  /** The reducer. A thrown `Error` is an `Err` carrying its message; a
      returned object is an `Ok`. The spread copies `{...state}` are equal
      to `state` as values. */
  function Reduce(state: CartState, action: Action): (r: Result<CartState, string>)
    ensures r.Ok? <==> IsAccepted(action)
    ensures r.Ok? ==> r.value.cart == state.cart || r.value.cart == []
    ensures r.Ok? ==> |r.value.cart| <= |state.cart|
  {
    if action.tag == ADD then
      if action.payload.None? then Err("action.payload missing in ADD action")
      else Ok(state)
    else if action.tag == REMOVE then
      if action.payload.None? then Err("action.payload missing in REMOVE action")
      else Ok(state)
    else if action.tag == QUANTITY then
      if action.payload.None? then Err("action.payload missing in QUANTITY action")
      else Ok(state)
    else if action.tag == SUBMIT then
      if action.payload.None? then Err("action.payload missing in SUBMIT action")
      else Ok(state.(cart := []))
    else
      Err("Unidentified action type")
  }

  /** A run of the reducer seen as a state machine: each action is reduced
      from the state the previous one produced, and the first throw ends the
      run. No code in the store performs such runs; this defines them so that
      properties of many steps can be stated. */
  function Dispatch(state: CartState, actions: seq<Action>): Result<CartState, string>
    decreases |actions|
  {
    if |actions| == 0 then Ok(state)
    else
      match Reduce(state, actions[0])
      case Err(e) => Err(e)
      case Ok(next) => Dispatch(next, actions[1..])
  }
}
