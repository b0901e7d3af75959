/** What the cart reducer promises, one action at a time and over a sequence
    of dispatched actions. */
module CartProperties {
  import opened Wrappers
  import opened CartProvider

  // ---------------------------------------------------------------------
  // One action

  /** The store starts with no items. */
  lemma InitialCartIsEmpty()
    ensures |InitCartState.cart| == 0
  {
  }

  /** A recognised action without a payload throws the message that names
      the action, and produces no state. */
  lemma MissingPayloadFails(state: CartState, tag: string)
    requires IsRecognisedTag(tag)
    ensures Reduce(state, Action(tag, None)) == Err("action.payload missing in " + tag + " action")
  {
    if tag == ADD {
      assert "action.payload missing in " + ADD + " action" == "action.payload missing in ADD action";
    } else if tag == REMOVE {
      assert "action.payload missing in " + REMOVE + " action" == "action.payload missing in REMOVE action";
    } else if tag == QUANTITY {
      assert "action.payload missing in " + QUANTITY + " action" == "action.payload missing in QUANTITY action";
    } else {
      assert "action.payload missing in " + SUBMIT + " action" == "action.payload missing in SUBMIT action";
    }
  }

  /** An unrecognised tag throws "Unidentified action type", payload or not. */
  lemma UnknownTagFails(state: CartState, tag: string, payload: Option<CartItem>)
    requires !IsRecognisedTag(tag)
    ensures Reduce(state, Action(tag, payload)) == Err("Unidentified action type")
  {
  }

  /** ADD, REMOVE and QUANTITY with a payload return the state unchanged. */
  lemma StubActionsKeepState(state: CartState, tag: string, item: CartItem)
    requires tag == ADD || tag == REMOVE || tag == QUANTITY
    ensures Reduce(state, Action(tag, Some(item))) == Ok(state)
  {
  }

  /** SUBMIT with a payload empties the cart, whatever it held. */
  lemma SubmitEmptiesCart(state: CartState, item: CartItem)
    ensures Reduce(state, Action(SUBMIT, Some(item))) == Ok(InitCartState)
  {
  }

  /** Submitting twice gives the same state as submitting once. */
  lemma SubmitIdempotent(state: CartState, first: CartItem, second: CartItem)
    ensures Reduce(state, Action(SUBMIT, Some(first))).Ok?
    ensures Reduce(Reduce(state, Action(SUBMIT, Some(first))).value, Action(SUBMIT, Some(second)))
         == Reduce(state, Action(SUBMIT, Some(first)))
  {
  }

  /** Only the presence of a payload matters, never its field values. */
  lemma PayloadFieldsIrrelevant(state: CartState, tag: string, p: CartItem, q: CartItem)
    ensures Reduce(state, Action(tag, Some(p))) == Reduce(state, Action(tag, Some(q)))
  {
  }

  /** Whether an action throws, and with which message, does not depend on
      the state it is applied to. */
  lemma ErrorIndependentOfState(s: CartState, t: CartState, a: Action)
    ensures Reduce(s, a).Err? <==> Reduce(t, a).Err?
    ensures Reduce(s, a).Err? ==> Reduce(s, a) == Reduce(t, a)
  {
  }

  // ---------------------------------------------------------------------
  // A sequence of dispatched actions

  /** Two action sequences with the same tags and the same payload presence,
      position by position. */
  predicate SameShape(xs: seq<Action>, ys: seq<Action>) {
    |xs| == |ys| &&
    forall i :: 0 <= i < |xs| ==> xs[i].tag == ys[i].tag && xs[i].payload.Some? == ys[i].payload.Some?
  }

  /** Dispatching a concatenation is dispatching the first part, then the
      second from where the first left off. */
  lemma {:induction false} DispatchAppend(state: CartState, xs: seq<Action>, ys: seq<Action>)
    ensures Dispatch(state, xs + ys) ==
      match Dispatch(state, xs)
      case Err(e) => Err(e)
      case Ok(mid) => Dispatch(mid, ys)
    decreases |xs|
  {
    if |xs| == 0 {
      assert xs + ys == ys;
    } else {
      assert (xs + ys)[0] == xs[0];
      assert (xs + ys)[1..] == xs[1..] + ys;
      match Reduce(state, xs[0])
      case Err(e) =>
      case Ok(next) => DispatchAppend(next, xs[1..], ys);
    }
  }

  /** After any run of successful dispatches the cart is either the one the
      run started from or empty, so it never grows. */
  lemma {:induction false} DispatchKeepsOrEmptiesCart(state: CartState, actions: seq<Action>)
    ensures Dispatch(state, actions).Ok? ==>
      Dispatch(state, actions).value.cart == state.cart || Dispatch(state, actions).value.cart == []
    ensures Dispatch(state, actions).Ok? ==> |Dispatch(state, actions).value.cart| <= |state.cart|
    decreases |actions|
  {
    if |actions| > 0 {
      match Reduce(state, actions[0])
      case Err(_) =>
      case Ok(next) => DispatchKeepsOrEmptiesCart(next, actions[1..]);
    }
  }

  /** Starting from the initial state, no sequence of dispatches ever
      produces a non-empty cart. */
  lemma {:induction false} DispatchFromInitialStaysEmpty(actions: seq<Action>)
    ensures Dispatch(InitCartState, actions).Ok? ==> Dispatch(InitCartState, actions).value.cart == []
  {
    DispatchKeepsOrEmptiesCart(InitCartState, actions);
  }

  /** A run ending in an accepted SUBMIT leaves the cart empty. */
  lemma {:induction false} DispatchEndingInSubmitEmpties(state: CartState, actions: seq<Action>, item: CartItem)
    ensures Dispatch(state, actions + [Action(SUBMIT, Some(item))]).Ok? ==>
      Dispatch(state, actions + [Action(SUBMIT, Some(item))]).value.cart == []
  {
    DispatchAppend(state, actions, [Action(SUBMIT, Some(item))]);
  }

  /** A run throws exactly when one of its actions is not accepted, and then
      with the message of the first such action. */
  lemma {:induction false} DispatchFailsAtFirstRejected(state: CartState, actions: seq<Action>)
    ensures Dispatch(state, actions).Err? <==> exists i :: 0 <= i < |actions| && !IsAccepted(actions[i])
    ensures Dispatch(state, actions).Err? ==>
      exists i :: 0 <= i < |actions| && !IsAccepted(actions[i]) &&
        (forall j :: 0 <= j < i ==> IsAccepted(actions[j])) &&
        Dispatch(state, actions) == Reduce(state, actions[i])
    decreases |actions|
  {
    if |actions| > 0 {
      match Reduce(state, actions[0])
      case Err(e) =>
        assert !IsAccepted(actions[0]);
      case Ok(next) =>
        DispatchFailsAtFirstRejected(next, actions[1..]);
        if Dispatch(state, actions).Err? {
          var i :| 0 <= i < |actions[1..]| && !IsAccepted(actions[1..][i]) &&
            (forall j :: 0 <= j < i ==> IsAccepted(actions[1..][j])) &&
            Dispatch(next, actions[1..]) == Reduce(next, actions[1..][i]);
          ErrorIndependentOfState(next, state, actions[i + 1]);
          assert !IsAccepted(actions[i + 1]);
          forall j | 0 <= j < i + 1 ensures IsAccepted(actions[j]) {
            if j > 0 { assert actions[j] == actions[1..][j - 1]; }
          }
        } else {
          forall i | 0 <= i < |actions| ensures IsAccepted(actions[i]) {
            if i > 0 { assert actions[i] == actions[1..][i - 1]; }
          }
        }
    }
  }

  /** Two runs that differ only in their payloads' field values end in the
      same result. */
  lemma {:induction false} DispatchIgnoresPayloadFields(state: CartState, xs: seq<Action>, ys: seq<Action>)
    requires SameShape(xs, ys)
    ensures Dispatch(state, xs) == Dispatch(state, ys)
    decreases |xs|
  {
    if |xs| > 0 {
      assert Reduce(state, xs[0]) == Reduce(state, ys[0]) by {
        assert xs[0].tag == ys[0].tag && xs[0].payload.Some? == ys[0].payload.Some?;
        if xs[0].payload.Some? {
          PayloadFieldsIrrelevant(state, xs[0].tag, xs[0].payload.value, ys[0].payload.value);
        }
      }
      assert SameShape(xs[1..], ys[1..]) by {
        forall i | 0 <= i < |xs[1..]|
          ensures xs[1..][i].tag == ys[1..][i].tag && xs[1..][i].payload.Some? == ys[1..][i].payload.Some?
        {
          assert xs[1..][i] == xs[i + 1] && ys[1..][i] == ys[i + 1];
        }
      }
      match Reduce(state, xs[0])
      case Err(_) =>
      case Ok(next) => DispatchIgnoresPayloadFields(next, xs[1..], ys[1..]);
    }
  }
}
