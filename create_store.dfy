/** The store of src/createStore.ts: a current state, the reducer that
    produces the next one, and a flag that is set while the reducer runs. */
module CreateStore {
  import opened Wrappers
  import opened Types

  /** Which action check a computation follows. `AsWritten` is the source's
      check, which throws when `action.type` is TRUTHY (`if (!!action.type)`),
      the inverse of its own error message. `AsIntended` throws when the type
      is absent or empty, as the message says it should. The class `Store`
      below uses `AsWritten`. */
  datatype Check = AsWritten | AsIntended

  /** Whether the action check lets `action` through. */
  predicate Accepts<P>(check: Check, action: Action<P>)
  {
    Truthy(action.actionType) != (check == AsWritten)
  }

  /** `actionValidator`: throws an invalid-action error or returns nothing. */
  function ActionValidator<P, X>(check: Check, action: Action<P>): (r: Result<(), StoreError<X>>)
    ensures check == AsWritten ==> (r.Err? <==> action.actionType.Some? && action.actionType.value != "")
    ensures check == AsIntended ==> (r.Err? <==> action.actionType in {None, Some("")})
    ensures r.Err? ==> r.error == InvalidAction
  {
    if Accepts(check, action) then Ok(()) else Err(InvalidAction)
  }

  /** `isDispatchingValidator`: throws a reentrancy error exactly when a
      dispatch is in progress. */
  function IsDispatchingValidator<X>(isDispatching: bool): (r: Result<(), StoreError<X>>)
    ensures r.Err? <==> isDispatching
    ensures r.Err? ==> r.error == Reentrant
  {
    if isDispatching then Err(Reentrant) else Ok(())
  }

  /** The effect of one `dispatch`: what it returns or throws, and the values
      of `currentState` and `isDispatching` afterwards. */
  datatype Transition<S, P, X> =
    Transition(result: Result<Action<P>, StoreError<X>>, state: S, isDispatching: bool)

  /** One `dispatch(action)` on a store whose fields hold `state` and
      `isDispatching`, as a function of them: the action check, then the
      guard, then the reducer inside try/finally. */
  function DispatchStep<S, P, X>(check: Check, state: S, isDispatching: bool,
                                 reducer: Reducer<S, P, X>, action: Action<P>): (t: Transition<S, P, X>)
    // It succeeds exactly when both checks pass and the reducer returns;
    // then it returns the very action and the state is the reducer's result.
    ensures t.result.Ok? <==> Accepts(check, action) && !isDispatching && reducer(state, action).Ok?
    ensures t.result.Ok? ==> t.result.value == action && t.state == reducer(state, action).value
    // A rejected action, or a dispatch in progress, changes nothing.
    ensures !Accepts(check, action) ==> t == Transition(Err(InvalidAction), state, isDispatching)
    ensures Accepts(check, action) && isDispatching ==> t == Transition(Err(Reentrant), state, isDispatching)
    // Once the try block is entered the flag is false on exit, whatever the reducer does.
    ensures Accepts(check, action) && !isDispatching ==> !t.isDispatching
    // A throwing reducer leaves the old state, and its exception propagates.
    ensures Accepts(check, action) && !isDispatching && reducer(state, action).Err? ==>
              t.state == state && t.result == Err(Thrown(reducer(state, action).error))
  {
    match ActionValidator(check, action)
    case Err(e) => Transition(Err(e), state, isDispatching)
    case Ok(_) =>
      match IsDispatchingValidator(isDispatching)
      case Err(e) => Transition(Err(e), state, isDispatching)
      case Ok(_) =>
        match reducer(state, action)
        case Ok(next) => Transition(Ok(action), next, false)
        case Err(x) => Transition(Err(Thrown(x)), state, false)
  }

  /** The reserved action `{ type: INIT }` dispatched at construction; the
      value of INIT is not part of this model, so it is a parameter. */
  function InitAction<P>(initType: string): Action<P>
  {
    Action(Some(initType), None)
  }

  class Store<S, P, X> {
    var currentReducer: Reducer<S, P, X>
    var currentState: S
    var isDispatching: bool

    /** The field assignments of the constructor; the `init()` call that
        follows them is made by CreateStore, since a Dafny constructor
        cannot throw. */
    constructor (reducer: Reducer<S, P, X>, initialState: S)
      ensures currentReducer == reducer && currentState == initialState && !isDispatching
    {
      currentReducer := reducer;
      currentState := initialState;
      isDispatching := false;
    }

    /** `getState`: the current state, unless a dispatch is in progress. */
    method GetState() returns (r: Result<S, StoreError<X>>)
      ensures isDispatching ==> r == Err(Reentrant)
      ensures !isDispatching ==> r == Ok(currentState)
    {
      var guard := IsDispatchingValidator<X>(isDispatching);
      if guard.Err? {
        return Err(guard.error);
      }
      return Ok(currentState);
    }

    /** `dispatch(action)`, with the action check as written. */
    method Dispatch(action: Action<P>) returns (r: Result<Action<P>, StoreError<X>>)
      modifies this
      ensures var t := DispatchStep(AsWritten, old(currentState), old(isDispatching), old(currentReducer), action);
              r == t.result && currentState == t.state && isDispatching == t.isDispatching
      ensures currentReducer == old(currentReducer)
      ensures r.Ok? ==> r.value == action
      ensures !old(isDispatching) ==> !isDispatching
    {
      var valid := ActionValidator<P, X>(AsWritten, action);
      if valid.Err? {
        return Err(valid.error);
      }
      var guard := IsDispatchingValidator<X>(isDispatching);
      if guard.Err? {
        return Err(guard.error);
      }
      // try
      isDispatching := true;
      var next := currentReducer(currentState, action);
      if next.Ok? {
        currentState := next.value;
      }
      // finally
      isDispatching := false;
      if next.Err? {
        return Err(Thrown(next.error));
      }
      return Ok(action);
    }

    /** `init`: dispatches the reserved initialisation action. */
    method Init(initType: string) returns (r: Result<(), StoreError<X>>)
      modifies this
      ensures var t := DispatchStep(AsWritten, old(currentState), old(isDispatching), old(currentReducer), InitAction<P>(initType));
              (r.Ok? <==> t.result.Ok?) && (r.Err? ==> r.error == t.result.error) &&
              currentState == t.state && isDispatching == t.isDispatching
      ensures currentReducer == old(currentReducer)
    {
      var d := Dispatch(InitAction(initType));
      if d.Err? {
        return Err(d.error);
      }
      return Ok(());
    }
  }

  /** `createStore` (`new Store(args)`): allocates the store and runs `init`;
      when `init` throws, so does the factory, and no store is returned. */
  method CreateStore<S, P, X>(reducer: Reducer<S, P, X>, initialState: S, initType: string)
    returns (r: Result<Store<S, P, X>, StoreError<X>>)
    ensures r.Ok? ==> fresh(r.value) && r.value.currentReducer == reducer && !r.value.isDispatching
    ensures r.Ok? <==> initType == "" && reducer(initialState, InitAction(initType)).Ok?
    ensures r.Ok? ==> r.value.currentState == reducer(initialState, InitAction(initType)).value
    // With the check as written, any non-empty INIT makes construction throw.
    ensures initType != "" ==> r == Err(InvalidAction)
    ensures initType == "" && r.Err? ==> r.error == Thrown(reducer(initialState, InitAction(initType)).error)
  {
    var store := new Store(reducer, initialState);
    var init := store.Init(initType);
    if init.Err? {
      return Err(init.error);
    }
    return Ok(store);
  }
}
