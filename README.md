# re-dux store, modelled in Dafny

A model of the `Store` class of `src/createStore.ts`. A store holds a current
state, the reducer that computes the next state from the current state and an
action, and an `isDispatching` flag. `getState` returns the state unless a
dispatch is in progress. `dispatch(action)` runs three steps. It checks the
action. It checks the reentrancy flag. Then it runs the reducer inside a
`try`/`finally` that always clears the flag, and returns the action. The
constructor stores the reducer and the initial state, and then dispatches the
reserved `{ type: INIT }` action.

Files:

- `wrappers.dfy`: `Option` and `Result`.
- `types.dfy`: `Action` (the optional `type` field and an opaque payload),
  JavaScript truthiness of `type`, the store's error kinds, and the `Reducer`
  type. A reducer returns `Err` when it throws.
- `create_store.dfy`: the two validators, `DispatchStep` (one dispatch as a
  function of the fields), the class `Store`, whose methods are proved against
  `DispatchStep`, and the factory `CreateStore`.
- `store_properties.dfy`: sequences of dispatches (`Run`). It proves what
  holds over a store's whole life, plus the usage example from the design
  (counter, `INC` dispatched twice).

The action check as written throws when `action.type` is truthy. That is the
inverse of what its error message says ("an action must be an object with a
`type` property"). The class `Store` keeps the check as written. The pure
functions take a `Check` argument (`AsWritten` or `AsIntended`), so the
lemmas hold for both readings. The finding below compares them. The design
describes a listener registry (subscribe, unsubscribe, notification rounds),
but `src/createStore.ts` has none, so the model has none either. Where the
design and the code disagree, the model follows the code.

Parameters rather than code: the value of `defaultActionType.INIT` is the
parameter `initType`. The reducer is a total Dafny function. The types of
`./types/action` and `./types/state` are the `Action` datatype and the type
parameter `S`.

## Model

| member | source | states |
|---|---|---|
| `CreateStore.ActionValidator` | src/createStore.ts:48-54 | as written, throws an invalid-action error exactly when `action.type` is present and non-empty; in the intended reading, exactly when it is absent or empty; it throws no other error |
| `CreateStore.IsDispatchingValidator` | src/createStore.ts:42-46 | throws the reentrancy error exactly when the flag is set, otherwise returns normally |
| `CreateStore.DispatchStep` | src/createStore.ts:24-36 | dispatch succeeds iff the action check passes, no dispatch is in progress and the reducer returns; then it returns the same action and the state becomes the reducer's result; a rejected action or a set flag changes neither state nor flag; once the try block is entered the flag is false on exit; if the reducer throws, the old state stays and its exception propagates |
| `CreateStore.Store.constructor` | src/createStore.ts:11-14 | the reducer and state fields hold the arguments, and the flag starts false |
| `CreateStore.Store.GetState` | src/createStore.ts:19-22 | throws the reentrancy error while dispatching; otherwise returns the current state; changes no field |
| `CreateStore.Store.Dispatch` | src/createStore.ts:24-36 | the result and the new state and flag are those of `DispatchStep` (check as written) on the old fields; the reducer field is unchanged; a success returns the given action; a flag that was false stays false |
| `CreateStore.Store.Init` | src/createStore.ts:38-40 | exactly one dispatch of `{type: INIT}`; throws what that dispatch throws; its state and flag are what that dispatch leaves |
| `CreateStore.CreateStore` | src/createStore.ts:57-58 | success iff INIT is empty and the reducer returns on `(initialState, {type: INIT})`; a fresh store then holds the reducer, that result as state, and a cleared flag; any non-empty INIT makes construction throw the invalid-action error; otherwise it propagates the reducer's exception |
| `StoreProperties.Run` | src/createStore.ts:24-36 | a sequence of dispatches yields one result per action |
| `StoreProperties.RunStaysQuiescent` | src/createStore.ts:28-33 | from a store not mid-dispatch, any sequence of dispatches leaves the flag false, and none fails the reentrancy guard |
| `StoreProperties.RunReturnsActions` | src/createStore.ts:35 | every successful dispatch in a sequence returns exactly its own action |
| `StoreProperties.RunFoldsAccepted` | src/createStore.ts:25-33 | from a store not mid-dispatch, the final state is the reducer folded over the actions the check accepts, in order; rejected actions, and actions the reducer throws on, leave no trace |
| `StoreProperties.RejectedActionsChangeNothing` | src/createStore.ts:48-54 | a sequence of actions the check rejects gives one invalid-action error each and changes neither state nor flag, whatever the flag was |
| `StoreProperties.CounterScenarioAsWritten` | src/createStore.ts:49 | with the check as written, dispatching `{type: "INC"}` twice to a counter store at 0 throws twice and leaves 0 |
| `StoreProperties.CounterScenarioAsIntended` | src/createStore.ts:49 | with the intended check, the same two dispatches return their actions and leave 2 |

## Findings

| source | as written | input that shows it | evidently intended | confidence | as-written member | corrected member |
|---|---|---|---|---|---|---|
| src/createStore.ts:49 | `if (!!action.type)` throws when the action HAS a non-empty type, so only untyped actions are dispatched; `init` (line 39) therefore makes every store with a non-empty INIT fail to construct | `dispatch({ type: "INC" })` throws the invalid-action error; `dispatch({})` runs the reducer | throw when `type` is absent or empty (`if (!action.type)`), as the error message says | high, not executed | `StoreProperties.CounterScenarioAsWritten` | `StoreProperties.CounterScenarioAsIntended` |

## Left out

- The listener registry (subscribe, unsubscribe, notification rounds) is not in `src/createStore.ts`, so it is not modelled.
- `./types/action`, `./types/state` and `./utils/defaultActionType` are not part of this model. The action is a record with an optional `type` and an opaque payload. The state is a type parameter. INIT is a parameter.
- Error message texts: only the error kind (invalid action, reentrant call, reducer exception) is modelled.
- Reentrant calls made from inside the reducer: a Dafny reducer cannot call back into the store. `isDispatching` is a plain field instead, and every operation is proved for both of its values.
- A reducer that throws is a reducer returning `Err`. `src/types/reducer.ts:4` types it as returning a state, but JavaScript lets it throw, and `dispatch` handles that case.
- `CreateStore.CreateStore` performs the constructor's `init()` call (line 16) after allocating the store, because a Dafny constructor cannot throw. When `init` throws, no store is returned, just as `new Store(args)` throws in JavaScript.
- A non-object action (`null`, `undefined`), for which JavaScript throws a `TypeError` when reading `.type`, is not modelled: the source's types exclude it.
- Arrow-function binding of the methods and class-field initialisation order are language plumbing, not behaviour.
- The `AsIntended` reading is used only by the pure functions and the lemmas. The class follows the code as written.
