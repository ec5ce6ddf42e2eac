/** The collaborator types the store works with: actions, reducers and the
    errors the store raises. */
module Types {
  import opened Wrappers

  /** An action. The store looks only at `actionType` (the `type` property,
      possibly absent); everything else it carries is an opaque payload that
      only the reducer interprets. */
  datatype Action<+P> = Action(actionType: Option<string>, payload: Option<P>)

  /** JavaScript truthiness of `action.type`: present and not the empty string. */
  predicate Truthy(t: Option<string>)
  {
    t.Some? && t.value != ""
  }

  /** The exceptions `dispatch` and `getState` can raise: the action check,
      the reentrancy guard, or whatever the reducer threw (passed on as is). */
  datatype StoreError<+X> = InvalidAction | Reentrant | Thrown(exception: X)

  /** A reducer maps the current state and an action to the next state, or
      throws an exception of type X. */
  type Reducer<!S, -P, X> = (S, Action<P>) -> Result<S, X>
}
