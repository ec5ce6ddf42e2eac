/** What follows for a store over a whole sequence of external `dispatch`
    calls, each made after the previous one returned. */
module StoreProperties {
  import opened Wrappers
  import opened Types
  import opened CreateStore

  /** The results of a sequence of dispatches, in order, and the fields
      after the last one. */
  datatype Trace<S, P, X> =
    Trace(results: seq<Result<Action<P>, StoreError<X>>>, state: S, isDispatching: bool)

  /** Dispatches `actions` one after another, starting from the given fields. */
  function Run<S, P, X>(check: Check, state: S, isDispatching: bool,
                        reducer: Reducer<S, P, X>, actions: seq<Action<P>>): (t: Trace<S, P, X>)
    ensures |t.results| == |actions|
    decreases |actions|
  {
    if actions == [] then Trace([], state, isDispatching)
    else
      var step := DispatchStep(check, state, isDispatching, reducer, actions[0]);
      var rest := Run(check, step.state, step.isDispatching, reducer, actions[1..]);
      Trace([step.result] + rest.results, rest.state, rest.isDispatching)
  }

  /** The actions the check lets through, in order. */
  function Accepted<P>(check: Check, actions: seq<Action<P>>): seq<Action<P>>
    decreases |actions|
  {
    if actions == [] then []
    else (if Accepts(check, actions[0]) then [actions[0]] else []) + Accepted(check, actions[1..])
  }

  /** Left fold of the reducer over `actions`, where an action the reducer
      throws on contributes nothing. */
  function Fold<S, P, X>(reducer: Reducer<S, P, X>, state: S, actions: seq<Action<P>>): S
    decreases |actions|
  {
    if actions == [] then state
    else
      match reducer(state, actions[0])
      case Ok(next) => Fold(reducer, next, actions[1..])
      case Err(_) => Fold(reducer, state, actions[1..])
  }

  /** A store that is not mid-dispatch is never left mid-dispatch by a
      sequence of dispatches, so none of them is refused by the reentrancy
      guard: that error needs a call from inside the reducer. */
  lemma {:induction false} RunStaysQuiescent<S, P, X>(check: Check, state: S,
                                                       reducer: Reducer<S, P, X>, actions: seq<Action<P>>)
    ensures var t := Run(check, state, false, reducer, actions);
            !t.isDispatching && forall i :: 0 <= i < |actions| ==> t.results[i] != Err(Reentrant)
  {
    if actions != [] {
      var step := DispatchStep(check, state, false, reducer, actions[0]);
      RunStaysQuiescent(check, step.state, reducer, actions[1..]);
      var rest := Run(check, step.state, false, reducer, actions[1..]);
      var t := Run(check, state, false, reducer, actions);
      assert t.results == [step.result] + rest.results;
      forall i | 0 < i < |actions|
        ensures t.results[i] != Err(Reentrant)
      {
        assert t.results[i] == rest.results[i - 1];
      }
    }
  }

  /** Every dispatch that succeeds returns exactly the action it was given. */
  lemma {:induction false} RunReturnsActions<S, P, X>(check: Check, state: S, isDispatching: bool,
                                                       reducer: Reducer<S, P, X>, actions: seq<Action<P>>)
    ensures var t := Run(check, state, isDispatching, reducer, actions);
            forall i :: 0 <= i < |actions| && t.results[i].Ok? ==> t.results[i].value == actions[i]
  {
    if actions != [] {
      var step := DispatchStep(check, state, isDispatching, reducer, actions[0]);
      RunReturnsActions(check, step.state, step.isDispatching, reducer, actions[1..]);
      var rest := Run(check, step.state, step.isDispatching, reducer, actions[1..]);
      var t := Run(check, state, isDispatching, reducer, actions);
      forall i | 0 < i < |actions| && t.results[i].Ok?
        ensures t.results[i].value == actions[i]
      {
        assert t.results[i] == rest.results[i - 1];
        assert actions[i] == actions[1..][i - 1];
      }
    }
  }

  /** From a store not mid-dispatch, the state after any sequence of
      dispatches is the reducer folded over exactly the actions the check
      accepts: rejected actions, and actions the reducer throws on, leave
      no trace. */
  lemma {:induction false} RunFoldsAccepted<S, P, X>(check: Check, state: S,
                                                      reducer: Reducer<S, P, X>, actions: seq<Action<P>>)
    ensures Run(check, state, false, reducer, actions).state == Fold(reducer, state, Accepted(check, actions))
  {
    if actions != [] {
      var a := actions[0];
      var step := DispatchStep(check, state, false, reducer, a);
      RunFoldsAccepted(check, step.state, reducer, actions[1..]);
      var tail := Accepted(check, actions[1..]);
      if Accepts(check, a) {
        assert Accepted(check, actions) == [a] + tail;
        assert ([a] + tail)[0] == a && ([a] + tail)[1..] == tail;
      } else {
        assert Accepted(check, actions) == tail;
      }
    }
  }

  /** A sequence of actions the check rejects, one and all, fails with
      invalid-action errors and changes neither the state nor the flag. */
  lemma {:induction false} RejectedActionsChangeNothing<S, P, X>(check: Check, state: S, isDispatching: bool,
                                                                 reducer: Reducer<S, P, X>, actions: seq<Action<P>>)
    requires forall i :: 0 <= i < |actions| ==> !Accepts(check, actions[i])
    ensures var t := Run(check, state, isDispatching, reducer, actions);
            t.state == state && t.isDispatching == isDispatching &&
            forall i :: 0 <= i < |actions| ==> t.results[i] == Err(InvalidAction)
  {
    if actions != [] {
      assert !Accepts(check, actions[0]);
      assert forall i :: 0 <= i < |actions[1..]| ==> actions[1..][i] == actions[i + 1];
      RejectedActionsChangeNothing(check, state, isDispatching, reducer, actions[1..]);
      var rest := Run(check, state, isDispatching, reducer, actions[1..]);
      var t := Run(check, state, isDispatching, reducer, actions);
      forall i | 0 < i < |actions|
        ensures t.results[i] == Err(InvalidAction)
      {
        assert t.results[i] == rest.results[i - 1];
      }
    }
  }

  /** The counter reducer of the usage example: `INC` adds one, any other
      action leaves the count. */
  function CounterReducer(count: int, action: Action<()>): Result<int, ()>
  {
    Ok(if action.actionType == Some("INC") then count + 1 else count)
  }

  /** The usage example (`INC` dispatched twice from 0) under the check as
      written: both dispatches throw and the count stays 0. */
  lemma CounterScenarioAsWritten()
    ensures var inc := Action(Some("INC"), None);
            Run(AsWritten, 0, false, CounterReducer, [inc, inc]) == Trace([Err(InvalidAction), Err(InvalidAction)], 0, false)
  {
    var inc: Action<()> := Action(Some("INC"), None);
    RejectedActionsChangeNothing(AsWritten, 0, false, CounterReducer, [inc, inc]);
  }

  /** The same example under the intended check: both dispatches return
      their action and the count is 2. */
  lemma CounterScenarioAsIntended()
    ensures var inc := Action(Some("INC"), None);
            Run(AsIntended, 0, false, CounterReducer, [inc, inc]) == Trace([Ok(inc), Ok(inc)], 2, false)
  {
    var inc: Action<()> := Action(Some("INC"), None);
    assert DispatchStep(AsIntended, 0, false, CounterReducer, inc) == Transition(Ok(inc), 1, false);
    assert DispatchStep(AsIntended, 1, false, CounterReducer, inc) == Transition(Ok(inc), 2, false);
    assert [inc, inc][1..] == [inc] && |[inc][1..]| == 0;
    assert Run(AsIntended, 1, false, CounterReducer, [inc]) == Trace([Ok(inc)], 2, false);
  }
}
