/** The reducer that keeps the set of live markers from ADD / REMOVE /
    REMOVE_ALL actions (roaming/rx_reminder/rx_reminder_markers.py). The
    persistent set becomes a Dafny `set`. */
module MarkerSetReducer {
  import opened Wrappers

  const ADD: string := "ADD"
  const REMOVE: string := "REMOVE"
  const REMOVE_ALL: string := "REMOVE_ALL"
  const DEFAULT: string := "DEFAULT"
  const MARKERS: string := "MARKERS"

  /** A `Msg(tag, payload)` whose payload is a set of markers. */
  datatype StateMsg<T> = StateMsg(tag: string, payload: set<T>)

  /** An action `Msg(tag, payload)`. */
  datatype Action<T> = Action(tag: string, payload: T)

  /** `KeyError`: the persistent set's `remove` of an absent element. */
  datatype ReducerError<T> = KeyError(missing: T)

  /** `markers_reducer(stateR, actionR)`. */
  function Reduce<T>(state: StateMsg<T>, action: Action<T>): (r: Result<StateMsg<T>, ReducerError<T>>)
    ensures r.Ok? ==> r.value.tag == MARKERS
    ensures state.tag == DEFAULT ==> r == Ok(StateMsg(MARKERS, {}))
    ensures state.tag != DEFAULT && action.tag == ADD ==>
              r == Ok(StateMsg(MARKERS, state.payload + {action.payload}))
    ensures state.tag != DEFAULT && action.tag == REMOVE ==>
              if action.payload in state.payload then r == Ok(StateMsg(MARKERS, state.payload - {action.payload}))
              else r == Err(KeyError(action.payload))
    ensures state.tag != DEFAULT && action.tag == REMOVE_ALL ==> r == Ok(StateMsg(MARKERS, {}))
    ensures state.tag != DEFAULT && action.tag !in {ADD, REMOVE, REMOVE_ALL} ==>
              r == Ok(StateMsg(MARKERS, state.payload))
  {
    if state.tag == DEFAULT then Ok(StateMsg(MARKERS, {}))
    else if action.tag == ADD then Ok(StateMsg(MARKERS, state.payload + {action.payload}))
    else if action.tag == REMOVE then
      if action.payload in state.payload then Ok(StateMsg(MARKERS, state.payload - {action.payload}))
      else Err(KeyError(action.payload))
    else if action.tag == REMOVE_ALL then Ok(StateMsg(MARKERS, {}))
    else Ok(StateMsg(MARKERS, state.payload))
  }

  /** The reducer folded over a sequence of actions, as `scan` does; the
      first error stops the stream. */
  function ReduceAll<T>(state: StateMsg<T>, actions: seq<Action<T>>): Result<StateMsg<T>, ReducerError<T>>
    decreases |actions|
  {
    if |actions| == 0 then Ok(state)
    else
      match Reduce(state, actions[0])
      case Err(e) => Err(e)
      case Ok(next) => ReduceAll(next, actions[1..])
  }

  // ---------------------------------------------------------------------------
  // Properties

  /** Adding a marker that is already present changes nothing. */
  lemma AddIsIdempotent<T>(state: StateMsg<T>, m: T)
    requires state.tag != DEFAULT && m in state.payload
    ensures Reduce(state, Action(ADD, m)) == Ok(StateMsg(MARKERS, state.payload))
  {
    assert state.payload + {m} == state.payload;
  }

  /** Adding a marker and then removing it restores a set that lacked it. */
  lemma AddThenRemove<T>(state: StateMsg<T>, m: T)
    requires state.tag != DEFAULT && m !in state.payload
    ensures ReduceAll(state, [Action(ADD, m), Action(REMOVE, m)]) == Ok(StateMsg(MARKERS, state.payload))
  {
    var added := StateMsg(MARKERS, state.payload + {m});
    assert Reduce(state, Action(ADD, m)) == Ok(added);
    assert [Action(ADD, m), Action(REMOVE, m)][1..] == [Action(REMOVE, m)];
    assert added.payload - {m} == state.payload;
    assert Reduce(added, Action(REMOVE, m)) == Ok(StateMsg(MARKERS, state.payload));
    assert ReduceAll(added, [Action(REMOVE, m)]) == ReduceAll(StateMsg(MARKERS, state.payload), []);
  }

  /** After the first step every state is tagged MARKERS, so later actions
      are never ignored; a run of ADD actions from any state past DEFAULT
      holds exactly the old markers plus the added ones. */
  lemma {:induction false} AddsAccumulate<T>(state: StateMsg<T>, ms: seq<T>)
    requires state.tag != DEFAULT
    ensures ReduceAll(state, seq(|ms|, i requires 0 <= i < |ms| => Action(ADD, ms[i]))) ==
              Ok(StateMsg(if |ms| == 0 then state.tag else MARKERS, state.payload + set x | x in ms))
    decreases |ms|
  {
    var actions := seq(|ms|, i requires 0 <= i < |ms| => Action(ADD, ms[i]));
    if |ms| == 0 {
      assert (set x | x in ms) == {};
      assert state.payload + {} == state.payload;
    } else {
      var next := StateMsg(MARKERS, state.payload + {ms[0]});
      assert Reduce(state, actions[0]) == Ok(next);
      AddsAccumulate(next, ms[1..]);
      assert ReduceAll(state, actions) == ReduceAll(next, actions[1..]);
      assert actions[1..] == seq(|ms[1..]|, i requires 0 <= i < |ms[1..]| => Action(ADD, ms[1..][i]));
      assert ms == [ms[0]] + ms[1..];
      assert (set x | x in ms) == {ms[0]} + set x | x in ms[1..];
      assert next.payload + (set x | x in ms[1..]) == state.payload + set x | x in ms;
    }
  }
}
