/** The reducer that keeps the ordered vector of markers from ADD / REMOVE /
    REMOVE_ALL actions, starting from the `INIT` sentinel
    (roaming/rx_reminder/rx_reminder_scan_hot.py). The persistent vector
    becomes a Dafny `seq`. */
module MarkerVectorReducer {
  import opened Wrappers

  const ADD: string := "ADD"
  const REMOVE: string := "REMOVE"
  const REMOVE_ALL: string := "REMOVE_ALL"
  const MARKERS: string := "MARKERS"

  /** The scan's state: the `INIT` sentinel, or a `Msg(tag, payload)` whose
      payload is a vector of markers. */
  datatype VectorState<T> = Init | StateMsg(tag: string, payload: seq<T>)

  /** An action `Msg(tag, payload)`. */
  datatype Action<T> = Action(tag: string, payload: T)

  /** `ValueError`: the persistent vector's `remove` of an absent element. */
  datatype ReducerError<T> = ValueError(missing: T)

  /** The index of the first occurrence of `x`, or `|v|` when `x` does not
      occur. */
  function IndexOf<T(==)>(v: seq<T>, x: T): (i: nat)
    ensures i <= |v|
    ensures i < |v| ==> v[i] == x
    ensures x !in v[..i]
    decreases |v|
  {
    if |v| == 0 then 0
    else if v[0] == x then 0
    else
      var j := IndexOf(v[1..], x);
      assert v[..j + 1] == [v[0]] + v[1..][..j];
      j + 1
  }

  /** `remove(x)` of a persistent vector: the vector without the first
      occurrence of `x`, or None when `x` does not occur. */
  function RemoveFirst<T(==)>(v: seq<T>, x: T): (r: Option<seq<T>>)
    ensures r.None? <==> x !in v
  {
    var i := IndexOf(v, x);
    if i == |v| then
      assert v[..i] == v;
      None
    else Some(v[..i] + v[i + 1..])
  }

  /** `markers_reducer(stateR, actionR)`. */
  function Reduce<T(==)>(state: VectorState<T>, action: Action<T>): (r: Result<VectorState<T>, ReducerError<T>>)
    ensures r.Ok? ==> r.value.StateMsg? && r.value.tag == MARKERS
    ensures state.Init? ==> r == Ok(StateMsg(MARKERS, []))
    ensures state.StateMsg? && action.tag == ADD ==> r == Ok(StateMsg(MARKERS, state.payload + [action.payload]))
    ensures state.StateMsg? && action.tag == REMOVE ==>
              (r.Err? <==> action.payload !in state.payload) &&
              (r.Err? ==> r.error == ValueError(action.payload)) &&
              (r.Ok? ==> |r.value.payload| == |state.payload| - 1 &&
                         multiset(r.value.payload) == multiset(state.payload) - multiset{action.payload})
    ensures state.StateMsg? && action.tag == REMOVE_ALL ==> r == Ok(StateMsg(MARKERS, []))
    ensures state.StateMsg? && action.tag !in {ADD, REMOVE, REMOVE_ALL} ==> r == Ok(StateMsg(MARKERS, state.payload))
  {
    match state
    case Init => Ok(StateMsg(MARKERS, []))
    case StateMsg(_, v) =>
      if action.tag == ADD then Ok(StateMsg(MARKERS, v + [action.payload]))
      else if action.tag == REMOVE then
        match RemoveFirst(v, action.payload)
        case None => Err(ValueError(action.payload))
        case Some(rest) =>
          assert multiset(rest) == multiset(v) - multiset{action.payload} by {
            var i := IndexOf(v, action.payload);
            assert v == v[..i] + [v[i]] + v[i + 1..];
          }
          Ok(StateMsg(MARKERS, rest))
      else if action.tag == REMOVE_ALL then Ok(StateMsg(MARKERS, []))
      else Ok(StateMsg(MARKERS, v))
  }

  // ---------------------------------------------------------------------------
  // Properties

  /** REMOVE deletes the first occurrence only: the markers before it are
      kept in order, and so are all the markers after it, later duplicates
      included. */
  lemma RemoveDeletesFirstOccurrence<T>(v: seq<T>, i: nat, x: T)
    requires i < |v| && v[i] == x && x !in v[..i]
    ensures Reduce(StateMsg(MARKERS, v), Action(REMOVE, x)) == Ok(StateMsg(MARKERS, v[..i] + v[i + 1..]))
  {
    FirstOccurrence(v, i, x);
  }

  /** The first occurrence is the one `IndexOf` finds. */
  lemma FirstOccurrence<T>(v: seq<T>, i: nat, x: T)
    requires i < |v| && v[i] == x && x !in v[..i]
    ensures RemoveFirst(v, x) == Some(v[..i] + v[i + 1..])
  {
    assert v[..i + 1][i] == x;
  }

  /** ADD then REMOVE of a marker absent from the vector restores it. */
  lemma AddThenRemove<T>(v: seq<T>, x: T)
    requires x !in v
    ensures Reduce(Reduce(StateMsg(MARKERS, v), Action(ADD, x)).value, Action(REMOVE, x)) == Ok(StateMsg(MARKERS, v))
  {
    var w := v + [x];
    assert w[..|v|] == v;
    FirstOccurrence(w, |v|, x);
    assert w[..|v|] + w[|v| + 1..] == v;
  }
}
