/** The reducer that remembers the latest marker list and answers ENERGY
    messages with it (roaming/rx_reminder/rxx_reminder_marker_reducer.py).
    On a MARKERS message it is meant to output the markers that were not
    there before; as written, the `return` sits inside the loop, so only the
    first marker is examined. Both versions are modelled. */
module EnergyReducer {

  const MARKERS: string := "MARKERS"
  const ENERGY: string := "ENERGY"

  /** `State(content, output)`: the latest markers and what the step emits. */
  datatype State<T> = State(content: seq<T>, output: seq<T>)

  /** A `Msg(tag, payload)`; a MARKERS payload is the list of markers, other
      payloads are not read. */
  datatype Msg<T> = Msg(tag: string, payload: seq<T>)

  /** The markers of `markers` absent from `last`, in order. */
  function NewMarkers<T(==)>(markers: seq<T>, last: seq<T>): (out: seq<T>)
    ensures forall k :: 0 <= k < |out| ==> out[k] in markers && out[k] !in last
    ensures forall k :: 0 <= k < |markers| && markers[k] !in last ==> markers[k] in out
    ensures |out| <= |markers|
  {
    if |markers| == 0 then []
    else
      var init := NewMarkers(markers[..|markers| - 1], last);
      var m := markers[|markers| - 1];
      assert markers == markers[..|markers| - 1] + [m];
      if m in last then init else init + [m]
  }

  /** The output of a MARKERS step as written: the first marker when it is
      new, nothing otherwise. */
  function FirstIfNew<T(==)>(markers: seq<T>, last: seq<T>): (out: seq<T>)
    ensures |out| <= 1
    ensures forall k :: 0 <= k < |out| ==> out[k] in markers && out[k] !in last
  {
    if |markers| == 0 || markers[0] in last then [] else [markers[0]]
  }

  /** `energy_reducer(state, message)` as written. */
  method Reduce<T(==)>(state: State<T>, message: Msg<T>) returns (next: State<T>)
    ensures message.tag == MARKERS && |message.payload| > 0 ==>
              next == State(message.payload, FirstIfNew(message.payload, state.content))
    ensures message.tag == MARKERS && |message.payload| == 0 ==> next == State(state.content, [])
    ensures message.tag == ENERGY ==> next == State(state.content, state.content)
    ensures message.tag != MARKERS && message.tag != ENERGY ==> next == State(state.content, [])
  {
    var last := state.content;
    if message.tag == MARKERS {
      var markers := message.payload;
      var diff := [];
      for i := 0 to |markers|
        invariant i == 0 && diff == []
      {
        if markers[i] !in last {
          diff := diff + [markers[i]];
        }
        next := State(markers, diff);
        return;
      }
    }
    if message.tag == ENERGY {
      next := State(last, last);
      return;
    }
    next := State(last, []);
  }

  /** The step with the `return` after the loop: every new marker is output,
      and an empty list empties the content. */
  method ReduceIntended<T(==)>(state: State<T>, message: Msg<T>) returns (next: State<T>)
    ensures message.tag == MARKERS ==>
              next == State(message.payload, NewMarkers(message.payload, state.content))
    ensures message.tag == ENERGY ==> next == State(state.content, state.content)
    ensures message.tag != MARKERS && message.tag != ENERGY ==> next == State(state.content, [])
  {
    var last := state.content;
    if message.tag == MARKERS {
      var markers := message.payload;
      var diff := [];
      for i := 0 to |markers|
        invariant diff == NewMarkers(markers[..i], last)
      {
        assert markers[..i + 1][..i] == markers[..i];
        if markers[i] !in last {
          diff := diff + [markers[i]];
        }
      }
      assert markers[..|markers|] == markers;
      next := State(markers, diff);
      return;
    }
    if message.tag == ENERGY {
      next := State(last, last);
      return;
    }
    next := State(last, []);
  }

  // ---------------------------------------------------------------------------
  // Properties

  /** As written, only the first marker of the list is examined: the output
      is what the intended step gives for that marker alone. */
  lemma OnlyFirstMarkerExamined<T>(markers: seq<T>, last: seq<T>)
    requires |markers| > 0
    ensures FirstIfNew(markers, last) == NewMarkers(markers[..1], last)
  {
    assert markers[..1][..0] == [];
  }

  /** A list of two new markers shows the difference: as written only the
      first is output, the intended step outputs both. */
  lemma ReturnInsideLoop()
    ensures FirstIfNew([1, 2], []) == [1]
    ensures NewMarkers([1, 2], []) == [1, 2]
  {
    assert [1, 2][..1] == [1];
    assert [1][..0] == [];
  }
}
