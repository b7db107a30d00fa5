/** `scan_map`: a selector applied to each pair of consecutive items of a
    stream, optionally starting from a seed (roaming/rx_reminder/feedback.py).
    The stream is modelled by the finite sequence of its items; the output
    is the sequence of items the pipeline emits. */
module Feedback {
  import opened Wrappers

  /** The record the scan carries: the latest input and the output computed
      with it. `output == None` stands for the `NO_SEED` marker, which the
      filter drops. */
  datatype Structure<T, R> = Structure(value: T, output: Option<R>)

  /** The scan's step `compare`: no output while there is no previous item,
      otherwise the selector on the previous item and the new one. The new
      record keeps only the new item. */
  function Step<T, R>(selector: (T, T) -> R, last: Option<Structure<T, R>>, x: T): (s: Structure<T, R>)
    ensures s.value == x
    ensures s.output.Some? <==> last.Some?
  {
    match last
    case None => Structure(x, None)
    case Some(l) => Structure(x, Some(selector(l.value, x)))
  }

  /** `scan(compare, seed)`: one record per item, each computed from the
      previous record. */
  function Scan<T, R>(selector: (T, T) -> R, acc: Option<Structure<T, R>>, xs: seq<T>): (ss: seq<Structure<T, R>>)
    ensures |ss| == |xs|
    ensures forall k :: 0 <= k < |xs| ==> ss[k].value == xs[k]
    decreases |xs|
  {
    if |xs| == 0 then []
    else
      var s := Step(selector, acc, xs[0]);
      [s] + Scan(selector, Some(s), xs[1..])
  }

  /** `filter(output is not NO_SEED)` then `map(output)`. */
  function Outputs<T, R>(ss: seq<Structure<T, R>>): (out: seq<R>)
    ensures |out| <= |ss|
  {
    if |ss| == 0 then []
    else if ss[0].output.Some? then [ss[0].output.value] + Outputs(ss[1..])
    else Outputs(ss[1..])
  }

  /** `scan_map(selector, seed)` over the items `xs`. */
  function ScanMap<T, R>(selector: (T, T) -> R, xs: seq<T>, seed: Option<T>): (out: seq<R>)
    ensures out == Pairwise(selector, if seed.Some? then [seed.value] + xs else xs)
  {
    var start := if seed.Some? then Some(Structure(seed.value, None)) else None;
    if seed.Some? then
      ScanFromPrevious(selector, seed.value, None, xs);
      Outputs(Scan(selector, start, xs))
    else if |xs| == 0 then []
    else
      ScanFromPrevious(selector, xs[0], None, xs[1..]);
      assert [xs[0]] + xs[1..] == xs;
      Outputs(Scan(selector, start, xs))
  }

  /** The reference: the selector on every pair of consecutive items. */
  function Pairwise<T, R>(selector: (T, T) -> R, xs: seq<T>): (out: seq<R>)
    ensures |out| == if |xs| == 0 then 0 else |xs| - 1
    ensures forall k :: 0 <= k < |out| ==> out[k] == selector(xs[k], xs[k + 1])
    decreases |xs|
  {
    if |xs| < 2 then [] else [selector(xs[0], xs[1])] + Pairwise(selector, xs[1..])
  }

  // ---------------------------------------------------------------------------
  // Properties

  /** Once a previous item `p` is held, the emitted outputs are the selector
      on consecutive pairs of `p` followed by the items. */
  lemma {:induction false} ScanFromPrevious<T, R>(selector: (T, T) -> R, p: T, o: Option<R>, xs: seq<T>)
    ensures Outputs(Scan(selector, Some(Structure(p, o)), xs)) == Pairwise(selector, [p] + xs)
    decreases |xs|
  {
    if |xs| > 0 {
      var s := Step(selector, Some(Structure(p, o)), xs[0]);
      ScanFromPrevious(selector, xs[0], s.output, xs[1..]);
      assert ([p] + xs)[1..] == [xs[0]] + xs[1..];
    }
  }

  /** Without a seed, n items give the n - 1 outputs `selector(x_k, x_{k+1})`. */
  lemma ScanMapWithoutSeed<T, R>(selector: (T, T) -> R, xs: seq<T>)
    ensures ScanMap(selector, xs, None) == Pairwise(selector, xs)
    ensures |ScanMap(selector, xs, None)| == if |xs| == 0 then 0 else |xs| - 1
  {
    if |xs| > 0 {
      ScanFromPrevious(selector, xs[0], None, xs[1..]);
      assert [xs[0]] + xs[1..] == xs;
    }
  }

  /** With a seed `s`, n items give n outputs, the first being
      `selector(s, x_0)`. */
  lemma ScanMapWithSeed<T, R>(selector: (T, T) -> R, xs: seq<T>, s: T)
    ensures ScanMap(selector, xs, Some(s)) == Pairwise(selector, [s] + xs)
    ensures |ScanMap(selector, xs, Some(s))| == |xs|
    ensures |xs| > 0 ==> ScanMap(selector, xs, Some(s))[0] == selector(s, xs[0])
  {
    ScanFromPrevious(selector, s, None, xs);
  }

  /** Empty input gives nothing; a single item without a seed gives nothing. */
  lemma ScanMapShortInputs<T, R>(selector: (T, T) -> R, x: T, seed: Option<T>)
    ensures ScanMap(selector, [], seed) == []
    ensures ScanMap(selector, [x], None) == []
  {
  }

  /** Each item reaches the selector at most twice: once as the new item and
      once as the previous one, because a record holds only the latest item. */
  lemma {:induction false} RecordHoldsLatest<T, R>(selector: (T, T) -> R, acc: Option<Structure<T, R>>, xs: seq<T>, k: nat)
    requires 0 < k < |xs|
    ensures Scan(selector, acc, xs)[k] == Structure(xs[k], Some(selector(xs[k - 1], xs[k])))
    decreases |xs|
  {
    if k > 1 {
      RecordHoldsLatest(selector, Some(Step(selector, acc, xs[0])), xs[1..], k - 1);
    }
  }
}
