/** Engine helpers: the snake index grid of `uv`, the `node` wrapper and
    `compute_energy` (src/moebius/core/engine.py). */
module Engine {
  import opened Wrappers
  import opened Messages

  // ---------------------------------------------------------------------------
  // uv

  /** The payload `uv` reads: a scan ordering and the grid dimensions. */
  datatype Shape = Shape(ordering: string, height: nat, width: nat)

  /** The `NotImplementedError` raised for an ordering other than SNAKE. */
  datatype UvError = OnlySnakeOrdering(ordering: string)

  const SNAKE := "SNAKE"
  const UV := "UV"

  /** The value at row `r`, column `c` of the snake grid of width `w`: row `r`
      holds `r * w` to `r * w + w - 1`, ascending on even rows and descending
      on odd ones. */
  function SnakeAt(r: nat, c: nat, w: nat): int {
    r * w + (if r % 2 == 0 then c else w - 1 - c)
  }

  /** `arange(h * w).reshape((h, w))` with every odd row flipped in place. */
  method SnakeIndices(h: nat, w: nat) returns (idxs: array2<int>)
    ensures fresh(idxs) && idxs.Length0 == h && idxs.Length1 == w
    ensures forall r, c :: 0 <= r < h && 0 <= c < w ==> idxs[r, c] == SnakeAt(r, c, w)
  {
    idxs := new int[h, w];
    FillRowMajor(idxs);
    for r := 0 to h
      invariant forall r', c :: 0 <= r' < r && 0 <= c < w ==> idxs[r', c] == SnakeAt(r', c, w)
      invariant forall r', c :: r <= r' < h && 0 <= c < w ==> idxs[r', c] == RowMajor(r', c, w)
    {
      if r % 2 == 1 {
        FlipRow(idxs, r);
        forall c | 0 <= c < w ensures idxs[r, c] == SnakeAt(r, c, w) {
          assert SnakeAt(r, c, w) == RowMajor(r, w - 1 - c, w);
        }
      }
    }
  }

  /** The value of cell `(r, c)` in `arange(h * w).reshape((h, w))`. */
  function RowMajor(r: nat, c: nat, w: nat): int {
    r * w + c
  }

  /** Fills `a` with `arange(h * w).reshape((h, w))`. */
  method FillRowMajor(a: array2<int>)
    modifies a
    ensures forall r, c :: 0 <= r < a.Length0 && 0 <= c < a.Length1 ==> a[r, c] == RowMajor(r, c, a.Length1)
  {
    for r := 0 to a.Length0
      invariant forall r', c :: 0 <= r' < r && 0 <= c < a.Length1 ==> a[r', c] == RowMajor(r', c, a.Length1)
    {
      for c := 0 to a.Length1
        invariant forall r', c' :: 0 <= r' < r && 0 <= c' < a.Length1 ==> a[r', c'] == RowMajor(r', c', a.Length1)
        invariant forall c' :: 0 <= c' < c ==> a[r, c'] == RowMajor(r, c', a.Length1)
      {
        a[r, c] := RowMajor(r, c, a.Length1);
      }
    }
  }

  /** Reverses row `r` of `a` in place, leaving the other rows alone. */
  method FlipRow(a: array2<int>, r: nat)
    requires r < a.Length0
    modifies a
    ensures forall c :: 0 <= c < a.Length1 ==> a[r, c] == old(a[r, a.Length1 - 1 - c])
    ensures forall r', c :: 0 <= r' < a.Length0 && r' != r && 0 <= c < a.Length1 ==> a[r', c] == old(a[r', c])
  {
    var w := a.Length1;
    for c := 0 to w / 2
      invariant forall c' :: 0 <= c' < c ==> a[r, c'] == old(a[r, w - 1 - c']) && a[r, w - 1 - c'] == old(a[r, c'])
      invariant forall c' :: c <= c' < w - c ==> a[r, c'] == old(a[r, c'])
      invariant forall r', c' :: 0 <= r' < a.Length0 && r' != r && 0 <= c' < w ==> a[r', c'] == old(a[r', c'])
    {
      a[r, c], a[r, w - 1 - c] := a[r, w - 1 - c], a[r, c];
    }
  }

  /** The SNAKE grid is a permutation of `0 .. h * w - 1`: every cell holds a
      value in range, distinct cells hold distinct values, and every value in
      range is held by some cell. */
  lemma SnakeIsPermutation(h: nat, w: nat)
    ensures forall r, c :: 0 <= r < h && 0 <= c < w ==> 0 <= SnakeAt(r, c, w) < h * w
    ensures forall r1, c1, r2, c2 ::
              (0 <= r1 < h && 0 <= c1 < w && 0 <= r2 < h && 0 <= c2 < w &&
               SnakeAt(r1, c1, w) == SnakeAt(r2, c2, w)) ==> r1 == r2 && c1 == c2
    ensures forall v :: 0 <= v < h * w ==> HeldByACell(h, w, v)
  {
    forall r, c | 0 <= r < h && 0 <= c < w ensures 0 <= SnakeAt(r, c, w) < h * w {
      SnakeCellBounds(r, c, w);
      assert (r + 1) * w <= h * w by { MulMonotone(r + 1, h, w); }
    }
    forall r1, c1, r2, c2 |
      0 <= r1 < h && 0 <= c1 < w && 0 <= r2 < h && 0 <= c2 < w && SnakeAt(r1, c1, w) == SnakeAt(r2, c2, w)
      ensures r1 == r2 && c1 == c2
    {
      SnakeCellBounds(r1, c1, w);
      SnakeCellBounds(r2, c2, w);
      SameRowBand(r1, r2, w, SnakeAt(r1, c1, w));
    }
    forall v | 0 <= v < h * w ensures HeldByACell(h, w, v) {
      SnakeCovers(h, w, v);
    }
  }

  /** Every value below `h * w` sits in row `v / w` of the snake grid. */
  lemma SnakeCovers(h: nat, w: nat, v: int)
    requires 0 <= v < h * w
    ensures HeldByACell(h, w, v)
  {
    assert w != 0;
    var r, c' := v / w, v % w;
    assert v == r * w + c';
    assert r < h by {
      if r >= h {
        MulMonotone(h, r, w);
      }
    }
    if r % 2 == 0 {
      assert SnakeAt(r, c', w) == v;
    } else {
      assert SnakeAt(r, w - 1 - c', w) == v;
    }
  }

  /** Some cell of the `h` × `w` snake grid holds `v`. */
  predicate HeldByACell(h: nat, w: nat, v: int) {
    exists r, c :: 0 <= r < h && 0 <= c < w && SnakeAt(r, c, w) == v
  }

  /** The value of cell `(r, c)` lies in row band `[r * w, (r + 1) * w)`. */
  lemma SnakeCellBounds(r: nat, c: nat, w: nat)
    requires c < w
    ensures r * w <= SnakeAt(r, c, w) < (r + 1) * w
  {
  }

  lemma MulMonotone(a: nat, b: nat, w: nat)
    requires a <= b
    ensures a * w <= b * w
  {
  }

  /** Two rows whose bands share a value are the same row. */
  lemma SameRowBand(r1: nat, r2: nat, w: nat, v: int)
    requires r1 * w <= v < (r1 + 1) * w && r2 * w <= v < (r2 + 1) * w
    ensures r1 == r2
  {
    if r1 < r2 {
      MulMonotone(r1 + 1, r2, w);
    } else if r2 < r1 {
      MulMonotone(r2 + 1, r1, w);
    }
  }

  /** The grid `compute` returns, row by row. */
  type Grid = seq<seq<int>>

  /** `compute`: the SNAKE grid, or `NotImplementedError` for any other ordering. */
  function Compute(shape: Shape): (r: Result<Grid, UvError>)
    ensures r.Err? <==> shape.ordering != SNAKE
    ensures r.Err? ==> r.error == OnlySnakeOrdering(shape.ordering)
    ensures r.Ok? ==> |r.value| == shape.height &&
                      forall i :: 0 <= i < shape.height ==> |r.value[i]| == shape.width
  {
    if shape.ordering == SNAKE then
      Ok(seq(shape.height, (i: int) requires 0 <= i => seq(shape.width, (j: int) requires 0 <= j => SnakeAt(i, j, shape.width))))
    else Err(OnlySnakeOrdering(shape.ordering))
  }

  /** Even rows of the SNAKE grid ascend and odd rows descend, each row `r`
      holding `r * w .. r * w + w - 1`. */
  lemma SnakeRows(shape: Shape, r: nat, c: nat)
    requires shape.ordering == SNAKE && r < shape.height && c < shape.width
    ensures var g := Compute(shape).value;
            (r % 2 == 0 ==> g[r][c] == r * shape.width + c) &&
            (r % 2 == 1 ==> g[r][c] == r * shape.width + shape.width - 1 - c)
  {
  }

  /** The in-place construction and the grid agree cell by cell. */
  method ComputeGrid(shape: Shape) returns (r: Result<array2<int>, UvError>)
    ensures r.Err? <==> Compute(shape).Err?
    ensures r.Err? ==> r.error == Compute(shape).error
    ensures r.Ok? ==> fresh(r.value) && r.value.Length0 == shape.height && r.value.Length1 == shape.width &&
                      forall i, j :: 0 <= i < shape.height && 0 <= j < shape.width ==>
                        r.value[i, j] == Compute(shape).value[i][j]
  {
    if shape.ordering == SNAKE {
      var idxs := SnakeIndices(shape.height, shape.width);
      r := Ok(idxs);
    } else {
      r := Err(OnlySnakeOrdering(shape.ordering));
    }
  }

  /** `uv`'s `inner`: the message keeps its status and seeds, takes the tag UV
      and the grid as payload; the error of `compute` propagates. */
  function Uv(bm: Message<Shape>): (r: Result<Message<Grid>, UvError>)
    ensures r.Err? <==> bm.payload.ordering != SNAKE
    ensures r.Ok? ==> r.value.tag == UV && r.value.status == bm.status && r.value.seeds == bm.seeds
    ensures r.Ok? ==> r.value.payload == Compute(bm.payload).value
  {
    match Compute(bm.payload)
    case Ok(g) => Ok(Message(UV, bm.status, g, bm.seeds))
    case Err(e) => Err(e)
  }

  // ---------------------------------------------------------------------------
  // node

  /** The payload of a node's output: a value (READY) or an exception (ERROR). */
  datatype Outcome<Q, E> = Value(value: Q) | Raised(ex: E)

  /** The stream `inner` returns: `function` applied to the payloads in order,
      each result as a READY message, until the first exception, which becomes
      one ERROR message and ends the stream. */
  function NodeOutputs<P, Q, E>(f: P -> Result<Q, E>, tag: string, ps: seq<P>, seeds: Seeds)
    : (out: seq<Message<Outcome<Q, E>>>)
    ensures |out| <= |ps|
    ensures forall i :: 0 <= i < |out| ==> out[i].tag == tag && out[i].seeds == seeds
    ensures forall i :: 0 <= i < |out| && f(ps[i]).Ok? ==>
              out[i] == Ready(tag, Value(f(ps[i]).value), seeds)
    ensures forall i :: 0 <= i < |out| && f(ps[i]).Err? ==>
              out[i] == Error(tag, Raised(f(ps[i]).error), seeds) && i == |out| - 1
    ensures |out| < |ps| ==> |out| > 0 && f(ps[|out| - 1]).Err?
    ensures (forall i :: 0 <= i < |ps| ==> f(ps[i]).Ok?) ==> |out| == |ps|
  {
    if ps == [] then []
    else
      match f(ps[0])
      case Ok(q) => [Ready(tag, Value(q), seeds)] + NodeOutputs(f, tag, ps[1..], seeds)
      case Err(e) => [Error(tag, Raised(e), seeds)]
  }

  function Payloads<P>(args: seq<Message<P>>): (ps: seq<P>)
    ensures |ps| == |args| && forall i :: 0 <= i < |args| ==> ps[i] == args[i].payload
  {
    if args == [] then [] else Payloads(args[..|args| - 1]) + [args[|args| - 1].payload]
  }

  function AllSeeds<P>(args: seq<Message<P>>): (ss: seq<Option<Seeds>>)
    ensures |ss| == |args| && forall i :: 0 <= i < |args| ==> ss[i] == Some(args[i].seeds)
  {
    if args == [] then [] else AllSeeds(args[..|args| - 1]) + [Some(args[|args| - 1].seeds)]
  }

  /** `node(function, tag)` applied to the messages `args`: every output carries
      the combined seeds of all inputs. */
  function Node<P, Q, E>(f: P -> Result<Q, E>, tag: string, args: seq<Message<P>>)
    : (out: seq<Message<Outcome<Q, E>>>)
    ensures |out| <= |args|
    ensures forall i :: 0 <= i < |out| ==> out[i].tag == tag && out[i].seeds == CombinedSeeds(AllSeeds(args))
    ensures forall i :: 0 <= i < |out| && f(args[i].payload).Ok? ==>
              out[i].status == READY && out[i].payload == Value(f(args[i].payload).value)
    ensures forall i :: 0 <= i < |out| && f(args[i].payload).Err? ==>
              out[i].status == ERROR && out[i].payload == Raised(f(args[i].payload).error) && i == |out| - 1
    ensures (forall i :: 0 <= i < |args| ==> f(args[i].payload).Ok?) ==> |out| == |args|
  {
    NodeOutputs(f, tag, Payloads(args), CombinedSeeds(AllSeeds(args)))
  }

  /** Every node output, success or error, keeps each input's lineage. */
  lemma NodeKeepsLineage<P, Q, E>(f: P -> Result<Q, E>, tag: string, args: seq<Message<P>>,
                                  o: Message<Outcome<Q, E>>, a: Message<P>, k: string, id: string)
    requires o in Node(f, tag, args) && a in args && k in a.seeds && id in a.seeds[k]
    ensures o.tag == tag && k in o.seeds && id in o.seeds[k]
  {
    var out := Node(f, tag, args);
    var i :| 0 <= i < |out| && out[i] == o;
    var j :| 0 <= j < |args| && args[j] == a;
    CombinedSeedsMembership(AllSeeds(args), k, id);
    assert AllSeeds(args)[j] == Some(a.seeds);
  }

  // ---------------------------------------------------------------------------
  // compute_energy

  /** Σ_i rows[i][j]²: the energy of column `j`. */
  function ColumnEnergy(rows: seq<seq<real>>, j: nat): real
    requires forall i :: 0 <= i < |rows| ==> j < |rows[i]|
  {
    if rows == [] then 0.0
    else
      var last := rows[|rows| - 1][j];
      ColumnEnergy(rows[..|rows| - 1], j) + last * last
  }

  /** `compute_energy`: the sum of squares along axis 0, one entry per column of
      a `rows` × `width` array. */
  function ComputeEnergy(rows: seq<seq<real>>, width: nat): (e: seq<real>)
    requires forall i :: 0 <= i < |rows| ==> |rows[i]| == width
    ensures |e| == width
    ensures forall j :: 0 <= j < width ==> e[j] == ColumnEnergy(rows, j)
  {
    seq(width, (j: int) requires 0 <= j < width => ColumnEnergy(rows, j))
  }

  /** Energies are never negative, and an all-zero column has energy zero. */
  lemma {:induction false} EnergyOfSilence(rows: seq<seq<real>>, j: nat)
    requires forall i :: 0 <= i < |rows| ==> j < |rows[i]|
    ensures ColumnEnergy(rows, j) >= 0.0
    ensures (forall i :: 0 <= i < |rows| ==> rows[i][j] == 0.0) ==> ColumnEnergy(rows, j) == 0.0
  {
    if rows != [] {
      var init := rows[..|rows| - 1];
      EnergyOfSilence(init, j);
      SquareNonNegative(rows[|rows| - 1][j]);
      assert forall i :: 0 <= i < |init| ==> init[i] == rows[i];
    }
  }

  lemma SquareNonNegative(x: real)
    ensures x * x >= 0.0
  {
    if x >= 0.0 {
      assert x * x >= 0.0 * x;
    } else {
      var y := -x;
      assert x * x == y * y;
      assert y * y >= 0.0 * y;
    }
  }

  /** Energies add up over a split of the rows. */
  lemma {:induction false} EnergyAdditive(a: seq<seq<real>>, b: seq<seq<real>>, j: nat)
    requires forall i :: 0 <= i < |a| ==> j < |a[i]|
    requires forall i :: 0 <= i < |b| ==> j < |b[i]|
    ensures ColumnEnergy(a + b, j) == ColumnEnergy(a, j) + ColumnEnergy(b, j)
  {
    if b != [] {
      var init := b[..|b| - 1];
      EnergyAdditive(a, init, j);
      assert (a + b)[..|a + b| - 1] == a + init;
    } else {
      assert a + b == a;
    }
  }
}
