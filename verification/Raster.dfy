/** The positions of a two-dimensional raster scan, snaked or not. */
module Rasters {
  import Arithmetic

  datatype Position = Position(x: real, y: real)

  /** The column visited as the `j`th of a row; snaking reverses the even rows. */
  function Column(snaked: bool, n: nat, i: nat, j: nat): (c: nat)
    requires j < n
    ensures c < n
  {
    if snaked && i % 2 == 0 then n - 1 - j else j
  }

  /** Reversing a row twice gives the row back. */
  lemma ColumnTwice(snaked: bool, n: nat, i: nat, j: nat)
    requires j < n
    ensures Column(snaked, n, i, Column(snaked, n, i, j)) == j
  {
  }

  function RowOf(axis0: seq<real>, axis1: seq<real>, snaked: bool, i: nat): seq<Position>
    requires i < |axis0|
  {
    seq(|axis1|, j requires 0 <= j < |axis1| => Position(axis0[i], axis1[Column(snaked, |axis1|, i, j)]))
  }

  /** Row after row. */
  function Rows(axis0: seq<real>, axis1: seq<real>, snaked: bool, m: nat): seq<Position>
    requires m <= |axis0|
  {
    if m == 0 then [] else Rows(axis0, axis1, snaked, m - 1) + RowOf(axis0, axis1, snaked, m - 1)
  }

  lemma {:induction false} RowsAt(axis0: seq<real>, axis1: seq<real>, snaked: bool, m: nat, i: nat, j: nat)
    requires i < m <= |axis0| && j < |axis1|
    ensures |Rows(axis0, axis1, snaked, m)| == m * |axis1|
    ensures i * |axis1| + j < m * |axis1|
    ensures Rows(axis0, axis1, snaked, m)[i * |axis1| + j] == RowOf(axis0, axis1, snaked, i)[j]
  {
    RowsLength(axis0, axis1, snaked, m);
    RowsLength(axis0, axis1, snaked, m - 1);
    PlaceInRange(i, j, m, |axis1|);
    if i < m - 1 {
      RowsAt(axis0, axis1, snaked, m - 1, i, j);
    }
  }

  lemma PlaceInRange(i: nat, j: nat, m: nat, n: nat)
    requires i < m && j < n
    ensures i * n + j < m * n && (i == m - 1 ==> i * n == (m - 1) * n)
    ensures i < m - 1 ==> i * n + j < (m - 1) * n
  {
    Arithmetic.MulNext(i, n);
    Arithmetic.MulMonotone(i + 1, m, n);
    if i < m - 1 { Arithmetic.MulMonotone(i + 1, m - 1, n); }
  }

  lemma {:induction false} RowsLength(axis0: seq<real>, axis1: seq<real>, snaked: bool, m: nat)
    requires m <= |axis0|
    ensures |Rows(axis0, axis1, snaked, m)| == m * |axis1|
  {
    if m > 0 {
      RowsLength(axis0, axis1, snaked, m - 1);
      Arithmetic.MulNext(m - 1, |axis1|);
    }
  }

  // ----- The grid in memory -----

  /** Reverses one row in place. */
  method FlipRow(a: array2<real>, i: nat)
    requires i < a.Length0
    modifies a
    ensures forall k, j :: 0 <= k < a.Length0 && 0 <= j < a.Length1 ==>
      a[k, j] == old(a[k, if k == i then a.Length1 - 1 - j else j])
  {
    var n := a.Length1;
    var j := 0;
    while j < n / 2
      invariant 0 <= j <= n / 2
      invariant forall k, l :: 0 <= k < a.Length0 && 0 <= l < n && (k != i || j <= l < n - j) ==>
        a[k, l] == old(a[k, l])
      invariant forall l :: 0 <= l < n && (l < j || n - j <= l) ==> a[i, l] == old(a[i, n - 1 - l])
    {
      a[i, j], a[i, n - 1 - j] := a[i, n - 1 - j], a[i, j];
      j := j + 1;
    }
  }

  /** `grid[::2] = fliplr(grid[::2])`. */
  method FlipEvenRows(a: array2<real>)
    modifies a
    ensures forall i, j :: 0 <= i < a.Length0 && 0 <= j < a.Length1 ==>
      a[i, j] == old(a[i, Column(true, a.Length1, i, j)])
  {
    for i := 0 to a.Length0
      invariant forall k, j :: 0 <= k < a.Length0 && 0 <= j < a.Length1 ==>
        a[k, j] == old(a[k, if k < i then Column(true, a.Length1, k, j) else j])
    {
      if i % 2 == 0 {
        FlipRow(a, i);
      }
    }
  }

  method Get2DRasterPos(axis0: seq<real>, axis1: seq<real>, snaked: bool) returns (positions: seq<Position>)
    ensures positions == Rows(axis0, axis1, snaked, |axis0|)
  {
    var y := new real[|axis0|, |axis1|]((i, j) requires 0 <= j < |axis1| => axis1[j]);
    if snaked {
      FlipEvenRows(y);
    }
    positions := [];
    for i := 0 to |axis0|
      invariant positions == Rows(axis0, axis1, snaked, i)
    {
      for j := 0 to |axis1|
        invariant positions == Rows(axis0, axis1, snaked, i) + RowOf(axis0, axis1, snaked, i)[..j]
      {
        positions := positions + [Position(axis0[i], y[i, j])];
      }
    }
  }

  // ----- The visited grid points -----

  /** The grid point visited as the `k`th. */
  function Visit(snaked: bool, n: nat, k: nat): (nat, nat)
    requires n > 0
  {
    (k / n, Column(snaked, n, k / n, k % n))
  }

  lemma RowAndColumn(k: nat, n: nat)
    requires n > 0
    ensures k == (k / n) * n + k % n
  {
  }

  /** The `k`th position is that of the `k`th visited grid point. */
  lemma PositionAt(axis0: seq<real>, axis1: seq<real>, snaked: bool, k: nat)
    requires k < |axis0| * |axis1|
    ensures axis1 != []
    ensures var (i, c) := Visit(snaked, |axis1|, k);
      && i < |axis0| && |Rows(axis0, axis1, snaked, |axis0|)| == |axis0| * |axis1|
      && Rows(axis0, axis1, snaked, |axis0|)[k] == Position(axis0[i], axis1[c])
  {
    hide Rows;
    Arithmetic.BlockInRange(k, |axis1|, |axis0|);
    var i, j := k / |axis1|, k % |axis1|;
    RowAndColumn(k, |axis1|);
    RowsAt(axis0, axis1, snaked, |axis0|, i, j);
  }

  /** When a grid point is visited. */
  function Turn(snaked: bool, n: nat, i: nat, c: nat): nat
    requires c < n
  {
    i * n + Column(snaked, n, i, c)
  }

  /** Main result: every grid point is visited, at exactly one turn. */
  lemma VisitedOnce(m: nat, n: nat, snaked: bool, i: nat, c: nat, k: nat)
    requires i < m && c < n && k < m * n
    ensures Turn(snaked, n, i, c) < m * n
    ensures Visit(snaked, n, k) == (i, c) <==> k == Turn(snaked, n, i, c)
  {
    PlaceInRange(i, Column(snaked, n, i, c), m, n);
    Arithmetic.BlockOf(Turn(snaked, n, i, c), n, i, Column(snaked, n, i, c));
    ColumnTwice(snaked, n, i, c);
    ColumnTwice(snaked, n, k / n, k % n);
    assert k == (k / n) * n + k % n;
  }

  predicate Adjacent(p: (nat, nat), q: (nat, nat)) {
    || (p.0 == q.0 && (p.1 + 1 == q.1 || q.1 + 1 == p.1))
    || (p.1 == q.1 && p.0 + 1 == q.0)
  }

  /** Main result: a snaked scan moves to a neighbouring grid point every time. */
  lemma SnakeMovesByOne(n: nat, k: nat)
    requires n > 0
    ensures Adjacent(Visit(true, n, k), Visit(true, n, k + 1))
  {
    var i, j := k / n, k % n;
    assert k == i * n + j;
    if j + 1 < n {
      Arithmetic.BlockOf(k + 1, n, i, j + 1);
    } else {
      Arithmetic.MulNext(i, n);
      Arithmetic.BlockOf(k + 1, n, i + 1, 0);
    }
  }

  /** Without snaking the scan instead jumps back over the row whenever the row has more than one point. */
  lemma UnsnakedJumps(n: nat, k: nat)
    requires n > 0
    ensures Adjacent(Visit(false, n, k), Visit(false, n, k + 1)) <==> (n == 1 || k % n + 1 < n)
  {
    var i, j := k / n, k % n;
    assert k == i * n + j;
    if j + 1 < n {
      Arithmetic.BlockOf(k + 1, n, i, j + 1);
    } else {
      Arithmetic.MulNext(i, n);
      Arithmetic.BlockOf(k + 1, n, i + 1, 0);
    }
  }

  function ReversedRow(row: seq<Position>): (r: seq<Position>)
    ensures |r| == |row|
  {
    if row == [] then [] else ReversedRow(row[1..]) + [row[0]]
  }

  lemma {:induction false} ReversedRowAt(row: seq<Position>, k: nat)
    requires k < |row|
    ensures ReversedRow(row)[k] == row[|row| - 1 - k]
  {
    if k < |row| - 1 { ReversedRowAt(row[1..], k); }
  }

  /** Main result: the snaked rows are the plain ones with every even row reversed. */
  lemma SnakedIsFlipped(axis0: seq<real>, axis1: seq<real>, i: nat)
    requires i < |axis0|
    ensures RowOf(axis0, axis1, true, i) ==
      if i % 2 == 0 then ReversedRow(RowOf(axis0, axis1, false, i)) else RowOf(axis0, axis1, false, i)
  {
    var plain := RowOf(axis0, axis1, false, i);
    if i % 2 == 0 {
      forall j | 0 <= j < |axis1| ensures RowOf(axis0, axis1, true, i)[j] == ReversedRow(plain)[j] {
        ReversedRowAt(plain, j);
      }
    }
  }

  /** So the first row runs from the end of its axis to the start. */
  lemma FirstRowDescends(axis0: seq<real>, axis1: seq<real>)
    requires axis0 != [] && axis1 != []
    ensures var all := Rows(axis0, axis1, true, |axis0|);
      |all| >= |axis1| && all[0] == Position(axis0[0], axis1[|axis1| - 1])
        && all[|axis1| - 1] == Position(axis0[0], axis1[0])
  {
    RowsAt(axis0, axis1, true, |axis0|, 0, 0);
    RowsAt(axis0, axis1, true, |axis0|, 0, |axis1| - 1);
  }
}
