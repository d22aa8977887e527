/**
  Reordering scan positions for short paths. Distances, radii and angles are parameters, so that square roots and
  arcus tangents stay abstract; positions are exact reals.
 */
module PathOptimization {
  import opened Instructions

  // ----- The array operations the optimizers use -----

  predicate Within(v: real, lo: real, hi: Option<real>) {
    lo <= v && (hi.Some? ==> v < hi.value)
  }

  /** The indices, in ascending order, of the values in a range; without `hi` it is open to the right. */
  function Where(vals: seq<real>, lo: real, hi: Option<real>): (idx: seq<nat>)
    ensures forall i :: i in idx ==> i < |vals| && Within(vals[i], lo, hi)
  {
    if vals == [] then [] else
      var n := |vals| - 1;
      Where(vals[..n], lo, hi) + if Within(vals[n], lo, hi) then [n] else []
  }

  function Key(keys: seq<real>, i: nat): real {
    if i < |keys| then keys[i] else 0.0
  }

  function SortIn(keys: seq<real>, i: nat, sorted: seq<nat>): (r: seq<nat>)
    ensures multiset(r) == multiset(sorted) + multiset{i}
  {
    if sorted == [] || Key(keys, i) <= Key(keys, sorted[0]) then [i] + sorted
    else
      assert sorted == [sorted[0]] + sorted[1..];
      [sorted[0]] + SortIn(keys, i, sorted[1..])
  }

  /** Some order of the indices by ascending key; the one chosen keeps equal keys in place. */
  function Argsort(keys: seq<real>, idx: seq<nat>): (r: seq<nat>)
    ensures multiset(r) == multiset(idx)
  {
    if idx == [] then [] else
      assert idx == [idx[0]] + idx[1..];
      SortIn(keys, idx[0], Argsort(keys, idx[1..]))
  }

  function Reversed(s: seq<nat>): (r: seq<nat>)
    ensures multiset(r) == multiset(s)
  {
    if s == [] then [] else
      assert s == [s[0]] + s[1..];
      Reversed(s[1..]) + [s[0]]
  }

  function Concatenate(blocks: seq<seq<nat>>): seq<nat> {
    if blocks == [] then [] else Concatenate(blocks[..|blocks| - 1]) + blocks[|blocks| - 1]
  }

  function Upto(n: nat): seq<nat> {
    seq(n, i => i)
  }

  ghost predicate Ascending(keys: seq<real>, idx: seq<nat>) {
    forall a, b :: 0 <= a < b < |idx| ==> Key(keys, idx[a]) <= Key(keys, idx[b])
  }

  ghost predicate Descending(keys: seq<real>, idx: seq<nat>) {
    forall a, b :: 0 <= a < b < |idx| ==> Key(keys, idx[a]) >= Key(keys, idx[b])
  }

  lemma {:induction false} SortInAscends(keys: seq<real>, i: nat, sorted: seq<nat>)
    requires Ascending(keys, sorted)
    ensures Ascending(keys, SortIn(keys, i, sorted))
  {
    var r := SortIn(keys, i, sorted);
    if sorted != [] && Key(keys, i) > Key(keys, sorted[0]) {
      var rest := SortIn(keys, i, sorted[1..]);
      SortInAscends(keys, i, sorted[1..]);
      forall b | 0 <= b < |rest| ensures Key(keys, sorted[0]) <= Key(keys, rest[b]) {
        assert rest[b] in multiset(rest);
        if rest[b] != i {
          assert rest[b] in multiset(sorted[1..]);
          var c :| 0 <= c < |sorted| - 1 && sorted[1..][c] == rest[b];
          assert sorted[c + 1] == rest[b];
        }
      }
    }
  }

  lemma {:induction false} ArgsortAscends(keys: seq<real>, idx: seq<nat>)
    ensures Ascending(keys, Argsort(keys, idx))
  {
    if idx != [] {
      ArgsortAscends(keys, idx[1..]);
      SortInAscends(keys, idx[0], Argsort(keys, idx[1..]));
    }
  }

  lemma {:induction false} ReversedAt(s: seq<nat>, k: nat)
    requires k < |s|
    ensures |Reversed(s)| == |s| && Reversed(s)[k] == s[|s| - 1 - k]
  {
    if |s| > 1 { ReversedAt(s[1..], if k < |s| - 1 then k else 0); }
  }

  lemma ReversedDescends(keys: seq<real>, idx: seq<nat>)
    requires Ascending(keys, idx)
    ensures Descending(keys, Reversed(idx))
  {
    var r := Reversed(idx);
    assert |r| == |multiset(r)| == |multiset(idx)| == |idx|;
    forall a, b | 0 <= a < b < |r| ensures Key(keys, r[a]) >= Key(keys, r[b]) {
      ReversedAt(idx, a);
      ReversedAt(idx, b);
    }
  }

  // ----- Partitions -----

  /** Cutting a range in two cuts its indices in two. */
  lemma {:induction false} WhereCut(vals: seq<real>, lo: real, mid: real, hi: Option<real>)
    requires lo <= mid && (hi.Some? ==> mid <= hi.value)
    ensures multiset(Where(vals, lo, Some(mid))) + multiset(Where(vals, mid, hi)) == multiset(Where(vals, lo, hi))
  {
    if vals != [] { WhereCut(vals[..|vals| - 1], lo, mid, hi); }
  }

  function Bound(bounds: seq<real>, k: nat): Option<real> {
    if k < |bounds| then Some(bounds[k]) else None
  }

  ghost predicate Rising(bounds: seq<real>) {
    forall a, b :: 0 <= a <= b < |bounds| ==> bounds[a] <= bounds[b]
  }

  /** Each block holds, in some order, the indices of the values from its bound up to the next. */
  ghost predicate Partitions(vals: seq<real>, bounds: seq<real>, blocks: seq<seq<nat>>) {
    && |blocks| <= |bounds|
    && forall k :: 0 <= k < |blocks| ==> multiset(blocks[k]) == multiset(Where(vals, bounds[k], Bound(bounds, k + 1)))
  }

  /** The blocks together hold every index from the first bound on exactly once. */
  lemma {:induction false} PartitionCovers(vals: seq<real>, bounds: seq<real>, blocks: seq<seq<nat>>)
    requires Partitions(vals, bounds, blocks) && Rising(bounds) && blocks != []
    ensures multiset(Concatenate(blocks)) == multiset(Where(vals, bounds[0], Bound(bounds, |blocks|)))
  {
    hide Where;
    var n := |blocks| - 1;
    if n == 0 {
      assert Concatenate(blocks) == [] + blocks[0] == blocks[0];
    } else {
      PartitionCovers(vals, bounds, blocks[..n]);
      WhereCut(vals, bounds[0], bounds[n], Bound(bounds, n + 1));
    }
  }

  lemma {:induction false} WhereAll(vals: seq<real>, lo: real)
    requires forall i :: 0 <= i < |vals| ==> vals[i] >= lo
    ensures Where(vals, lo, None) == Upto(|vals|)
  {
    if vals != [] {
      WhereAll(vals[..|vals| - 1], lo);
      assert Upto(|vals|) == Upto(|vals| - 1) + [|vals| - 1];
    }
  }

  predicate InRange(idx: seq<nat>, n: nat) {
    forall k :: 0 <= k < |idx| ==> idx[k] < n
  }

  /** `points[idx]`. */
  function Pick<P>(points: seq<P>, idx: seq<nat>): seq<P>
    requires InRange(idx, |points|)
  {
    seq(|idx|, k requires 0 <= k < |idx| => points[idx[k]])
  }

  lemma SameRange(a: seq<nat>, b: seq<nat>, n: nat)
    requires multiset(a) == multiset(b) && InRange(a, n)
    ensures InRange(b, n) && |a| == |b|
  {
    assert |a| == |multiset(a)| == |multiset(b)| == |b|;
    forall k | 0 <= k < |b| ensures b[k] < n {
      assert b[k] in multiset(a);
      var j :| 0 <= j < |a| && a[j] == b[k];
    }
  }

  function Without(s: seq<nat>, j: nat): seq<nat>
    requires j < |s|
  {
    s[..j] + s[j + 1..]
  }

  lemma WithoutOne(s: seq<nat>, j: nat)
    requires j < |s|
    ensures multiset(s) == multiset(Without(s, j)) + multiset{s[j]}
  {
    assert s == s[..j] + [s[j]] + s[j + 1..];
  }

  lemma PickWithout<P>(points: seq<P>, idx: seq<nat>, j: nat)
    requires InRange(idx, |points|) && j < |idx|
    ensures InRange(Without(idx, j), |points|)
    ensures multiset(Pick(points, idx)) == multiset(Pick(points, Without(idx, j))) + multiset{points[idx[j]]}
  {
    assert Pick(points, idx) == Pick(points, idx[..j]) + [points[idx[j]]] + Pick(points, idx[j + 1..]);
    assert Pick(points, Without(idx, j)) == Pick(points, idx[..j]) + Pick(points, idx[j + 1..]);
  }

  lemma Cancel(x: multiset<nat>, y: multiset<nat>, e: nat)
    requires x + multiset{e} == y + multiset{e}
    ensures x == y && |x + multiset{e}| == |x| + 1
  {
    assert x == (x + multiset{e}) - multiset{e};
    assert y == (y + multiset{e}) - multiset{e};
  }

  lemma {:induction false} PickSame<P>(points: seq<P>, a: seq<nat>, b: seq<nat>)
    requires multiset(a) == multiset(b) && InRange(a, |points|) && InRange(b, |points|)
    ensures multiset(Pick(points, a)) == multiset(Pick(points, b))
    decreases |a|
  {
    hide Pick, Without;
    SameRange(a, b, |points|);
    if a == [] {
      assert a == b;
    } else {
      assert a[0] in multiset(b);
      var j :| 0 <= j < |b| && b[j] == a[0];
      WithoutOne(a, 0);
      WithoutOne(b, j);
      PickWithout(points, a, 0);
      PickWithout(points, b, j);
      Cancel(multiset(Without(a, 0)), multiset(Without(b, j)), a[0]);
      assert |multiset(a)| == |a| && |multiset(Without(a, 0))| == |Without(a, 0)|;
      PickSame(points, Without(a, 0), Without(b, j));
    }
  }

  /** Picking every index once, in any order, permutes the points. */
  lemma PickPermutes<P>(points: seq<P>, idx: seq<nat>)
    requires multiset(idx) == multiset(Upto(|points|))
    ensures InRange(idx, |points|) && multiset(Pick(points, idx)) == multiset(points)
  {
    SameRange(Upto(|points|), idx, |points|);
    PickSame(points, Upto(|points|), idx);
    assert Pick(points, Upto(|points|)) == points;
  }

  // ----- Corridors -----

  datatype Point = Point(x: real, y: real)

  function Coord(p: Point, axis: nat): real {
    if axis == 0 then p.x else p.y
  }

  function Coords(points: seq<Point>, axis: nat): (c: seq<real>)
    ensures |c| == |points| && forall i :: 0 <= i < |c| ==> c[i] == Coord(points[i], axis)
  {
    seq(|points|, i requires 0 <= i < |points| => Coord(points[i], axis))
  }

  /** The axis that is not sorted by. */
  function Other(axis: nat): nat {
    if axis == 0 then 1 else 0
  }

  function Least(vals: seq<real>): (m: real)
    requires vals != []
    ensures m in vals && forall v :: v in vals ==> m <= v
  {
    if |vals| == 1 then vals[0] else
      var m := Least(vals[1..]);
      assert vals == [vals[0]] + vals[1..];
      if vals[0] <= m then vals[0] else m
  }

  function Greatest(vals: seq<real>): (m: real)
    requires vals != []
    ensures m in vals && forall v :: v in vals ==> m >= v
  {
    if |vals| == 1 then vals[0] else
      var m := Greatest(vals[1..]);
      assert vals == [vals[0]] + vals[1..];
      if vals[0] >= m then vals[0] else m
  }

  /** `round`, halves going to the even neighbour. */
  function Round(r: real): int {
    var f := r.Floor;
    var d := r - f as real;
    if d < 0.5 || (d == 0.5 && f % 2 == 0) then f else f + 1
  }

  /** The `i`th of `n` equally spaced values from `a` to `b`. */
  function Spaced(a: real, b: real, n: nat, i: nat): real {
    if n <= 1 then a else a + i as real * ((b - a) / (n - 1) as real)
  }

  /** How many corridors of a size fit; none or an error when there is no room for one. */
  function Corridors(vals: seq<real>, size: real): int
    requires vals != []
  {
    if size == 0.0 then 0 else Round((Greatest(vals) - Least(vals)) / size)
  }

  function Steps(vals: seq<real>, n: nat): (steps: seq<real>)
    requires vals != []
    ensures |steps| == n
  {
    seq(n, i requires 0 <= i < n => Spaced(Least(vals), Greatest(vals), n, i).Floor as real)
  }

  /** One corridor's indices: sorted along the other axis, every second corridor ascending, the others descending. */
  function Corridor(points: seq<Point>, axis: nat, steps: seq<real>, k: nat): (block: seq<nat>)
    requires k < |steps|
    ensures multiset(block) == multiset(Where(Coords(points, axis), steps[k], Bound(steps, k + 1)))
  {
    var block := Argsort(Coords(points, Other(axis)), Where(Coords(points, axis), steps[k], Bound(steps, k + 1)));
    if k % 2 == 0 then Reversed(block) else block
  }

  function Blocks(points: seq<Point>, axis: nat, steps: seq<real>, n: nat): seq<seq<nat>>
    requires n <= |steps|
  {
    seq(n, k requires 0 <= k < n => Corridor(points, axis, steps, k))
  }

  /** The order of the points for one corridor size; None, an exception, when no corridor fits. */
  function Order(points: seq<Point>, axis: nat, size: real): Option<seq<nat>>
    requires points != []
  {
    var vals := Coords(points, axis);
    var n := Corridors(vals, size);
    if n <= 0 then None
    else Some(Concatenate(Blocks(points, axis, Steps(vals, n), n)))
  }

  lemma SpacedRises(a: real, b: real, n: nat, i: nat, j: nat)
    requires a <= b && i <= j
    ensures a == Spaced(a, b, n, 0) && Spaced(a, b, n, i) <= Spaced(a, b, n, j)
  {
    if n > 1 {
      var d := (b - a) / (n - 1) as real;
      assert d >= 0.0;
      assert (j - i) as real * d >= 0.0;
      assert j as real * d == i as real * d + (j - i) as real * d;
    }
  }

  lemma StepsRise(vals: seq<real>, n: nat)
    requires vals != [] && n > 0
    ensures Rising(Steps(vals, n)) && Steps(vals, n)[0] <= Least(vals)
  {
    var a, b := Least(vals), Greatest(vals);
    forall i, j | 0 <= i <= j < n ensures Steps(vals, n)[i] <= Steps(vals, n)[j] {
      SpacedRises(a, b, n, i, j);
    }
    SpacedRises(a, b, n, 0, 0);
  }

  /** With at least one corridor the corridors hold every point exactly once. */
  lemma CorridorsPermute(points: seq<Point>, axis: nat, n: nat)
    requires points != [] && n > 0
    ensures multiset(Concatenate(Blocks(points, axis, Steps(Coords(points, axis), n), n))) == multiset(Upto(|points|))
  {
    var vals := Coords(points, axis);
    var steps := Steps(vals, n);
    StepsRise(vals, n);
    PartitionCovers(vals, steps, Blocks(points, axis, steps, n));
    forall i | 0 <= i < |vals| ensures vals[i] >= steps[0] { assert vals[i] in vals; }
    WhereAll(vals, steps[0]);
  }

  /** Along the sort axis a corridor's points lie below those of every later corridor. */
  lemma CorridorsRise(points: seq<Point>, axis: nat, n: nat, k: nat, l: nat, i: nat, j: nat)
    requires points != [] && k < l < n
    ensures var steps := Steps(Coords(points, axis), n);
      i in Corridor(points, axis, steps, k) && j in Corridor(points, axis, steps, l) ==>
        i < |points| && j < |points| && Coord(points[i], axis) < Coord(points[j], axis)
  {
    hide Where, Argsort, Reversed, Steps;
    var vals := Coords(points, axis);
    var steps := Steps(vals, n);
    StepsRise(vals, n);
    if i in Corridor(points, axis, steps, k) && j in Corridor(points, axis, steps, l) {
      var lower, upper := Where(vals, steps[k], Bound(steps, k + 1)), Where(vals, steps[l], Bound(steps, l + 1));
      assert i in multiset(lower) && j in multiset(upper);
      assert i in lower && j in upper;
    }
  }

  /** Along the other axis corridors descend and ascend in turn. */
  lemma CorridorsAlternate(points: seq<Point>, axis: nat, steps: seq<real>, k: nat)
    requires k < |steps|
    ensures var (keys, block) := (Coords(points, Other(axis)), Corridor(points, axis, steps, k));
      if k % 2 == 0 then Descending(keys, block) else Ascending(keys, block)
  {
    var keys := Coords(points, Other(axis));
    var block := Where(Coords(points, axis), steps[k], Bound(steps, k + 1));
    ArgsortAscends(keys, block);
    ReversedDescends(keys, Argsort(keys, block));
  }

  // ----- The shortest of several corridor sizes -----

  function Sizes(size: real, iterations: nat): (sizes: seq<real>)
    ensures sizes != []
  {
    if iterations > 1
    then seq(iterations, i requires 0 <= i < iterations => Spaced(size / 2.0, size * 2.0, iterations, i))
    else [size]
  }

  function PathLength(path: seq<Point>, dist: (Point, Point) -> real): real {
    if |path| < 2 then 0.0
    else PathLength(path[..|path| - 1], dist) + dist(path[|path| - 1], path[|path| - 2])
  }

  /** The points in the order for one corridor size. */
  function Path(points: seq<Point>, axis: nat, size: real): (path: Option<seq<Point>>)
    requires points != []
    ensures path.Some? ==> multiset(path.value) == multiset(points)
  {
    var order := Order(points, axis, size);
    if order.None? then None
    else
      CorridorsPermute(points, axis, Corridors(Coords(points, axis), size));
      PickPermutes(points, order.value);
      Some(Pick(points, order.value))
  }

  /** The `k`th size gives the path, and no other size a shorter one. */
  ghost predicate Shortest(points: seq<Point>, axis: nat, sizes: seq<real>, k: nat, path: seq<Point>,
                           dist: (Point, Point) -> real)
    requires points != []
  {
    && k < |sizes| && Path(points, axis, sizes[k]) == Some(path)
    && forall j :: 0 <= j < |sizes| && Path(points, axis, sizes[j]).Some? ==>
         PathLength(path, dist) <= PathLength(Path(points, axis, sizes[j]).value, dist)
  }

  method GetPathLength(path: seq<Point>, dist: (Point, Point) -> real) returns (length: real)
    ensures length == PathLength(path, dist)
  {
    length := 0.0;
    if |path| < 2 { return; }
    for i := 0 to |path| - 1
      invariant length == PathLength(path[..i + 1], dist)
    {
      length := length + dist(path[i + 1], path[i]);
      assert path[..i + 2][..i + 1] == path[..i + 1];
    }
    assert path[..|path|] == path;
  }

  /** The blocks of one corridor size, collected step by step. */
  method CollectBlocks(points: seq<Point>, axis: nat, steps: seq<real>) returns (order: seq<nat>)
    ensures order == Concatenate(Blocks(points, axis, steps, |steps|))
  {
    order := [];
    for k := 0 to |steps|
      invariant order == Concatenate(Blocks(points, axis, steps, k))
    {
      var block := Argsort(Coords(points, Other(axis)), Where(Coords(points, axis), steps[k], Bound(steps, k + 1)));
      if k % 2 == 0 {
        block := Reversed(block);
      }
      order := order + block;
      assert Blocks(points, axis, steps, k + 1)[..k] == Blocks(points, axis, steps, k);
    }
  }

  /** One corridor size; None when it leaves no corridor. */
  method TrySize(points: seq<Point>, axis: nat, size: real, dist: (Point, Point) -> real)
    returns (path: Option<seq<Point>>, length: real)
    requires points != []
    ensures path == Path(points, axis, size) && (path.None? <==> Corridors(Coords(points, axis), size) <= 0)
    ensures path.Some? ==> length == PathLength(path.value, dist)
  {
    var vals := Coords(points, axis);
    var n := Corridors(vals, size);
    if n <= 0 { return None, 0.0; }
    var order := CollectBlocks(points, axis, Steps(vals, n));
    CorridorsPermute(points, axis, n);
    PickPermutes(points, order);
    path := Some(Pick(points, order));
    length := GetPathLength(path.value, dist);
  }

  /** Every size leaves room for a corridor. */
  ghost predicate AllFit(vals: seq<real>, sizes: seq<real>)
    requires vals != []
  {
    forall i :: 0 <= i < |sizes| ==> Corridors(vals, sizes[i]) > 0
  }

  /** A permutation of the points, and the shortest path of all sizes, none of which leaves no room. */
  ghost predicate IsBest(points: seq<Point>, axis: nat, sizes: seq<real>, path: seq<Point>,
                            dist: (Point, Point) -> real)
    requires points != []
  {
    && AllFit(Coords(points, axis), sizes) && multiset(path) == multiset(points)
    && exists k :: Shortest(points, axis, sizes, k, path, dist)
  }

  /** The `k`th of some paths is no longer than any other. */
  ghost predicate LeastLong(paths: seq<seq<Point>>, k: nat, dist: (Point, Point) -> real) {
    k < |paths| && forall j :: 0 <= j < |paths| ==> PathLength(paths[k], dist) <= PathLength(paths[j], dist)
  }

  /** With a further path, the shorter of it and the best one so far is the best. */
  lemma NextLeast(paths: seq<seq<Point>>, k: nat, path: seq<Point>, dist: (Point, Point) -> real)
    requires LeastLong(paths, k, dist)
    ensures LeastLong(paths + [path], if PathLength(path, dist) < PathLength(paths[k], dist) then |paths| else k, dist)
  {
    hide PathLength;
  }

  method ShortestPath(points: seq<Point>, axis: nat, sizes: seq<real>, dist: (Point, Point) -> real)
    returns (result: Option<seq<Point>>)
    requires points != [] && sizes != []
    ensures result.Some? <==> AllFit(Coords(points, axis), sizes)
    ensures result.Some? ==> IsBest(points, axis, sizes, result.value, dist)
  {
    hide Path, PathLength, Corridors, Coords;
    result := None;
    var best := 0.0;
    ghost var paths: seq<seq<Point>> := [];
    ghost var at: nat := 0;
    for i := 0 to |sizes|
      invariant |paths| == i && (i == 0 <==> result.None?)
      invariant forall j :: 0 <= j < i ==> Corridors(Coords(points, axis), sizes[j]) > 0
      invariant forall j :: 0 <= j < i ==> Path(points, axis, sizes[j]) == Some(paths[j])
      invariant i > 0 ==> LeastLong(paths, at, dist) && result == Some(paths[at])
      invariant i > 0 ==> best == PathLength(result.value, dist) && multiset(result.value) == multiset(points)
    {
      var path, length := TrySize(points, axis, sizes[i], dist);
      if path.None? { return None; }
      if i > 0 { NextLeast(paths, at, path.value, dist); }
      paths := paths + [path.value];
      if i == 0 || length < best {
        best, result, at := length, path, i;
      }
    }
    assert Shortest(points, axis, sizes, at, result.value, dist);
  }

  /**
    Main result: unless a tried size leaves no corridor, which raises, the optimized path is a permutation of the
    points and the shortest of those for the tried sizes.
   */
  method OptimizeCorridor(points: seq<Point>, size: real, axis: nat, iterations: nat, dist: (Point, Point) -> real)
    returns (result: Option<seq<Point>>)
    ensures result.Some? <==> points != [] && AllFit(Coords(points, axis), Sizes(size, iterations))
    ensures result.Some? ==> IsBest(points, axis, Sizes(size, iterations), result.value, dist)
  {
    hide AllFit, IsBest, Sizes;
    if |points| == 0 { return None; }
    result := ShortestPath(points, axis, Sizes(size, iterations), dist);
  }

  // ----- Shells -----

  function Radii(points: seq<Point>, radius: Point -> real): (r: seq<real>)
    ensures |r| == |points| && forall i :: 0 <= i < |r| ==> r[i] == radius(points[i])
  {
    seq(|points|, i requires 0 <= i < |points| => radius(points[i]))
  }

  /** How many bounded shells of width `dr` are tried. */
  function Shells(greatest: real, dr: real): int
    requires dr > 0.0
  {
    var q := greatest / dr;
    q.Floor + (if q == q.Floor as real then 0 else 1) + 2
  }

  function InnerRadius(lo: real, dr: real, i: nat): real {
    if i == 0 then lo else InnerRadius(lo, dr, i - 1) + dr
  }

  /** The inner radii of the shells; the last one is open. */
  function ShellBounds(lo: real, dr: real, n: nat): (b: seq<real>)
    ensures |b| == n + 1
  {
    seq(n + 1, i requires 0 <= i < n + 1 => InnerRadius(lo, dr, i))
  }

  /** One shell's indices by angle. */
  function Shell(radii: seq<real>, angles: seq<real>, bounds: seq<real>, k: nat): (block: seq<nat>)
    requires k < |bounds|
    ensures multiset(block) == multiset(Where(radii, bounds[k], Bound(bounds, k + 1)))
  {
    Argsort(angles, Where(radii, bounds[k], Bound(bounds, k + 1)))
  }

  function AllShells(radii: seq<real>, angles: seq<real>, bounds: seq<real>, n: nat): seq<seq<nat>>
    requires n <= |bounds|
  {
    seq(n, k requires 0 <= k < n => Shell(radii, angles, bounds, k))
  }

  lemma {:induction false} InnerRadiusRises(lo: real, dr: real, i: nat, j: nat)
    requires dr > 0.0 && i <= j
    ensures InnerRadius(lo, dr, i) <= InnerRadius(lo, dr, j)
  {
    if i < j { InnerRadiusRises(lo, dr, i, j - 1); }
  }

  lemma BoundsRise(lo: real, dr: real, n: nat)
    requires dr > 0.0
    ensures Rising(ShellBounds(lo, dr, n)) && ShellBounds(lo, dr, n)[0] == lo
  {
    forall i, j | 0 <= i <= j < n + 1 ensures ShellBounds(lo, dr, n)[i] <= ShellBounds(lo, dr, n)[j] {
      InnerRadiusRises(lo, dr, i, j);
    }
  }

  function ShellOrder(radii: seq<real>, angles: seq<real>, lo: real, dr: real, n: nat): seq<nat> {
    Concatenate(AllShells(radii, angles, ShellBounds(lo, dr, n), n + 1))
  }

  /** The shells hold exactly the points at least as far out as the innermost bound, each once. */
  lemma ShellsCover(radii: seq<real>, angles: seq<real>, lo: real, dr: real, n: nat)
    requires dr > 0.0
    ensures multiset(ShellOrder(radii, angles, lo, dr, n)) == multiset(Where(radii, lo, None))
  {
    var bounds := ShellBounds(lo, dr, n);
    BoundsRise(lo, dr, n);
    PartitionCovers(radii, bounds, AllShells(radii, angles, bounds, n + 1));
  }

  /** Main result, the exact condition: no point is lost if and only if none lies inside the innermost bound. */
  lemma ShellsPermuteIff(radii: seq<real>, angles: seq<real>, lo: real, dr: real, n: nat)
    requires dr > 0.0
    ensures multiset(ShellOrder(radii, angles, lo, dr, n)) == multiset(Upto(|radii|))
      <==> forall i :: 0 <= i < |radii| ==> radii[i] >= lo
  {
    hide ShellOrder;
    ShellsCover(radii, angles, lo, dr, n);
    if forall i :: 0 <= i < |radii| ==> radii[i] >= lo {
      WhereAll(radii, lo);
    } else {
      var i: nat :| i < |radii| && radii[i] < lo;
      assert Upto(|radii|)[i] == i && i in multiset(Upto(|radii|));
      assert i !in Where(radii, lo, None) && i !in multiset(Where(radii, lo, None));
    }
  }

  /** Every point of a shell lies further in than those of later shells; within a shell angles ascend. */
  lemma ShellsRise(radii: seq<real>, angles: seq<real>, bounds: seq<real>, k: nat, l: nat, i: nat, j: nat)
    requires Rising(bounds) && k < l < |bounds|
    requires i in Shell(radii, angles, bounds, k) && j in Shell(radii, angles, bounds, l)
    ensures i < |radii| && j < |radii| && radii[i] < radii[j] && Ascending(angles, Shell(radii, angles, bounds, k))
  {
    var lower, upper := Where(radii, bounds[k], Bound(bounds, k + 1)), Where(radii, bounds[l], Bound(bounds, l + 1));
    assert i in multiset(lower) && j in multiset(upper);
    assert i in lower && j in upper;
    ArgsortAscends(angles, lower);
  }

  lemma NextShell(radii: seq<real>, angles: seq<real>, lo: real, dr: real, n: nat, i: nat)
    requires i <= n
    ensures var bounds := ShellBounds(lo, dr, n);
      Concatenate(AllShells(radii, angles, bounds, i + 1)) == Concatenate(AllShells(radii, angles, bounds, i)) +
        Argsort(angles, Where(radii, InnerRadius(lo, dr, i), if i < n then Some(InnerRadius(lo, dr, i + 1)) else None))
  {
    hide Argsort, Where;
    var bounds := ShellBounds(lo, dr, n);
    assert AllShells(radii, angles, bounds, i + 1)[..i] == AllShells(radii, angles, bounds, i);
  }

  /** The points shell by shell. */
  method CollectShells(radii: seq<real>, angles: seq<real>, lo: real, dr: real, n: nat) returns (order: seq<nat>)
    requires dr > 0.0
    ensures order == ShellOrder(radii, angles, lo, dr, n)
  {
    hide Argsort, Where, ShellBounds;
    order := [];
    var inner := lo;
    for i := 0 to n
      invariant inner == InnerRadius(lo, dr, i)
      invariant order == Concatenate(AllShells(radii, angles, ShellBounds(lo, dr, n), i))
    {
      NextShell(radii, angles, lo, dr, n, i);
      order := order + Argsort(angles, Where(radii, inner, Some(inner + dr)));
      inner := inner + dr;
    }
    NextShell(radii, angles, lo, dr, n, n);
    order := order + Argsort(angles, Where(radii, inner, None));
  }

  /** The points of all shells from the radius `lo` outwards, each shell by angle. */
  function ShellPoints(points: seq<Point>, lo: real, dr: real, radius: Point -> real, angle: Point -> real): seq<Point>
    requires dr > 0.0 && points != []
  {
    var (radii, angles) := (Radii(points, radius), Radii(points, angle));
    var order := ShellOrder(radii, angles, lo, dr, ShellCount(radii, dr));
    ShellsCover(radii, angles, lo, dr, ShellCount(radii, dr));
    ShellResult(points, radii, order, lo);
    Pick(points, order)
  }

  function ShellCount(radii: seq<real>, dr: real): nat
    requires dr > 0.0 && radii != []
  {
    var n := Shells(Greatest(radii), dr);
    if n > 0 then n else 0
  }

  /** None, an exception, when there are no points. */
  method OptimizeShell(points: seq<Point>, offset: real, dr: real, radius: Point -> real, angle: Point -> real)
    returns (result: Option<seq<Point>>)
    requires dr > 0.0
    ensures result == if points == [] then None else Some(ShellPoints(points, -offset * dr, dr, radius, angle))
    ensures result.Some? ==>
      (multiset(result.value) == multiset(points) <==> forall p :: p in points ==> radius(p) >= -offset * dr)
  {
    hide ShellPoints;
    if |points| == 0 { return None; }
    var lo := -offset * dr;
    var path := ShellPath(points, lo, dr, radius, angle);
    result := Some(path);
  }

  /** The shells from the radius `lo` outwards. */
  method ShellPath(points: seq<Point>, lo: real, dr: real, radius: Point -> real, angle: Point -> real)
    returns (path: seq<Point>)
    requires dr > 0.0 && points != []
    ensures path == ShellPoints(points, lo, dr, radius, angle)
    ensures multiset(path) == multiset(points) <==> forall p :: p in points ==> radius(p) >= lo
  {
    var radii, angles := Radii(points, radius), Radii(points, angle);
    var n := ShellCount(radii, dr);
    var order := CollectShells(radii, angles, lo, dr, n);
    ShellsCover(radii, angles, lo, dr, n);
    ShellResult(points, radii, order, lo);
    path := Pick(points, order);
  }

  lemma ShellResult(points: seq<Point>, radii: seq<real>, order: seq<nat>, lo: real)
    requires |points| == |radii| && multiset(order) == multiset(Where(radii, lo, None))
    ensures InRange(order, |points|)
    ensures multiset(Pick(points, order)) == multiset(points) <==> forall i :: 0 <= i < |radii| ==> radii[i] >= lo
  {
    var all := Where(radii, lo, None);
    forall k | 0 <= k < |all| ensures all[k] < |points| { assert all[k] in all; }
    SameRange(all, order, |points|);
    if forall i :: 0 <= i < |radii| ==> radii[i] >= lo {
      WhereAll(radii, lo);
      PickPermutes(points, order);
    } else {
      WhereFewer(radii, lo);
      assert |multiset(Pick(points, order))| == |order| < |points| == |multiset(points)|;
    }
  }

  lemma {:induction false} WhereFewer(vals: seq<real>, lo: real)
    ensures |Where(vals, lo, None)| <= |vals|
    ensures (exists i :: 0 <= i < |vals| && vals[i] < lo) ==> |Where(vals, lo, None)| < |vals|
  {
    if vals != [] {
      var n := |vals| - 1;
      WhereFewer(vals[..n], lo);
      if i :| 0 <= i < |vals| && vals[i] < lo {
        if i < n { assert vals[..n][i] < lo; }
      }
    }
  }

  /** With a negative offset a point near the centre is lost. */
  lemma PointLost(p: Point, radius: Point -> real, angle: Point -> real)
    requires radius(p) == 1.0
    ensures ShellPoints([p], 2.0, 2.0, radius, angle) == []
  {
    var radii := Radii([p], radius);
    var n := ShellCount(radii, 2.0);
    assert radii == [1.0] && [1.0][..0] == [];
    assert Where([1.0], 2.0, None) == [];
    ShellsCover(radii, Radii([p], angle), 2.0, 2.0, n);
    assert |ShellOrder(radii, Radii([p], angle), 2.0, 2.0, n)| == |multiset(Where(radii, 2.0, None))|;
  }
}
