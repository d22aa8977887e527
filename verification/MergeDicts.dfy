/** Merging dictionaries of one nested shape into one whose leaves are lists, by way of flat dictionaries. */
module MergedDicts {
  import opened Instructions

  datatype Entry<V> = Entry(key: string, value: V)

  /** A dictionary in insertion order. */
  type Dict<V> = seq<Entry<V>>

  datatype Tree<V> = Leaf(value: V) | Node(kids: Dict<Tree<V>>)

  // ----- Dictionaries -----

  function Get<V>(d: Dict<V>, k: string): Option<V> {
    if d == [] then None else if d[0].key == k then Some(d[0].value) else Get(d[1..], k)
  }

  /** `d[k] = v`: a present key keeps its place, a new one goes to the end. */
  function Put<V>(d: Dict<V>, k: string, v: V): Dict<V> {
    if d == [] then [Entry(k, v)]
    else if d[0].key == k then [Entry(k, v)] + d[1..]
    else [d[0]] + Put(d[1..], k, v)
  }

  /** `d.update(u)`. */
  function PutAll<V>(d: Dict<V>, u: Dict<V>): Dict<V>
    decreases u
  {
    if u == [] then d else PutAll(Put(d, u[0].key, u[0].value), u[1..])
  }

  // ----- The code -----

  function FlattenInto<V>(res: Dict<V>, kids: Dict<Tree<V>>, base: string): Dict<V>
    decreases kids
  {
    if kids == [] then res else
      var path := base + "/" + kids[0].key;
      match kids[0].value
      case Leaf(v) => FlattenInto(Put(res, path, v), kids[1..], base)
      case Node(sub) => FlattenInto(PutAll(res, FlattenInto([], sub, path)), kids[1..], base)
  }

  /** `res[key].append(value)` for every item of a flat dictionary. */
  function AppendAll<V>(res: Dict<seq<V>>, flat: Dict<V>): Dict<seq<V>>
    decreases flat
  {
    if flat == [] then res else
      var k, v := flat[0].key, flat[0].value;
      var sofar := Get(res, k);
      AppendAll(Put(res, k, (if sofar.Some? then sofar.value else []) + [v]), flat[1..])
  }

  /** The flat dictionaries of all inputs, merged. */
  function Merged<V>(inputs: seq<Dict<Tree<V>>>): Dict<seq<V>> {
    if inputs == [] then []
    else AppendAll(Merged(inputs[..|inputs| - 1]), FlattenInto([], inputs[|inputs| - 1], ""))
  }

  /** None stands for the exception raised when a leaf is updated like a dictionary. */
  function NestedUpdate<V>(target: Tree<V>, update: Dict<Tree<V>>): Option<Tree<V>>
    decreases update
  {
    if update == [] then Some(target) else
      match target
      case Leaf(_) => None
      case Node(kids) =>
        var k := update[0].key;
        match update[0].value
        case Leaf(v) => NestedUpdate(Node(Put(kids, k, Leaf(v))), update[1..])
        case Node(sub) =>
          var inner := Get(kids, k);
          var t := NestedUpdate(if inner.Some? then inner.value else Node([]), sub);
          if t.None? then None else NestedUpdate(Node(Put(kids, k, t.value)), update[1..])
  }

  /** `s.split("/")`. */
  function Split(s: string): (parts: seq<string>)
    ensures parts != []
  {
    if s == "" then [""] else
      var rest := Split(s[1..]);
      if s[0] == '/' then [""] + rest else [[s[0]] + rest[0]] + rest[1..]
  }

  /** The nested dictionary with a single leaf. */
  function Chain<V>(path: seq<string>, v: V): Tree<V> {
    if path == [] then Leaf(v) else Node([Entry(path[0], Chain(path[1..], v))])
  }

  function Insert<V>(target: Tree<V>, path: seq<string>, v: V): Option<Tree<V>> {
    match Chain(path, v)
    case Leaf(_) => None
    case Node(kids) => NestedUpdate(target, kids)
  }

  function InsertAll<V>(target: Tree<V>, flat: Dict<V>): Option<Tree<V>>
    decreases flat
  {
    if flat == [] then Some(target) else
      var t := Insert(target, Split(flat[0].key)[1..], flat[0].value);
      if t.None? then None else InsertAll(t.value, flat[1..])
  }

  function Merge<V>(inputs: seq<Dict<Tree<V>>>): Option<Tree<seq<V>>> {
    InsertAll(Node([]), Merged(inputs))
  }

  // ----- What the code promises -----

  /** The leaf at the end of a path of keys. */
  function Find<V>(d: Dict<Tree<V>>, path: seq<string>): Option<V>
    decreases path
  {
    if path == [] || Get(d, path[0]).None? then None else
      match Get(d, path[0]).value
      case Leaf(v) => if |path| == 1 then Some(v) else None
      case Node(sub) => Find(sub, path[1..])
  }

  function Given<V>(o: Option<V>): seq<V> {
    if o.Some? then [o.value] else []
  }

  /** The inputs' leaves at a path, in input order. */
  function ValuesAt<V>(inputs: seq<Dict<Tree<V>>>, path: seq<string>): seq<V> {
    if inputs == [] then [] else
      ValuesAt(inputs[..|inputs| - 1], path) +
      Given(Find(inputs[|inputs| - 1], path))
  }

  /** A dictionary of the shape of `kids` with the inputs' leaves at every path below `prefix`. */
  function Zip<V>(kids: Dict<Tree<V>>, inputs: seq<Dict<Tree<V>>>, prefix: seq<string>): Dict<Tree<seq<V>>>
    decreases kids
  {
    if kids == [] then [] else
      var path := prefix + [kids[0].key];
      [Entry(kids[0].key,
             match kids[0].value
             case Leaf(_) => Leaf(ValuesAt(inputs, path))
             case Node(sub) => Node(Zip(sub, inputs, path)))]
      + Zip(kids[1..], inputs, prefix)
  }

  predicate NoSlash(k: string) {
    '/' !in k
  }

  /** No key holds a '/', and no nested dictionary is empty. */
  predicate Clean<V>(d: Dict<Tree<V>>)
    decreases d
  {
    d == [] ||
    (NoSlash(d[0].key) && (d[0].value.Node? ==> d[0].value.kids != [] && Clean(d[0].value.kids)) && Clean(d[1..]))
  }

  /** The keys of a dictionary and of those nested in it are unique. */
  predicate Unique<V>(d: Dict<Tree<V>>)
    decreases d
  {
    d == [] ||
    (Get(d[1..], d[0].key).None? && (d[0].value.Node? ==> Unique(d[0].value.kids)) && Unique(d[1..]))
  }

  /** The same keys, nested alike, in any order. */
  ghost predicate SameShape<V, W>(a: Dict<Tree<V>>, b: Dict<Tree<W>>)
    decreases b
  {
    && (forall k :: Get(a, k).Some? <==> Get(b, k).Some?)
    && (forall i :: 0 <= i < |b| ==> MatchesAt(a, b, i))
  }

  ghost predicate MatchesAt<V, W>(a: Dict<Tree<V>>, b: Dict<Tree<W>>, i: nat)
    requires i < |b|
    decreases b, 0
  {
    var x := Get(a, b[i].key);
    && x.Some? && (x.value.Node? <==> b[i].value.Node?)
    && (x.value.Node? ==> SameShape(x.value.kids, b[i].value.kids))
  }

  // ----- Dictionaries -----

  lemma {:induction false} PutGet<V>(d: Dict<V>, k: string, v: V, q: string)
    ensures Get(Put(d, k, v), q) == if q == k then Some(v) else Get(d, q)
  {
    if d != [] && d[0].key != k {
      PutGet(d[1..], k, v, q);
    }
  }

  lemma {:induction false} PutNew<V>(d: Dict<V>, k: string, v: V)
    requires Get(d, k).None?
    ensures Put(d, k, v) == d + [Entry(k, v)]
  {
    if d != [] { PutNew(d[1..], k, v); }
  }

  lemma {:induction false} PutTwice<V>(d: Dict<V>, k: string, v: V, w: V)
    ensures Put(Put(d, k, v), k, w) == Put(d, k, w)
  {
    if d != [] && d[0].key != k { PutTwice(d[1..], k, v, w); }
  }

  lemma {:induction false} GetConcat<V>(d: Dict<V>, e: Dict<V>, k: string)
    ensures Get(d + e, k) == if Get(d, k).Some? then Get(d, k) else Get(e, k)
  {
    if d == [] {
      assert d + e == e;
    } else {
      assert (d + e)[1..] == d[1..] + e;
      GetConcat(d[1..], e, k);
    }
  }

  lemma {:induction false} GetIn<V>(d: Dict<V>, k: string)
    ensures Get(d, k).Some? ==> Entry(k, Get(d, k).value) in d
    ensures Get(d, k).None? ==> forall i :: 0 <= i < |d| ==> d[i].key != k
  {
    if d != [] {
      GetIn(d[1..], k);
      assert forall i :: 0 < i < |d| ==> d[i] == d[1..][i - 1];
    }
  }

  // ----- Keys and paths -----

  /** A flat key: every name of the path behind a '/'. */
  function Join(path: seq<string>): string {
    if path == [] then "" else "/" + path[0] + Join(path[1..])
  }

  predicate NoSlashes(path: seq<string>) {
    forall i :: 0 <= i < |path| ==> NoSlash(path[i])
  }

  lemma {:induction false} SplitPiece(k: string, s: string)
    requires NoSlash(k) && (s == "" || s[0] == '/')
    ensures Split(k + s) == [k] + Split(s)[1..]
  {
    if k == "" {
      assert k + s == s;
    } else {
      assert (k + s)[1..] == k[1..] + s;
      SplitPiece(k[1..], s);
      assert [k[0]] + k[1..] == k;
    }
  }

  lemma SplitSlash(s: string)
    ensures Split("/" + s) == [""] + Split(s)
  {
    assert ("/" + s)[1..] == s;
  }

  /** Splitting a flat key gives back the names it was made of. */
  lemma {:induction false} SplitJoin(path: seq<string>)
    requires NoSlashes(path)
    ensures Split(Join(path)) == [""] + path
  {
    if path != [] {
      var rest := Join(path[1..]);
      SplitJoin(path[1..]);
      SplitPiece(path[0], rest);
      hide Split;
      SplitSlash(path[0] + rest);
      assert Join(path) == "/" + (path[0] + rest);
      assert path == [path[0]] + path[1..];
    }
  }

  /** Different paths have different flat keys. */
  lemma JoinBelow(prefix: seq<string>, p: seq<string>, q: seq<string>)
    requires NoSlashes(prefix) && NoSlashes(p) && NoSlashes(q)
    ensures Join(prefix + p) == Join(prefix + q) <==> p == q
  {
    SplitJoin(prefix + p);
    SplitJoin(prefix + q);
    assert ([""] + (prefix + p))[|prefix| + 1..] == p;
    assert ([""] + (prefix + q))[|prefix| + 1..] == q;
  }

  lemma {:induction false} SplitNoSlash(s: string)
    ensures NoSlashes(Split(s))
  {
    if s != "" { SplitNoSlash(s[1..]); }
  }

  datatype At<V> = At(path: seq<string>, value: V)

  function Under<V>(k: string, ps: seq<At<V>>): seq<At<V>> {
    seq(|ps|, i requires 0 <= i < |ps| => At([k] + ps[i].path, ps[i].value))
  }

  /** The leaves with their paths, in order. */
  function Paths<V>(d: Dict<Tree<V>>): seq<At<V>>
    decreases d
  {
    if d == [] then [] else
      (match d[0].value
       case Leaf(v) => [At([d[0].key], v)]
       case Node(sub) => Under(d[0].key, Paths(sub))) + Paths(d[1..])
  }

  ghost predicate DistinctPaths<V>(ps: seq<At<V>>) {
    forall i, j :: 0 <= i < j < |ps| ==> ps[i].path != ps[j].path
  }

  /** No path is empty or holds a '/'. */
  ghost predicate Proper<V>(ps: seq<At<V>>) {
    forall i :: 0 <= i < |ps| ==> ps[i].path != [] && NoSlashes(ps[i].path)
  }

  function GetPath<V>(ps: seq<At<V>>, path: seq<string>): Option<V> {
    if ps == [] then None else if ps[0].path == path then Some(ps[0].value) else GetPath(ps[1..], path)
  }

  lemma {:induction false} GetPathConcat<V>(ps: seq<At<V>>, qs: seq<At<V>>, path: seq<string>)
    ensures GetPath(ps + qs, path) == if GetPath(ps, path).Some? then GetPath(ps, path) else GetPath(qs, path)
  {
    if ps == [] {
      assert ps + qs == qs;
    } else {
      assert (ps + qs)[1..] == ps[1..] + qs;
      GetPathConcat(ps[1..], qs, path);
    }
  }

  lemma {:induction false} GetPathUnder<V>(k: string, ps: seq<At<V>>, path: seq<string>)
    ensures GetPath(Under(k, ps), path) == if path != [] && path[0] == k then GetPath(ps, path[1..]) else None
  {
    if ps != [] {
      assert Under(k, ps)[1..] == Under(k, ps[1..]);
      GetPathUnder(k, ps[1..], path);
      if path != [] && path[0] == k {
        assert [k] + path[1..] == path && ([k] + ps[0].path)[1..] == ps[0].path;
      }
    }
  }

  lemma {:induction false} FindIs<V>(d: Dict<Tree<V>>, path: seq<string>)
    requires Unique(d)
    ensures GetPath(Paths(d), path) == Find(d, path)
    decreases d
  {
    if d != [] {
      var k := d[0].key;
      FindIs(d[1..], path);
      match d[0].value
      case Leaf(v) =>
        GetPathConcat([At([k], v)], Paths(d[1..]), path);
        if path != [] && path[0] == k { assert path == [k] + path[1..]; }
      case Node(sub) =>
        GetPathConcat(Under(k, Paths(sub)), Paths(d[1..]), path);
        GetPathUnder(k, Paths(sub), path);
        if path != [] && path[0] == k { FindIs(sub, path[1..]); }
    }
  }

  lemma {:induction false} PathsProper<V>(d: Dict<Tree<V>>)
    requires Clean(d)
    ensures Proper(Paths(d)) && (d != [] ==> Paths(d) != [])
    decreases d
  {
    if d != [] {
      PathsProper(d[1..]);
      match d[0].value
      case Leaf(_) =>
      case Node(sub) => PathsProper(sub);
    }
  }

  lemma {:induction false} GetPathIn<V>(ps: seq<At<V>>, i: nat)
    requires i < |ps|
    ensures GetPath(ps, ps[i].path).Some?
  {
    if i > 0 { GetPathIn(ps[1..], i - 1); }
  }

  lemma {:induction false} PathsDistinct<V>(d: Dict<Tree<V>>)
    requires Unique(d)
    ensures DistinctPaths(Paths(d))
    decreases d
  {
    if d != [] {
      PathsDistinct(d[1..]);
      var k, rest := d[0].key, Paths(d[1..]);
      forall i | 0 <= i < |rest| ensures rest[i].path == [] || rest[i].path[0] != k {
        GetPathIn(rest, i);
        FindIs(d[1..], rest[i].path);
      }
      match d[0].value
      case Leaf(v) => assert forall i :: 0 < i < |Paths(d)| ==> Paths(d)[i] == rest[i - 1];
      case Node(sub) =>
        PathsDistinct(sub);
        UnderThen(k, Paths(sub), rest);
    }
  }

  lemma UnderThen<V>(k: string, ps: seq<At<V>>, rest: seq<At<V>>)
    requires DistinctPaths(ps) && DistinctPaths(rest)
    requires forall i :: 0 <= i < |rest| ==> rest[i].path == [] || rest[i].path[0] != k
    ensures DistinctPaths(Under(k, ps) + rest)
  {
    var n, all := |ps|, Under(k, ps) + rest;
    forall i, j | 0 <= i < j < |all| ensures all[i].path != all[j].path {
      if j < n {
        assert all[i].path[1..] == ps[i].path && all[j].path[1..] == ps[j].path;
      } else if i >= n {
        assert all[i] == rest[i - n] && all[j] == rest[j - n];
      } else {
        assert all[i].path[0] == k && all[j] == rest[j - n];
      }
    }
  }

  // ----- Flattening -----

  /** The flat dictionary of a list of leaves. */
  function Flat<V>(ps: seq<At<V>>, prefix: seq<string>): Dict<V> {
    seq(|ps|, i requires 0 <= i < |ps| => Entry(Join(prefix + ps[i].path), ps[i].value))
  }

  lemma {:induction false} JoinMore(path: seq<string>, k: string)
    ensures Join(path + [k]) == Join(path) + "/" + k
  {
    if path == [] {
      assert path + [k] == [k];
    } else {
      assert (path + [k])[1..] == path[1..] + [k];
      JoinMore(path[1..], k);
    }
  }

  lemma {:induction false} FlatGet<V>(ps: seq<At<V>>, prefix: seq<string>, path: seq<string>)
    requires Proper(ps) && NoSlashes(prefix) && NoSlashes(path)
    ensures Get(Flat(ps, prefix), Join(prefix + path)) == GetPath(ps, path)
  {
    if ps != [] {
      assert Flat(ps, prefix)[1..] == Flat(ps[1..], prefix);
      FlatGet(ps[1..], prefix, path);
      JoinBelow(prefix, ps[0].path, path);
    }
  }

  ghost predicate Apart<V>(qs: seq<At<V>>, ps: seq<At<V>>) {
    forall i :: 0 <= i < |ps| ==> GetPath(qs, ps[i].path).None?
  }

  lemma FlatPut<V>(qs: seq<At<V>>, prefix: seq<string>, p: At<V>)
    requires Proper(qs) && NoSlashes(prefix) && NoSlashes(p.path) && GetPath(qs, p.path).None?
    ensures Put(Flat(qs, prefix), Join(prefix + p.path), p.value) == Flat(qs + [p], prefix)
  {
    FlatGet(qs, prefix, p.path);
    PutNew(Flat(qs, prefix), Join(prefix + p.path), p.value);
  }

  lemma {:induction false} FlatPutAll<V>(qs: seq<At<V>>, ps: seq<At<V>>, prefix: seq<string>)
    requires Proper(qs) && Proper(ps) && NoSlashes(prefix) && DistinctPaths(ps) && Apart(qs, ps)
    ensures PutAll(Flat(qs, prefix), Flat(ps, prefix)) == Flat(qs + ps, prefix)
    decreases ps
  {
    if ps == [] {
      assert qs + ps == qs;
    } else {
      FlatPut(qs, prefix, ps[0]);
      var more := qs + [ps[0]];
      forall i | 0 <= i < |ps| - 1 ensures GetPath(more, ps[1..][i].path).None? {
        assert ps[1..][i] == ps[i + 1];
        GetPathConcat(qs, [ps[0]], ps[i + 1].path);
      }
      FlatPutAll(more, ps[1..], prefix);
      assert Flat(ps, prefix)[1..] == Flat(ps[1..], prefix);
      assert more + ps[1..] == qs + ps;
    }
  }

  lemma FlatUnder<V>(ps: seq<At<V>>, prefix: seq<string>, k: string)
    ensures Flat(ps, prefix + [k]) == Flat(Under(k, ps), prefix)
  {
    forall i | 0 <= i < |ps| ensures prefix + [k] + ps[i].path == prefix + ([k] + ps[i].path) {}
  }

  /** No path begins with a key of the dictionary. */
  ghost predicate Elsewhere<V>(qs: seq<At<V>>, d: Dict<Tree<V>>) {
    forall i :: 0 <= i < |qs| ==> qs[i].path != [] && Get(d, qs[i].path[0]).None?
  }

  lemma {:induction false} ElsewhereMiss<V>(qs: seq<At<V>>, d: Dict<Tree<V>>, path: seq<string>)
    requires Elsewhere(qs, d) && path != [] && Get(d, path[0]).Some?
    ensures GetPath(qs, path).None?
  {
    if qs != [] { ElsewhereMiss(qs[1..], d, path); }
  }

  lemma ProperMore<V>(qs: seq<At<V>>, ps: seq<At<V>>)
    ensures Proper(qs) && Proper(ps) ==> Proper(qs + ps)
  {
  }

  lemma ProperOne<V>(k: string, v: V)
    requires NoSlash(k)
    ensures Proper([At([k], v)]) && NoSlashes([k])
  {
  }

  lemma PathsLeaf<V>(d: Dict<Tree<V>>)
    requires d != [] && d[0].value.Leaf?
    ensures Paths(d) == [At([d[0].key], d[0].value.value)] + Paths(d[1..])
  {
  }

  lemma PathsNode<V>(d: Dict<Tree<V>>)
    requires d != [] && d[0].value.Node?
    ensures Paths(d) == Under(d[0].key, Paths(d[0].value.kids)) + Paths(d[1..])
  {
  }

  lemma UnderProper<V>(sub: Dict<Tree<V>>, k: string)
    requires Clean(sub) && Unique(sub) && NoSlash(k)
    ensures var ps := Under(k, Paths(sub));
      Proper(ps) && DistinctPaths(ps) && forall i :: 0 <= i < |ps| ==> ps[i].path != [] && ps[i].path[0] == k
  {
    PathsProper(sub);
    PathsDistinct(sub);
    UnderThen(k, Paths(sub), []);
    assert Under(k, Paths(sub)) + [] == Under(k, Paths(sub));
  }

  lemma FlattenLeaf<V>(qs: seq<At<V>>, d: Dict<Tree<V>>, prefix: seq<string>)
    requires Proper(qs) && Clean(d) && Unique(d) && NoSlashes(prefix) && Elsewhere(qs, d)
    requires d != [] && d[0].value.Leaf?
    ensures var ps := qs + [At([d[0].key], d[0].value.value)];
      && FlattenInto(Flat(qs, prefix), d, Join(prefix)) == FlattenInto(Flat(ps, prefix), d[1..], Join(prefix))
      && Proper(ps) && Elsewhere(ps, d[1..])
  {
    hide Flat, Proper, NoSlashes;
    var p := At([d[0].key], d[0].value.value);
    JoinMore(prefix, d[0].key);
    ElsewhereMiss(qs, d, p.path);
    ProperOne(d[0].key, d[0].value.value);
    ProperMore(qs, [p]);
    FlatPut(qs, prefix, p);
  }

  lemma FlattenNode<V>(qs: seq<At<V>>, d: Dict<Tree<V>>, prefix: seq<string>)
    requires Proper(qs) && Clean(d) && Unique(d) && NoSlashes(prefix) && Elsewhere(qs, d)
    requires d != [] && d[0].value.Node?
    requires var k, sub := d[0].key, d[0].value.kids;
      FlattenInto([], sub, Join(prefix + [k])) == Flat(Under(k, Paths(sub)), prefix)
    ensures var ps := qs + Under(d[0].key, Paths(d[0].value.kids));
      && FlattenInto(Flat(qs, prefix), d, Join(prefix)) == FlattenInto(Flat(ps, prefix), d[1..], Join(prefix))
      && Proper(ps) && Elsewhere(ps, d[1..])
  {
    hide Flat, Proper, NoSlashes, Paths, Under;
    var k, sub := d[0].key, d[0].value.kids;
    var ps := Under(k, Paths(sub));
    JoinMore(prefix, k);
    UnderProper(sub, k);
    forall i | 0 <= i < |ps| ensures GetPath(qs, ps[i].path).None? { ElsewhereMiss(qs, d, ps[i].path); }
    ProperMore(qs, ps);
    FlatPutAll(qs, ps, prefix);
  }

  /** Flattening appends the leaves' flat entries. */
  lemma {:induction false} FlattenIs<V>(qs: seq<At<V>>, d: Dict<Tree<V>>, prefix: seq<string>)
    requires Proper(qs) && Clean(d) && Unique(d) && NoSlashes(prefix) && Elsewhere(qs, d)
    ensures FlattenInto(Flat(qs, prefix), d, Join(prefix)) == Flat(qs + Paths(d), prefix)
    decreases d, 0
  {
    if d == [] {
      assert qs + Paths(d) == qs;
    } else {
      hide Paths, Flat, Proper, NoSlashes, Under, Elsewhere, FlattenInto, Join;
      if d[0].value.Leaf? {
        FlattenLeaf(qs, d, prefix);
        PathsLeaf(d);
        FlattenRest(qs, [At([d[0].key], d[0].value.value)], d, prefix);
      } else {
        FlattenSub(d[0].value.kids, prefix, d[0].key);
        FlattenNode(qs, d, prefix);
        PathsNode(d);
        FlattenRest(qs, Under(d[0].key, Paths(d[0].value.kids)), d, prefix);
      }
    }
  }

  /** With the first entry flattened to `ps`, the others follow. */
  lemma {:induction false} FlattenRest<V>(qs: seq<At<V>>, ps: seq<At<V>>, d: Dict<Tree<V>>, prefix: seq<string>)
    requires d != [] && Clean(d) && Unique(d) && NoSlashes(prefix) && Paths(d) == ps + Paths(d[1..])
    requires Proper(qs + ps) && Elsewhere(qs + ps, d[1..])
    ensures FlattenInto(Flat(qs + ps, prefix), d[1..], Join(prefix)) == Flat(qs + Paths(d), prefix)
    decreases d[1..], 1
  {
    hide Paths, Flat, Proper, NoSlashes, Elsewhere, FlattenInto, Join;
    FlattenIs(qs + ps, d[1..], prefix);
    assert qs + ps + Paths(d[1..]) == qs + (ps + Paths(d[1..]));
  }

  lemma {:induction false} FlattenSub<V>(sub: Dict<Tree<V>>, prefix: seq<string>, k: string)
    requires Clean(sub) && Unique(sub) && NoSlashes(prefix) && NoSlash(k)
    ensures FlattenInto([], sub, Join(prefix + [k])) == Flat(Under(k, Paths(sub)), prefix)
    decreases sub, 1
  {
    FlattenIs([], sub, prefix + [k]);
    assert Flat<V>([], prefix + [k]) == [] && [] + Paths(sub) == Paths(sub);
    FlatUnder(Paths(sub), prefix, k);
  }

  // ----- Merging flat dictionaries -----

  /** The leaves of `ps` with the inputs' leaves at their paths. */
  function Zipped<V>(ps: seq<At<V>>, inputs: seq<Dict<Tree<V>>>, prefix: seq<string>): seq<At<seq<V>>> {
    seq(|ps|, i requires 0 <= i < |ps| => At(ps[i].path, ValuesAt(inputs, prefix + ps[i].path)))
  }

  function Singles<V>(ps: seq<At<V>>): seq<At<seq<V>>> {
    seq(|ps|, i requires 0 <= i < |ps| => At(ps[i].path, [ps[i].value]))
  }

  function Extended<V>(qs: seq<At<seq<V>>>, ps: seq<At<V>>): seq<At<seq<V>>> {
    seq(|qs|, i requires 0 <= i < |qs| =>
      At(qs[i].path, qs[i].value + Given(GetPath(ps, qs[i].path))))
  }

  lemma {:induction false} AppendNew<V>(qs: seq<At<seq<V>>>, ps: seq<At<V>>, prefix: seq<string>)
    requires Proper(qs) && Proper(ps) && DistinctPaths(ps) && NoSlashes(prefix)
    requires forall i :: 0 <= i < |ps| ==> GetPath(qs, ps[i].path).None?
    ensures AppendAll(Flat(qs, prefix), Flat(ps, prefix)) == Flat(qs + Singles(ps), prefix)
    decreases ps
  {
    if ps == [] {
      assert qs + Singles(ps) == qs;
    } else {
      var p := At(ps[0].path, [ps[0].value]);
      FlatGet(qs, prefix, ps[0].path);
      FlatPut(qs, prefix, p);
      assert [] + [ps[0].value] == [ps[0].value];
      forall i | 0 <= i < |ps| - 1 ensures GetPath(qs + [p], ps[1..][i].path).None? {
        assert ps[1..][i] == ps[i + 1];
        GetPathConcat(qs, [p], ps[i + 1].path);
      }
      AppendNew(qs + [p], ps[1..], prefix);
      assert Flat(ps, prefix)[1..] == Flat(ps[1..], prefix);
      assert qs + [p] + Singles(ps[1..]) == qs + Singles(ps);
    }
  }

  lemma {:induction false} NotAmong<V>(ps: seq<At<V>>, path: seq<string>)
    requires forall i :: 0 <= i < |ps| ==> ps[i].path != path
    ensures GetPath(ps, path).None?
  {
    if ps != [] { NotAmong(ps[1..], path); }
  }

  lemma GetPathOne<V>(p: At<V>, path: seq<string>)
    ensures GetPath([p], path) == if p.path == path then Some(p.value) else None
  {
  }

  lemma ExtendedRest<V>(qs: seq<At<seq<V>>>, p: At<V>)
    requires forall i :: 0 <= i < |qs| ==> qs[i].path != p.path
    ensures Extended(qs, [p]) == qs
  {
    forall i | 0 <= i < |qs| ensures Extended(qs, [p])[i] == qs[i] {
      GetPathOne(p, qs[i].path);
      assert qs[i].value + [] == qs[i].value;
    }
  }

  lemma {:induction false} FlatPutOld<V>(qs: seq<At<seq<V>>>, p: At<V>, prefix: seq<string>)
    requires Proper(qs) && DistinctPaths(qs) && GetPath(qs, p.path).Some? && NoSlashes(p.path) && NoSlashes(prefix)
    ensures Put(Flat(qs, prefix), Join(prefix + p.path), GetPath(qs, p.path).value + [p.value])
            == Flat(Extended(qs, [p]), prefix)
  {
    var q, rest, more := qs[0], qs[1..], Extended(qs, [p]);
    assert Flat(qs, prefix)[1..] == Flat(rest, prefix);
    assert more[1..] == Extended(rest, [p]) && Flat(more, prefix)[1..] == Flat(more[1..], prefix);
    assert Flat(more, prefix) == [Flat(more, prefix)[0]] + Flat(more[1..], prefix);
    GetPathOne(p, q.path);
    if q.path == p.path {
      ExtendedRest(rest, p);
    } else {
      assert q.value + [] == q.value;
      JoinBelow(prefix, q.path, p.path);
      FlatPutOld(rest, p, prefix);
    }
  }

  lemma {:induction false} SamePaths<V, W>(qs: seq<At<V>>, ts: seq<At<W>>, path: seq<string>)
    requires |qs| == |ts| && forall i :: 0 <= i < |qs| ==> qs[i].path == ts[i].path
    ensures GetPath(qs, path).Some? == GetPath(ts, path).Some?
  {
    if qs != [] { SamePaths(qs[1..], ts[1..], path); }
  }

  lemma ExtendedTwice<V>(qs: seq<At<seq<V>>>, ps: seq<At<V>>)
    requires ps != [] && DistinctPaths(ps)
    ensures Extended(Extended(qs, [ps[0]]), ps[1..]) == Extended(qs, ps)
  {
    NotAmong(ps[1..], ps[0].path);
    forall i | 0 <= i < |qs| ensures Extended(Extended(qs, [ps[0]]), ps[1..])[i] == Extended(qs, ps)[i] {
      GetPathOne(ps[0], qs[i].path);
      assert qs[i].value + [] == qs[i].value;
      assert qs[i].value + [ps[0].value] + [] == qs[i].value + [ps[0].value];
    }
  }

  lemma {:induction false} AppendOld<V>(qs: seq<At<seq<V>>>, ps: seq<At<V>>, prefix: seq<string>)
    requires Proper(qs) && Proper(ps) && DistinctPaths(qs) && DistinctPaths(ps) && NoSlashes(prefix)
    requires forall i :: 0 <= i < |ps| ==> GetPath(qs, ps[i].path).Some?
    ensures AppendAll(Flat(qs, prefix), Flat(ps, prefix)) == Flat(Extended(qs, ps), prefix)
    decreases ps
  {
    if ps == [] {
      forall i | 0 <= i < |qs| ensures Extended(qs, ps)[i] == qs[i] { assert qs[i].value + [] == qs[i].value; }
      assert Extended(qs, ps) == qs;
    } else {
      var p, more := ps[0], Extended(qs, [ps[0]]);
      FlatGet(qs, prefix, p.path);
      FlatPutOld(qs, p, prefix);
      forall i | 0 <= i < |ps| - 1 ensures GetPath(more, ps[1..][i].path).Some? {
        assert ps[1..][i] == ps[i + 1];
        SamePaths(qs, more, ps[i + 1].path);
      }
      AppendOld(more, ps[1..], prefix);
      assert Flat(ps, prefix)[1..] == Flat(ps[1..], prefix);
      ExtendedTwice(qs, ps);
    }
  }

  // ----- The merged flat dictionary -----

  lemma {:induction false} GetPathAt<V>(ps: seq<At<V>>, i: nat)
    requires i < |ps| && DistinctPaths(ps)
    ensures GetPath(ps, ps[i].path) == Some(ps[i].value)
  {
    if i > 0 { GetPathAt(ps[1..], i - 1); }
  }

  lemma {:induction false} SameFinds<V, W>(a: Dict<Tree<V>>, b: Dict<Tree<W>>, path: seq<string>)
    requires SameShape(a, b)
    ensures Find(a, path).Some? == Find(b, path).Some?
    decreases path
  {
    if path != [] && Get(b, path[0]).Some? {
      GetIn(b, path[0]);
      var i :| 0 <= i < |b| && b[i] == Entry(path[0], Get(b, path[0]).value);
      assert MatchesAt(a, b, i);
      if b[i].value.Node? { SameFinds(Get(a, path[0]).value.kids, b[i].value.kids, path[1..]); }
    }
  }

  /** Every input is a dictionary of the first one's shape. */
  ghost predicate OneShape<V>(inputs: seq<Dict<Tree<V>>>) {
    && inputs != []
    && forall j :: 0 <= j < |inputs| ==> Unique(inputs[j]) && SameShape(inputs[0], inputs[j])
  }

  lemma {:induction false} ShapeClean<V, W>(a: Dict<Tree<V>>, b: Dict<Tree<W>>)
    requires SameShape(a, b) && Clean(a) && Unique(b)
    ensures Clean(b) && (a != [] ==> b != [])
    decreases b
  {
    if a != [] {
      assert Get(a, a[0].key).Some?;
      assert Get(b, a[0].key).Some?;
    }
    forall i | 0 <= i < |b|
      ensures NoSlash(b[i].key) && (b[i].value.Node? ==> b[i].value.kids != [] && Clean(b[i].value.kids))
    {
      assert MatchesAt(a, b, i);
      CleanAt(a, b[i].key);
      UniqueAt(b, i);
      if b[i].value.Node? { ShapeClean(Get(a, b[i].key).value.kids, b[i].value.kids); }
    }
    CleanIfAll(b);
  }

  lemma {:induction false} CleanAt<V>(d: Dict<Tree<V>>, k: string)
    requires Clean(d) && Get(d, k).Some?
    ensures NoSlash(k)
    ensures Get(d, k).value.Node? ==> Get(d, k).value.kids != [] && Clean(Get(d, k).value.kids)
    decreases d
  {
    if d[0].key != k { CleanAt(d[1..], k); }
  }

  lemma {:induction false} UniqueAt<V>(d: Dict<Tree<V>>, i: nat)
    requires Unique(d) && i < |d|
    ensures d[i].value.Node? ==> Unique(d[i].value.kids)
    decreases d
  {
    if i > 0 { UniqueAt(d[1..], i - 1); }
  }

  lemma {:induction false} CleanIfAll<V>(d: Dict<Tree<V>>)
    requires forall i :: 0 <= i < |d| ==>
      NoSlash(d[i].key) && (d[i].value.Node? ==> d[i].value.kids != [] && Clean(d[i].value.kids))
    ensures Clean(d)
    decreases d
  {
    if d != [] {
      forall i | 0 <= i < |d| - 1 ensures d[1..][i] == d[i + 1] {}
      CleanIfAll(d[1..]);
    }
  }

  /** The flat dictionary of the merged inputs. */
  lemma {:induction false} MergedIs<V>(inputs: seq<Dict<Tree<V>>>)
    requires OneShape(inputs) && Clean(inputs[0])
    ensures Merged(inputs) == Flat(Zipped(Paths(inputs[0]), inputs, []), [])
  {
    var n := |inputs| - 1;
    var front, d, ps := inputs[..n], inputs[n], Paths(inputs[0]);
    assert SameShape(inputs[0], d) && Unique(d) && Unique(inputs[0]);
    ShapeClean(inputs[0], d);
    FlatInput(d);
    PathsProper(d);
    PathsDistinct(d);
    if n == 0 {
      AppendNew([], Paths(d), []);
      assert Flat<seq<V>>([], []) == [] && [] + Singles(ps) == Singles(ps);
      FirstInput(inputs);
    } else {
      MergedIs(front);
      NextInput(inputs);
    }
  }

  lemma FlatInput<V>(d: Dict<Tree<V>>)
    requires Clean(d) && Unique(d)
    ensures FlattenInto([], d, "") == Flat(Paths(d), [])
  {
    FlattenIs([], d, []);
    assert Flat<V>([], []) == [] && [] + Paths(d) == Paths(d);
  }

  lemma FirstInput<V>(inputs: seq<Dict<Tree<V>>>)
    requires |inputs| == 1 && Unique(inputs[0])
    ensures Singles(Paths(inputs[0])) == Zipped(Paths(inputs[0]), inputs, [])
  {
    var ps := Paths(inputs[0]);
    PathsDistinct(inputs[0]);
    forall i | 0 <= i < |ps| ensures [ps[i].value] == ValuesAt(inputs, [] + ps[i].path) {
      GetPathAt(ps, i);
      FindIs(inputs[0], ps[i].path);
      assert [] + ps[i].path == ps[i].path;
      assert ValuesAt(inputs[..0], ps[i].path) == [] && [] + [ps[i].value] == [ps[i].value];
    }
  }

  lemma NextInput<V>(inputs: seq<Dict<Tree<V>>>)
    requires OneShape(inputs) && Clean(inputs[0]) && |inputs| > 1
    ensures var (n, ps) := (|inputs| - 1, Paths(inputs[0]));
      AppendAll(Flat(Zipped(ps, inputs[..n], []), []), Flat(Paths(inputs[n]), [])) == Flat(Zipped(ps, inputs, []), [])
  {
    var n := |inputs| - 1;
    var d, ps := inputs[n], Paths(inputs[0]);
    var qs := Zipped(ps, inputs[..n], []);
    assert Unique(inputs[0]) && Unique(d) && SameShape(inputs[0], d);
    ShapeClean(inputs[0], d);
    PathsProper(inputs[0]);
    PathsDistinct(inputs[0]);
    PathsProper(d);
    PathsDistinct(d);
    forall i | 0 <= i < |Paths(d)| ensures GetPath(qs, Paths(d)[i].path).Some? {
      var path := Paths(d)[i].path;
      GetPathIn(Paths(d), i);
      FindIs(d, path);
      SameFinds(inputs[0], d, path);
      FindIs(inputs[0], path);
      SamePaths(ps, qs, path);
    }
    AppendOld(qs, Paths(d), []);
    forall i | 0 <= i < |ps| ensures Extended(qs, Paths(d))[i] == Zipped(ps, inputs, [])[i] {
      assert [] + ps[i].path == ps[i].path;
      FindIs(d, ps[i].path);
    }
    assert Extended(qs, Paths(d)) == Zipped(ps, inputs, []);
  }

  // ----- Rebuilding the nested dictionary -----

  function Inner<V>(d: Dict<Tree<V>>, k: string): Tree<V> {
    if Get(d, k).Some? then Get(d, k).value else Node([])
  }

  function InsertPaths<V>(target: Tree<V>, ps: seq<At<V>>): Option<Tree<V>>
    decreases ps
  {
    if ps == [] then Some(target) else
      var t := Insert(target, ps[0].path, ps[0].value);
      if t.None? then None else InsertPaths(t.value, ps[1..])
  }

  lemma {:induction false} InsertAllPaths<V>(target: Tree<V>, ps: seq<At<V>>)
    requires Proper(ps)
    ensures InsertAll(target, Flat(ps, [])) == InsertPaths(target, ps)
    decreases ps
  {
    if ps != [] {
      assert [] + ps[0].path == ps[0].path;
      SplitJoin(ps[0].path);
      assert ([""] + ps[0].path)[1..] == ps[0].path;
      assert Flat(ps, [])[1..] == Flat(ps[1..], []);
      var t := Insert(target, ps[0].path, ps[0].value);
      if t.Some? { InsertAllPaths(t.value, ps[1..]); }
    }
  }

  lemma {:induction false} InsertPathsConcat<V>(target: Tree<V>, ps: seq<At<V>>, qs: seq<At<V>>)
    requires InsertPaths(target, ps).Some?
    ensures InsertPaths(target, ps + qs) == InsertPaths(InsertPaths(target, ps).value, qs)
    decreases ps
  {
    if ps == [] {
      assert ps + qs == qs;
    } else {
      assert (ps + qs)[1..] == ps[1..] + qs;
      InsertPathsConcat(Insert(target, ps[0].path, ps[0].value).value, ps[1..], qs);
    }
  }

  lemma UpdateOne<V>(d: Dict<Tree<V>>, k: string, x: Tree<V>)
    ensures NestedUpdate(Node(d), [Entry(k, x)]) ==
      match x
      case Leaf(v) => Some(Node(Put(d, k, x)))
      case Node(sub) =>
        var t := NestedUpdate(Inner(d, k), sub);
        if t.None? then None else Some(Node(Put(d, k, t.value)))
  {
    assert [Entry(k, x)][1..] == [];
  }

  lemma InsertHere<V>(d: Dict<Tree<V>>, k: string, v: V)
    ensures Insert(Node(d), [k], v) == Some(Node(Put(d, k, Leaf(v))))
  {
    assert Chain([k], v) == Node([Entry(k, Leaf(v))]);
    UpdateOne(d, k, Leaf(v));
  }

  lemma InsertBelow<V>(d: Dict<Tree<V>>, k: string, path: seq<string>, v: V)
    requires path != []
    ensures var t := Insert(Inner(d, k), path, v);
      Insert(Node(d), [k] + path, v) == if t.None? then None else Some(Node(Put(d, k, t.value)))
  {
    assert ([k] + path)[1..] == path;
    assert Chain([k] + path, v) == Node([Entry(k, Chain(path, v))]);
    UpdateOne(d, k, Chain(path, v));
  }

  lemma {:induction false} InsertUnder<V>(d: Dict<Tree<V>>, k: string, ps: seq<At<V>>)
    requires ps != [] && Proper(ps) && InsertPaths(Inner(d, k), ps).Some?
    ensures InsertPaths(Node(d), Under(k, ps)) == Some(Node(Put(d, k, InsertPaths(Inner(d, k), ps).value)))
    decreases ps
  {
    InsertBelow(d, k, ps[0].path, ps[0].value);
    assert Under(k, ps)[1..] == Under(k, ps[1..]);
    var t := Insert(Inner(d, k), ps[0].path, ps[0].value).value;
    if |ps| > 1 {
      PutGet(d, k, t, k);
      InsertUnder(Put(d, k, t), k, ps[1..]);
      PutTwice(d, k, t, InsertPaths(t, ps[1..]).value);
    } else {
      assert ps[1..] == [];
    }
  }

  /** Inserting the leaves of a dictionary one after the other rebuilds it. */
  lemma {:induction false} Rebuilds<V>(done: Dict<Tree<V>>, d: Dict<Tree<V>>)
    requires Clean(d) && Unique(d) && forall i :: 0 <= i < |d| ==> Get(done, d[i].key).None?
    ensures InsertPaths(Node(done), Paths(d)) == Some(Node(done + d))
    decreases d
  {
    if d == [] {
      assert done + d == done;
    } else {
      hide Paths, Under, Insert;
      var k, more := d[0].key, done + [d[0]];
      PutNew(done, k, d[0].value);
      forall i | 0 <= i < |d| - 1 ensures Get(more, d[1..][i].key).None? {
        assert d[1..][i] == d[i + 1];
        GetConcat(done, [d[0]], d[i + 1].key);
        GetIn(d[1..], k);
      }
      Rebuilds(more, d[1..]);
      assert more + d[1..] == done + d;
      if d[0].value.Leaf? {
        PathsLeaf(d);
        InsertHere(done, k, d[0].value.value);
        InsertPathsConcat(Node(done), [At([k], d[0].value.value)], Paths(d[1..]));
      } else {
        var sub := d[0].value.kids;
        PathsNode(d);
        PathsProper(sub);
        Rebuilds([], sub);
        assert [] + sub == sub;
        InsertUnder(done, k, Paths(sub));
        InsertPathsConcat(Node(done), Under(k, Paths(sub)), Paths(d[1..]));
      }
    }
  }

  // ----- The result is the pointwise zip -----

  lemma ZippedUnder<V>(k: string, ps: seq<At<V>>, inputs: seq<Dict<Tree<V>>>, prefix: seq<string>)
    ensures Under(k, Zipped(ps, inputs, prefix + [k])) == Zipped(Under(k, ps), inputs, prefix)
  {
    forall i | 0 <= i < |ps| ensures prefix + [k] + ps[i].path == prefix + ([k] + ps[i].path) {}
  }

  lemma ZippedConcat<V>(ps: seq<At<V>>, qs: seq<At<V>>, inputs: seq<Dict<Tree<V>>>, prefix: seq<string>)
    ensures Zipped(ps, inputs, prefix) + Zipped(qs, inputs, prefix) == Zipped(ps + qs, inputs, prefix)
  {
  }

  lemma {:induction false} PathsZip<V>(d: Dict<Tree<V>>, inputs: seq<Dict<Tree<V>>>, prefix: seq<string>)
    ensures Paths(Zip(d, inputs, prefix)) == Zipped(Paths(d), inputs, prefix)
    decreases d
  {
    if d != [] {
      hide Paths, Under, ValuesAt;
      var k, z := d[0].key, Zip(d, inputs, prefix);
      PathsZip(d[1..], inputs, prefix);
      assert z[1..] == Zip(d[1..], inputs, prefix);
      match d[0].value
      case Leaf(v) =>
        PathsLeaf(d);
        PathsLeaf(z);
        ZippedConcat([At([k], v)], Paths(d[1..]), inputs, prefix);
        assert Zipped([At([k], v)], inputs, prefix) == [At([k], ValuesAt(inputs, prefix + [k]))];
      case Node(sub) =>
        PathsNode(d);
        PathsNode(z);
        PathsZip(sub, inputs, prefix + [k]);
        ZippedUnder(k, Paths(sub), inputs, prefix);
        ZippedConcat(Under(k, Paths(sub)), Paths(d[1..]), inputs, prefix);
    }
  }

  lemma {:induction false} ZipGet<V>(d: Dict<Tree<V>>, inputs: seq<Dict<Tree<V>>>, prefix: seq<string>, k: string)
    ensures Get(Zip(d, inputs, prefix), k).Some? == Get(d, k).Some?
    decreases d
  {
    if d != [] {
      assert Zip(d, inputs, prefix)[1..] == Zip(d[1..], inputs, prefix);
      ZipGet(d[1..], inputs, prefix, k);
    }
  }

  lemma {:induction false} ZipKeeps<V>(d: Dict<Tree<V>>, inputs: seq<Dict<Tree<V>>>, prefix: seq<string>)
    ensures Clean(Zip(d, inputs, prefix)) == Clean(d)
    ensures Unique(Zip(d, inputs, prefix)) == Unique(d)
    decreases d
  {
    if d != [] {
      assert Zip(d, inputs, prefix)[1..] == Zip(d[1..], inputs, prefix);
      ZipKeeps(d[1..], inputs, prefix);
      ZipGet(d[1..], inputs, prefix, d[0].key);
      match d[0].value
      case Leaf(_) =>
      case Node(sub) => ZipKeeps(sub, inputs, prefix + [d[0].key]);
    }
  }

  /** With clean inputs of one shape the merged dictionary is the zip of the inputs, in the first one's key order. */
  lemma MergeZips<V>(inputs: seq<Dict<Tree<V>>>)
    requires OneShape(inputs) && Clean(inputs[0])
    ensures Merge(inputs) == Some(Node(Zip(inputs[0], inputs, [])))
  {
    var z := Zip(inputs[0], inputs, []);
    assert Unique(inputs[0]);
    MergedIs(inputs);
    ZipKeeps(inputs[0], inputs, []);
    PathsZip(inputs[0], inputs, []);
    PathsProper(z);
    InsertAllPaths(Node([]), Paths(z));
    Rebuilds([], z);
    assert [] + z == z;
  }

  // ----- What is rebuilt is always clean -----

  predicate CleanTree<V>(t: Tree<V>) {
    t.Node? ==> Clean(t.kids)
  }

  lemma {:induction false} PutClean<V>(d: Dict<Tree<V>>, k: string, x: Tree<V>)
    requires Clean(d) && NoSlash(k) && CleanTree(x) && (x.Node? ==> x.kids != [])
    ensures Clean(Put(d, k, x)) && Put(d, k, x) != []
    decreases d
  {
    if d == [] {
      assert [Entry(k, x)][1..] == [];
    } else if d[0].key == k {
      assert ([Entry(k, x)] + d[1..])[1..] == d[1..];
    } else {
      PutClean(d[1..], k, x);
      assert Put(d, k, x)[1..] == Put(d[1..], k, x);
    }
  }

  lemma {:induction false} InsertClean<V>(target: Tree<V>, path: seq<string>, v: V)
    requires CleanTree(target) && NoSlashes(path) && Insert(target, path, v).Some?
    ensures var t := Insert(target, path, v).value; t.Node? && t.kids != [] && CleanTree(t)
    decreases path
  {
    hide Insert, Clean;
    InsertNeeds(target, path, v);
    var d, k := target.kids, path[0];
    if |path| == 1 {
      assert path == [k];
      InsertHere(d, k, v);
      PutClean(d, k, Leaf(v));
    } else {
      var rest := path[1..];
      assert path == [k] + rest;
      InsertBelow(d, k, rest, v);
      InnerClean(d, k);
      InsertClean(Inner(d, k), rest, v);
      PutClean(d, k, Insert(Inner(d, k), rest, v).value);
    }
  }

  lemma InnerClean<V>(d: Dict<Tree<V>>, k: string)
    requires Clean(d)
    ensures CleanTree(Inner(d, k))
  {
    if Get(d, k).Some? { CleanAt(d, k); }
  }

  lemma InsertNeeds<V>(target: Tree<V>, path: seq<string>, v: V)
    requires Insert(target, path, v).Some?
    ensures target.Node? && path != []
  {
  }

  lemma {:induction false} InsertAllClean<V>(target: Tree<V>, flat: Dict<V>)
    requires target.Node? && CleanTree(target) && InsertAll(target, flat).Some?
    ensures InsertAll(target, flat).value.Node? && CleanTree(InsertAll(target, flat).value)
    decreases flat
  {
    hide Insert, Split;
    if flat != [] {
      var path := Split(flat[0].key)[1..];
      SplitNoSlash(flat[0].key);
      InsertClean(target, path, flat[0].value);
      InsertAllClean(Insert(target, path, flat[0].value).value, flat[1..]);
    }
  }

  /**
    Main result, the exact condition: inputs of one shape merge into their zip if and only if no key holds a '/' and
    no nested dictionary is empty. Otherwise the result does not even have their shape, or an exception is raised.
   */
  lemma MergeIff<V>(inputs: seq<Dict<Tree<V>>>)
    requires OneShape(inputs)
    ensures Clean(inputs[0]) <==> Merge(inputs) == Some(Node(Zip(inputs[0], inputs, [])))
    ensures !Clean(inputs[0]) && Merge(inputs).Some? ==>
      Merge(inputs).value.Node? && !SameShape(Merge(inputs).value.kids, inputs[0])
  {
    assert Unique(inputs[0]);
    if Clean(inputs[0]) {
      MergeZips(inputs);
    } else {
      ZipKeeps(inputs[0], inputs, []);
      if Merge(inputs).Some? {
        MergeClean(inputs);
        if SameShape(Merge(inputs).value.kids, inputs[0]) {
          ShapeClean(Merge(inputs).value.kids, inputs[0]);
        }
      }
    }
  }

  lemma MergeClean<V>(inputs: seq<Dict<Tree<V>>>)
    requires Merge(inputs).Some?
    ensures Merge(inputs).value.Node? && Clean(Merge(inputs).value.kids)
  {
    InsertAllClean(Node([]), Merged(inputs));
  }

  /** The zip has the first input's shape, and its leaf at each path lists the inputs' leaves there. */
  lemma {:induction false} ZipFinds<V>(d: Dict<Tree<V>>, inputs: seq<Dict<Tree<V>>>, prefix: seq<string>,
                                       path: seq<string>)
    ensures Find(Zip(d, inputs, prefix), path) ==
      if Find(d, path).Some? then Some(ValuesAt(inputs, prefix + path)) else None
    decreases d
  {
    if d != [] {
      hide ValuesAt;
      var k := d[0].key;
      assert Zip(d, inputs, prefix)[1..] == Zip(d[1..], inputs, prefix);
      if path != [] && path[0] == k {
        if |path| == 1 { assert path == [k]; }
        assert prefix + [k] + path[1..] == prefix + path;
        if d[0].value.Node? { ZipFinds(d[0].value.kids, inputs, prefix + [k], path[1..]); }
      } else {
        ZipFinds(d[1..], inputs, prefix, path);
        FindElsewhere(d, path);
        FindElsewhere(Zip(d, inputs, prefix), path);
      }
    }
  }

  lemma FindElsewhere<V>(d: Dict<Tree<V>>, path: seq<string>)
    requires d != [] && (path == [] || path[0] != d[0].key)
    ensures Find(d, path) == Find(d[1..], path)
  {
  }

  /** With inputs of one shape that list has one leaf of each input. */
  lemma ValuesAll<V>(inputs: seq<Dict<Tree<V>>>, path: seq<string>)
    requires OneShape(inputs) && Find(inputs[0], path).Some?
    ensures |ValuesAt(inputs, path)| == |inputs|
    ensures forall j :: 0 <= j < |inputs| ==> Find(inputs[j], path) == Some(ValuesAt(inputs, path)[j])
  {
    forall j | 0 <= j < |inputs| ensures Find(inputs[j], path).Some? {
      assert SameShape(inputs[0], inputs[j]);
      SameFinds(inputs[0], inputs[j], path);
    }
    FoundValues(inputs, path);
  }

  lemma {:induction false} FoundValues<V>(inputs: seq<Dict<Tree<V>>>, path: seq<string>)
    requires forall j :: 0 <= j < |inputs| ==> Find(inputs[j], path).Some?
    ensures |ValuesAt(inputs, path)| == |inputs|
    ensures forall j :: 0 <= j < |inputs| ==> Find(inputs[j], path) == Some(ValuesAt(inputs, path)[j])
  {
    hide Find;
    if inputs != [] {
      var n := |inputs| - 1;
      forall j | 0 <= j < n ensures inputs[..n][j] == inputs[j] {}
      FoundValues(inputs[..n], path);
    }
  }

  // ----- The loops -----

  method FlattenDict<V>(target: Dict<Tree<V>>, base: string) returns (res: Dict<V>)
    ensures res == FlattenInto([], target, base)
    decreases target
  {
    res := [];
    for i := 0 to |target|
      invariant FlattenInto(res, target[i..], base) == FlattenInto([], target, base)
    {
      var path := base + "/" + target[i].key;
      match target[i].value
      case Leaf(v) =>
        res := Put(res, path, v);
      case Node(sub) =>
        var inner := FlattenDict(sub, path);
        res := PutAll(res, inner);
      assert target[i..][1..] == target[i + 1..];
    }
  }

  method GetMergedFlatDicts<V>(inputs: seq<Dict<Tree<V>>>) returns (res: Dict<seq<V>>)
    ensures res == Merged(inputs)
  {
    res := [];
    for n := 0 to |inputs|
      invariant res == Merged(inputs[..n])
    {
      var flat := FlattenDict(inputs[n], "");
      for i := 0 to |flat|
        invariant AppendAll(res, flat[i..]) == AppendAll(Merged(inputs[..n]), flat)
      {
        var sofar := Get(res, flat[i].key);
        res := Put(res, flat[i].key, (if sofar.Some? then sofar.value else []) + [flat[i].value]);
        assert flat[i..][1..] == flat[i + 1..];
      }
      assert inputs[..n + 1][..n] == inputs[..n];
    }
    assert inputs[..|inputs|] == inputs;
  }

  method MergeDicts<V>(inputs: seq<Dict<Tree<V>>>) returns (merged: Option<Tree<seq<V>>>)
    ensures merged == Merge(inputs)
  {
    var flat := GetMergedFlatDicts(inputs);
    var t: Tree<seq<V>> := Node([]);
    for i := 0 to |flat|
      invariant InsertAll(t, flat[i..]) == Merge(inputs)
    {
      var next := Insert(t, Split(flat[i].key)[1..], flat[i].value);
      assert flat[i..][1..] == flat[i + 1..];
      if next.None? { return None; }
      t := next.value;
    }
    return Some(t);
  }

  lemma OneMerged<V>(key: string, v: V)
    ensures Merged([[Entry(key, Leaf(v))]]) == [Entry("" + "/" + key, [v])]
  {
    var path := "" + "/" + key;
    var d: Dict<Tree<V>> := [Entry(key, Leaf(v))];
    var flat: Dict<V> := [Entry(path, v)];
    var merged: Dict<seq<V>> := [Entry(path, [v])];
    assert FlattenInto([], d, "") == flat by {
      assert d[1..] == [] && FlattenInto(Put([], path, v), [], "") == Put([], path, v);
    }
    assert [d][..0] == [] && flat[1..] == [] && [] + [v] == [v];
    assert AppendAll([], flat) == AppendAll(merged, []);
  }

  /** A key with a '/' comes back as a nested dictionary. */
  lemma SlashNests<V>(a: string, b: string, v: V)
    requires NoSlash(a) && NoSlash(b)
    ensures Merge([[Entry(a + "/" + b, Leaf(v))]]) == Some(Node([Entry(a, Node([Entry(b, Leaf([v]))]))]))
  {
    hide Split, Insert, Merged;
    var path := "" + "/" + (a + "/" + b);
    var merged: Dict<seq<V>> := [Entry(path, [v])];
    OneMerged(a + "/" + b, v);
    assert Split(path) == ["", a, b] by {
      SplitJoin([a, b]);
      assert [a, b][1..] == [b] && [b][1..] == [];
      assert Join([b]) == "/" + b && Join([a, b]) == path;
      assert [""] + [a, b] == ["", a, b];
    }
    ChainTwo(a, b, [v]);
    assert Split(path)[1..] == [a, b] && merged[1..] == [];
    assert InsertAll(Node([]), merged) == Insert(Node([]), [a, b], [v]);
  }

  lemma ChainTwo<V>(a: string, b: string, v: V)
    ensures Insert(Node([]), [a, b], v) == Some(Node([Entry(a, Node([Entry(b, Leaf(v))]))]))
  {
    var leaf: Dict<Tree<V>> := [Entry(b, Leaf(v))];
    var kids: Dict<Tree<V>> := [Entry(a, Node(leaf))];
    assert [a, b][1..] == [b] && [b][1..] == [] && leaf[1..] == [] && kids[1..] == [];
    assert Chain([], v) == Leaf(v) && Chain([b], v) == Node(leaf);
    var path := [a, b];
    assert path[0] == a && path[1..] == [b] && Chain(path, v) == Node([Entry(path[0], Chain(path[1..], v))]);
    assert NestedUpdate(Node(leaf), []) == Some(Node(leaf)) && NestedUpdate(Node(kids), []) == Some(Node(kids));
    assert NestedUpdate(Node([]), leaf) == NestedUpdate(Node(leaf), []);
    assert NestedUpdate(Node([]), kids) == NestedUpdate(Node(kids), []);
  }

  /** An empty nested dictionary is lost. */
  lemma EmptyLost<V>(k: string)
    ensures Merge<V>([[Entry(k, Node([]))]]) == Some(Node([]))
  {
    var d: Dict<Tree<V>> := [Entry(k, Node([]))];
    assert d[1..] == [] && [d][..0] == [];
    assert FlattenInto([], d, "") == [];
    assert Merged([d]) == [];
  }
}
