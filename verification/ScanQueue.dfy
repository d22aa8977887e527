/**
  Inserting requests into a scan queue: a request joins the queued item that holds its scan def or, without a
  scan def, the one of its group; otherwise it starts a new item.
 */
module ScanQueues {
  import opened Instructions

  /** `assembles` is false for a request the assembler rejects with an exception. */
  datatype Message = Message(
    requestId: string,
    scanDefId: Option<string>,
    group: Option<string>,
    isScan: bool,
    assembles: bool)

  datatype Block = Block(msg: Message, scanID: Option<nat>)

  /** A queue item; `defs` maps its open scan defs to their scan ID. */
  datatype Item = Item(group: Option<string>, defs: map<string, nat>, blocks: seq<Block>)

  // ----- One insert -----

  /** The item after a request is appended to it; `uuid` is the ID drawn for the new block. */
  function Grow(x: Item, m: Message, uuid: nat): Item {
    if m.scanDefId.None? then x.(blocks := x.blocks + [Block(m, if m.isScan then Some(uuid) else None)])
    else if m.scanDefId.value in x.defs then x.(blocks := x.blocks + [Block(m, Some(x.defs[m.scanDefId.value]))])
    else x.(defs := x.defs[m.scanDefId.value := uuid], blocks := x.blocks + [Block(m, Some(uuid))])
  }

  function NewItem(m: Message, uuid: nat): Item {
    Grow(Item(None, map[], []), m, uuid).(group := m.group)
  }

  predicate Holds(x: Item, m: Message) {
    if m.scanDefId.Some? then m.scanDefId.value in x.defs else m.group.Some? && x.group == m.group
  }

  /** The first item a request belongs to; the length of the queue if there is none. */
  function Find(q: seq<Item>, m: Message): (i: nat)
    ensures i <= |q| && (i < |q| ==> Holds(q[i], m)) && forall j :: 0 <= j < i ==> !Holds(q[j], m)
  {
    if q == [] || Holds(q[0], m) then 0 else
      var i := Find(q[1..], m);
      assert forall j :: 1 <= j < i + 1 ==> q[j] == q[1..][j - 1];
      i + 1
  }

  /** Where `deque.insert` puts an element; the queue takes -1 for the end. */
  function Position(position: int, n: nat): (p: nat)
    ensures p <= n
  {
    if position == -1 || position > n then n
    else if position >= 0 then position
    else if n + position >= 0 then n + position else 0
  }

  function InsertAt<T>(s: seq<T>, p: nat, x: T): seq<T>
    requires p <= |s|
  {
    s[..p] + [x] + s[p..]
  }

  function Inserted(q: seq<Item>, m: Message, position: int, uuid: nat): seq<Item> {
    var i := Find(q, m);
    if !m.assembles then q
    else if i < |q| then q[i := Grow(q[i], m, uuid)]
    else InsertAt(q, Position(position, |q|), NewItem(m, uuid))
  }

  function Closed(x: Item, d: string): Item {
    x.(defs := x.defs - {d})
  }

  // ----- The objects -----

  class InstructionQueueItem {
    var group: Option<string>
    var defs: map<string, nat>
    var blocks: seq<Block>
    var scanMsgs: seq<Message>

    constructor ()
      ensures Value() == Item(None, map[], []) && scanMsgs == []
    {
      group, defs, blocks, scanMsgs := None, map[], [], [];
    }

    ghost function Value(): Item
      reads this
    {
      Item(group, defs, blocks)
    }

    /** Returns false when assembling the request raises; only the list of messages has grown then. */
    method AppendScanRequest(m: Message, uuid: nat) returns (ok: bool)
      modifies this`defs, this`blocks, this`scanMsgs
      ensures ok == m.assembles
      ensures scanMsgs == old(scanMsgs) + [m]
      ensures Value() == if ok then Grow(old(Value()), m, uuid) else old(Value())
    {
      scanMsgs := scanMsgs + [m];
      if !m.assembles { return false; }
      var block := Block(m, if m.isScan || m.scanDefId.Some? then Some(uuid) else None);
      if m.scanDefId.Some? {
        if m.scanDefId.value in defs {
          block := block.(scanID := Some(defs[m.scanDefId.value]));
        } else {
          defs := defs[m.scanDefId.value := uuid];
        }
      }
      blocks := blocks + [block];
      return true;
    }

    method CloseScanDef(d: string)
      modifies this`defs
      ensures Value() == Closed(old(Value()), d)
    {
      if d in defs {
        defs := defs - {d};
      } else {
        assert defs - {d} == defs;
      }
    }
  }

  class ScanQueue {
    var queue: seq<InstructionQueueItem>
    var active: InstructionQueueItem?

    constructor ()
      ensures Valid() && Items() == [] && active == null
    {
      queue, active := [], null;
    }

    ghost predicate Valid()
      reads this
    {
      Distinct(queue)
    }

    ghost function Items(): (s: seq<Item>)
      reads this, queue
      ensures |s| == |queue| && forall k :: 0 <= k < |s| ==> s[k] == queue[k].Value()
    {
      seq(|queue|, k requires 0 <= k < |queue| reads this, queue => queue[k].Value())
    }

    method GetQueueItem(m: Message) returns (found: nat)
      ensures found == Find(Items(), m)
    {
      found := 0;
      if m.scanDefId.Some? {
        while found < |queue|
          invariant found <= |queue|
          invariant forall j :: 0 <= j < found ==> !Holds(Items()[j], m)
        {
          if m.scanDefId.value in queue[found].defs { break; }
          found := found + 1;
        }
      } else if m.group.Some? {
        while found < |queue|
          invariant found <= |queue|
          invariant forall j :: 0 <= j < found ==> !Holds(Items()[j], m)
        {
          if queue[found].group == m.group { break; }
          found := found + 1;
        }
      } else {
        found := |queue|;
      }
    }

    /** Appends a request to a queued item. */
    method Join(found: nat, m: Message, uuid: nat) returns (ok: bool)
      requires Valid() && found < |queue|
      modifies queue[found]
      ensures Valid() && ok == m.assembles
      ensures Items() == if ok then old(Items())[found := Grow(old(Items())[found], m, uuid)] else old(Items())
    {
      hide Grow;
      ok := queue[found].AppendScanRequest(m, uuid);
    }

    method Place(position: int, item: InstructionQueueItem)
      requires Valid() && item !in queue
      modifies this`queue
      ensures Valid()
      ensures Items() == InsertAt(old(Items()), Position(position, |old(Items())|), item.Value())
    {
      if position == -1 {
        queue := queue + [item];
      } else {
        var p := Position(position, |queue|);
        queue := queue[..p] + [item] + queue[p..];
      }
    }

    method Insert(m: Message, position: int, uuid: nat) returns (ok: bool)
      requires Valid()
      modifies this`queue, queue
      ensures Valid() && ok == m.assembles
      ensures Items() == Inserted(old(Items()), m, position, uuid)
    {
      hide Grow, InsertAt, Holds, Position;
      var found := GetQueueItem(m);
      if found < |queue| {
        ok := Join(found, m, uuid);
      } else {
        var item := new InstructionQueueItem();
        ok := item.AppendScanRequest(m, uuid);
        assert Items() == old(Items());
        if ok {
          item.group := m.group;
          Place(position, item);
        }
      }
    }

    method Popleft()
      requires Valid() && queue != []
      modifies this`queue
      ensures Valid() && Items() == old(Items())[1..]
    {
      queue := queue[1..];
      assert Items() == old(Items())[1..];
    }

    method Clear()
      modifies this
      ensures Valid() && Items() == [] && active == null
    {
      queue, active := [], null;
    }
  }

  // ----- Every run -----

  /** `CloseDef` is the worker passing a close_scan_def of a queued item; `Pop` the queue moving on. */
  datatype Event =
    | Insert(msg: Message, position: int)
    | CloseDef(index: nat, id: string)
    | Pop
    | Clear

  /** `retired` holds the items that left the queue, `issued` counts the IDs drawn so far. */
  datatype State = State(queue: seq<Item>, retired: seq<Item>, issued: nat)

  function Step(s: State, e: Event): State {
    match e
    case Insert(m, position) =>
      s.(queue := Inserted(s.queue, m, position, s.issued), issued := s.issued + 1)
    case CloseDef(i, d) =>
      if i < |s.queue| then s.(queue := s.queue[i := Closed(s.queue[i], d)]) else s
    case Pop =>
      if s.queue == [] then s else s.(queue := s.queue[1..], retired := s.retired + [s.queue[0]])
    case Clear =>
      s.(queue := [], retired := s.retired + s.queue)
  }

  function Run(es: seq<Event>): State {
    if es == [] then State([], [], 0) else Step(Run(es[..|es| - 1]), es[|es| - 1])
  }

  function All(s: State): seq<Item> {
    s.retired + s.queue
  }

  function Assembled(e: Event): multiset<Message> {
    if e.Insert? && e.msg.assembles then multiset{e.msg} else multiset{}
  }

  /** The requests that could be assembled. */
  function Accepted(es: seq<Event>): multiset<Message> {
    if es == [] then multiset{} else Accepted(es[..|es| - 1]) + Assembled(es[|es| - 1])
  }

  function HeldBy(bs: seq<Block>): multiset<Message> {
    if bs == [] then multiset{} else HeldBy(bs[..|bs| - 1]) + multiset{bs[|bs| - 1].msg}
  }

  /** The requests of all blocks of all items. */
  function Held(s: seq<Item>): multiset<Message> {
    if s == [] then multiset{} else HeldBy(s[0].blocks) + Held(s[1..])
  }

  function Ids(x: Item): set<nat> {
    set b | b in x.blocks && b.scanID.Some? :: b.scanID.value
  }

  // ----- What holds of two items, and of any two of a list -----

  ghost predicate Pairwise(s: seq<Item>, apart: (Item, Item) -> bool) {
    forall i, j :: 0 <= i < |s| && 0 <= j < |s| && i != j ==> apart(s[i], s[j])
  }

  predicate DefsApart(x: Item, y: Item) {
    x.defs.Keys !! y.defs.Keys
  }

  predicate GroupsApart(x: Item, y: Item) {
    x.group.Some? ==> x.group != y.group
  }

  predicate IdsApart(x: Item, y: Item) {
    Ids(x) !! Ids(y)
  }

  ghost predicate ApartFrom(s: seq<Item>, x: Item, apart: (Item, Item) -> bool) {
    forall i :: 0 <= i < |s| ==> apart(s[i], x) && apart(x, s[i])
  }

  lemma PairwiseInsert(s: seq<Item>, p: nat, x: Item, apart: (Item, Item) -> bool)
    requires p <= |s| && Pairwise(s, apart) && ApartFrom(s, x, apart)
    ensures Pairwise(InsertAt(s, p, x), apart)
  {
    var t := InsertAt(s, p, x);
    forall i, j | 0 <= i < |t| && 0 <= j < |t| && i != j ensures apart(t[i], t[j]) {
      var i', j' := if i < p then i else i - 1, if j < p then j else j - 1;
      if i == p {
        assert t[j] == s[j'];
      } else if j == p {
        assert t[i] == s[i'];
      } else {
        assert t[i] == s[i'] && t[j] == s[j'];
      }
    }
  }

  lemma PairwiseInsertBack(s: seq<Item>, p: nat, x: Item, apart: (Item, Item) -> bool)
    requires p <= |s| && Pairwise(InsertAt(s, p, x), apart)
    ensures ApartFrom(s, x, apart)
  {
    var t := InsertAt(s, p, x);
    forall i | 0 <= i < |s| ensures apart(s[i], x) && apart(x, s[i]) {
      var i' := if i < p then i else i + 1;
      assert t[i'] == s[i] && t[p] == x;
    }
  }

  lemma PairwiseUpdate(s: seq<Item>, i: nat, x: Item, apart: (Item, Item) -> bool)
    requires i < |s| && Pairwise(s, apart)
    requires forall j :: 0 <= j < |s| && j != i ==> apart(s[j], x) && apart(x, s[j])
    ensures Pairwise(s[i := x], apart)
  {
  }

  lemma {:induction false} HeldConcat(s: seq<Item>, t: seq<Item>)
    ensures Held(s + t) == Held(s) + Held(t)
  {
    if s == [] {
      assert s + t == t;
    } else {
      assert (s + t)[1..] == s[1..] + t;
      HeldConcat(s[1..], t);
    }
  }

  lemma HeldCons(x: Item, s: seq<Item>)
    ensures Held([x] + s) == HeldBy(x.blocks) + Held(s)
  {
    assert ([x] + s)[1..] == s;
  }

  lemma HeldInsert(s: seq<Item>, p: nat, x: Item)
    requires p <= |s|
    ensures Held(InsertAt(s, p, x)) == Held(s) + HeldBy(x.blocks)
  {
    hide Held, HeldBy;
    assert InsertAt(s, p, x) == s[..p] + ([x] + s[p..]);
    HeldConcat(s[..p], [x] + s[p..]);
    HeldCons(x, s[p..]);
    HeldConcat(s[..p], s[p..]);
    assert s[..p] + s[p..] == s;
  }

  lemma HeldUpdate(s: seq<Item>, i: nat, x: Item, more: multiset<Message>)
    requires i < |s| && HeldBy(x.blocks) == HeldBy(s[i].blocks) + more
    ensures Held(s[i := x]) == Held(s) + more
  {
    hide Held, HeldBy;
    var t := s[..i] + s[i + 1..];
    assert s == InsertAt(t, i, s[i]) && s[i := x] == InsertAt(t, i, x);
    HeldInsert(t, i, s[i]);
    HeldInsert(t, i, x);
  }

  // ----- One item -----

  /**
    An item carries the group of its first request and at most one scan def, that of its first request. Its other
    requests belong to that scan def or, without a scan def, to that group. All blocks of the scan def share one
    scan ID, also after the scan def was closed; no other two blocks do.
   */
  ghost predicate Coherent(x: Item) {
    && x.blocks != []
    && var first := x.blocks[0];
    && x.group == first.msg.group
    && (forall d :: d in x.defs ==> first.msg.scanDefId == Some(d) && first.scanID == Some(x.defs[d]))
    && (forall k :: 0 < k < |x.blocks| ==> Belongs(x.blocks[k], first, x.group))
    && (first.msg.scanDefId.Some? ==> first.scanID.Some?)
    && (forall k, l :: 0 <= k < l < |x.blocks| && x.blocks[k].scanID.Some? && x.blocks[k].scanID == x.blocks[l].scanID
         ==> x.blocks[k].msg.scanDefId.Some? && x.blocks[l].msg.scanDefId.Some?)
  }

  predicate Belongs(b: Block, first: Block, group: Option<string>) {
    if b.msg.scanDefId.Some? then b.msg.scanDefId == first.msg.scanDefId && b.scanID == first.scanID
    else group.Some? && b.msg.group == group
  }

  predicate Below(x: Item, n: nat) {
    forall id :: id in Ids(x) ==> id < n
  }

  lemma IdIn(x: Item, k: nat)
    requires k < |x.blocks| && x.blocks[k].scanID.Some?
    ensures x.blocks[k].scanID.value in Ids(x)
  {
    assert x.blocks[k] in x.blocks;
  }

  lemma GrowCoherent(x: Item, m: Message, uuid: nat)
    requires Coherent(x) && Holds(x, m) && Below(x, uuid)
    ensures Coherent(Grow(x, m, uuid))
  {
    var y := Grow(x, m, uuid);
    var n := |x.blocks|;
    assert y.blocks[..n] == x.blocks;
    forall k, l | 0 <= k < l < |y.blocks| && y.blocks[k].scanID.Some? && y.blocks[k].scanID == y.blocks[l].scanID
      ensures y.blocks[k].msg.scanDefId.Some? && y.blocks[l].msg.scanDefId.Some?
    {
      if l == n {
        assert y.blocks[k] == x.blocks[k];
        IdIn(x, k);
        if k > 0 { assert Belongs(x.blocks[k], x.blocks[0], x.group); }
      }
    }
  }

  lemma NewItemCoherent(m: Message, uuid: nat)
    ensures Coherent(NewItem(m, uuid)) && Below(NewItem(m, uuid), uuid + 1)
    ensures HeldBy(NewItem(m, uuid).blocks) == multiset{m}
    ensures NewItem(m, uuid).defs.Keys == if m.scanDefId.Some? then {m.scanDefId.value} else {}
    ensures Ids(NewItem(m, uuid)) <= {uuid}
  {
  }

  lemma GrowHolds(x: Item, m: Message, uuid: nat)
    requires Holds(x, m)
    ensures HeldBy(Grow(x, m, uuid).blocks) == HeldBy(x.blocks) + multiset{m}
    ensures Grow(x, m, uuid).defs == x.defs && Grow(x, m, uuid).group == x.group
  {
    var bs := Grow(x, m, uuid).blocks;
    assert bs[..|bs| - 1] == x.blocks;
  }

  lemma GrowIds(x: Item, m: Message, uuid: nat)
    requires Coherent(x) && Holds(x, m)
    ensures Ids(Grow(x, m, uuid)) <= Ids(x) + {uuid}
  {
    if m.scanDefId.Some? { IdIn(x, 0); }
  }

  // ----- The invariant -----

  ghost predicate AllCoherent(s: seq<Item>, n: nat) {
    forall i :: 0 <= i < |s| ==> Coherent(s[i]) && Below(s[i], n)
  }

  /**
    Every accepted request is one block of exactly one item; items are coherent; no scan def is open in two queued
    items; no two items, queued or retired, share a scan ID.
   */
  ghost predicate Kept(s: State, accepted: multiset<Message>) {
    && Held(All(s)) == accepted
    && AllCoherent(All(s), s.issued)
    && Pairwise(s.queue, DefsApart)
    && Pairwise(All(s), IdsApart)
  }

  lemma StillBelow(s: seq<Item>, n: nat)
    requires AllCoherent(s, n)
    ensures AllCoherent(s, n + 1)
  {
  }

  lemma FreshBelow(x: Item, y: Item, n: nat)
    requires Below(x, n) && Ids(y) <= Ids(x) + {n}
    ensures Below(y, n + 1)
  {
  }

  lemma FreshApart(z: Item, x: Item, y: Item, n: nat)
    requires IdsApart(z, x) && Below(z, n) && Ids(y) <= Ids(x) + {n}
    ensures IdsApart(z, y) && IdsApart(y, z)
  {
  }

  lemma AllCoherentUpdate(s: seq<Item>, i: nat, x: Item, n: nat)
    requires i < |s| && AllCoherent(s, n) && Coherent(x) && Below(x, n)
    ensures AllCoherent(s[i := x], n)
  {
  }

  lemma AllCoherentInsert(s: seq<Item>, p: nat, x: Item, n: nat)
    requires p <= |s| && AllCoherent(s, n) && Coherent(x) && Below(x, n)
    ensures AllCoherent(InsertAt(s, p, x), n)
  {
    hide Coherent, Below;
    var t := InsertAt(s, p, x);
    forall i | 0 <= i < |t| ensures Coherent(t[i]) && Below(t[i], n) {
      assert t[i] == if i < p then s[i] else if i == p then x else s[i - 1];
    }
  }

  lemma JoinKeeps(s: State, m: Message, i: nat, accepted: multiset<Message>)
    requires Kept(s, accepted) && i < |s.queue| && Holds(s.queue[i], m)
    ensures Kept(State(s.queue[i := Grow(s.queue[i], m, s.issued)], s.retired, s.issued + 1), accepted + multiset{m})
  {
    hide Grow, Coherent, Below, Ids, HeldBy, Held, Holds;
    var x, n := s.queue[i], |s.retired|;
    var y := Grow(x, m, s.issued);
    var t := State(s.queue[i := y], s.retired, s.issued + 1);
    assert All(s)[n + i] == x && All(t) == All(s)[n + i := y];
    GrowCoherent(x, m, s.issued);
    GrowHolds(x, m, s.issued);
    GrowIds(x, m, s.issued);
    HeldUpdate(All(s), n + i, y, multiset{m});
    StillBelow(All(s), s.issued);
    FreshBelow(x, y, s.issued);
    AllCoherentUpdate(All(s), n + i, y, t.issued);
    forall j | 0 <= j < |s.queue| && j != i ensures DefsApart(s.queue[j], y) && DefsApart(y, s.queue[j]) {
      assert DefsApart(s.queue[j], x) && DefsApart(x, s.queue[j]);
    }
    PairwiseUpdate(s.queue, i, y, DefsApart);
    forall j | 0 <= j < |All(s)| && j != n + i ensures IdsApart(All(s)[j], y) && IdsApart(y, All(s)[j]) {
      FreshApart(All(s)[j], x, y, s.issued);
    }
    PairwiseUpdate(All(s), n + i, y, IdsApart);
  }

  lemma StartKeeps(s: State, m: Message, p: nat, accepted: multiset<Message>)
    requires Kept(s, accepted) && p <= |s.queue|
    requires forall j :: 0 <= j < |s.queue| ==> !Holds(s.queue[j], m)
    ensures Kept(State(InsertAt(s.queue, p, NewItem(m, s.issued)), s.retired, s.issued + 1), accepted + multiset{m})
  {
    hide NewItem, Coherent, Below, Ids, HeldBy, Held, AllCoherent, Pairwise, ApartFrom;
    var y, n := NewItem(m, s.issued), |s.retired|;
    var t := State(InsertAt(s.queue, p, y), s.retired, s.issued + 1);
    assert All(t) == InsertAt(All(s), n + p, y);
    NewItemCoherent(m, s.issued);
    HeldInsert(All(s), n + p, y);
    StillBelow(All(s), s.issued);
    AllCoherentInsert(All(s), n + p, y, t.issued);
    NewDefsApart(s.queue, m, s.issued);
    PairwiseInsert(s.queue, p, y, DefsApart);
    NewIdsApart(All(s), y, s.issued);
    PairwiseInsert(All(s), n + p, y, IdsApart);
  }

  lemma NewDefsApart(q: seq<Item>, m: Message, uuid: nat)
    requires forall j :: 0 <= j < |q| ==> !Holds(q[j], m)
    ensures ApartFrom(q, NewItem(m, uuid), DefsApart)
  {
    hide NewItem;
    NewItemCoherent(m, uuid);
    forall j | 0 <= j < |q| ensures DefsApart(q[j], NewItem(m, uuid)) && DefsApart(NewItem(m, uuid), q[j]) {
      assert !Holds(q[j], m);
    }
  }

  lemma NewIdsApart(s: seq<Item>, y: Item, n: nat)
    requires AllCoherent(s, n) && Ids(y) <= {n}
    ensures ApartFrom(s, y, IdsApart)
  {
    forall j | 0 <= j < |s| ensures IdsApart(s[j], y) && IdsApart(y, s[j]) {
      assert Below(s[j], n);
    }
  }

  lemma InsertKeeps(s: State, m: Message, position: int, accepted: multiset<Message>)
    requires Kept(s, accepted)
    ensures Kept(Step(s, Insert(m, position)), accepted + if m.assembles then multiset{m} else multiset{})
  {
    hide Kept, Grow, NewItem, InsertAt, Holds, Find, Position;
    var i := Find(s.queue, m);
    if !m.assembles {
      IssueKeeps(s, accepted);
      assert accepted + multiset{} == accepted;
    } else if i < |s.queue| {
      JoinKeeps(s, m, i, accepted);
    } else {
      StartKeeps(s, m, Position(position, |s.queue|), accepted);
    }
  }

  lemma IssueKeeps(s: State, accepted: multiset<Message>)
    requires Kept(s, accepted)
    ensures Kept(s.(issued := s.issued + 1), accepted)
  {
    StillBelow(All(s), s.issued);
    assert All(s.(issued := s.issued + 1)) == All(s);
  }

  lemma CloseKeeps(s: State, i: nat, d: string, accepted: multiset<Message>)
    requires Kept(s, accepted) && i < |s.queue|
    ensures Kept(s.(queue := s.queue[i := Closed(s.queue[i], d)]), accepted)
  {
    hide HeldBy, Held, AllCoherent;
    var x, n := s.queue[i], |s.retired|;
    var y := Closed(x, d);
    var t := s.(queue := s.queue[i := y]);
    assert All(s)[n + i] == x && All(t) == All(s)[n + i := y];
    HeldUpdate(All(s), n + i, y, multiset{});
    CloseCoherent(All(s), n + i, d, s.issued);
    forall j | 0 <= j < |s.queue| && j != i ensures DefsApart(s.queue[j], y) && DefsApart(y, s.queue[j]) {
      assert DefsApart(s.queue[j], x) && DefsApart(x, s.queue[j]);
    }
    PairwiseUpdate(s.queue, i, y, DefsApart);
    forall j | 0 <= j < |All(s)| && j != n + i ensures IdsApart(All(s)[j], y) && IdsApart(y, All(s)[j]) {
      assert IdsApart(All(s)[j], x) && Ids(y) == Ids(x);
    }
    PairwiseUpdate(All(s), n + i, y, IdsApart);
  }

  lemma CloseCoherent(s: seq<Item>, i: nat, d: string, n: nat)
    requires i < |s| && AllCoherent(s, n)
    ensures AllCoherent(s[i := Closed(s[i], d)], n)
  {
    assert Coherent(s[i]) && Below(s[i], n);
    var y := Closed(s[i], d);
    assert y.blocks == s[i].blocks && y.group == s[i].group && y.defs.Keys <= s[i].defs.Keys;
    assert Ids(y) == Ids(s[i]);
    AllCoherentUpdate(s, i, y, n);
  }

  lemma LeaveKeeps(s: State, k: nat, accepted: multiset<Message>)
    requires Kept(s, accepted) && k <= |s.queue|
    ensures Kept(s.(queue := s.queue[k..], retired := s.retired + s.queue[..k]), accepted)
  {
    var t := s.(queue := s.queue[k..], retired := s.retired + s.queue[..k]);
    assert All(t) == All(s);
  }

  lemma PopKeeps(s: State, accepted: multiset<Message>)
    requires Kept(s, accepted)
    ensures Kept(Step(s, Pop), accepted)
  {
    if s.queue != [] {
      LeaveKeeps(s, 1, accepted);
      assert s.queue[..1] == [s.queue[0]];
    }
  }

  lemma ClearKeeps(s: State, accepted: multiset<Message>)
    requires Kept(s, accepted)
    ensures Kept(Step(s, Clear), accepted)
  {
    LeaveKeeps(s, |s.queue|, accepted);
    assert s.queue[|s.queue|..] == [] && s.queue[..|s.queue|] == s.queue;
  }

  lemma StepKeeps(s: State, e: Event, accepted: multiset<Message>)
    requires Kept(s, accepted)
    ensures Kept(Step(s, e), accepted + Assembled(e))
  {
    hide Kept, Inserted, Closed;
    assert accepted + multiset{} == accepted;
    match e
    case Insert(m, position) => InsertKeeps(s, m, position, accepted);
    case CloseDef(i, d) => if i < |s.queue| { CloseKeeps(s, i, d, accepted); }
    case Pop => PopKeeps(s, accepted);
    case Clear => ClearKeeps(s, accepted);
  }

  /** Main result: the invariant holds after every run of inserts, closed scan defs, pops and clears. */
  lemma {:induction false} RunKeeps(es: seq<Event>)
    ensures Kept(Run(es), Accepted(es))
  {
    hide Step, Kept, Assembled;
    if es == [] {
      NothingKept();
    } else {
      RunKeeps(es[..|es| - 1]);
      StepKeeps(Run(es[..|es| - 1]), es[|es| - 1], Accepted(es[..|es| - 1]));
    }
  }

  lemma NothingKept()
    ensures Kept(State([], [], 0), multiset{})
  {
    assert All(State([], [], 0)) == [];
  }

  // ----- Groups -----

  /** The request names an unopened scan def and a group that is already queued. */
  ghost predicate SplitsGroup(q: seq<Item>, m: Message) {
    && m.assembles && m.scanDefId.Some? && m.group.Some?
    && (forall j :: 0 <= j < |q| ==> m.scanDefId.value !in q[j].defs)
    && (exists j :: 0 <= j < |q| && q[j].group == m.group)
  }

  /** An insert leaves no two queued items with one group exactly when it is not such a request. */
  lemma GroupsStayApartIff(q: seq<Item>, m: Message, position: int, uuid: nat)
    requires Pairwise(q, GroupsApart)
    ensures Pairwise(Inserted(q, m, position, uuid), GroupsApart) <==> !SplitsGroup(q, m)
  {
    hide Pairwise, Grow, InsertAt, Position;
    var i, x := Find(q, m), NewItem(m, uuid);
    if m.assembles {
      if i < |q| {
        GrowHolds(q[i], m, uuid);
        GroupUpdate(q, i, Grow(q[i], m, uuid));
      } else {
        var p := Position(position, |q|);
        if ApartFrom(q, x, GroupsApart) {
          PairwiseInsert(q, p, x, GroupsApart);
          forall j | 0 <= j < |q| && m.group.Some? ensures q[j].group != m.group {
            assert GroupsApart(q[j], x);
          }
        } else if Pairwise(InsertAt(q, p, x), GroupsApart) {
          PairwiseInsertBack(q, p, x, GroupsApart);
        }
      }
    }
  }

  lemma GroupUpdate(q: seq<Item>, i: nat, x: Item)
    requires i < |q| && Pairwise(q, GroupsApart) && x.group == q[i].group
    ensures Pairwise(q[i := x], GroupsApart)
  {
    forall j | 0 <= j < |q| && j != i ensures GroupsApart(q[j], x) && GroupsApart(x, q[j]) {
      assert GroupsApart(q[j], q[i]) && GroupsApart(q[i], q[j]);
    }
    PairwiseUpdate(q, i, x, GroupsApart);
  }

  predicate NamesBoth(e: Event) {
    e.Insert? && e.msg.scanDefId.Some? && e.msg.group.Some?
  }

  /** When no request names both, no two queued items ever have the same group. */
  lemma {:induction false} GroupsUnique(es: seq<Event>)
    requires forall k :: 0 <= k < |es| ==> !NamesBoth(es[k])
    ensures Pairwise(Run(es).queue, GroupsApart)
  {
    hide Inserted;
    if es != [] {
      GroupsUnique(es[..|es| - 1]);
      var s := Run(es[..|es| - 1]);
      match es[|es| - 1]
      case Insert(m, position) =>
        assert !NamesBoth(es[|es| - 1]);
        GroupsStayApartIff(s.queue, m, position, s.issued);
      case CloseDef(i, d) => if i < |s.queue| { GroupUpdate(s.queue, i, Closed(s.queue[i], d)); }
      case Pop => if s.queue != [] { forall i | 0 <= i < |s.queue| - 1 ensures s.queue[1..][i] == s.queue[i + 1] {} }
      case Clear =>
    }
  }

  /** Two queued items of one group, by a request that joins the group and one that opens a scan def in it. */
  lemma GroupSplits(g: string, d: string) returns (es: seq<Event>)
    ensures |Run(es).queue| == 2
    ensures Run(es).queue[0].group == Some(g) && Run(es).queue[1].group == Some(g)
  {
    var m, k := Message("a", None, Some(g), true, true), Message("b", Some(d), Some(g), true, true);
    es := [Insert(m, -1), Insert(k, -1)];
    assert es[..1] == [Insert(m, -1)] && [Insert(m, -1)][..0] == [];
    var s := Step(State([], [], 0), Insert(m, -1));
    assert Run(es[..1]) == s && s.queue == [NewItem(m, 0)];
    assert Find(s.queue[1..], k) == 0;
  }
}
