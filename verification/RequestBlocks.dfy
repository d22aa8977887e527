/**
  The request blocks of one queue item: drained as a single instruction stream with scan number, dataset number and
  point ID accounting, until the item has seen its scan def and its queue group closed.
 */
module RequestBlocks {
  import opened Instructions

  /**
    A request block. `stream` is what its generator yields when the first point gets the given ID, and
    `finalPoint` the ID the next block of the same scan def goes on with. Only scans count points.
   */
  datatype Block = Block(
    isScan: bool,
    scanDefId: Option<string>,
    closesDef: bool,
    onHold: bool,
    stream: nat -> seq<Instr>,
    finalPoint: nat -> nat)

  datatype Active = Active(block: Block, start: nat, rest: seq<Instr>)

  /** `defs` maps the open scan defs to their next point ID. */
  datatype Queue = Queue(
    waiting: seq<Block>,
    active: Option<Active>,
    defs: map<string, nat>,
    scanNumber: nat,
    datasetNumber: nat)

  // ----- One call of the queue -----

  predicate InDef(b: Block, defs: map<string, nat>) {
    b.scanDefId.Some? && b.scanDefId.value in defs
  }

  function StartPoint(b: Block, defs: map<string, nat>): nat {
    if InDef(b, defs) && b.isScan then defs[b.scanDefId.value] else 0
  }

  /** The open scan defs once a block that started at `start` is exhausted. */
  function DefsAfter(b: Block, start: nat, defs: map<string, nat>): map<string, nat> {
    if InDef(b, defs) && b.isScan then defs[b.scanDefId.value := b.finalPoint(start)] else defs
  }

  predicate RaisesScanNumber(b: Block) {
    (b.isScan || b.scanDefId.Some?) && (b.scanDefId.None? || b.closesDef)
  }

  predicate RaisesDatasetNumber(b: Block) {
    RaisesScanNumber(b) && !b.onHold
  }

  function Add(n: nat, raise: bool): nat {
    if raise then n + 1 else n
  }

  function Pull(q: Queue): Queue
    requires q.waiting != []
  {
    var b := q.waiting[0];
    var start := StartPoint(b, q.defs);
    q.(waiting := q.waiting[1..], active := Some(Active(b, start, b.stream(start))))
  }

  function Complete(q: Queue): Queue
    requires q.active.Some?
  {
    var b := q.active.value.block;
    q.(active := None,
       defs := DefsAfter(b, q.active.value.start, q.defs),
       scanNumber := Add(q.scanNumber, RaisesScanNumber(b)),
       datasetNumber := Add(q.datasetNumber, RaisesDatasetNumber(b)))
  }

  function Take(q: Queue): (Queue, Option<Instr>)
    requires q.active.Some?
  {
    var a := q.active.value;
    if a.rest == [] then (q, None) else (q.(active := Some(a.(rest := a.rest[1..]))), Some(a.rest[0]))
  }

  /** `RequestBlockQueue.__next__`; None stands for StopIteration. */
  function Next(q: Queue): (Queue, Option<Instr>) {
    if q.active.None? && q.waiting == [] then (q, None)
    else
      var p := if q.active.None? then Pull(q) else q;
      if p.active.value.rest != [] then Take(p)
      else
        var c := Complete(p);
        if c.waiting == [] then (c, None) else Take(Pull(c))
  }

  /** A new scan def starts with point 0. */
  function Register(b: Block, defs: map<string, nat>): map<string, nat> {
    if b.scanDefId.Some? && b.scanDefId.value !in defs then defs[b.scanDefId.value := 0] else defs
  }

  function Append(q: Queue, b: Block): Queue {
    q.(waiting := q.waiting + [b], defs := Register(b, q.defs))
  }

  class RequestBlockQueue {
    var waiting: seq<Block>
    var active: Option<Active>
    var defs: map<string, nat>
    var scanNumber: nat
    var datasetNumber: nat

    constructor (scanNumber: nat, datasetNumber: nat)
      ensures State() == Queue([], None, map[], scanNumber, datasetNumber)
    {
      waiting, active, defs := [], None, map[];
      this.scanNumber, this.datasetNumber := scanNumber, datasetNumber;
    }

    ghost function State(): Queue
      reads this
    {
      Queue(waiting, active, defs, scanNumber, datasetNumber)
    }

    method AppendBlock(b: Block)
      modifies this
      ensures State() == Append(old(State()), b)
    {
      if b.scanDefId.Some? && b.scanDefId.value !in defs {
        defs := defs[b.scanDefId.value := 0];
      }
      waiting := waiting + [b];
    }

    /** Returns false for StopIteration. */
    method PullRequestBlock() returns (ok: bool)
      modifies this`waiting, this`active
      ensures ok == (old(active).Some? || old(waiting) != [])
      ensures State() == if old(active).None? && old(waiting) != [] then Pull(old(State())) else old(State())
    {
      if active.Some? { return true; }
      if |waiting| == 0 { return false; }
      var b := waiting[0];
      waiting := waiting[1..];
      var start := 0;
      if b.scanDefId.Some? && b.scanDefId.value in defs {
        if b.isScan {
          start := defs[b.scanDefId.value];
        }
      }
      active := Some(Active(b, start, b.stream(start)));
      return true;
    }

    method IncreaseScanNumber()
      requires active.Some?
      modifies this`scanNumber, this`datasetNumber
      ensures scanNumber == Add(old(scanNumber), RaisesScanNumber(active.value.block))
      ensures datasetNumber == Add(old(datasetNumber), RaisesDatasetNumber(active.value.block))
    {
      var b := active.value.block;
      if !b.isScan && b.scanDefId.None? { return; }
      if b.scanDefId.None? || b.closesDef {
        scanNumber := scanNumber + 1;
        if !b.onHold {
          datasetNumber := datasetNumber + 1;
        }
      }
    }

    method TakeInstruction() returns (i: Option<Instr>)
      requires active.Some?
      modifies this`active
      ensures (State(), i) == Take(old(State()))
    {
      var a := active.value;
      if |a.rest| == 0 { return None; }
      active := Some(a.(rest := a.rest[1..]));
      return Some(a.rest[0]);
    }

    method NextInstruction() returns (i: Option<Instr>)
      modifies this
      ensures (State(), i) == Next(old(State()))
    {
      var ok := PullRequestBlock();
      if !ok { return None; }
      if |active.value.rest| > 0 {
        i := TakeInstruction();
        return;
      }
      var b := active.value.block;
      if b.scanDefId.Some? && b.scanDefId.value in defs && b.isScan {
        defs := defs[b.scanDefId.value := b.finalPoint(active.value.start)];
      }
      IncreaseScanNumber();
      active := None;
      ok := PullRequestBlock();
      if !ok { return None; }
      i := TakeInstruction();
    }
  }

  // ----- The queue item -----

  predicate ClosesDef(i: Instr, d: string) {
    i.action.CloseScanDef? && i.scanDefId == Some(d)
  }

  /** `close_scan_def` closes its scan def as it is handed out. */
  function CloseDef(i: Instr, defs: map<string, nat>): map<string, nat> {
    if i.action.CloseScanDef? && i.scanDefId.Some? then defs - {i.scanDefId.value} else defs
  }

  /** The next element of the blocks' generators, taken off the queue. */
  function Advance(q: Queue): (Queue, Option<Instr>) {
    var (p, i) := Next(q);
    (if i.Some? then p.(defs := CloseDef(i.value, p.defs)) else p, i)
  }

  /** `group` is the queue group of the item; `skipped` is a history, the blocks that left without being counted. */
  datatype Item = Item(queue: Queue, group: Option<string>, groupClosed: bool, completed: bool, skipped: seq<Block>)

  /** What `_get_next` gives: an instruction, None or StopIteration. */
  datatype Outcome = Handed(instr: Instr) | Nothing | Finished

  /** An instruction the worker gets to see. */
  predicate Shown(i: Instr) {
    !i.action.Blank? && !i.action.CloseScanGroup?
  }

  function Actives(q: Queue): seq<Block> {
    if q.active.Some? then [q.active.value.block] else []
  }

  /** Without an instruction the item waits for its scan def and its group to be closed, and ends after that. */
  function Stop(x: Item): (Item, Outcome) {
    if x.queue.defs != map[] then (x, Nothing)
    else if x.group.Some? && !x.groupClosed then
      (x.(queue := x.queue.(active := None), skipped := x.skipped + Actives(x.queue)), Nothing)
    else (x.(completed := true), Finished)
  }

  /** `InstructionQueueItem._get_next`. */
  function GetNext(x: Item): (Item, Outcome) {
    var (q, i) := Advance(x.queue);
    var y := x.(queue := q);
    if i.None? then Stop(y)
    else if i.value.action.Blank? then (y, Nothing)
    else if i.value.action.CloseScanGroup? then Stop(y.(groupClosed := true))
    else (y, Handed(i.value))
  }

  /** The part of a queue item that hands out instructions. */
  class InstructionQueueItem {
    const queue: RequestBlockQueue
    const group: Option<string>
    var groupClosed: bool
    var completed: bool
    ghost var skipped: seq<Block>

    constructor (group: Option<string>, scanNumber: nat, datasetNumber: nat)
      ensures fresh(queue)
      ensures State() == Item(Queue([], None, map[], scanNumber, datasetNumber), group, false, false, [])
    {
      queue := new RequestBlockQueue(scanNumber, datasetNumber);
      this.group, groupClosed, completed, skipped := group, false, false, [];
    }

    ghost function State(): Item
      reads this, queue
    {
      Item(queue.State(), group, groupClosed, completed, skipped)
    }

    method GetNextInstruction() returns (o: Outcome)
      modifies this, queue
      ensures (State(), o) == GetNext(old(State()))
    {
      var i := queue.NextInstruction();
      if i.Some? {
        if i.value.action.Blank? { return Nothing; }
        if !i.value.action.CloseScanGroup? {
          if i.value.action.CloseScanDef? && i.value.scanDefId.Some? {
            queue.defs := queue.defs - {i.value.scanDefId.value};
          }
          return Handed(i.value);
        }
        groupClosed := true;
      }
      if |queue.defs| > 0 {
        return Nothing;
      } else if group.Some? && !groupClosed {
        skipped := skipped + Actives(queue.State());
        queue.active := None;
        return Nothing;
      }
      completed := true;
      return Finished;
    }

    /** The worker's loop over the item, up to the first pass that brings no instruction. */
    method Drain() returns (out: seq<Instr>, o: Outcome)
      modifies this, queue
      ensures (State(), out, o) == DrainFrom(old(State()))
    {
      out := [];
      ghost var all := DrainFrom(State());
      while true
        invariant DrainFrom(State()).0 == all.0
        invariant out + DrainFrom(State()).1 == all.1
        invariant DrainFrom(State()).2 == all.2
        decreases |queue.waiting|, RestLength(queue.State())
      {
        hide GetNext;
        HandedShrinks(State());
        o := GetNextInstruction();
        if !o.Handed? {
          assert out + [] == out;
          return;
        }
        out := out + [o.instr];
      }
    }
  }

  ghost function RestLength(q: Queue): nat {
    if q.active.Some? then |q.active.value.rest| else 0
  }

  lemma HandedShrinks(x: Item)
    ensures var (q, p) := (x.queue, GetNext(x).0.queue);
      GetNext(x).1.Handed? ==>
        |p.waiting| < |q.waiting| || (|p.waiting| == |q.waiting| && RestLength(p) < RestLength(q))
  {
  }

  ghost function DrainFrom(x: Item): (Item, seq<Instr>, Outcome)
    decreases |x.queue.waiting|, RestLength(x.queue)
  {
    var (y, o) := GetNext(x);
    if !o.Handed? then (y, [], o)
    else HandedShrinks(x); (DrainFrom(y).0, [o.instr] + DrainFrom(y).1, DrainFrom(y).2)
  }

  // ----- The blocks' streams one after the other -----

  /** The open scan defs after `s` has been handed out. */
  function CloseAll(s: seq<Instr>, points: map<string, nat>): map<string, nat> {
    if s == [] then points else CloseAll(s[1..], CloseDef(s[0], points))
  }

  /** The open scan defs after a block that started at `start` and of which `rest` is still to be handed out. */
  function PointsBehind(b: Block, start: nat, rest: seq<Instr>, points: map<string, nat>): map<string, nat> {
    DefsAfter(b, start, CloseAll(rest, points))
  }

  function PointsAfter(b: Block, points: map<string, nat>): map<string, nat> {
    PointsBehind(b, StartPoint(b, points), b.stream(StartPoint(b, points)), points)
  }

  /**
    The in-order concatenation of the blocks' streams; `points` are the open scan defs. Scans of one scan def continue
    each other's points until it is closed.
   */
  function Streams(bs: seq<Block>, points: map<string, nat>): seq<Instr> {
    if bs == [] then [] else bs[0].stream(StartPoint(bs[0], points)) + Streams(bs[1..], PointsAfter(bs[0], points))
  }

  function PointsAfterAll(bs: seq<Block>, points: map<string, nat>): map<string, nat> {
    if bs == [] then points else PointsAfterAll(bs[1..], PointsAfter(bs[0], points))
  }

  /** How often a list of blocks raises a number. */
  function Count(bs: seq<Block>, raises: Block -> bool): nat {
    if bs == [] then 0 else Add(Count(bs[1..], raises), raises(bs[0]))
  }

  lemma {:induction false} StreamsAppend(bs: seq<Block>, b: Block, points: map<string, nat>)
    ensures Streams(bs + [b], points) == Streams(bs, points) + b.stream(StartPoint(b, PointsAfterAll(bs, points)))
    ensures PointsAfterAll(bs + [b], points) == PointsAfter(b, PointsAfterAll(bs, points))
  {
    hide PointsAfter;
    if bs == [] {
      assert bs + [b] == [b];
      assert b.stream(StartPoint(b, points)) + [] == b.stream(StartPoint(b, points));
    } else {
      assert (bs + [b])[1..] == bs[1..] + [b];
      StreamsAppend(bs[1..], b, PointsAfter(bs[0], points));
    }
  }

  lemma {:induction false} CountConcat(bs: seq<Block>, cs: seq<Block>, raises: Block -> bool)
    ensures Count(bs + cs, raises) == Count(bs, raises) + Count(cs, raises)
  {
    if bs == [] {
      assert bs + cs == cs;
    } else {
      assert (bs + cs)[1..] == bs[1..] + cs;
      CountConcat(bs[1..], cs, raises);
    }
  }

  // ----- Conservation in one poll -----

  function PointsAhead(q: Queue): map<string, nat> {
    if q.active.None? then q.defs
    else var a := q.active.value; PointsBehind(a.block, a.start, a.rest, q.defs)
  }

  /** What the queue still has to deliver. */
  function Pending(q: Queue): seq<Instr> {
    (if q.active.Some? then q.active.value.rest else []) + Streams(q.waiting, PointsAhead(q))
  }

  /** The open scan defs once all of it is delivered. */
  function PointsAtEnd(q: Queue): map<string, nat> {
    PointsAfterAll(q.waiting, PointsAhead(q))
  }

  function Unfinished(q: Queue): seq<Block> {
    Actives(q) + q.waiting
  }

  /** A number plus what the unfinished blocks will still add to it. */
  function Balance(q: Queue, raises: Block -> bool, number: nat): nat {
    number + Count(Unfinished(q), raises)
  }

  function Given(i: Option<Instr>): seq<Instr> {
    if i.Some? then [i.value] else []
  }

  /** Giving out `given` took `q` to `p`. */
  ghost predicate Conserved(q: Queue, p: Queue, given: seq<Instr>) {
    && given + Pending(p) == Pending(q) && PointsAtEnd(p) == PointsAtEnd(q)
    && Balance(p, RaisesScanNumber, p.scanNumber) == Balance(q, RaisesScanNumber, q.scanNumber)
    && Balance(p, RaisesDatasetNumber, p.datasetNumber) == Balance(q, RaisesDatasetNumber, q.datasetNumber)
  }

  lemma ConservedThrough(q: Queue, p: Queue, r: Queue, given: seq<Instr>)
    requires Conserved(q, p, []) && Conserved(p, r, given)
    ensures Conserved(q, r, given)
  {
    assert [] + Pending(p) == Pending(p);
  }

  lemma PullConserves(q: Queue)
    requires q.active.None? && q.waiting != []
    ensures Conserved(q, Pull(q), []) && Pull(q).active.Some?
  {
    assert [q.waiting[0]] + q.waiting[1..] == q.waiting && [] + q.waiting == q.waiting;
    assert [] + Pending(Pull(q)) == Pending(Pull(q)) && [] + Streams(q.waiting, q.defs) == Streams(q.waiting, q.defs);
  }

  lemma CompleteConserves(q: Queue)
    requires q.active.Some? && q.active.value.rest == []
    ensures Conserved(q, Complete(q), []) && Complete(q).active.None?
  {
    assert Unfinished(q)[1..] == Unfinished(Complete(q));
    assert [] + Pending(Complete(q)) == Pending(Complete(q));
  }

  function TakeAndClose(q: Queue): (Queue, Option<Instr>)
    requires q.active.Some?
  {
    var (p, i) := Take(q);
    (if i.Some? then p.(defs := CloseDef(i.value, p.defs)) else p, i)
  }

  lemma TakeConserves(q: Queue)
    requires q.active.Some?
    ensures Conserved(q, TakeAndClose(q).0, Given(TakeAndClose(q).1))
  {
    if q.active.value.rest == [] {
      assert [] + Pending(q) == Pending(q);
    } else {
      var rest := q.active.value.rest;
      assert [rest[0]] + (rest[1..] + Streams(q.waiting, PointsAhead(q))) == rest + Streams(q.waiting, PointsAhead(q));
    }
  }

  lemma AdvanceConserves(q: Queue)
    ensures Conserved(q, Advance(q).0, Given(Advance(q).1))
  {
    hide Pull, Complete, Conserved, Take;
    if q.active.None? && q.waiting == [] {
      NothingConserved(q);
    } else {
      if q.active.None? { PullConserves(q); } else { NothingConserved(q); }
      var p := if q.active.None? then Pull(q) else q;
      if p.active.value.rest != [] {
        TakeConserves(p);
        ConservedThrough(q, p, TakeAndClose(p).0, Given(TakeAndClose(p).1));
      } else {
        CompleteConserves(p);
        var c := Complete(p);
        ConservedThrough(q, p, c, []);
        if c.waiting != [] {
          PullConserves(c);
          ConservedThrough(q, c, Pull(c), []);
          TakeConserves(Pull(c));
          ConservedThrough(q, Pull(c), TakeAndClose(Pull(c)).0, Given(TakeAndClose(Pull(c)).1));
        }
      }
    }
  }

  lemma NothingConserved(q: Queue)
    ensures Conserved(q, q, [])
  {
    assert [] + Pending(q) == Pending(q);
  }

  // ----- Every run of arrivals and polls -----

  /** Requests arrive with a queue group; the worker polls the item. */
  datatype Event = Arrive(block: Block, group: Option<string>) | Poll

  /** An item with its history: requests that joined it, what its generators gave, what the worker was handed. */
  datatype Trace = Trace(item: Item, joined: seq<Block>, taken: seq<Instr>, handed: seq<Instr>)

  /** `ScanQueue.insert` adds a request to the item that holds its scan def or, without one, its group. */
  predicate Joins(x: Item, b: Block, group: Option<string>) {
    if b.scanDefId.Some? then InDef(b, x.queue.defs) else group.Some? && group == x.group
  }

  /** The item made for a request that found none to join. */
  function Start(first: Block, group: Option<string>, n: nat, d: nat): Trace {
    Trace(Item(Append(Queue([], None, map[], n, d), first), group, false, false, []), [first], [], [])
  }

  function Step(t: Trace, e: Event): Trace {
    match e
    case Arrive(b, group) =>
      if Joins(t.item, b, group) then t.(item := t.item.(queue := Append(t.item.queue, b)), joined := t.joined + [b])
      else t
    case Poll =>
      if t.item.completed then t
      else
        var (x, o) := GetNext(t.item);
        t.(item := x, taken := t.taken + Given(Advance(t.item.queue).1),
           handed := if o.Handed? then t.handed + [o.instr] else t.handed)
  }

  function Run(t: Trace, es: seq<Event>): Trace {
    if es == [] then t else Step(Run(t, es[..|es| - 1]), es[|es| - 1])
  }

  /** The scan def an item opens with its first request. */
  function Opened(first: Block): map<string, nat> {
    if first.scanDefId.Some? then map[first.scanDefId.value := 0] else map[]
  }

  function Seen(s: seq<Instr>): seq<Instr> {
    if s == [] then [] else Seen(s[..|s| - 1]) + if Shown(s[|s| - 1]) then [s[|s| - 1]] else []
  }

  predicate ClosedIn(s: seq<Instr>, d: string) {
    exists k :: 0 <= k < |s| && ClosesDef(s[k], d)
  }

  predicate GroupClosedIn(s: seq<Instr>) {
    exists k :: 0 <= k < |s| && s[k].action.CloseScanGroup?
  }

  /** Everything the joined requests give is delivered or pending, in order. */
  ghost predicate Delivered(t: Trace, first: Block) {
    && t.taken + Pending(t.item.queue) == Streams(t.joined, Opened(first))
    && PointsAtEnd(t.item.queue) == PointsAfterAll(t.joined, Opened(first))
    && t.handed == Seen(t.taken)
  }

  /** The numbers, started at `n` and `d`, have risen by the share of all blocks but those unfinished or skipped. */
  ghost predicate Numbered(t: Trace, n: nat, d: nat) {
    && t.item.queue.scanNumber + Count(Unfinished(t.item.queue) + t.item.skipped, RaisesScanNumber)
       == n + Count(t.joined, RaisesScanNumber)
    && t.item.queue.datasetNumber + Count(Unfinished(t.item.queue) + t.item.skipped, RaisesDatasetNumber)
       == d + Count(t.joined, RaisesDatasetNumber)
  }

  /** The item's scan def is open until its closing is taken, likewise its group; only empty blocks are skipped. */
  ghost predicate Tracked(t: Trace, first: Block) {
    && (forall x :: x in t.item.queue.defs <==> first.scanDefId == Some(x) && !ClosedIn(t.taken, x))
    && (t.item.groupClosed <==> GroupClosedIn(t.taken))
    && (forall b :: b in t.item.skipped ==> b.stream(0) == [])
  }

  lemma StartAccounted(first: Block, group: Option<string>, n: nat, d: nat)
    ensures var t := Start(first, group, n, d);
      Delivered(t, first) && Numbered(t, n, d) && Tracked(t, first)
  {
    var t := Start(first, group, n, d);
    assert [] + [first] == [first] && t.item.queue.defs == Opened(first);
    assert [] + Pending(t.item.queue) == Pending(t.item.queue) && [first] + [] == [first];
    assert [] + Streams([first], Opened(first)) == Streams([first], Opened(first));
  }

  lemma ArriveDelivers(t: Trace, first: Block, b: Block, group: Option<string>)
    requires Delivered(t, first) && Tracked(t, first) && Joins(t.item, b, group)
    ensures var u := Step(t, Arrive(b, group)); Delivered(u, first) && Tracked(u, first)
  {
    hide Streams, PointsAfterAll, Seen, ClosedIn, GroupClosedIn;
    var q, points := t.item.queue, Opened(first);
    var p := Append(q, b);
    assert p.defs == q.defs && PointsAhead(p) == PointsAhead(q) && p.waiting == q.waiting + [b];
    StreamsAppend(q.waiting, b, PointsAhead(q));
    StreamsAppend(t.joined, b, points);
    assert Pending(p) == Pending(q) + b.stream(StartPoint(b, PointsAtEnd(q)));
    assert t.taken + Pending(p) == t.taken + Pending(q) + b.stream(StartPoint(b, PointsAtEnd(q)));
  }

  lemma ArriveCounts(t: Trace, b: Block, raises: Block -> bool)
    ensures var x := t.item;
      Count(Unfinished(Append(x.queue, b)) + x.skipped, raises)
      == Count(Unfinished(x.queue) + x.skipped, raises) + Count([b], raises)
    ensures Count(t.joined + [b], raises) == Count(t.joined, raises) + Count([b], raises)
  {
    hide Count;
    var x := t.item;
    assert Unfinished(Append(x.queue, b)) == Unfinished(x.queue) + [b];
    CountConcat(Unfinished(x.queue), [b], raises);
    CountConcat(Unfinished(x.queue) + [b], x.skipped, raises);
    CountConcat(Unfinished(x.queue), x.skipped, raises);
    CountConcat(t.joined, [b], raises);
  }

  lemma ArriveNumbers(t: Trace, n: nat, d: nat, b: Block, group: Option<string>)
    requires Numbered(t, n, d) && Joins(t.item, b, group)
    ensures Numbered(Step(t, Arrive(b, group)), n, d)
  {
    hide Count, Unfinished;
    ArriveCounts(t, b, RaisesScanNumber);
    ArriveCounts(t, b, RaisesDatasetNumber);
  }

  /** What a poll does besides advancing the queue: nothing, or it skips an exhausted block. */
  lemma GetNextIs(x: Item)
    ensures var ((y, o), (q, i)) := (GetNext(x), Advance(x.queue));
      && (o.Handed? <==> i.Some? && Shown(i.value)) && (o.Handed? ==> o.instr == i.value)
      && y.group == x.group && (y.groupClosed <==> x.groupClosed || (i.Some? && i.value.action.CloseScanGroup?))
      && if y.skipped == x.skipped && y.queue == q then true
         else i.None? && q.defs == map[] && y.queue == q.(active := None) && y.skipped == x.skipped + Actives(q)
  {
  }

  lemma AdvanceCloses(q: Queue, x: string)
    ensures var (p, i) := Advance(q); x in p.defs <==> x in q.defs && !(i.Some? && ClosesDef(i.value, x))
  {
  }

  /** The queue stops at its end or at an empty block. */
  lemma AdvanceStops(q: Queue)
    requires Advance(q).1.None?
    ensures var p := Advance(q).0;
      if p.active.None? then p.waiting == []
      else p.active.value.rest == [] && p.active.value.block.stream(StartPoint(p.active.value.block, p.defs)) == []
  {
  }

  lemma SkipConserves(p: Queue)
    requires p.defs == map[] && (p.active.Some? ==> p.active.value.rest == [])
    ensures Pending(p.(active := None)) == Pending(p) && PointsAtEnd(p.(active := None)) == PointsAtEnd(p)
  {
  }

  /** Neither polls nor skips change how many blocks are counted or still to be. */
  lemma SkipCounts(p: Queue, skipped: seq<Block>, raises: Block -> bool)
    ensures Count(Unfinished(p.(active := None)) + (skipped + Actives(p)), raises)
            == Count(Unfinished(p) + skipped, raises)
  {
    hide Count;
    assert Unfinished(p.(active := None)) == p.waiting by { assert [] + p.waiting == p.waiting; }
    CountConcat(p.waiting, skipped + Actives(p), raises);
    CountConcat(skipped, Actives(p), raises);
    CountConcat(Actives(p) + p.waiting, skipped, raises);
    CountConcat(Actives(p), p.waiting, raises);
  }

  lemma AdvanceCounts(q: Queue, skipped: seq<Block>)
    ensures var p := Advance(q).0;
      && p.scanNumber + Count(Unfinished(p) + skipped, RaisesScanNumber)
         == q.scanNumber + Count(Unfinished(q) + skipped, RaisesScanNumber)
      && p.datasetNumber + Count(Unfinished(p) + skipped, RaisesDatasetNumber)
         == q.datasetNumber + Count(Unfinished(q) + skipped, RaisesDatasetNumber)
  {
    hide Count, Advance, Unfinished;
    AdvanceConserves(q);
    CountConcat(Unfinished(q), skipped, RaisesScanNumber);
    CountConcat(Unfinished(q), skipped, RaisesDatasetNumber);
    CountConcat(Unfinished(Advance(q).0), skipped, RaisesScanNumber);
    CountConcat(Unfinished(Advance(q).0), skipped, RaisesDatasetNumber);
  }

  lemma SkipLeavesPending(x: Item)
    ensures var (q, p) := (Advance(x.queue).0, GetNext(x).0.queue);
      Pending(p) == Pending(q) && PointsAtEnd(p) == PointsAtEnd(q)
  {
    GetNextIs(x);
    var (q, i) := Advance(x.queue);
    if i.None? {
      AdvanceStops(x.queue);
      if q.defs == map[] { SkipConserves(q); }
    }
    hide Pending, PointsAtEnd, Advance, GetNext;
  }

  lemma PollDelivers(t: Trace, first: Block)
    requires Delivered(t, first) && !t.item.completed
    ensures Delivered(Step(t, Poll), first)
  {
    var (q, i) := Advance(t.item.queue);
    GetNextIs(t.item);
    AdvanceConserves(t.item.queue);
    SkipLeavesPending(t.item);
    hide Pending, PointsAtEnd, Advance, GetNext, Streams, PointsAfterAll, Actives, Balance, Seen;
    assert t.taken + Given(i) + Pending(q) == t.taken + (Given(i) + Pending(q));
    SeenGiven(t.taken, i);
  }

  lemma PollNumbers(t: Trace, n: nat, d: nat)
    requires Numbered(t, n, d) && !t.item.completed
    ensures Numbered(Step(t, Poll), n, d)
  {
    var q := Advance(t.item.queue).0;
    GetNextIs(t.item);
    AdvanceCounts(t.item.queue, t.item.skipped);
    hide Count, Advance, GetNext, Actives, Unfinished;
    SkipCounts(q, t.item.skipped, RaisesScanNumber);
    SkipCounts(q, t.item.skipped, RaisesDatasetNumber);
  }

  lemma SeenGiven(s: seq<Instr>, i: Option<Instr>)
    ensures Seen(s + Given(i)) == if i.Some? && Shown(i.value) then Seen(s) + [i.value] else Seen(s)
  {
    if i.Some? {
      assert (s + [i.value])[..|s|] == s;
      assert Seen(s) + [] == Seen(s);
    } else {
      assert s + [] == s;
    }
  }

  lemma PollTracked(t: Trace, first: Block)
    requires Tracked(t, first) && !t.item.completed
    ensures Tracked(Step(t, Poll), first)
  {
    var (q, i) := Advance(t.item.queue);
    var u := Step(t, Poll);
    GetNextIs(t.item);
    if i.None? { AdvanceStops(t.item.queue); }
    forall x ensures x in q.defs <==> x in t.item.queue.defs && !(i.Some? && ClosesDef(i.value, x)) {
      AdvanceCloses(t.item.queue, x);
    }
    hide Advance, GetNext;
    assert u.taken == t.taken + Given(i) && u.item.queue.defs == q.defs;
    forall x ensures x in u.item.queue.defs <==> first.scanDefId == Some(x) && !ClosedIn(u.taken, x) {
      ClosedGiven(t.taken, i, x);
    }
    GroupClosedGiven(t.taken, i);
  }

  lemma ClosedGiven(s: seq<Instr>, i: Option<Instr>, x: string)
    ensures ClosedIn(s + Given(i), x) <==> ClosedIn(s, x) || (i.Some? && ClosesDef(i.value, x))
  {
    var t := s + Given(i);
    assert forall k :: 0 <= k < |s| ==> t[k] == s[k];
    if i.Some? { assert t[|s|] == i.value; }
  }

  lemma GroupClosedGiven(s: seq<Instr>, i: Option<Instr>)
    ensures GroupClosedIn(s + Given(i)) <==> GroupClosedIn(s) || (i.Some? && i.value.action.CloseScanGroup?)
  {
    var t := s + Given(i);
    assert forall k :: 0 <= k < |s| ==> t[k] == s[k];
    if i.Some? { assert t[|s|] == i.value; }
  }

  /**
    Main result: in every run of an item, what its generators gave followed by what is still pending is the in-order
    concatenation of the streams of all requests that joined it; the worker is handed all of it but placeholders and
    group closings; the numbers have risen by exactly the share of the finished blocks.
   */
  lemma {:induction false} RunConserves(first: Block, group: Option<string>, n: nat, d: nat, es: seq<Event>)
    ensures var t := Run(Start(first, group, n, d), es);
      Delivered(t, first) && Numbered(t, n, d) && Tracked(t, first) && t.item.group == group
  {
    hide Delivered, Numbered, Tracked;
    if es == [] {
      StartAccounted(first, group, n, d);
    } else {
      RunConserves(first, group, n, d, es[..|es| - 1]);
      var t := Run(Start(first, group, n, d), es[..|es| - 1]);
      hide Advance, GetNext, Append;
      match es[|es| - 1]
      case Poll =>
        if !t.item.completed {
          PollDelivers(t, first);
          PollNumbers(t, n, d);
          PollTracked(t, first);
          GetNextIs(t.item);
        }
      case Arrive(b, g) =>
        if Joins(t.item, b, g) {
          ArriveDelivers(t, first, b, g);
          ArriveNumbers(t, n, d, b, g);
        }
    }
  }

  // ----- When an item ends -----

  /** The generator yields something wherever its points start, be it a placeholder. */
  ghost predicate Productive(b: Block) {
    forall p :: b.stream(p) != []
  }

  ghost predicate AllProductive(bs: seq<Block>) {
    forall k :: 0 <= k < |bs| ==> Productive(bs[k])
  }

  lemma AdvanceEnds(q: Queue)
    requires AllProductive(q.waiting)
    ensures Advance(q).1.None? <==> Pending(q) == []
    ensures Advance(q).1.None? ==> Advance(q).0.active.None? && Advance(q).0.waiting == []
  {
    AdvanceConserves(q);
    var (p, i) := Advance(q);
    if i.None? {
      AdvanceStops(q);
      assert [] + Pending(p) == Pending(p);
    }
  }

  lemma StopsWhen(x: Item)
    requires !x.completed
    ensures var (y, i) := (GetNext(x).0, Advance(x.queue).1);
      y.completed <==>
        && (i.None? || i.value.action.CloseScanGroup?) && y.queue.defs == map[]
        && (x.group.None? || x.groupClosed || (i.Some? && i.value.action.CloseScanGroup?))
  {
  }

  /**
    An item ends at a poll that finds no instruction, or takes the closing of its group, if and only if its scan def
    and its group are then closed.
   */
  lemma EndsIff(first: Block, group: Option<string>, n: nat, d: nat, es: seq<Event>)
    requires !Run(Start(first, group, n, d), es).item.completed
    ensures var t := Run(Start(first, group, n, d), es);
      var i, u := Advance(t.item.queue).1, Step(t, Poll);
      u.item.completed <==>
        && (i.None? || i.value.action.CloseScanGroup?)
        && (first.scanDefId.Some? ==> ClosedIn(u.taken, first.scanDefId.value))
        && (group.Some? ==> GroupClosedIn(u.taken))
  {
    hide Run, Advance, GetNext, Delivered, Numbered, ClosedIn, GroupClosedIn;
    RunConserves(first, group, n, d, es);
    var t := Run(Start(first, group, n, d), es);
    PollTracked(t, first);
    GroupClosedGiven(t.taken, Advance(t.item.queue).1);
    StopsWhen(t.item);
    var u := Step(t, Poll);
    if u.item.queue.defs != map[] {
      var x :| x in u.item.queue.defs;
      assert first.scanDefId == Some(x) && !ClosedIn(u.taken, x);
    }
  }

  /** What holds of a completed item: nothing is open, and without a group closing nothing is left. */
  ghost predicate Ended(t: Trace) {
    t.item.completed ==>
      && t.item.queue.defs == map[]
      && (t.item.groupClosed ||
           (t.item.group.None? && t.item.queue.active.None? && t.item.queue.waiting == [] && t.item.skipped == []))
  }

  lemma PollEnds(t: Trace)
    requires !t.item.completed && AllProductive(t.item.queue.waiting) && t.item.skipped == []
    ensures Ended(Step(t, Poll)) && Step(t, Poll).item.skipped == []
    ensures AllProductive(Step(t, Poll).item.queue.waiting)
  {
    AdvanceEnds(t.item.queue);
    AdvanceProductive(t.item.queue);
    GetNextIs(t.item);
    hide Advance, Pending;
  }

  lemma AdvanceProductive(q: Queue)
    requires AllProductive(q.waiting)
    ensures AllProductive(Advance(q).0.waiting)
  {
    hide Productive;
    AdvanceWaiting(q);
    hide Advance;
    var v := if q.waiting == [] then [] else q.waiting[1..];
    forall k | 0 <= k < |v| ensures Productive(v[k]) { assert v[k] == q.waiting[k + 1]; }
    if v != [] {
      forall k | 0 <= k < |v| - 1 ensures Productive(v[1..][k]) { assert v[1..][k] == v[k + 1]; }
    }
  }

  /** At most two blocks are pulled. */
  lemma AdvanceWaiting(q: Queue)
    ensures var w := Advance(q).0.waiting;
      || w == q.waiting
      || (q.waiting != [] && w == q.waiting[1..])
      || (|q.waiting| > 1 && w == q.waiting[1..][1..])
  {
    hide CloseDef, DefsAfter, StartPoint;
  }

  lemma {:induction false} RunEnds(first: Block, group: Option<string>, n: nat, d: nat, es: seq<Event>)
    requires AllProductive(Run(Start(first, group, n, d), es).joined)
    ensures var t := Run(Start(first, group, n, d), es);
      Ended(t) && AllProductive(t.item.queue.waiting) && t.item.group == group && t.item.skipped == []
  {
    if es == [] {
    } else {
      var t := Run(Start(first, group, n, d), es[..|es| - 1]);
      JoinedGrows(t, es[|es| - 1]);
      RunEnds(first, group, n, d, es[..|es| - 1]);
      hide Run, Advance, GetNext;
      match es[|es| - 1]
      case Poll =>
        if !t.item.completed {
          PollEnds(t);
          GetNextIs(t.item);
        }
      case Arrive(b, g) =>
        if Joins(t.item, b, g) {
          assert (t.joined + [b])[|t.joined|] == b;
        }
    }
  }

  lemma JoinedGrows(t: Trace, e: Event)
    requires AllProductive(Step(t, e).joined)
    ensures AllProductive(t.joined)
  {
    assert forall k :: 0 <= k < |t.joined| ==> Step(t, e).joined[k] == t.joined[k];
  }

  lemma RunStep(t: Trace, es: seq<Event>, e: Event)
    ensures Run(t, es + [e]) == Step(Run(t, es), e)
  {
    assert (es + [e])[..|es|] == es;
  }

  // ----- How far an item gets -----

  /** The item ends when it takes instruction `k` of its requests' streams: a group closing with no scan def open. */
  predicate EndsAt(s: seq<Instr>, first: Block, k: nat)
    requires k < |s|
  {
    s[k].action.CloseScanGroup? && (first.scanDefId.Some? ==> ClosedIn(s[..k + 1], first.scanDefId.value))
  }

  ghost predicate EndsWithin(s: seq<Instr>, first: Block, i: nat, j: nat) {
    exists k: nat :: i <= k < j && k < |s| && EndsAt(s, first, k)
  }

  /** All that the requests give which have joined the item. */
  function Whole(t: Trace, first: Block): seq<Instr> {
    Streams(t.joined, Opened(first))
  }

  lemma EndsAtLonger(s: seq<Instr>, t: seq<Instr>, first: Block, k: nat)
    requires s <= t && k < |s|
    ensures EndsAt(s, first, k) <==> EndsAt(t, first, k)
  {
    assert s[..k + 1] == t[..k + 1];
  }

  /** A poll takes at most one instruction, and ends the item with it exactly there. */
  lemma PollTakes(first: Block, group: Option<string>, n: nat, d: nat, es: seq<Event>)
    requires !Run(Start(first, group, n, d), es).item.completed
    ensures var t := Run(Start(first, group, n, d), es);
      var (i, u, whole) := (Advance(t.item.queue).1, Step(t, Poll), Whole(t, first));
      && u.joined == t.joined && u.taken == t.taken + Given(i)
      && t.taken <= whole && u.taken <= whole
      && (i.Some? ==> |t.taken| < |whole| && (u.item.completed <==> EndsAt(whole, first, |t.taken|)))
  {
    hide Run, Advance, GetNext, Numbered, Tracked, Pending, Streams;
    RunConserves(first, group, n, d, es);
    EndsIff(first, group, n, d, es);
    var t := Run(Start(first, group, n, d), es);
    PollDelivers(t, first);
    var u, whole := Step(t, Poll), Whole(t, first);
    if Advance(t.item.queue).1.Some? {
      var k := |t.taken|;
      assert whole[..k + 1] == u.taken && whole[k] == u.taken[k];
    }
  }

  lemma ArriveWhole(t: Trace, first: Block, e: Event)
    requires e.Arrive?
    ensures Whole(t, first) <= Whole(Step(t, e), first)
  {
    StreamsAppend(t.joined, e.block, Opened(first));
  }

  /** Where the item ends or has ended, no continuation takes it any further. */
  lemma {:induction false} StopsThere(first: Block, group: Option<string>, n: nat, d: nat, es: seq<Event>,
                                      more: seq<Event>, k: nat)
    requires var t := Run(Start(first, group, n, d), es);
      t.item.completed || (|t.taken| <= k < |Whole(t, first)| && EndsAt(Whole(t, first), first, k))
    ensures var (t, u) := (Run(Start(first, group, n, d), es), Run(Start(first, group, n, d), es + more));
      && Whole(t, first) <= Whole(u, first)
      && if t.item.completed then u.item.completed && u.taken == t.taken
         else |u.taken| <= k || (u.item.completed && |u.taken| == k + 1)
  {
    hide Whole, EndsAt, Step;
    var start := Start(first, group, n, d);
    if more == [] {
      assert es + more == es;
    } else {
      var before, e := more[..|more| - 1], more[|more| - 1];
      StopsThere(first, group, n, d, es, before, k);
      assert es + more == es + before + [e];
      RunStep(start, es + before, e);
      hide Run;
      StopsStep(first, group, n, d, es + before, e, Run(start, es), k);
    }
  }

  lemma StopsStep(first: Block, group: Option<string>, n: nat, d: nat, es: seq<Event>, e: Event, t: Trace, k: nat)
    requires var s := Run(Start(first, group, n, d), es);
      && Whole(t, first) <= Whole(s, first)
      && (t.item.completed || (k < |Whole(t, first)| && EndsAt(Whole(t, first), first, k)))
      && if t.item.completed then s.item.completed && s.taken == t.taken
         else |s.taken| <= k || (s.item.completed && |s.taken| == k + 1)
    ensures var u := Step(Run(Start(first, group, n, d), es), e);
      && Whole(t, first) <= Whole(u, first)
      && if t.item.completed then u.item.completed && u.taken == t.taken
         else |u.taken| <= k || (u.item.completed && |u.taken| == k + 1)
  {
    hide Run, EndsAt, GetNext, Advance;
    var s := Run(Start(first, group, n, d), es);
    if e.Arrive? {
      ArriveWhole(s, first, e);
    } else if !s.item.completed {
      PollTakes(first, group, n, d, es);
      if |s.taken| == k { EndsAtLonger(Whole(t, first), Whole(s, first), first, k); }
    }
  }

  function Polls(m: nat): seq<Event> {
    seq(m, _ => Poll)
  }

  /** Where nothing ends the item, each poll takes one more instruction. */
  lemma {:induction false} GoesOn(first: Block, group: Option<string>, n: nat, d: nat, es: seq<Event>, p: nat, m: nat)
    requires var t := Run(Start(first, group, n, d), es);
      && !t.item.completed && AllProductive(t.joined) && |t.taken| + m <= p + 1 && p < |Whole(t, first)|
      && !EndsWithin(Whole(t, first), first, |t.taken|, p)
    ensures var (t, u) := (Run(Start(first, group, n, d), es), Run(Start(first, group, n, d), es + Polls(m)));
      u.joined == t.joined && |u.taken| == |t.taken| + m && (|u.taken| <= p ==> !u.item.completed)
  {
    hide Streams, EndsAt, Step;
    var start := Start(first, group, n, d);
    if m == 0 {
      assert es + Polls(m) == es;
    } else {
      GoesOn(first, group, n, d, es, p, m - 1);
      assert es + Polls(m) == es + Polls(m - 1) + [Poll];
      RunStep(start, es + Polls(m - 1), Poll);
      hide Run;
      GoesOnStep(first, group, n, d, es + Polls(m - 1), |Run(start, es).taken|, p);
    }
  }

  lemma GoesOnStep(first: Block, group: Option<string>, n: nat, d: nat, es: seq<Event>, from: nat, p: nat)
    requires var t := Run(Start(first, group, n, d), es);
      && !t.item.completed && AllProductive(t.joined) && from <= |t.taken| <= p < |Whole(t, first)|
      && !EndsWithin(Whole(t, first), first, from, p)
    ensures var (t, u) := (Run(Start(first, group, n, d), es), Step(Run(Start(first, group, n, d), es), Poll));
      u.joined == t.joined && |u.taken| == |t.taken| + 1 && (|u.taken| <= p ==> !u.item.completed)
  {
    hide Run, EndsAt, GetNext, Advance, Step, Numbered, Tracked, Pending, Productive, Streams;
    var t := Run(Start(first, group, n, d), es);
    RunConserves(first, group, n, d, es);
    RunEnds(first, group, n, d, es);
    PollTakes(first, group, n, d, es);
    AdvanceEnds(t.item.queue);
  }

  ghost predicate GetsPast(first: Block, group: Option<string>, n: nat, d: nat, es: seq<Event>, p: nat) {
    exists more :: |Run(Start(first, group, n, d), es + more).taken| > p
  }

  /**
    Main result, the exact condition: from any moment of any run, instruction `p` of what has joined is taken in some
    continuation if and only if the item has not ended and takes no group closing before `p` with its scan def closed.
    Then it is taken by polling alone.
   */
  lemma GetsPastIff(first: Block, group: Option<string>, n: nat, d: nat, es: seq<Event>, p: nat)
    requires AllProductive(Run(Start(first, group, n, d), es).joined)
    requires var t := Run(Start(first, group, n, d), es); |t.taken| <= p < |Whole(t, first)|
    ensures var t := Run(Start(first, group, n, d), es);
      && (GetsPast(first, group, n, d, es, p) <==>
           !t.item.completed && !EndsWithin(Whole(t, first), first, |t.taken|, p))
      && (GetsPast(first, group, n, d, es, p) <==>
           |Run(Start(first, group, n, d), es + Polls(p + 1 - |t.taken|)).taken| > p)
  {
    hide Run, Whole, EndsAt;
    var start := Start(first, group, n, d);
    var t := Run(start, es);
    if !t.item.completed && !EndsWithin(Whole(t, first), first, |t.taken|, p) {
      GoesOn(first, group, n, d, es, p, p + 1 - |t.taken|);
    } else {
      var k: nat := if t.item.completed then 0
        else var k: nat :| |t.taken| <= k < p && k < |Whole(t, first)| && EndsAt(Whole(t, first), first, k); k;
      forall more ensures |Run(start, es + more).taken| <= p {
        StopsThere(first, group, n, d, es, more, k);
      }
    }
  }

  /**
    So a request that joins an item is begun if and only if the item has not ended and no group closing still to be
    taken ends it, which one does if the scan def has been closed by then.
   */
  lemma JoinedRunsIff(first: Block, group: Option<string>, n: nat, d: nat, es: seq<Event>, b: Block, g: Option<string>)
    requires var t := Run(Start(first, group, n, d), es); Joins(t.item, b, g) && AllProductive(t.joined + [b])
    ensures var t := Run(Start(first, group, n, d), es);
      GetsPast(first, group, n, d, es + [Arrive(b, g)], |Whole(t, first)|) <==>
        !t.item.completed && !EndsWithin(Whole(t, first), first, |t.taken|, |Whole(t, first)|)
  {
    var t := Run(Start(first, group, n, d), es);
    RunStep(Start(first, group, n, d), es, Arrive(b, g));
    RunConserves(first, group, n, d, es);
    hide Run, Append, GetsPast, Pending, Tracked, Numbered;
    var u := Step(t, Arrive(b, g));
    var s, whole := Whole(t, first), Whole(u, first);
    StreamsAppend(t.joined, b, Opened(first));
    hide Streams, EndsAt;
    assert u.joined == t.joined + [b];
    assert Productive((t.joined + [b])[|t.joined|]);
    assert s <= whole && |s| < |whole|;
    GetsPastIff(first, group, n, d, es + [Arrive(b, g)], |s|);
    forall k: nat | k < |s| ensures EndsAt(s, first, k) <==> EndsAt(whole, first, k) {
      EndsAtLonger(s, whole, first, k);
    }
  }

  /** As long as an item has not ended, it has taken nothing that ends it. */
  lemma {:induction false} NotEndedYet(first: Block, group: Option<string>, n: nat, d: nat, es: seq<Event>)
    requires !Run(Start(first, group, n, d), es).item.completed
    ensures var t := Run(Start(first, group, n, d), es);
      t.taken <= Whole(t, first) && !EndsWithin(Whole(t, first), first, 0, |t.taken|)
  {
    hide EndsAt, GetNext, Advance, Streams;
    if es != [] {
      var before, e := es[..|es| - 1], es[|es| - 1];
      var s := Run(Start(first, group, n, d), before);
      NotEndedYet(first, group, n, d, before);
      if e.Arrive? {
        ArriveWhole(s, first, e);
        LongerNotEnded(Whole(s, first), Whole(Step(s, e), first), first, |s.taken|);
      } else {
        PollTakes(first, group, n, d, before);
        hide Step, Run;
      }
    }
  }

  lemma LongerNotEnded(s: seq<Instr>, t: seq<Instr>, first: Block, j: nat)
    requires s <= t && j <= |s| && !EndsWithin(s, first, 0, j)
    ensures !EndsWithin(t, first, 0, j)
  {
    forall k: nat | k < j ensures !EndsAt(t, first, k) { EndsAtLonger(s, t, first, k); }
  }

  /** A completed item has ended at some poll, and nothing has been taken from it since. */
  lemma {:induction false} EndingPoll(first: Block, group: Option<string>, n: nat, d: nat, es: seq<Event>)
    returns (j: nat)
    requires Run(Start(first, group, n, d), es).item.completed
    ensures j < |es| && es[j] == Poll && !Run(Start(first, group, n, d), es[..j]).item.completed
    ensures var (t, s) := (Run(Start(first, group, n, d), es), Run(Start(first, group, n, d), es[..j]));
      var u := Step(s, Poll);
      && Run(Start(first, group, n, d), es[..j + 1]) == u && u.item.completed
      && t.taken == u.taken && t.handed == u.handed && u.joined <= t.joined
      && t.item.queue.scanNumber == u.item.queue.scanNumber
      && t.item.queue.datasetNumber == u.item.queue.datasetNumber
  {
    hide GetNext, Advance;
    j := |es| - 1;
    var before := es[..j];
    assert es[..j + 1] == es;
    if Run(Start(first, group, n, d), before).item.completed {
      j := EndingPoll(first, group, n, d, before);
      assert before[..j] == es[..j] && before[..j + 1] == es[..j + 1];
    }
  }

  /** The poll that ends an item leaves something out exactly if something ends the item before the last instruction. */
  lemma EndingTakes(first: Block, group: Option<string>, n: nat, d: nat, es: seq<Event>)
    requires var s := Run(Start(first, group, n, d), es);
      !s.item.completed && Step(s, Poll).item.completed && AllProductive(s.joined)
    ensures var u := Step(Run(Start(first, group, n, d), es), Poll);
      var whole := Whole(u, first);
      && whole != [] && u.taken <= whole
      && (u.taken == whole <==> !EndsWithin(whole, first, 0, |whole| - 1))
      && (|u.taken| < |whole| ==> u.taken != [] && EndsAt(whole, first, |u.taken| - 1))
      && (u.taken == whole && !EndsAt(whole, first, |whole| - 1) ==>
           && u.item.queue.scanNumber == n + Count(u.joined, RaisesScanNumber)
           && u.item.queue.datasetNumber == d + Count(u.joined, RaisesDatasetNumber))
  {
    hide Run, EndsAt, Streams, Pending, Count, Productive;
    var s := Run(Start(first, group, n, d), es);
    RunConserves(first, group, n, d, es);
    RunEnds(first, group, n, d, es);
    NotEndedYet(first, group, n, d, es);
    PollTakes(first, group, n, d, es);
    PollNumbers(s, n, d);
    PollEnds(s);
    AdvanceEnds(s.item.queue);
    FirstGives(first, group, n, d, es);
    var u := Step(s, Poll);
    GetNextIs(s.item);
    hide GetNext, Advance;
    if Advance(s.item.queue).1.None? {
      assert s.taken + [] == s.taken;
      assert Unfinished(u.item.queue) + u.item.skipped == [];
      NothingCounts(RaisesScanNumber);
      NothingCounts(RaisesDatasetNumber);
    }
  }

  lemma NothingCounts(raises: Block -> bool)
    ensures Count([], raises) == 0
  {
  }

  lemma {:induction false} FirstGives(first: Block, group: Option<string>, n: nat, d: nat, es: seq<Event>)
    ensures var t := Run(Start(first, group, n, d), es);
      t.joined != [] && (AllProductive(t.joined) ==> Whole(t, first) != [])
  {
    hide GetNext, Streams;
    if es != [] { FirstGives(first, group, n, d, es[..|es| - 1]); }
    var t := Run(Start(first, group, n, d), es);
    GivesFirst(t.joined, Opened(first));
  }

  lemma GivesFirst(bs: seq<Block>, points: map<string, nat>)
    requires bs != []
    ensures AllProductive(bs) ==> Streams(bs, points) != []
  {
    if AllProductive(bs) { assert Productive(bs[0]); }
  }

  /**
    Main result, what a completed item leaves out: it has its scan def and its group closed, and of what had joined it
    when it ended everything was taken if and only if nothing ended it before the last instruction; otherwise it was
    taken up to the group closing that ended it. When nothing ended it, all requests are counted.
   */
  lemma CompletedItem(first: Block, group: Option<string>, n: nat, d: nat, es: seq<Event>) returns (j: nat)
    requires AllProductive(Run(Start(first, group, n, d), es).joined)
    requires Run(Start(first, group, n, d), es).item.completed
    ensures j < |es| && es[j] == Poll && !Run(Start(first, group, n, d), es[..j]).item.completed
    ensures var (t, u) := (Run(Start(first, group, n, d), es), Run(Start(first, group, n, d), es[..j + 1]));
      var whole := Whole(u, first);
      && u.item.completed && t.taken == u.taken && t.handed == Seen(t.taken)
      && (first.scanDefId.Some? ==> ClosedIn(t.taken, first.scanDefId.value))
      && (group.Some? ==> GroupClosedIn(t.taken))
      && whole != [] && t.taken <= whole
      && (t.taken == whole <==> !EndsWithin(whole, first, 0, |whole| - 1))
      && (|t.taken| < |whole| ==> t.taken != [] && EndsAt(whole, first, |t.taken| - 1))
      && (t.taken == whole && !EndsAt(whole, first, |whole| - 1) ==>
           && t.item.queue.scanNumber == n + Count(u.joined, RaisesScanNumber)
           && t.item.queue.datasetNumber == d + Count(u.joined, RaisesDatasetNumber))
  {
    hide EndsAt, Streams, Step, Count, Productive;
    RunConserves(first, group, n, d, es);
    RunEnds(first, group, n, d, es);
    var t := Run(Start(first, group, n, d), es);
    if first.scanDefId.Some? { assert first.scanDefId.value !in t.item.queue.defs; }
    j := EndingPoll(first, group, n, d, es);
    RunConserves(first, group, n, d, es[..j + 1]);
    hide Run;
    var s := Run(Start(first, group, n, d), es[..j]);
    PollJoins(s);
    PrefixProductive(s.joined, t.joined);
    EndingTakes(first, group, n, d, es[..j]);
  }

  lemma PollJoins(s: Trace)
    ensures Step(s, Poll).joined == s.joined
  {
  }

  lemma PrefixProductive(a: seq<Block>, b: seq<Block>)
    requires a <= b && AllProductive(b)
    ensures AllProductive(a)
  {
    forall k | 0 <= k < |a| ensures Productive(a[k]) { assert a[k] == b[k]; }
  }

  /** Without a group closing, a completed item has handed out and counted everything that ever joined it. */
  lemma CompletedPlainly(first: Block, group: Option<string>, n: nat, d: nat, es: seq<Event>)
    requires AllProductive(Run(Start(first, group, n, d), es).joined)
    requires var t := Run(Start(first, group, n, d), es); t.item.completed && !GroupClosedIn(t.taken)
    ensures var t := Run(Start(first, group, n, d), es);
      && t.handed == Seen(Whole(t, first))
      && t.item.queue.scanNumber == n + Count(t.joined, RaisesScanNumber)
      && t.item.queue.datasetNumber == d + Count(t.joined, RaisesDatasetNumber)
  {
    RunConserves(first, group, n, d, es);
    RunEnds(first, group, n, d, es);
    var t := Run(Start(first, group, n, d), es);
    hide Run, Streams;
    NoStreams(t.item.queue.defs);
    assert Pending(t.item.queue) == [] && t.taken + [] == t.taken;
  }

  lemma NoStreams(points: map<string, nat>)
    ensures Streams([], points) == []
  {
  }

  // ----- Requests behind a closing -----

  /** The point the next scan of the def starts with when `bs` started with `p` and did not close it. */
  function NextPoint(bs: seq<Block>, def: string, p: nat): nat {
    if bs == [] then p
    else NextPoint(bs[1..], def, if bs[0].isScan && bs[0].scanDefId == Some(def) then bs[0].finalPoint(p) else p)
  }

  /** Scans of a def go on with each other's points; one behind the closing of the def starts at 0 again. */
  lemma {:induction false} RestartsIff(bs: seq<Block>, def: string, points: map<string, nat>, b: Block)
    requires def in points && b.isScan && b.scanDefId == Some(def)
    ensures StartPoint(b, PointsAfterAll(bs, points)) ==
      if ClosedIn(Streams(bs, points), def) then 0 else NextPoint(bs, def, points[def])
  {
    if bs != [] {
      var s := bs[0].stream(StartPoint(bs[0], points));
      CloseAllIs(s, points, def);
      ClosedConcat(s, Streams(bs[1..], PointsAfter(bs[0], points)), def);
      hide ClosedIn;
      if def in PointsAfter(bs[0], points) {
        RestartsIff(bs[1..], def, PointsAfter(bs[0], points), b);
      } else {
        StaysClosed(bs[1..], def, PointsAfter(bs[0], points));
      }
    }
  }

  /** Two scans of a def, the second of which joins behind the closing: both take the same points. */
  lemma PointsTakenTwice(scan: Block, closing: Block, def: string, i: Instr, n: nat, d: nat)
    requires scan.isScan && scan.scanDefId == Some(def) && !ClosedIn(scan.stream(0), def)
    requires !closing.isScan && closing.scanDefId == Some(def) && closing.stream(0) == [i] && ClosesDef(i, def)
    ensures var t := Run(Start(scan, None, n, d), [Arrive(closing, None), Arrive(scan, None)]);
      t.joined == [scan, closing, scan] && Pending(t.item.queue) == scan.stream(0) + [i] + scan.stream(0)
  {
    hide Run, Streams, Step, Pending;
    var s, e, f := Start(scan, None, n, d), Arrive(closing, None), Arrive(scan, None);
    RunConserves(scan, None, n, d, [e, f]);
    RunTwo(s, e, f);
    TwoJoin(s, closing, scan);
    TwiceStreamed(scan, closing, def, i);
    assert [scan] + [closing] + [scan] == [scan, closing, scan];
    var t := Run(s, [e, f]);
    assert [] + Pending(t.item.queue) == Pending(t.item.queue);
  }

  lemma RunTwo(s: Trace, e: Event, f: Event)
    ensures Run(s, [e, f]) == Step(Step(s, e), f)
  {
    RunStep(s, [], e);
    RunStep(s, [e], f);
    assert [] + [e] == [e] && [e] + [f] == [e, f] && Run(s, []) == s;
  }

  lemma TwiceStreamed(scan: Block, closing: Block, def: string, i: Instr)
    requires scan.isScan && scan.scanDefId == Some(def)
    requires !closing.isScan && closing.stream(0) == [i] && ClosesDef(i, def)
    ensures Streams([scan, closing, scan], Opened(scan)) == scan.stream(0) + [i] + scan.stream(0)
  {
    hide Streams, PointsAfterAll;
    var points := Opened(scan);
    StreamsAppend([], scan, points);
    StreamsAppend([scan], closing, points);
    StreamsAppend([scan, closing], scan, points);
    assert [] + [scan] == [scan] && [scan] + [closing] == [scan, closing];
    assert [scan, closing] + [scan] == [scan, closing, scan];
    NoStreams(points);
    RestartsIff([], def, points, scan);
    assert [] + scan.stream(0) == scan.stream(0);
    assert Streams([scan, closing], points)[|scan.stream(0)|] == i;
    RestartsIff([scan, closing], def, points, scan);
  }

  lemma TwoJoin(s: Trace, b: Block, c: Block)
    requires b.scanDefId.Some? && c.scanDefId == b.scanDefId && InDef(b, s.item.queue.defs)
    ensures var t := Step(Step(s, Arrive(b, None)), Arrive(c, None));
      t.joined == s.joined + [b] + [c] && t.taken == s.taken
  {
  }

  lemma {:induction false} CloseAllIs(s: seq<Instr>, points: map<string, nat>, d: string)
    ensures d in CloseAll(s, points) <==> d in points && !ClosedIn(s, d)
    ensures d in CloseAll(s, points) ==> CloseAll(s, points)[d] == points[d]
  {
    if s != [] {
      CloseAllIs(s[1..], CloseDef(s[0], points), d);
      ClosedConcat([s[0]], s[1..], d);
      assert s == [s[0]] + s[1..];
    }
  }

  lemma ClosedConcat(s: seq<Instr>, t: seq<Instr>, d: string)
    ensures ClosedIn(s + t, d) <==> ClosedIn(s, d) || ClosedIn(t, d)
  {
    assert forall k :: 0 <= k < |s| ==> (s + t)[k] == s[k];
    assert forall k :: 0 <= k < |t| ==> (s + t)[|s| + k] == t[k];
    if k :| 0 <= k < |s + t| && ClosesDef((s + t)[k], d) {
      if k >= |s| { assert t[k - |s|] == (s + t)[k]; }
    }
  }

  lemma {:induction false} StaysClosed(bs: seq<Block>, d: string, points: map<string, nat>)
    requires d !in points
    ensures d !in PointsAfterAll(bs, points)
  {
    if bs != [] {
      CloseAllIs(bs[0].stream(StartPoint(bs[0], points)), points, d);
      StaysClosed(bs[1..], d, PointsAfter(bs[0], points));
    }
  }

  /** Without a scan def, a request that joins a group behind its closing is not executed. */
  lemma ClosingCutsOff(closing: Block, late: Block, group: string, n: nat, d: nat, i: Instr)
    requires closing.scanDefId.None? && late.scanDefId.None?
    requires closing.stream(0) == [i] && i.action.CloseScanGroup?
    ensures var t := Run(Start(closing, Some(group), n, d), [Arrive(late, Some(group)), Poll]);
      t.joined == [closing, late] && t.item.completed && t.handed == [] && Pending(t.item.queue) == late.stream(0)
  {
    var s := Start(closing, Some(group), n, d);
    RunStep(s, [], Arrive(late, Some(group)));
    RunStep(s, [Arrive(late, Some(group))], Poll);
    assert [] + [Arrive(late, Some(group))] == [Arrive(late, Some(group))];
    assert [Arrive(late, Some(group))] + [Poll] == [Arrive(late, Some(group)), Poll];
    var t := Step(s, Arrive(late, Some(group)));
    assert Run(s, []) == s && t.item.queue.waiting == [closing, late];
    assert Streams([late], map[]) == late.stream(0) by { assert late.stream(0) + [] == late.stream(0); }
  }

  /** With the scan def still open, a request that joins the group behind its closing is. */
  lemma LateRequestRuns(first: Block, closing: Block, late: Block, group: string, def: string, n: nat, d: nat,
                        x: Instr, c: Instr)
    requires first.scanDefId == Some(def) && closing.scanDefId.None? && late.scanDefId.None?
    requires first.stream(0) == [x] && closing.stream(0) == [c] && late.stream(0) == [x]
    requires c.action.CloseScanGroup? && Shown(x) && !ClosesDef(x, def)
    ensures var g := Some(group);
      var t := Run(Start(first, g, n, d), [Arrive(closing, g), Arrive(late, g), Poll, Poll, Poll]);
      t.joined == [first, closing, late] && t.handed == [x, x] && !t.item.completed
  {
    var g := Some(group);
    var s, es := Start(first, g, n, d), [Arrive(closing, g), Arrive(late, g)];
    RunTwo(s, es[0], es[1]);
    RunStep(s, es, Poll);
    RunStep(s, es + [Poll], Poll);
    RunStep(s, es + [Poll] + [Poll], Poll);
    assert es + [Poll] + [Poll] + [Poll] == [Arrive(closing, g), Arrive(late, g), Poll, Poll, Poll];
    hide Run, Step, Start;
    var t := Step(Step(s, es[0]), es[1]);
    GroupJoined(first, closing, late, group, n, d);
    LatePolls(t, first, closing, late, def, x, c);
  }

  lemma GroupJoined(first: Block, b: Block, c: Block, group: string, n: nat, d: nat)
    requires b.scanDefId.None? && c.scanDefId.None?
    ensures var g := Some(group);
      var t := Step(Step(Start(first, g, n, d), Arrive(b, g)), Arrive(c, g));
      && t.item.queue.active.None? && t.item.queue.waiting == [first, b, c] && !t.item.completed
      && t.item.queue.defs == Opened(first) && t.handed == [] && t.joined == [first, b, c]
  {
  }

  lemma LatePolls(t: Trace, first: Block, closing: Block, late: Block, def: string, x: Instr, c: Instr)
    requires t.item.queue.active.None? && t.item.queue.waiting == [first, closing, late] && !t.item.completed
    requires t.item.queue.defs == map[def := 0] && t.handed == []
    requires first.scanDefId == Some(def) && closing.scanDefId.None? && late.scanDefId.None?
    requires first.stream(0) == [x] && closing.stream(0) == [c] && late.stream(0) == [x]
    requires c.action.CloseScanGroup? && Shown(x) && !ClosesDef(x, def)
    ensures var u := Step(Step(Step(t, Poll), Poll), Poll);
      u.joined == t.joined && u.handed == [x, x] && !u.item.completed
  {
    var a := Step(t, Poll);
    assert a.handed == [x] && a.item.queue.waiting == [closing, late] && a.item.queue.active.value.rest == [];
    assert def in a.item.queue.defs && !a.item.completed;
    var b := Step(a, Poll);
    assert b.handed == [x] && b.item.queue.waiting == [late] && b.item.queue.active.value.rest == [];
    assert def in b.item.queue.defs && !b.item.completed;
  }

  // ----- Draining in one loop -----

  /** Every block yields something when its turn comes. */
  predicate NoneEmpty(bs: seq<Block>, points: map<string, nat>) {
    bs == [] || (bs[0].stream(StartPoint(bs[0], points)) != [] && NoneEmpty(bs[1..], PointsAfter(bs[0], points)))
  }

  predicate AllShown(s: seq<Instr>) {
    forall k :: 0 <= k < |s| ==> Shown(s[k])
  }

  /** The loop from `x` to `y` has left nothing in the queue and skipped nothing. */
  ghost predicate Drained(x: Item, y: Item) {
    y.queue.active.None? && y.queue.waiting == [] && y.skipped == x.skipped
  }

  lemma GetNextConserves(x: Item)
    requires GetNext(x).1.Handed?
    ensures Conserved(x.queue, GetNext(x).0.queue, [GetNext(x).1.instr]) && GetNext(x).0.skipped == x.skipped
  {
    AdvanceConserves(x.queue);
    GetNextIs(x);
  }

  /** A poll that hands out nothing ends the loop in a drained queue only if nothing was pending. */
  lemma StopDrains(x: Item)
    requires !GetNext(x).1.Handed? && Drained(x, GetNext(x).0)
    ensures Conserved(x.queue, GetNext(x).0.queue, []) && Pending(x.queue) == []
  {
    AdvanceConserves(x.queue);
    GetNextIs(x);
    var q := Advance(x.queue).0;
    assert [] + Pending(q) == Pending(q);
    if Advance(x.queue).1.Some? { AdvanceActive(x.queue); }
  }

  lemma AdvanceActive(q: Queue)
    requires Advance(q).1.Some?
    ensures Advance(q).0.active.Some?
  {
  }

  lemma {:induction false} DrainConserves(x: Item)
    requires Drained(x, DrainFrom(x).0)
    ensures Conserved(x.queue, DrainFrom(x).0.queue, DrainFrom(x).1) && DrainFrom(x).1 == Pending(x.queue)
    decreases |x.queue.waiting|, RestLength(x.queue)
  {
    hide Pending, PointsAhead, Unfinished, PointsAfterAll, Advance, GetNext;
    var (y, o) := GetNext(x);
    if o.Handed? {
      HandedShrinks(x);
      GetNextConserves(x);
      DrainConserves(y);
      var rest := DrainFrom(y);
      assert [o.instr] + rest.1 + Pending(rest.0.queue) == [o.instr] + (rest.1 + Pending(rest.0.queue));
    } else {
      StopDrains(x);
    }
  }

  lemma AllShownCons(i: Instr, s: seq<Instr>)
    ensures AllShown([i] + s) <==> Shown(i) && AllShown(s)
  {
    assert forall k :: 0 <= k < |s| ==> ([i] + s)[k + 1] == s[k];
    if AllShown([i] + s) { assert ([i] + s)[0] == i; }
  }

  /** With an instruction at hand, the poll hands it out or the loop ends before the queue is drained. */
  lemma HandsFirst(x: Item)
    requires x.queue.active.Some? && x.queue.active.value.rest != []
    ensures var (i, (y, o)) := (x.queue.active.value.rest[0], GetNext(x));
      && Pending(x.queue) == [i] + Pending(y.queue) && y.queue.active.Some? && y.skipped == x.skipped
      && y.queue.waiting == x.queue.waiting && PointsAhead(y.queue) == PointsAhead(x.queue)
      && RestLength(y.queue) < RestLength(x.queue) && (o.Handed? <==> Shown(i))
  {
    TakeConserves(x.queue);
  }

  /** An exhausted block makes room for the next one. */
  lemma MovesOn(x: Item)
    requires x.queue.active.Some? && x.queue.active.value.rest == []
    ensures var (q, y) := (x.queue, GetNext(x).0);
      if q.waiting == [] then !GetNext(x).1.Handed? && Drained(x, y) && Pending(q) == []
      else
        var p := Pull(Complete(q));
        && |p.waiting| < |q.waiting| && Pending(p) == Pending(q) && p.waiting == q.waiting[1..]
        && p.active.value.rest == q.waiting[0].stream(StartPoint(q.waiting[0], PointsAhead(q)))
        && PointsAhead(p) == PointsAfter(q.waiting[0], PointsAhead(q))
        && if p.active.value.rest == [] then !GetNext(x).1.Handed? && !Drained(x, y)
           else GetNext(x.(queue := p)) == GetNext(x)
  {
    CompleteConserves(x.queue);
    assert [] + Pending(Complete(x.queue)) == Pending(Complete(x.queue));
    if x.queue.waiting != [] {
      PullConserves(Complete(x.queue));
      assert [] + Pending(Pull(Complete(x.queue))) == Pending(Pull(Complete(x.queue)));
    }
  }

  /** With a block active, the loop drains the queue exactly when no waiting block is empty and nothing is hidden. */
  lemma {:induction false} ActiveDrains(x: Item)
    requires x.queue.active.Some?
    ensures Drained(x, DrainFrom(x).0) <==>
      NoneEmpty(x.queue.waiting, PointsAhead(x.queue)) && AllShown(Pending(x.queue))
    decreases |x.queue.waiting|, RestLength(x.queue)
  {
    if x.queue.active.value.rest != [] {
      HandsFirst(x);
      AllShownCons(x.queue.active.value.rest[0], Pending(GetNext(x).0.queue));
      if GetNext(x).1.Handed? { ActiveDrains(GetNext(x).0); }
    } else {
      MovesOn(x);
      hide GetNext, Pending, PointsAfter;
      if x.queue.waiting != [] && Pull(Complete(x.queue)).active.value.rest != [] {
        ActiveDrains(x.(queue := Pull(Complete(x.queue))));
      }
    }
  }

  lemma DrainedIs(x: Item)
    requires x.queue.active.None? && Drained(x, DrainFrom(x).0)
    ensures var (q, p) := (x.queue, DrainFrom(x).0.queue);
      && DrainFrom(x).1 == Streams(q.waiting, q.defs) && p.defs == PointsAfterAll(q.waiting, q.defs)
      && p.scanNumber == q.scanNumber + Count(q.waiting, RaisesScanNumber)
      && p.datasetNumber == q.datasetNumber + Count(q.waiting, RaisesDatasetNumber)
  {
    hide DrainFrom;
    var q := x.queue;
    DrainConserves(x);
    assert [] + q.waiting == q.waiting && [] + Streams(q.waiting, q.defs) == Streams(q.waiting, q.defs);
  }

  lemma PullFirst(x: Item)
    requires x.queue.active.None? && x.queue.waiting != []
    ensures var (q, p) := (x.queue, Pull(x.queue));
      && p.active.Some? && p.waiting == q.waiting[1..] && PointsAhead(p) == PointsAfter(q.waiting[0], q.defs)
      && Pending(p) == Streams(q.waiting, q.defs) && GetNext(x.(queue := p)) == GetNext(x)
  {
    PullConserves(x.queue);
  }

  /**
    The loop over an item between two requests drains it exactly when no block but the first is empty and none gives a
    placeholder or a group closing. It then hands out the concatenation of all streams, raises the numbers by the share
    of all blocks, and leaves those scan defs open that the streams do not close.
   */
  lemma DrainIff(x: Item)
    requires x.queue.active.None?
    ensures var (y, q, p) := (DrainFrom(x).0, x.queue, DrainFrom(x).0.queue);
      && (Drained(x, y) <==>
           && AllShown(Streams(q.waiting, q.defs))
           && (q.waiting == [] || NoneEmpty(q.waiting[1..], PointsAfter(q.waiting[0], q.defs))))
      && (Drained(x, y) ==>
           && DrainFrom(x).1 == Streams(q.waiting, q.defs)
           && p.scanNumber == q.scanNumber + Count(q.waiting, RaisesScanNumber)
           && p.datasetNumber == q.datasetNumber + Count(q.waiting, RaisesDatasetNumber)
           && p.defs == PointsAfterAll(q.waiting, q.defs))
  {
    var q := x.queue;
    assert [] + q.waiting == q.waiting && [] + Streams(q.waiting, q.defs) == Streams(q.waiting, q.defs);
    if q.waiting != [] {
      PullFirst(x);
      hide GetNext, Streams, PointsAfter, Pull, Count;
      ActiveDrains(x.(queue := Pull(q)));
    }
    hide DrainFrom, NoneEmpty, AllShown, Count;
    if Drained(x, DrainFrom(x).0) { DrainedIs(x); }
  }

  predicate PlainScan(b: Block) {
    b.isScan && b.scanDefId.None?
  }

  predicate ClosingBlock(b: Block) {
    b.closesDef && b.scanDefId.Some?
  }

  predicate HeldBack(b: Block) {
    RaisesScanNumber(b) && b.onHold
  }

  /** The numbers count the scans outside scan defs and the closed scan defs, datasets without those on hold. */
  lemma {:induction false} CountIs(bs: seq<Block>)
    ensures Count(bs, RaisesScanNumber) == Count(bs, PlainScan) + Count(bs, ClosingBlock)
    ensures Count(bs, RaisesDatasetNumber) == Count(bs, RaisesScanNumber) - Count(bs, HeldBack)
  {
    if bs != [] { CountIs(bs[1..]); }
  }
}
