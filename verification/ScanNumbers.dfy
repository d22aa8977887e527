/**
  The scan numbers predicted for queued scans, and the numbers in force when those scans start. Requests carry no
  scan def, so a request block is a scan exactly when it has a scan ID.
 */
module ScanNumbers {
  import opened Instructions

  /**
    A queue item. `counted` tells for how many of its blocks the worker has passed the accounting step, `aborted`
    that the worker has given up on it; its status is then STOPPED until it leaves the queue.
   */
  datatype Item = Item(id: nat, scanIDs: seq<Option<nat>>, counted: nat, completed: bool, aborted: bool)

  /** `number` is the scan server's scan number, `issued` counts the IDs drawn so far. */
  datatype State = State(number: nat, queue: seq<Item>, issued: nat)

  // ----- The prediction -----

  /** The scan IDs that are set. */
  function Scans(ids: seq<Option<nat>>): seq<nat> {
    if ids == [] then []
    else Scans(ids[..|ids| - 1]) + match ids[|ids| - 1] { case Some(id) => [id] case None => [] }
  }

  /** How many scans of the item come before a scan ID. */
  function Before(ids: seq<Option<nat>>, scanID: nat): nat {
    if ids == [] || ids[0] == Some(scanID) then 0
    else (if ids[0].Some? then 1 else 0) + Before(ids[1..], scanID)
  }

  function Offset(q: seq<Item>, id: nat, scanID: nat): nat {
    if q == [] then 0
    else if q[0].completed then Offset(q[1..], id, scanID)
    else if q[0].id != id then |Scans(q[0].scanIDs)| + Offset(q[1..], id, scanID)
    else Before(q[0].scanIDs, scanID)
  }

  lemma {:induction false} ScansConcat(a: seq<Option<nat>>, b: seq<Option<nat>>)
    ensures Scans(a + b) == Scans(a) + Scans(b)
  {
    if b == [] {
      assert a + b == a;
    } else {
      assert (a + b)[..|a + b| - 1] == a + b[..|b| - 1];
      ScansConcat(a, b[..|b| - 1]);
    }
  }

  /** The number of a scan is predicted with the head offset of its block in the queue. */
  method ScanIDsHead(queue: seq<Item>, ownId: nat, ownScanID: nat) returns (offset: nat)
    ensures offset == Offset(queue, ownId, ownScanID)
  {
    offset := 0;
    for i := 0 to |queue|
      invariant offset + Offset(queue[i..], ownId, ownScanID) == Offset(queue, ownId, ownScanID)
    {
      var item := queue[i];
      if item.completed { continue; }
      if item.id != ownId {
        var n := CountSet(item.scanIDs);
        offset := offset + n;
      } else {
        for k := 0 to |item.scanIDs|
          invariant offset + Before(item.scanIDs[k..], ownScanID) == Offset(queue, ownId, ownScanID)
        {
          if item.scanIDs[k] == Some(ownScanID) { return; }
          if item.scanIDs[k].Some? {
            offset := offset + 1;
          }
        }
        return;
      }
    }
  }

  method CountSet(ids: seq<Option<nat>>) returns (n: nat)
    ensures n == |Scans(ids)|
  {
    n := 0;
    for k := 0 to |ids|
      invariant n == |Scans(ids[..k])|
    {
      assert ids[..k + 1][..k] == ids[..k];
      if ids[k].Some? { n := n + 1; }
    }
    assert ids[..|ids|] == ids;
  }

  // ----- The events -----

  /**
    `Append` queues a new item, `Join` adds a block to a queued one; `Finish` accounts for the block the worker
    has drained, `Complete` marks the drained item, `Abort` is the worker giving up on the head item.
   */
  datatype Event = Append(isScan: bool) | Join(index: nat, isScan: bool) | Finish | Complete | Abort | Pop

  function Drawn(s: State, isScan: bool): Option<nat> {
    if isScan then Some(s.issued) else None
  }

  predicate Running(q: seq<Item>) {
    q != [] && !q[0].completed && !q[0].aborted && q[0].counted < |q[0].scanIDs|
  }

  /** Accounting for the block at hand, which raises the number if it is a scan. */
  function Count(s: State): State
    requires Running(s.queue)
  {
    var x := s.queue[0];
    s.(number := s.number + (if x.scanIDs[x.counted].Some? then 1 else 0),
       queue := [x.(counted := x.counted + 1)] + s.queue[1..])
  }

  function Step(s: State, e: Event): State {
    match e
    case Append(isScan) =>
      s.(queue := s.queue + [Item(s.issued, [Drawn(s, isScan)], 0, false, false)], issued := s.issued + 1)
    case Join(i, isScan) =>
      if i >= |s.queue| then s
      else
        var x := s.queue[i];
        s.(queue := s.queue[i := x.(scanIDs := x.scanIDs + [Drawn(s, isScan)])], issued := s.issued + 1)
    case Finish =>
      if Running(s.queue) then Count(s) else s
    case Complete =>
      if s.queue != [] && !s.queue[0].aborted && s.queue[0].counted == |s.queue[0].scanIDs|
      then s.(queue := [s.queue[0].(completed := true)] + s.queue[1..]) else s
    case Abort =>
      if Running(s.queue)
      then var c := Count(s); c.(queue := [c.queue[0].(aborted := true)] + c.queue[1..]) else s
    case Pop =>
      if s.queue != [] && (s.queue[0].completed || s.queue[0].aborted) then s.(queue := s.queue[1..]) else s
  }

  function Run(s: State, es: seq<Event>): State {
    if es == [] then s else Step(Run(s, es[..|es| - 1]), es[|es| - 1])
  }

  // ----- The scans still to be started -----

  function Left(x: Item): seq<nat> {
    if x.completed || x.aborted || x.counted > |x.scanIDs| then [] else Scans(x.scanIDs[x.counted..])
  }

  /** The scans still to be started, in queue order. */
  function Waiting(q: seq<Item>): seq<nat> {
    if q == [] then [] else Left(q[0]) + Waiting(q[1..])
  }

  lemma {:induction false} WaitingConcat(a: seq<Item>, b: seq<Item>)
    ensures Waiting(a + b) == Waiting(a) + Waiting(b)
  {
    if a == [] {
      assert a + b == b;
    } else {
      assert (a + b)[1..] == a[1..] + b;
      WaitingConcat(a[1..], b);
    }
  }

  // ----- Every reachable state -----

  predicate Untouched(x: Item) {
    x.counted == 0 && !x.completed && !x.aborted
  }

  predicate SetBelow(ids: seq<Option<nat>>, n: nat) {
    forall k :: 0 <= k < |ids| && ids[k].Some? ==> ids[k].value < n
  }

  ghost predicate NoneTwice(ids: seq<Option<nat>>) {
    forall k, l :: 0 <= k < l < |ids| && ids[k].Some? ==> ids[k] != ids[l]
  }

  ghost predicate ItemFits(x: Item, n: nat) {
    x.id < n && SetBelow(x.scanIDs, n) && NoneTwice(x.scanIDs) && x.counted <= |x.scanIDs|
  }

  /** Only the head is worked on; IDs are unique. */
  ghost predicate Sound(s: State) {
    && (forall i :: 0 <= i < |s.queue| ==> ItemFits(s.queue[i], s.issued))
    && (forall i :: 0 < i < |s.queue| ==> Untouched(s.queue[i]))
    && (forall i, j :: 0 <= i < j < |s.queue| ==> s.queue[i].id != s.queue[j].id)
  }

  lemma HeadSound(s: State, x: Item, number: nat)
    requires Sound(s) && s.queue != [] && x.id == s.queue[0].id && x.scanIDs == s.queue[0].scanIDs
    requires x.counted <= |x.scanIDs|
    ensures Sound(State(number, [x] + s.queue[1..], s.issued))
  {
  }

  lemma JoinSound(s: State, i: nat, isScan: bool)
    requires Sound(s) && i < |s.queue|
    ensures Sound(Step(s, Join(i, isScan)))
  {
    JoinFits(s.queue[i], Drawn(s, isScan), s.issued);
    StillFits(s);
    hide ItemFits;
  }

  lemma StillFits(s: State)
    requires Sound(s)
    ensures forall i :: 0 <= i < |s.queue| ==> ItemFits(s.queue[i], s.issued + 1)
  {
  }

  lemma AppendSound(s: State, isScan: bool)
    requires Sound(s)
    ensures Sound(Step(s, Append(isScan)))
  {
    StillFits(s);
    assert ItemFits(Item(s.issued, [Drawn(s, isScan)], 0, false, false), s.issued + 1);
    assert forall i :: 0 <= i < |s.queue| ==> s.queue[i].id < s.issued;
    hide ItemFits;
  }

  lemma StepSound(s: State, e: Event)
    requires Sound(s)
    ensures Sound(Step(s, e))
  {
    match e
    case Append(isScan) => AppendSound(s, isScan);
    case Join(i, isScan) => if i < |s.queue| { JoinSound(s, i, isScan); }
    case Pop =>
    case _ =>
      if s.queue != [] {
        var x := s.queue[0];
        assert ItemFits(x, s.issued);
        var t := Step(s, e);
        if t != s {
          assert t.queue == [t.queue[0]] + s.queue[1..];
          HeadSound(s, t.queue[0], t.number);
        }
      }
  }

  lemma JoinFits(x: Item, y: Option<nat>, n: nat)
    requires ItemFits(x, n) && (y.Some? ==> y.value == n)
    ensures ItemFits(x.(scanIDs := x.scanIDs + [y]), n + 1)
  {
  }

  lemma {:induction false} RunSound(s: State, es: seq<Event>)
    requires Sound(s)
    ensures Sound(Run(s, es))
  {
    hide Sound, Step;
    if es != [] {
      RunSound(s, es[..|es| - 1]);
      StepSound(Run(s, es[..|es| - 1]), es[|es| - 1]);
    }
  }

  // ----- What one event does to the waiting scans -----

  lemma AppendWaiting(s: State, isScan: bool)
    ensures Waiting(Step(s, Append(isScan)).queue) == Waiting(s.queue) + Scans([Drawn(s, isScan)])
  {
    var x := Item(s.issued, [Drawn(s, isScan)], 0, false, false);
    WaitingConcat(s.queue, [x]);
    assert Left(x) + [] == Left(x) && x.scanIDs[0..] == [Drawn(s, isScan)];
  }

  /** The scans an item will still run when a block is added to it. */
  lemma JoinLeft(x: Item, y: Option<nat>)
    requires x.counted <= |x.scanIDs| && !x.completed && !x.aborted
    ensures Left(x.(scanIDs := x.scanIDs + [y])) == Left(x) + Scans([y])
  {
    ScansConcat(x.scanIDs[x.counted..], [y]);
    assert (x.scanIDs + [y])[x.counted..] == x.scanIDs[x.counted..] + [y];
  }

  lemma WaitingAt(q: seq<Item>, i: nat, x: Item)
    requires i < |q|
    ensures Waiting(q[i := x]) == Waiting(q[..i]) + Left(x) + Waiting(q[i + 1..])
  {
    assert q[i := x] == q[..i] + ([x] + q[i + 1..]);
    WaitingConcat(q[..i], [x] + q[i + 1..]);
    assert ([x] + q[i + 1..])[1..] == q[i + 1..];
  }

  /**
    A block that joins an item goes in after the item's own scans, ahead of those of all items behind it; when the
    item has ended it is never run.
   */
  lemma JoinWaiting(s: State, i: nat, isScan: bool)
    requires Sound(s) && i < |s.queue|
    ensures var x := s.queue[i];
      Waiting(Step(s, Join(i, isScan)).queue) ==
        Waiting(s.queue[..i + 1]) + (if x.completed || x.aborted then [] else Scans([Drawn(s, isScan)]))
        + Waiting(s.queue[i + 1..])
  {
    hide Waiting, Scans;
    var x, y := s.queue[i], Drawn(s, isScan);
    assert ItemFits(x, s.issued);
    if !x.completed && !x.aborted { JoinLeft(x, y); }
    WaitingAt(s.queue, i, x.(scanIDs := x.scanIDs + [y]));
    WaitingAt(s.queue[..i + 1], i, x);
    assert s.queue[..i + 1][i := x] == s.queue[..i + 1];
    assert s.queue[..i + 1][..i] == s.queue[..i] && s.queue[..i + 1][i + 1..] == [];
    WaitingNone();
  }

  lemma WaitingNone()
    ensures Waiting([]) == []
  {
  }

  /** Accounting for a block takes its scan off the front and raises the number by as much. */
  lemma FinishWaiting(s: State)
    requires Running(s.queue)
    ensures var t := Step(s, Finish);
      && s.number <= t.number && t.number - s.number <= |Waiting(s.queue)|
      && Waiting(t.queue) == Waiting(s.queue)[t.number - s.number..]
  {
    var x := s.queue[0];
    var y := x.(counted := x.counted + 1);
    LeftAfter(x);
    WaitingHead(s.queue, y);
    FinishStep(s);
    hide Step, Waiting, Left, Scans;
    DropFront(Scans([x.scanIDs[x.counted]]), Left(y), Waiting(s.queue[1..]));
  }

  lemma FinishStep(s: State)
    requires Running(s.queue)
    ensures var (x, t) := (s.queue[0], Step(s, Finish));
      && t.queue == [x.(counted := x.counted + 1)] + s.queue[1..]
      && t.number == s.number + if x.scanIDs[x.counted].Some? then 1 else 0
  {
  }

  lemma DropFront(a: seq<nat>, b: seq<nat>, c: seq<nat>)
    ensures (a + b + c)[|a|..] == b + c && |a| <= |a + b + c|
  {
  }

  lemma LeftAfter(x: Item)
    requires x.counted < |x.scanIDs| && !x.completed && !x.aborted
    ensures Left(x) == Scans([x.scanIDs[x.counted]]) + Left(x.(counted := x.counted + 1))
    ensures |Scans([x.scanIDs[x.counted]])| == if x.scanIDs[x.counted].Some? then 1 else 0
  {
    ScansConcat([x.scanIDs[x.counted]], x.scanIDs[x.counted + 1..]);
    assert x.scanIDs[x.counted..] == [x.scanIDs[x.counted]] + x.scanIDs[x.counted + 1..];
  }

  lemma WaitingHead(q: seq<Item>, x: Item)
    requires q != []
    ensures Waiting([x] + q[1..]) == Left(x) + Waiting(q[1..])
    ensures Waiting(q) == Left(q[0]) + Waiting(q[1..])
  {
    assert ([x] + q[1..])[1..] == q[1..];
  }

  /** The scans of the head item that are dropped when it is aborted at its present block. */
  function Dropped(q: seq<Item>): nat
    requires Running(q)
  {
    |Scans(q[0].scanIDs[q[0].counted + 1..])|
  }

  /** An abort raises the number by one for a scan, but takes the item's later scans off the line as well. */
  lemma AbortWaiting(s: State)
    requires Running(s.queue)
    ensures var (t, r) := (Step(s, Abort), Dropped(s.queue));
      && s.number <= t.number && t.number - s.number + r <= |Waiting(s.queue)|
      && Waiting(t.queue) == Waiting(s.queue)[t.number - s.number + r..]
  {
    var x := s.queue[0];
    LeftAfter(x);
    WaitingHead(s.queue, x.(counted := x.counted + 1, aborted := true));
  }

  lemma RestWaiting(s: State, e: Event)
    requires Sound(s) && (e.Complete? || e.Pop?)
    ensures Waiting(Step(s, e).queue) == Waiting(s.queue) && Step(s, e).number == s.number
  {
    if s.queue != [] {
      var x := s.queue[0];
      WaitingHead(s.queue, x.(completed := true));
      if e.Complete? && x.counted == |x.scanIDs| {
        assert x.scanIDs[x.counted..] == [];
      }
    }
  }

  // ----- Every run -----

  /** Nothing joins an item that has others behind it, and no aborted item has further scans. */
  predicate Orderly(s: State, e: Event) {
    && (e.Join? ==> e.index + 1 >= |s.queue|)
    && (e.Abort? && Running(s.queue) ==> Dropped(s.queue) == 0)
  }

  predicate OrderlyRun(s: State, es: seq<Event>) {
    es == [] || (OrderlyRun(s, es[..|es| - 1]) && Orderly(Run(s, es[..|es| - 1]), es[|es| - 1]))
  }

  /** The scans an event adds to the line. */
  function Arrived(s: State, e: Event): seq<nat> {
    match e
    case Append(isScan) => Scans([Drawn(s, isScan)])
    case Join(i, isScan) =>
      if i < |s.queue| && !s.queue[i].completed && !s.queue[i].aborted then Scans([Drawn(s, isScan)]) else []
    case _ => []
  }

  function ArrivedIn(s: State, es: seq<Event>): seq<nat> {
    if es == [] then []
    else ArrivedIn(s, es[..|es| - 1]) + Arrived(Run(s, es[..|es| - 1]), es[|es| - 1])
  }

  /** The line has moved on by as many scans as the number has risen. */
  predicate MovedOn(before: seq<nat>, arrived: seq<nat>, after: seq<nat>, n: nat, m: nat) {
    && n <= m <= n + |before| + |arrived|
    && after == (before + arrived)[m - n..]
  }

  lemma StepMoves(s: State, e: Event)
    requires Sound(s) && Orderly(s, e)
    ensures MovedOn(Waiting(s.queue), Arrived(s, e), Waiting(Step(s, e).queue), s.number, Step(s, e).number)
  {
    hide Waiting, Scans, Sound;
    var w := Waiting(s.queue);
    assert w + [] == w;
    match e
    case Append(isScan) => AppendWaiting(s, isScan);
    case Join(i, isScan) =>
      if i < |s.queue| {
        JoinWaiting(s, i, isScan);
        assert s.queue[..i + 1] == s.queue && s.queue[i + 1..] == [];
        WaitingNone();
      }
    case Finish => if Running(s.queue) { FinishWaiting(s); }
    case Abort => if Running(s.queue) { AbortWaiting(s); }
    case Complete => RestWaiting(s, e);
    case Pop => RestWaiting(s, e);
  }

  lemma MovedOnTwice(a: seq<nat>, x: seq<nat>, b: seq<nat>, y: seq<nat>, c: seq<nat>, n: nat, m: nat, l: nat)
    requires MovedOn(a, x, b, n, m) && MovedOn(b, y, c, m, l)
    ensures MovedOn(a, x + y, c, n, l)
  {
    assert a + (x + y) == (a + x) + y;
    assert (a + x)[m - n..] + y == ((a + x) + y)[m - n..];
  }

  /**
    Main result: over every orderly run, the line of waiting scans loses from its front exactly as many scans as the
    scan number rises, and gains the arriving ones at its end. So the number due for the scan in place k, the scan
    number plus k, stays what it was until the scan is started with it.
   */
  lemma {:induction false} RunMoves(s: State, es: seq<Event>)
    requires Sound(s) && OrderlyRun(s, es)
    ensures var t := Run(s, es);
      MovedOn(Waiting(s.queue), ArrivedIn(s, es), Waiting(t.queue), s.number, t.number)
  {
    hide Sound, Step, Orderly, Arrived, Waiting;
    if es == [] {
      assert Waiting(s.queue) + [] == Waiting(s.queue);
    } else {
      var before, e := es[..|es| - 1], es[|es| - 1];
      RunMoves(s, before);
      RunSound(s, before);
      var t := Run(s, before);
      StepMoves(t, e);
      hide MovedOn;
      MovedOnTwice(Waiting(s.queue), ArrivedIn(s, before), Waiting(t.queue), Arrived(t, e), Waiting(Step(t, e).queue),
        s.number, t.number, Step(t, e).number);
    }
  }

  // ----- The prediction against the number due -----

  /** Scans of the head item that no longer wait while the item is not yet marked COMPLETED. */
  function Unmarked(q: seq<Item>): nat {
    if q == [] || q[0].completed || q[0].counted > |q[0].scanIDs| then 0
    else if q[0].aborted then |Scans(q[0].scanIDs)|
    else |Scans(q[0].scanIDs[..q[0].counted])|
  }

  predicate StillWaits(q: seq<Item>, i: nat, k: nat) {
    i < |q| && k < |q[i].scanIDs| && q[i].scanIDs[k].Some? && !q[i].completed && !q[i].aborted && q[i].counted <= k
  }

  /** Its place in the line of waiting scans. */
  function LinePlace(q: seq<Item>, i: nat, k: nat): nat
    requires StillWaits(q, i, k)
  {
    |Waiting(q[..i])| + |Scans(q[i].scanIDs[q[i].counted..k])|
  }

  lemma {:induction false} BeforeAt(ids: seq<Option<nat>>, k: nat)
    requires k < |ids| && ids[k].Some? && NoneTwice(ids)
    ensures Before(ids, ids[k].value) == |Scans(ids[..k])|
  {
    if k > 0 {
      BeforeAt(ids[1..], k - 1);
      assert ids[..k] == [ids[0]] + ids[1..][..k - 1];
      ScansConcat([ids[0]], ids[1..][..k - 1]);
    }
  }

  /** Of items none of which is completed or begun, the offset is the number of scans ahead. */
  lemma {:induction false} OffsetAt(q: seq<Item>, i: nat, id: nat, scanID: nat)
    requires i < |q| && q[i].id == id && forall j :: 0 <= j < i ==> q[j].id != id && Untouched(q[j])
    requires !q[i].completed
    ensures Offset(q, id, scanID) == |Waiting(q[..i])| + Before(q[i].scanIDs, scanID)
  {
    if i > 0 {
      OffsetAt(q[1..], i - 1, id, scanID);
      assert q[..i][1..] == q[1..][..i - 1] && q[..i][0] == q[0];
      assert q[0].scanIDs[0..] == q[0].scanIDs;
    }
  }

  /** The waiting scan stands in its place of the line. */
  lemma PlaceHolds(q: seq<Item>, i: nat, k: nat)
    requires StillWaits(q, i, k)
    ensures LinePlace(q, i, k) < |Waiting(q)| && Waiting(q)[LinePlace(q, i, k)] == q[i].scanIDs[k].value
  {
    var x := q[i];
    var a, b := x.scanIDs[x.counted..k], x.scanIDs[k + 1..];
    assert x.scanIDs[x.counted..] == a + ([x.scanIDs[k]] + b);
    ScansConcat(a, [x.scanIDs[k]] + b);
    ScansConcat([x.scanIDs[k]], b);
    assert q[i := x] == q;
    WaitingAt(q, i, x);
  }

  /** Main result: the predicted number exceeds the number due by exactly the unmarked scans of the head item. */
  lemma PredictionIs(s: State, i: nat, k: nat)
    requires Sound(s) && StillWaits(s.queue, i, k)
    ensures var x := s.queue[i];
      Offset(s.queue, x.id, x.scanIDs[k].value) == LinePlace(s.queue, i, k) + Unmarked(s.queue)
  {
    var q, x := s.queue, s.queue[i];
    assert ItemFits(x, s.issued) && ItemFits(q[0], s.issued);
    BeforeAt(x.scanIDs, k);
    CutAt(x.scanIDs, x.counted, k);
    hide Scans, Before, NoneTwice;
    if i == 0 {
      WaitingNone();
    } else {
      OffsetAt(q[1..], i - 1, x.id, x.scanIDs[k].value);
      WaitingBehind(q, i);
      CutAt(q[0].scanIDs, q[0].counted, |q[0].scanIDs|);
    }
  }

  lemma CutAt(ids: seq<Option<nat>>, i: nat, k: nat)
    requires i <= k <= |ids|
    ensures Scans(ids[..k]) == Scans(ids[..i]) + Scans(ids[i..k])
    ensures k == |ids| ==> ids[..k] == ids && ids[i..k] == ids[i..]
  {
    assert ids[..k] == ids[..i] + ids[i..k];
    ScansConcat(ids[..i], ids[i..k]);
  }

  lemma WaitingBehind(q: seq<Item>, i: nat)
    requires 0 < i < |q|
    ensures Waiting(q[..i]) == Left(q[0]) + Waiting(q[1..][..i - 1])
  {
    assert q[..i] == [q[0]] + q[1..][..i - 1];
    WaitingHead(q[..i], q[0]);
    assert q[..i][1..] == q[1..][..i - 1];
  }

  /** The exact condition: no scan of an unmarked head item has been accounted for or dropped. */
  lemma PredictionIff(s: State, i: nat, k: nat)
    requires Sound(s) && StillWaits(s.queue, i, k)
    ensures var x := s.queue[i];
      (s.number + Offset(s.queue, x.id, x.scanIDs[k].value) == s.number + LinePlace(s.queue, i, k))
      <==> (s.queue[0].completed || Scans(if s.queue[0].aborted then s.queue[0].scanIDs
                                          else s.queue[0].scanIDs[..s.queue[0].counted]) == [])
  {
    PredictionIs(s, i, k);
    assert ItemFits(s.queue[0], s.issued);
  }

  // ----- The number in force when a scan starts -----

  /** IDs rise along the line and lie in a range. */
  ghost predicate Rising(w: seq<nat>, lo: nat, hi: nat) {
    && (forall i :: 0 <= i < |w| ==> lo <= w[i] < hi)
    && (forall i, j :: 0 <= i < j < |w| ==> w[i] < w[j])
  }

  lemma RisingConcat(a: seq<nat>, b: seq<nat>, lo: nat, mid: nat, hi: nat)
    requires Rising(a, lo, mid) && Rising(b, mid, hi) && lo <= mid <= hi
    ensures Rising(a + b, lo, hi)
  {
  }

  lemma ArrivedRises(s: State, e: Event)
    ensures s.issued <= Step(s, e).issued && Rising(Arrived(s, e), s.issued, Step(s, e).issued)
  {
    if e.Append? {
      OneScan(Drawn(s, e.isScan));
    } else if e.Join? {
      OneScan(Drawn(s, e.isScan));
    }
  }

  lemma OneScan(y: Option<nat>)
    ensures Scans([y]) == if y.Some? then [y.value] else []
  {
    assert [y][..0] == [];
  }

  lemma {:induction false} ArrivalsRise(s: State, es: seq<Event>)
    ensures s.issued <= Run(s, es).issued && Rising(ArrivedIn(s, es), s.issued, Run(s, es).issued)
  {
    if es != [] {
      hide Step, Arrived, Rising;
      var before := es[..|es| - 1];
      ArrivalsRise(s, before);
      var t := Run(s, before);
      ArrivedRises(t, es[|es| - 1]);
      RisingConcat(ArrivedIn(s, before), Arrived(t, es[|es| - 1]), s.issued, t.issued, Run(s, es).issued);
    } else {
      assert Rising([], s.issued, s.issued);
    }
  }

  /** In orderly runs from an empty queue the IDs of the waiting scans rise along the line. */
  lemma LineRises(n: nat, es: seq<Event>)
    requires OrderlyRun(State(n, [], 0), es)
    ensures var s := Run(State(n, [], 0), es); Sound(s) && Rising(Waiting(s.queue), 0, s.issued)
  {
    hide Run, OrderlyRun, ArrivedIn, Waiting, Sound;
    var start := State(n, [], 0);
    EmptySound(n);
    RunSound(start, es);
    RunMoves(start, es);
    ArrivalsRise(start, es);
    WaitingNone();
    assert [] + ArrivedIn(start, es) == ArrivedIn(start, es);
  }

  predicate Starts(q: seq<Item>, scanID: nat) {
    Running(q) && q[0].scanIDs[q[0].counted] == Some(scanID)
  }

  lemma StartsFirst(q: seq<Item>, scanID: nat)
    requires Starts(q, scanID)
    ensures Waiting(q) != [] && Waiting(q)[0] == scanID
  {
    LeftAfter(q[0]);
    OneScan(q[0].scanIDs[q[0].counted]);
    WaitingHead(q, q[0]);
  }

  /**
    Main result: what is predicted for a waiting scan at any time of an orderly run is the number in force when that
    scan is started later, plus the scans that did not wait but were still unmarked at the time of the prediction.
   */
  lemma NumberInForce(n: nat, es: seq<Event>, more: seq<Event>, i: nat, k: nat)
    requires OrderlyRun(State(n, [], 0), es) && OrderlyRun(Run(State(n, [], 0), es), more)
    requires StillWaits(Run(State(n, [], 0), es).queue, i, k)
    requires var s := Run(State(n, [], 0), es); Starts(Run(s, more).queue, s.queue[i].scanIDs[k].value)
    ensures var s := Run(State(n, [], 0), es);
      var x := s.queue[i];
      s.number + Offset(s.queue, x.id, x.scanIDs[k].value) == Run(s, more).number + Unmarked(s.queue)
  {
    var s := Run(State(n, [], 0), es);
    var t, id, place := Run(s, more), s.queue[i].scanIDs[k].value, LinePlace(s.queue, i, k);
    hide Run, OrderlyRun, Waiting, Offset, Unmarked, Scans, LinePlace;
    LineRises(n, es);
    PredictionIs(s, i, k);
    PlaceHolds(s.queue, i, k);
    RunMoves(s, more);
    ArrivalsRise(s, more);
    RisingConcat(Waiting(s.queue), ArrivedIn(s, more), 0, s.issued, t.issued);
    StartsFirst(t.queue, id);
    var line, d := Waiting(s.queue) + ArrivedIn(s, more), t.number - s.number;
    assert line[place] == id && line[d] == id;
    assert place == d;
  }

  // ----- Queues of single requests -----

  predicate Singles(q: seq<Item>) {
    forall i :: 0 <= i < |q| ==> |q[i].scanIDs| == 1 && (q[i].aborted ==> q[i].counted == 1)
  }

  /** The head is a scan that has been accounted for but neither marked COMPLETED nor removed. */
  predicate InWindow(q: seq<Item>) {
    q != [] && q[0].scanIDs != [] && q[0].scanIDs[0].Some? && q[0].counted == 1 && !q[0].completed
  }

  lemma SinglesStep(s: State, e: Event)
    requires Sound(s) && Singles(s.queue) && !e.Join?
    ensures Orderly(s, e) && Singles(Step(s, e).queue)
  {
  }

  lemma SingleUnmarked(s: State)
    requires Sound(s) && Singles(s.queue)
    ensures Unmarked(s.queue) == if InWindow(s.queue) then 1 else 0
  {
    if s.queue != [] {
      var x := s.queue[0];
      assert ItemFits(x, s.issued);
      assert x.scanIDs[..1] == x.scanIDs && x.scanIDs[..0] == [];
      assert |Scans(x.scanIDs)| == if x.scanIDs[0].Some? then 1 else 0;
    }
  }

  /**
    When no request joins another's item, every run from an empty queue is orderly, and predictions are off, by one,
    exactly inside that window.
   */
  lemma {:induction false} SinglesOrderly(n: nat, es: seq<Event>)
    requires forall k :: 0 <= k < |es| ==> !es[k].Join?
    ensures var (start, q) := (State(n, [], 0), Run(State(n, [], 0), es).queue);
      OrderlyRun(start, es) && Singles(q) && Unmarked(q) == if InWindow(q) then 1 else 0
  {
    hide Step, Orderly, Singles, Sound, Unmarked, InWindow;
    var start := State(n, [], 0);
    EmptySound(n);
    RunSound(start, es);
    if es != [] {
      var before, e := es[..|es| - 1], es[|es| - 1];
      assert !es[|es| - 1].Join?;
      SinglesOrderly(n, before);
      RunSound(start, before);
      SinglesStep(Run(start, before), e);
    }
    SingleUnmarked(Run(start, es));
  }

  lemma EmptySound(n: nat)
    ensures Sound(State(n, [], 0)) && Singles([])
  {
  }

  lemma RunStep(s: State, es: seq<Event>, e: Event)
    ensures Run(s, es + [e]) == Step(Run(s, es), e)
  {
    assert (es + [e])[..|es|] == es;
  }

  /** The first scan has been counted and not marked: the second is predicted one more than it will be started with. */
  lemma PredictedTooHigh(n: nat) returns (es: seq<Event>)
    ensures var s := Run(State(n, [], 0), es);
      && StillWaits(s.queue, 1, 0) && s.queue[1].scanIDs[0] == Some(1)
      && s.number + Offset(s.queue, s.queue[1].id, 1) == n + 2
    ensures var t := Run(State(n, [], 0), es + [Complete, Pop]); Starts(t.queue, 1) && t.number == n + 1
  {
    var start := State(n, [], 0);
    var x, y := Item(0, [Some(0)], 0, false, false), Item(1, [Some(1)], 0, false, false);
    var x1 := x.(counted := 1);
    es := [Append(true), Append(true), Finish];
    RunStep(start, [], Append(true));
    RunStep(start, [Append(true)], Append(true));
    RunStep(start, [Append(true), Append(true)], Finish);
    RunStep(start, es, Complete);
    RunStep(start, es + [Complete], Pop);
    assert Run(start, []) == start;
    hide Run;
    assert [] + [Append(true)] == [Append(true)] && [Append(true)] + [Append(true)] == [Append(true), Append(true)];
    assert [Append(true), Append(true)] + [Finish] == es && es + [Complete] + [Pop] == es + [Complete, Pop];
    assert [] + [x] == [x] && [x] + [y] == [x, y] && [x, y][1..] == [y] && [x1] + [y] == [x1, y];
    assert Run(start, es) == State(n + 1, [x1, y], 2);
    OneScan(Some(0));
    assert [x1, y][1..] == [y];
    assert Offset([y], 1, 1) == 0;
    assert [x1.(completed := true)] + [y] == [x1.(completed := true), y];
    assert [x1.(completed := true), y][1..] == [y];
  }
}
