/** The file writer manager: a scan's file is written when the scan is finished and all its points are in. */
module FileWriters {
  import opened Instructions

  type PointID = nat
  type Data = string

  datatype Status = OpenStatus | ClosedStatus | OtherStatus

  /** A status of a scan, which announces its number of points and whether they are synchronised, or one point. */
  datatype Event =
    | StatusUpdate(status: Status, scanNumber: Option<nat>, numPoints: nat, enforceSync: bool)
    | Segment(point: PointID, data: Data, number: Option<nat>)

  datatype Message = Message(scanID: ScanID, event: Event)

  /** What is kept of a scan until it is written. */
  datatype Store = Store(
    scanNumber: Option<nat>,
    segments: map<PointID, Data>,
    finished: bool,
    numPoints: Option<nat>,
    enforceSync: bool)

  datatype Write = Write(scanID: ScanID, scanNumber: Option<nat>, segments: map<PointID, Data>)

  function NewStore(scanNumber: Option<nat>): Store {
    Store(scanNumber, map[], false, None, true)
  }

  predicate Ready(s: Store) {
    s.finished && (s.enforceSync ==> s.numPoints == Some(|s.segments|))
  }

  // ----- One event of one scan -----

  /** The storage an event leaves before it is checked, and whether it is checked. */
  function Receive(s: Option<Store>, e: Event): (Store, bool) {
    match e
    case StatusUpdate(status, number, n, sync) =>
      var t := if s.Some? then s.value else NewStore(number);
      if status == ClosedStatus then (t.(finished := true, numPoints := Some(n), enforceSync := sync), true)
      else (t, false)
    case Segment(p, d, number) =>
      var t := if s.Some? then s.value else NewStore(number);
      (t.(segments := t.segments[p := d]), true)
  }

  /** What is left of a scan after an event, and what is written of it. */
  function Process(s: Option<Store>, e: Event): (Option<Store>, Option<Store>) {
    var (t, checked) := Receive(s, e);
    if checked && Ready(t) then (None, Some(t)) else (Some(t), None)
  }

  // ----- The manager -----

  function Lookup(m: map<ScanID, Store>, id: ScanID): Option<Store> {
    if id in m then Some(m[id]) else None
  }

  datatype State = State(storage: map<ScanID, Store>, writes: seq<Write>)

  function WithWrite(ws: seq<Write>, id: ScanID, w: Option<Store>): seq<Write> {
    if w.Some? then ws + [Write(id, w.value.scanNumber, w.value.segments)] else ws
  }

  function Step(s: State, m: Message): State {
    var (left, written) := Process(Lookup(s.storage, m.scanID), m.event);
    State(if left.Some? then s.storage[m.scanID := left.value] else s.storage - {m.scanID},
          WithWrite(s.writes, m.scanID, written))
  }

  class ScanStorage {
    const scanNumber: Option<nat>
    var segments: map<PointID, Data>
    var finished: bool
    var numPoints: Option<nat>
    var enforceSync: bool

    constructor (scanNumber: Option<nat>)
      ensures Value() == NewStore(scanNumber)
    {
      this.scanNumber := scanNumber;
      segments, finished, numPoints, enforceSync := map[], false, None, true;
    }

    ghost function Value(): Store
      reads this
    {
      Store(scanNumber, segments, finished, numPoints, enforceSync)
    }

    method Append(p: PointID, d: Data)
      modifies this`segments
      ensures Value() == old(Value()).(segments := old(segments)[p := d])
    {
      segments := segments[p := d];
    }

    method ReadyToWrite() returns (ready: bool)
      ensures ready == Ready(Value())
    {
      if enforceSync {
        return finished && numPoints == Some(|segments|);
      }
      return finished;
    }
  }

  class FileWriterManager {
    var storage: map<ScanID, ScanStorage>
    ghost var writes: seq<Write>

    constructor ()
      ensures Valid() && Contents() == State(map[], [])
    {
      storage, writes := map[], [];
    }

    /** No two scans share a storage object. */
    ghost predicate Valid()
      reads this
    {
      forall a, b :: a in storage && b in storage && a != b ==> storage[a] != storage[b]
    }

    ghost function Objects(): set<object>
      reads this
    {
      set id | id in storage :: storage[id]
    }

    ghost function Contents(): State
      reads this, Objects()
    {
      State(map id | id in storage :: storage[id].Value(), writes)
    }

    /** The storage of a scan, created at its first message. */
    method Ensure(id: ScanID, number: Option<nat>)
      requires Valid()
      modifies this`storage
      ensures Valid() && id in storage && fresh(Objects() - old(Objects()))
      ensures storage[id] in old(Objects()) || fresh(storage[id])
      ensures Contents() == old(Contents()).(storage := old(Contents()).storage[id :=
        if id in old(storage) then old(Contents()).storage[id] else NewStore(number)])
    {
      if id !in storage {
        var s := new ScanStorage(number);
        storage := storage[id := s];
      }
    }

    method WriteFile(id: ScanID)
      requires Valid() && id in storage
      modifies this`storage, this`writes
      ensures Valid() && Objects() <= old(Objects())
      ensures Contents() == Written(old(Contents()), id)
    {
      var s := storage[id];
      writes := writes + [Write(id, s.scanNumber, s.segments)];
      storage := storage - {id};
    }

    method CheckStorageStatus(id: ScanID)
      requires Valid()
      modifies this`storage, this`writes
      ensures Valid() && Objects() <= old(Objects())
      ensures Contents() == Checked(old(Contents()), id)
    {
      if id !in storage { return; }
      var ready := storage[id].ReadyToWrite();
      if ready {
        WriteFile(id);
      }
    }

    method Finish(id: ScanID, numPoints: nat, sync: bool)
      requires Valid() && id in storage
      modifies storage[id]
      ensures Valid()
      ensures Contents() == old(Contents()).(storage := old(Contents()).storage[id :=
        old(Contents()).storage[id].(finished := true, numPoints := Some(numPoints), enforceSync := sync)])
    {
      var s := storage[id];
      s.finished := true;
      s.numPoints := Some(numPoints);
      s.enforceSync := sync;
    }

    method AppendTo(id: ScanID, p: PointID, d: Data)
      requires Valid() && id in storage
      modifies storage[id]
      ensures Valid()
      ensures Contents() == old(Contents()).(storage := old(Contents()).storage[id :=
        old(Contents()).storage[id].(segments := old(Contents()).storage[id].segments[p := d])])
    {
      storage[id].Append(p, d);
    }

    method UpdateScanStorageWithStatus(id: ScanID, status: Status, number: Option<nat>, numPoints: nat, sync: bool)
      requires Valid()
      modifies this, Objects()
      ensures Valid() && fresh(Objects() - old(Objects()))
      ensures Contents() == Step(old(Contents()), Message(id, StatusUpdate(status, number, numPoints, sync)))
    {
      hide Step, Checked;
      ghost var before, m := Contents(), Message(id, StatusUpdate(status, number, numPoints, sync));
      Ensure(id, number);
      if status == ClosedStatus {
        Finish(id, numPoints, sync);
        StepIs(before, m, Contents());
        CheckStorageStatus(id);
      } else {
        StepIs(before, m, Contents());
      }
    }

    method InsertToScanStorage(id: ScanID, p: PointID, d: Data, number: Option<nat>)
      requires Valid()
      modifies this, Objects()
      ensures Valid() && fresh(Objects() - old(Objects()))
      ensures Contents() == Step(old(Contents()), Message(id, Segment(p, d, number)))
    {
      hide Step, Checked;
      ghost var before := Contents();
      Ensure(id, number);
      AppendTo(id, p, d);
      StepIs(before, Message(id, Segment(p, d, number)), Contents());
      CheckStorageStatus(id);
    }
  }

  function Written(s: State, id: ScanID): State
    requires id in s.storage
  {
    var t := s.storage[id];
    State(s.storage - {id}, s.writes + [Write(id, t.scanNumber, t.segments)])
  }

  function Checked(s: State, id: ScanID): State {
    if id in s.storage && Ready(s.storage[id]) then Written(s, id) else s
  }

  /** A message stores something and may then check the storage. */
  lemma StepIs(s: State, m: Message, t: State)
    requires t == s.(storage := s.storage[m.scanID := Receive(Lookup(s.storage, m.scanID), m.event).0])
    ensures Step(s, m) == if Receive(Lookup(s.storage, m.scanID), m.event).1 then Checked(t, m.scanID) else t
  {
    assert t.storage - {m.scanID} == s.storage - {m.scanID};
  }

  // ----- The messages of other scans -----

  function Run(ms: seq<Message>): State {
    if ms == [] then State(map[], []) else Step(Run(ms[..|ms| - 1]), ms[|ms| - 1])
  }

  /** The events of one scan in a run. */
  function Of(ms: seq<Message>, id: ScanID): seq<Event> {
    if ms == [] then [] else
      var m := ms[|ms| - 1];
      Of(ms[..|ms| - 1], id) + if m.scanID == id then [m.event] else []
  }

  /** What one scan leaves and writes when it is alone. */
  function Alone(es: seq<Event>): (Option<Store>, seq<Store>) {
    if es == [] then (None, []) else
      var (s, writes) := Alone(es[..|es| - 1]);
      var (left, written) := Process(s, es[|es| - 1]);
      (left, writes + if written.Some? then [written.value] else [])
  }

  function WritesOf(ws: seq<Write>, id: ScanID): seq<Write> {
    if ws == [] then [] else
      var w := ws[|ws| - 1];
      WritesOf(ws[..|ws| - 1], id) + if w.scanID == id then [w] else []
  }

  function AsWrites(id: ScanID, ss: seq<Store>): seq<Write> {
    seq(|ss|, k requires 0 <= k < |ss| => Write(id, ss[k].scanNumber, ss[k].segments))
  }

  /** Main result: what is stored and written of a scan depends on its own messages only. */
  lemma {:induction false} ScansIndependent(ms: seq<Message>, id: ScanID)
    ensures Lookup(Run(ms).storage, id) == Alone(Of(ms, id)).0
    ensures WritesOf(Run(ms).writes, id) == AsWrites(id, Alone(Of(ms, id)).1)
  {
    if ms != [] {
      hide Process;
      var before, m := ms[..|ms| - 1], ms[|ms| - 1];
      ScansIndependent(before, id);
      var s, es := Run(before), Of(before, id);
      var (left, written) := Process(Lookup(s.storage, m.scanID), m.event);
      if m.scanID == id {
        assert (es + [m.event])[..|es|] == es;
        OwnWrite(s.writes, Alone(es).1, id, written);
      } else {
        assert es + [] == es;
        OtherWrite(s.writes, m.scanID, id, written);
      }
    }
  }

  lemma OwnWrite(ws: seq<Write>, ss: seq<Store>, id: ScanID, w: Option<Store>)
    requires WritesOf(ws, id) == AsWrites(id, ss)
    ensures WritesOf(WithWrite(ws, id, w), id) == AsWrites(id, ss + if w.Some? then [w.value] else [])
  {
    if w.Some? {
      assert WithWrite(ws, id, w)[..|ws|] == ws;
    } else {
      assert ss + [] == ss;
    }
  }

  lemma OtherWrite(ws: seq<Write>, other: ScanID, id: ScanID, w: Option<Store>)
    requires other != id
    ensures WritesOf(WithWrite(ws, other, w), id) == WritesOf(ws, id)
  {
    if w.Some? {
      assert WithWrite(ws, other, w)[..|ws|] == ws;
      assert WritesOf(ws, id) + [] == WritesOf(ws, id);
    }
  }

  // ----- One write, at the first moment everything is in -----

  predicate IsClosed(e: Event) {
    e.StatusUpdate? && e.status == ClosedStatus
  }

  function ClosedCount(es: seq<Event>): nat {
    if es == [] then 0 else ClosedCount(es[..|es| - 1]) + if IsClosed(es[|es| - 1]) then 1 else 0
  }

  /** The points that have arrived, with the data last sent for each. */
  function Points(es: seq<Event>): map<PointID, Data> {
    if es == [] then map[] else
      var before, e := Points(es[..|es| - 1]), es[|es| - 1];
      if e.Segment? then before[e.point := e.data] else before
  }

  /** The closed status, if it has arrived. */
  function Closing(es: seq<Event>): (c: Option<Event>)
    ensures if c.Some? then IsClosed(c.value) && ClosedCount(es) > 0 else ClosedCount(es) == 0
  {
    if es == [] then None
    else if IsClosed(es[|es| - 1]) then Some(es[|es| - 1])
    else Closing(es[..|es| - 1])
  }

  /** Both the closed status and, if it synchronises the points, as many points as it announces are in. */
  predicate AllIn(es: seq<Event>) {
    Closing(es).Some? && (Closing(es).value.enforceSync ==> |Points(es)| == Closing(es).value.numPoints)
  }

  /** The length of the shortest prefix with everything in. */
  ghost function Moment(es: seq<Event>): (k: Option<nat>)
    ensures k.Some? ==> k.value <= |es|
  {
    if es == [] then None
    else if Moment(es[..|es| - 1]).Some? then Moment(es[..|es| - 1])
    else if AllIn(es) then Some(|es|) else None
  }

  /** What is stored before the moment has come. */
  ghost predicate Gathering(es: seq<Event>, s: Option<Store>) {
    && (es == [] <==> s.None?)
    && (es != [] ==>
         && s.value.segments == Points(es)
         && (s.value.finished <==> Closing(es).Some?)
         && (Closing(es).Some? ==>
              && s.value.numPoints == Some(Closing(es).value.numPoints)
              && s.value.enforceSync == Closing(es).value.enforceSync))
  }

  /** After the moment whatever is stored is not finished, as there is no second closed status. */
  ghost predicate Over(s: Option<Store>) {
    s.Some? ==> !s.value.finished
  }

  lemma GatheringStep(es: seq<Event>, s: Option<Store>, e: Event)
    requires Gathering(es, s)
    ensures Gathering(es + [e], Some(Receive(s, e).0))
  {
    assert (es + [e])[..|es|] == es;
  }

  lemma GatheredReady(es: seq<Event>, s: Option<Store>)
    requires es != [] && Gathering(es, s)
    ensures Ready(s.value) <==> AllIn(es)
  {
  }

  lemma UncheckedNotIn(es: seq<Event>, s: Option<Store>, e: Event)
    requires Gathering(es, s) && !Receive(s, e).1
    ensures Closing(es + [e]) == Closing(es) && Points(es + [e]) == Points(es)
  {
    assert (es + [e])[..|es|] == es;
  }

  /**
    Main result: of a scan with at most one closed status one file is written if at some point everything is in,
    with exactly the points of the first such moment; otherwise none.
   */
  lemma {:induction false} WrittenAtMoment(es: seq<Event>)
    requires ClosedCount(es) <= 1
    ensures var (s, ws) := Alone(es);
      match Moment(es)
      case None => ws == [] && Gathering(es, s)
      case Some(k) => |ws| == 1 && ws[0].segments == Points(es[..k]) && ClosedCount(es) == 1 && Over(s)
  {
    if es != [] {
      hide Gathering, Receive, Ready, Points, Over;
      var before, e := es[..|es| - 1], es[|es| - 1];
      assert es == before + [e];
      WrittenAtMoment(before);
      var (s, ws) := Alone(before);
      if Moment(before).Some? {
        OverStays(s, e);
        assert es[..Moment(before).value] == before[..Moment(before).value];
        assert ws + [] == ws;
      } else {
        GatheringStep(before, s, e);
        GatheredReady(es, Some(Receive(s, e).0));
        if !Receive(s, e).1 {
          UncheckedNotIn(before, s, e);
          NotYet(before);
        }
        MomentStore(es, Receive(s, e).0);
      }
    }
  }

  lemma OverStays(s: Option<Store>, e: Event)
    requires Over(s) && !IsClosed(e)
    ensures Process(s, e).1.None? && Over(Process(s, e).0)
  {
  }

  lemma NotYet(es: seq<Event>)
    requires Moment(es).None?
    ensures !AllIn(es)
  {
  }

  lemma MomentStore(es: seq<Event>, t: Store)
    requires es != [] && Gathering(es, Some(t))
    ensures t.segments == Points(es) && es[..|es|] == es
    ensures Over(None)
  {
  }

  lemma {:induction false} MomentIsFirst(es: seq<Event>, j: nat)
    requires j <= |es|
    ensures match Moment(es)
      case None => !AllIn(es[..j])
      case Some(k) => AllIn(es[..k]) && (j < k ==> !AllIn(es[..j]))
  {
    if es != [] {
      var before := es[..|es| - 1];
      MomentIsFirst(before, if j < |es| then j else 0);
      assert es[..|es|] == es && (j < |es| ==> es[..j] == before[..j]);
      if Moment(before).Some? { assert es[..Moment(before).value] == before[..Moment(before).value]; }
    }
  }

  lemma PointsGrow(es: seq<Event>, e: Event)
    ensures |Points(es)| <= |Points(es + [e])| <= |Points(es)| + 1
    ensures Points(es).Keys <= Points(es + [e]).Keys
    ensures !e.Segment? ==> Points(es + [e]) == Points(es)
  {
    assert (es + [e])[..|es|] == es;
    var m := Points(es);
    if e.Segment? {
      assert m[e.point := e.data].Keys == m.Keys + {e.point};
      assert |m| == |m.Keys|;
    }
  }

  lemma {:induction false} PointsGrowAll(a: seq<Event>, b: seq<Event>)
    ensures |Points(a)| <= |Points(a + b)|
  {
    if b == [] {
      assert a + b == a;
    } else {
      var b' := b[..|b| - 1];
      PointsGrowAll(a, b');
      assert a + b == a + b' + [b[|b| - 1]];
      PointsGrow(a + b', b[|b| - 1]);
    }
  }

  lemma {:induction false} NoMoment(es: seq<Event>)
    requires ClosedCount(es) == 0
    ensures Moment(es).None?
  {
    if es != [] { NoMoment(es[..|es| - 1]); }
  }

  lemma {:induction false} ClosingBy(a: seq<Event>, c: Event, b: seq<Event>)
    requires IsClosed(c) && ClosedCount(b) == 0
    ensures Closing(a + [c] + b) == Some(c)
  {
    var es := a + [c] + b;
    if b == [] {
      assert es[|es| - 1] == c;
    } else {
      assert es[..|es| - 1] == a + [c] + b[..|b| - 1];
      ClosingBy(a, c, b[..|b| - 1]);
    }
  }

  /**
    Main result, the exact condition: the file is written if and only if the points need no synchronising, or the
    closed status finds no more points than it announces and in the end there are no fewer.
   */
  lemma {:induction false} WrittenIff(a: seq<Event>, c: Event, b: seq<Event>)
    requires IsClosed(c) && ClosedCount(a) == 0 && ClosedCount(b) == 0
    ensures Moment(a + [c] + b).Some? <==>
      !c.enforceSync || |Points(a)| <= c.numPoints <= |Points(a + [c] + b)|
  {
    hide Points;
    var es := a + [c] + b;
    ClosingBy(a, c, b);
    PointsGrow(a, c);
    if b == [] {
      assert es[..|es| - 1] == a && es == a + [c];
      NoMoment(a);
    } else {
      var b', e := b[..|b| - 1], b[|b| - 1];
      assert es[..|es| - 1] == a + [c] + b' && es == a + [c] + b' + [e];
      WrittenIff(a, c, b');
      PointsGrow(a + [c] + b', e);
      PointsGrowAll(a + [c], b');
    }
  }

  // ----- Every point sent once -----

  function Sent(es: seq<Event>): nat {
    if es == [] then 0 else Sent(es[..|es| - 1]) + if es[|es| - 1].Segment? then 1 else 0
  }

  predicate HasPoint(e: Event, p: PointID) {
    e.Segment? && e.point == p
  }

  ghost predicate EachOnce(es: seq<Event>) {
    forall i, j, p: PointID :: 0 <= i < j < |es| && HasPoint(es[i], p) ==> !HasPoint(es[j], p)
  }

  ghost predicate SentWith(es: seq<Event>, p: PointID, d: Data) {
    exists i :: 0 <= i < |es| && HasPoint(es[i], p) && es[i].data == d
  }

  lemma SentWithLast(es: seq<Event>, p: PointID, d: Data)
    requires es != []
    ensures var (before, e) := (es[..|es| - 1], es[|es| - 1]);
      SentWith(es, p, d) <==> SentWith(before, p, d) || (HasPoint(e, p) && e.data == d)
  {
    var n := |es| - 1;
    if SentWith(es[..n], p, d) {
      var i :| 0 <= i < n && HasPoint(es[..n][i], p) && es[..n][i].data == d;
      assert HasPoint(es[i], p);
    }
    if SentWith(es, p, d) {
      var i :| 0 <= i <= n && HasPoint(es[i], p) && es[i].data == d;
      if i < n { assert HasPoint(es[..n][i], p); }
    }
  }

  /** When every point is sent once, what is stored is exactly what was sent, in any order. */
  lemma {:induction false} PointsAre(es: seq<Event>, p: PointID, d: Data)
    requires EachOnce(es)
    ensures (p in Points(es) && Points(es)[p] == d) <==> SentWith(es, p, d)
  {
    if es != [] {
      var n := |es| - 1;
      PointsAre(es[..n], p, d);
      SentWithLast(es, p, d);
      if SentWith(es[..n], p, d) {
        var i :| 0 <= i < n && HasPoint(es[..n][i], p);
        assert HasPoint(es[i], p) && !HasPoint(es[n], p);
      }
    }
  }

  lemma {:induction false} SentCounted(es: seq<Event>)
    requires EachOnce(es)
    ensures |Points(es)| == Sent(es)
  {
    if es != [] {
      var before, e := es[..|es| - 1], es[|es| - 1];
      assert es == before + [e];
      SentCounted(before);
      if e.Segment? {
        if e.point in Points(before) {
          PointsAre(before, e.point, Points(before)[e.point]);
          var i :| 0 <= i < |before| && HasPoint(before[i], e.point);
          assert HasPoint(es[i], e.point) && HasPoint(es[|es| - 1], e.point);
        }
        assert Points(es).Keys == Points(before).Keys + {e.point};
        assert |Points(es)| == |Points(es).Keys| && |Points(before)| == |Points(before).Keys|;
      }
    }
  }

  lemma {:induction false} PrefixPoints(es: seq<Event>, k: nat)
    requires k <= |es| && EachOnce(es) && |Points(es[..k])| == |Points(es)|
    ensures Points(es[..k]) == Points(es)
  {
    if k == |es| {
      assert es[..k] == es;
    } else {
      var before, e := es[..|es| - 1], es[|es| - 1];
      assert es == before + [e] && es[..k] == before[..k] && before == before[..k] + before[k..];
      PointsGrow(before, e);
      PointsGrowAll(before[..k], before[k..]);
      SentCounted(before);
      SentCounted(es);
      PrefixPoints(before, k);
    }
  }

  lemma {:induction false} ClosedCountConcat(a: seq<Event>, b: seq<Event>)
    ensures ClosedCount(a + b) == ClosedCount(a) + ClosedCount(b)
  {
    if b == [] {
      assert a + b == a;
    } else {
      assert (a + b)[..|a + b| - 1] == a + b[..|b| - 1];
      ClosedCountConcat(a, b[..|b| - 1]);
    }
  }

  lemma ClosedCountOne(c: Event)
    ensures ClosedCount([c]) == if IsClosed(c) then 1 else 0
  {
  }

  lemma PrefixClosing(a: seq<Event>, c: Event, b: seq<Event>, k: nat)
    requires IsClosed(c) && ClosedCount(a) == 0 && ClosedCount(b) == 0 && k <= |a + [c] + b|
    ensures Closing((a + [c] + b)[..k]) == if k > |a| then Some(c) else None
  {
    if k > |a| {
      var j := k - |a| - 1;
      assert b == b[..j] + b[j..];
      ClosedCountConcat(b[..j], b[j..]);
      assert (a + [c] + b)[..k] == a + [c] + b[..j];
      ClosingBy(a, c, b[..j]);
    } else {
      assert a == a[..k] + a[k..] && (a + [c] + b)[..k] == a[..k];
      ClosedCountConcat(a[..k], a[k..]);
    }
  }

  lemma CountWhenIn(es: seq<Event>, c: Event)
    requires AllIn(es) && IsClosed(c) && c.enforceSync && (Closing(es).Some? ==> Closing(es) == Some(c))
    ensures |Points(es)| == c.numPoints
  {
  }

  /**
    Main result: in whatever order a closed status announcing N and N points, each sent once, arrive among other
    status messages, one file is written and it holds exactly what was sent.
   */
  lemma AnyOrderWritesOnce(a: seq<Event>, c: Event, b: seq<Event>)
    requires IsClosed(c) && c.enforceSync && ClosedCount(a) == 0 && ClosedCount(b) == 0
    requires EachOnce(a + [c] + b) && Sent(a + [c] + b) == c.numPoints
    ensures var (es, ws) := (a + [c] + b, Alone(a + [c] + b).1);
      |ws| == 1 && ws[0].segments == Points(es) && forall p, d ::
        (p in ws[0].segments && ws[0].segments[p] == d) <==> SentWith(es, p, d)
  {
    hide Points, Sent, Closing, AllIn, EachOnce;
    var es := a + [c] + b;
    SentCounted(es);
    PointsGrow(a, c);
    PointsGrowAll(a + [c], b);
    WrittenIff(a, c, b);
    ClosedCountConcat(a + [c], b);
    ClosedCountConcat(a, [c]);
    ClosedCountOne(c);
    WrittenAtMoment(es);
    MomentIsFirst(es, 0);
    var k := Moment(es).value;
    PrefixClosing(a, c, b, k);
    CountWhenIn(es[..k], c);
    PrefixPoints(es, k);
    forall p, d ensures (p in Points(es) && Points(es)[p] == d) <==> SentWith(es, p, d) { PointsAre(es, p, d); }
  }

  /** Two points are in when the scan closes with one: whatever points still come, no file is written. */
  lemma NeverWritten(d: Data, number: Option<nat>, b: seq<Event>)
    requires ClosedCount(b) == 0
    ensures var c := StatusUpdate(ClosedStatus, number, 1, true);
      Alone([Segment(0, d, number), Segment(1, d, number), c] + b).1 == []
  {
    var x, y, c := Segment(0, d, number), Segment(1, d, number), StatusUpdate(ClosedStatus, number, 1, true);
    var es := [x, y] + [c] + b;
    assert es == [x, y, c] + b;
    assert [x, y][..1] == [x] && [x][..0] == [];
    assert Points([x]) == map[0 := d] && Points([x, y]) == map[0 := d, 1 := d];
    assert ClosedCount([x]) == 0 && ClosedCount([x, y]) == 0;
    WrittenIff([x, y], c, b);
    ClosedCountConcat([x, y] + [c], b);
    ClosedCountConcat([x, y], [c]);
    ClosedCountOne(c);
    WrittenAtMoment(es);
  }
}
