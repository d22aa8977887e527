/**
  Several requests run as one scan: the step scans of a scan def number their points consecutively, and
  the worker announces how many there are.
 */
module ScanDefs {
  import opened Arithmetic
  import opened Instructions
  import opened StepScans
  import opened ScanWorkers
  import RB = RequestBlocks

  /** A request inside a scan def: a step scan, or something that neither acquires points nor opens or closes a scan. */
  datatype Request = Step(plan: Plan) | Mute(instrs: seq<Instr>)

  /** Instructions that do not open a scan or close the scan def. Inside a scan def `close_scan` is ignored. */
  predicate Silent(i: Instr) {
    !i.action.OpenScan? && !i.action.CloseScanDef? && (i.action.CloseScan? ==> i.scanDefId.Some?)
  }

  predicate AllSilent(s: seq<Instr>) {
    forall k :: 0 <= k < |s| ==> Silent(s[k])
  }

  predicate NoPoints(s: seq<Instr>) {
    forall k :: 0 <= k < |s| ==> s[k].pointID.None?
  }

  ghost predicate ValidRequest(r: Request, def: string) {
    match r
    case Step(plan) => plan.Valid() && plan.scanDefId == Some(def)
    case Mute(instrs) => instrs != [] && AllSilent(instrs) && NoPoints(instrs)
  }

  ghost predicate ValidDef(rs: seq<Request>, def: string) {
    forall k :: 0 <= k < |rs| ==> ValidRequest(rs[k], def)
  }

  ghost function BlockOf(r: Request, def: string): RB.Block
    requires ValidRequest(r, def)
  {
    match r
    case Step(plan) =>
      RB.Block(true, Some(def), false, false, (p: nat) => Stream(plan, p), (p: nat) => p + plan.NumPoints())
    case Mute(instrs) => RB.Block(false, Some(def), false, false, _ => instrs, p => p)
  }

  function Closing(def: string): Instr {
    Instr(CloseScanDef, Unspecified, "", 0, None, Some(def))
  }

  function ClosingBlock(def: string): RB.Block {
    RB.Block(false, Some(def), true, false, _ => [Closing(def)], p => p)
  }

  /** The blocks of a scan def, from the first request to the one that closes it. */
  ghost function Blocks(rs: seq<Request>, def: string): seq<RB.Block>
    requires ValidDef(rs, def)
  {
    if rs == [] then [ClosingBlock(def)] else [BlockOf(rs[0], def)] + Blocks(rs[1..], def)
  }

  predicate HasStep(rs: seq<Request>) {
    rs != [] && (rs[0].Step? || HasStep(rs[1..]))
  }

  function Points(r: Request): nat {
    match r
    case Step(plan) => plan.NumPoints()
    case Mute(_) => 0
  }

  function TotalPoints(rs: seq<Request>): nat {
    if rs == [] then 0 else Points(rs[0]) + TotalPoints(rs[1..])
  }

  ghost function OwnStream(r: Request, point: nat): seq<Instr>
    requires r.Step? ==> r.plan.Valid()
  {
    match r case Step(plan) => Stream(plan, point) case Mute(instrs) => instrs
  }

  /** The instruction stream of a scan def whose next point is `point`. */
  ghost function DefStream(rs: seq<Request>, def: string, point: nat): seq<Instr>
    requires ValidDef(rs, def)
  {
    if rs == [] then [Closing(def)]
    else OwnStream(rs[0], point) + DefStream(rs[1..], def, point + Points(rs[0]))
  }

  lemma {:induction false} SilentClosesNothing(s: seq<Instr>, points: map<string, nat>)
    requires forall k :: 0 <= k < |s| ==> !s[k].action.CloseScanDef?
    ensures RB.CloseAll(s, points) == points
  {
    if s != [] { SilentClosesNothing(s[1..], points); }
  }

  lemma MuteCloses(s: seq<Instr>)
    requires AllSilent(s)
    ensures forall k :: 0 <= k < |s| ==> !s[k].action.CloseScanDef?
  {
  }

  lemma ClosingCloses(def: string, points: map<string, nat>)
    ensures var bs := [ClosingBlock(def)];
      && RB.Streams(bs, points) == [Closing(def)] && RB.NoneEmpty(bs, points)
      && RB.PointsAfterAll(bs, points) == points - {def}
  {
    assert [Closing(def)] + [] == [Closing(def)];
    assert RB.CloseAll([], points - {def}) == points - {def};
    assert RB.CloseAll([Closing(def)], points) == points - {def};
  }

  /** Only the closing request closes the scan def, so each request continues the points of those before it. */
  lemma RequestPoints(r: Request, def: string, points: map<string, nat>)
    requires ValidRequest(r, def) && def in points
    ensures var b := BlockOf(r, def);
      && b.stream(RB.StartPoint(b, points)) == OwnStream(r, points[def])
      && RB.PointsAfter(b, points) == points[def := points[def] + Points(r)]
  {
    hide Stream, RB.CloseAll, AllSilent;
    var s := OwnStream(r, points[def]);
    if r.Step? { StreamCloses(r.plan, points[def]); } else { MuteCloses(r.instrs); }
    SilentClosesNothing(s, points);
  }

  /** The request queue hands out exactly that stream, and no block stops it early. */
  lemma {:induction false} QueueYieldsDef(rs: seq<Request>, def: string, points: map<string, nat>)
    requires ValidDef(rs, def) && def in points
    ensures RB.Streams(Blocks(rs, def), points) == DefStream(rs, def, points[def])
    ensures RB.NoneEmpty(Blocks(rs, def), points)
    ensures RB.PointsAfterAll(Blocks(rs, def), points) == points - {def}
  {
    hide Stream;
    if rs == [] {
      ClosingCloses(def, points);
    } else {
      assert Blocks(rs, def)[1..] == Blocks(rs[1..], def);
      if rs[0].Step? { StreamNonEmpty(rs[0].plan, points[def]); }
      RequestPoints(rs[0], def, points);
      var after := points[def := points[def] + Points(rs[0])];
      QueueYieldsDef(rs[1..], def, after);
      assert after - {def} == points - {def};
    }
  }

  lemma StreamNonEmpty(plan: Plan, point: nat)
    requires plan.Valid()
    ensures Stream(plan, point) != []
  {
  }

  // ----- Point IDs -----

  function TriggerIDs(s: seq<Instr>): seq<nat> {
    if s == [] then []
    else (if s[0].action.Trigger? && s[0].pointID.Some? then [s[0].pointID.value] else []) + TriggerIDs(s[1..])
  }

  /** The last point ID in `s`, or `m` if it has none. */
  function LastPoint(s: seq<Instr>, m: nat): nat {
    if s == [] then m else LastPoint(s[1..], if s[0].pointID.Some? then s[0].pointID.value else m)
  }

  function Range(from: nat, n: nat): seq<nat> {
    seq(n, i => from + i)
  }

  lemma {:induction false} ConcatPoints(a: seq<Instr>, b: seq<Instr>, m: nat)
    ensures TriggerIDs(a + b) == TriggerIDs(a) + TriggerIDs(b)
    ensures LastPoint(a + b, m) == LastPoint(b, LastPoint(a, m))
  {
    if a == [] {
      assert a + b == b;
    } else {
      assert (a + b)[1..] == a[1..] + b;
      ConcatPoints(a[1..], b, if a[0].pointID.Some? then a[0].pointID.value else m);
    }
  }

  lemma {:induction false} PointFree(s: seq<Instr>, m: nat)
    requires NoPoints(s)
    ensures TriggerIDs(s) == [] && LastPoint(s, m) == m
  {
    if s != [] { PointFree(s[1..], m); }
  }

  /** Points left from burst `b` of position `ind` on. */
  function Left(plan: Plan, ind: nat, b: nat): nat
    requires ind <= |plan.positions| && b <= plan.burst
    decreases |plan.positions| - ind, plan.burst - b
  {
    if ind == |plan.positions| then 0
    else if b == plan.burst then Left(plan, ind + 1, 0)
    else 1 + Left(plan, ind, b + 1)
  }

  lemma {:induction false} LeftIs(plan: Plan, ind: nat, b: nat)
    requires ind <= |plan.positions| && b <= plan.burst && (ind == |plan.positions| ==> b == 0)
    ensures Left(plan, ind, b) + b == (|plan.positions| - ind) * plan.burst
    decreases |plan.positions| - ind, plan.burst - b
  {
    if ind < |plan.positions| {
      if b == plan.burst {
        LeftIs(plan, ind + 1, 0);
        MulNext(|plan.positions| - ind - 1, plan.burst);
      } else {
        LeftIs(plan, ind, b + 1);
      }
    }
  }

  lemma PointOfAcquisition(plan: Plan, n: nat, ind: nat, point: nat, m: nat)
    requires plan.Valid() && ind < |plan.positions|
    ensures TriggerIDs(AtEachPoint(plan, n, ind, point)) == [point]
    ensures LastPoint(AtEachPoint(plan, n, ind, point), m) == point
  {
    var move := MoveAndWait(plan, n, plan.positions[ind]);
    var await := AwaitPrevious(plan, n + |move|, ind);
    PointFree(move + await, m);
    AcquirePoints(plan, n + |move| + |await|, point, m);
    hide MoveAndWait, Acquire;
    ConcatPoints(move + await, Acquire(plan, n + |move| + |await|, point), m);
  }

  lemma AcquirePoints(plan: Plan, n: nat, point: nat, m: nat)
    ensures TriggerIDs(Acquire(plan, n, point)) == [point] && LastPoint(Acquire(plan, n, point), m) == point
  {
    var a := Acquire(plan, n, point);
    assert a == [a[0]] + ([a[1]] + ([a[2]] + [a[3]]));
    ConcatPoints([a[0]], [a[1]] + ([a[2]] + [a[3]]), m);
    ConcatPoints([a[1]], [a[2]] + [a[3]], point);
    ConcatPoints([a[2]], [a[3]], point);
  }

  lemma {:induction false} CorePoints(plan: Plan, n: nat, ind: nat, b: nat, point: nat, m: nat)
    requires plan.Valid() && ind <= |plan.positions| && b <= plan.burst
    requires ind == |plan.positions| ==> b == 0
    ensures TriggerIDs(CoreFrom(plan, n, ind, b, point)) == Range(point, Left(plan, ind, b))
    ensures LastPoint(CoreFrom(plan, n, ind, b, point), m)
            == if Left(plan, ind, b) == 0 then m else point + Left(plan, ind, b) - 1
    decreases |plan.positions| - ind, plan.burst - b
  {
    hide AtEachPoint;
    if ind == |plan.positions| {
    } else if b == plan.burst {
      CorePoints(plan, n, ind + 1, 0, point, m);
    } else {
      var here := AtEachPoint(plan, n, ind, point);
      PointOfAcquisition(plan, n, ind, point, m);
      CorePoints(plan, n + |here|, ind, b + 1, point + 1, point);
      hide CoreFrom;
      CoreOpens(plan, n, ind, b, point);
      ConcatPoints(here, CoreFrom(plan, n + |here|, ind, b + 1, point + 1), m);
      assert [point] + Range(point + 1, Left(plan, ind, b + 1)) == Range(point, Left(plan, ind, b));
    }
  }

  lemma CoreOpens(plan: Plan, n: nat, ind: nat, b: nat, point: nat)
    requires plan.Valid() && ind < |plan.positions| && b < plan.burst
    ensures var here := AtEachPoint(plan, n, ind, point);
      CoreFrom(plan, n, ind, b, point) == here + CoreFrom(plan, n + |here|, ind, b + 1, point + 1)
  {
    hide AtEachPoint;
  }

  // ----- The parts of a step scan around its open_scan -----

  function BeforeOpen(plan: Plan): seq<Instr> {
    InitialRead(plan, 0) + Rpcs(plan, 2)
  }

  function OpenInstr(plan: Plan): Instr {
    Opening(plan, 2 + |plan.motors|)[0]
  }

  function Setup(plan: Plan): seq<Instr>
    requires plan.Valid()
  {
    Opening(plan, 2 + |plan.motors|)[1..] + PreScanPart(plan, 5 + |plan.motors|)
  }

  function AfterOpen(plan: Plan, point: nat): seq<Instr>
    requires plan.Valid()
  {
    Setup(plan) + Core(plan, point) + Epilogue(plan, |Prologue(plan)| + |Core(plan, point)|)
  }

  lemma StreamParts(plan: Plan, point: nat)
    requires plan.Valid()
    ensures Stream(plan, point) == BeforeOpen(plan) + ([OpenInstr(plan)] + AfterOpen(plan, point))
  {
    hide InitialRead, Rpcs, PreScanPart, CoreFrom, Epilogue;
    var opening := Opening(plan, 2 + |plan.motors|);
    assert opening == [opening[0]] + opening[1..];
  }

  lemma {:induction false} CoreSilent(plan: Plan, n: nat, ind: nat, b: nat, point: nat)
    requires plan.Valid() && ind <= |plan.positions| && b <= plan.burst
    ensures AllSilent(CoreFrom(plan, n, ind, b, point))
    decreases |plan.positions| - ind, plan.burst - b
  {
    hide AtEachPoint;
    if ind == |plan.positions| {
    } else if b == plan.burst {
      CoreSilent(plan, n, ind + 1, 0, point);
    } else {
      var here := AtEachPoint(plan, n, ind, point);
      PointSilent(plan, n, ind, point);
      CoreSilent(plan, n + |here|, ind, b + 1, point + 1);
    }
  }

  lemma PointSilent(plan: Plan, n: nat, ind: nat, point: nat)
    requires plan.Valid() && ind < |plan.positions|
    ensures AllSilent(AtEachPoint(plan, n, ind, point))
  {
  }

  lemma QuietParts(plan: Plan, n: nat)
    requires plan.Valid() && plan.scanDefId.Some?
    ensures AllSilent(BeforeOpen(plan)) && NoPoints(BeforeOpen(plan))
    ensures AllSilent(Setup(plan)) && NoPoints(Setup(plan))
    ensures AllSilent(Epilogue(plan, n)) && NoPoints(Epilogue(plan, n))
  {
  }

  /** The points of a step scan are numbered consecutively from `point`. */
  lemma StreamPoints(plan: Plan, point: nat, m: nat)
    requires plan.Valid() && plan.scanDefId.Some?
    ensures TriggerIDs(Stream(plan, point)) == Range(point, plan.NumPoints())
    ensures AllSilent(AfterOpen(plan, point))
    ensures LastPoint(AfterOpen(plan, point), m) == if plan.NumPoints() == 0 then m else point + plan.NumPoints() - 1
  {
    var core := Core(plan, point);
    var n := |Prologue(plan)| + |core|;
    QuietParts(plan, n);
    CorePoints(plan, |Prologue(plan)|, 0, 0, point, m);
    LeftIs(plan, 0, 0);
    CoreSilent(plan, |Prologue(plan)|, 0, 0, point);
    StreamParts(plan, point);
    hide BeforeOpen, Setup, Epilogue, CoreFrom, AfterOpen, Stream, Prologue;
    AfterOpenIs(plan, point);
    OpenIsPointFree(plan);
    hide Core, TriggerIDs, LastPoint, Range, AllSilent, OpenInstr, NoPoints;
    JoinParts(BeforeOpen(plan), [OpenInstr(plan)], Setup(plan), core, Epilogue(plan, n), m);
    SilentParts(Setup(plan), core, Epilogue(plan, n));
  }

  /** Only the acquisition loop of a stream has points. */
  lemma JoinParts(a: seq<Instr>, b: seq<Instr>, c: seq<Instr>, core: seq<Instr>, e: seq<Instr>, m: nat)
    requires NoPoints(a) && NoPoints(b) && NoPoints(c) && NoPoints(e)
    ensures TriggerIDs(a + (b + (c + core + e))) == TriggerIDs(core)
    ensures LastPoint(c + core + e, m) == LastPoint(core, m)
  {
    PointFree(a, m);
    PointFree(b, m);
    PointFree(c, m);
    PointFree(e, LastPoint(core, m));
    hide TriggerIDs, LastPoint, NoPoints;
    ConcatPoints(c, core, m);
    ConcatPoints(c + core, e, m);
    ConcatPoints(b, c + core + e, m);
    ConcatPoints(a, b + (c + core + e), m);
  }

  lemma SilentParts(a: seq<Instr>, b: seq<Instr>, c: seq<Instr>)
    requires AllSilent(a) && AllSilent(b) && AllSilent(c)
    ensures AllSilent(a + b + c)
  {
    hide Silent;
  }

  lemma OpenIsPointFree(plan: Plan)
    requires plan.Valid()
    ensures NoPoints([OpenInstr(plan)])
  {
  }

  lemma StreamCloses(plan: Plan, point: nat)
    requires plan.Valid() && plan.scanDefId.Some?
    ensures var s := Stream(plan, point); forall k :: 0 <= k < |s| ==> !s[k].action.CloseScanDef?
  {
    StreamParts(plan, point);
    StreamPoints(plan, point, 0);
    QuietParts(plan, 0);
    hide Stream, BeforeOpen, AfterOpen, TriggerIDs, LastPoint, Range;
  }

  lemma AfterOpenIs(plan: Plan, point: nat)
    requires plan.Valid()
    ensures AfterOpen(plan, point)
            == Setup(plan) + Core(plan, point) + Epilogue(plan, |Prologue(plan)| + |Core(plan, point)|)
  {
  }

  // ----- What the worker announces -----

  function Work(dm: DeviceManager, id: ScanID, w: Worker, s: seq<Instr>): Worker
    decreases |s|
  {
    if s == [] then w else Work(dm, id, ScanWorkers.Step(dm, id, w, s[0]), s[1..])
  }

  /** The numbers of points in the status messages, in order. */
  function Announcements(dm: DeviceManager, id: ScanID, w: Worker, s: seq<Instr>): seq<nat>
    decreases |s|
  {
    if s == [] then [] else
      var a := Announcement(dm, id, w, s[0]);
      (if a.Some? then [a.value] else []) + Announcements(dm, id, ScanWorkers.Step(dm, id, w, s[0]), s[1..])
  }

  lemma {:induction false} WorkConcat(dm: DeviceManager, id: ScanID, w: Worker, a: seq<Instr>, b: seq<Instr>)
    ensures Work(dm, id, w, a + b) == Work(dm, id, Work(dm, id, w, a), b)
    ensures Announcements(dm, id, w, a + b)
            == Announcements(dm, id, w, a) + Announcements(dm, id, Work(dm, id, w, a), b)
    decreases |a|
  {
    hide ScanWorkers.Step, Announcement;
    if a == [] {
      assert a + b == b;
    } else {
      assert (a + b)[1..] == a[1..] + b;
      WorkConcat(dm, id, ScanWorkers.Step(dm, id, w, a[0]), a[1..], b);
    }
  }

  lemma {:induction false} SilentWork(dm: DeviceManager, id: ScanID, w: Worker, s: seq<Instr>)
    requires AllSilent(s)
    ensures Announcements(dm, id, w, s) == []
    ensures Work(dm, id, w, s).scanId == w.scanId
    ensures Work(dm, id, w, s).maxPointId == LastPoint(s, w.maxPointId)
    decreases |s|
  {
    if s != [] {
      SilentStep(dm, id, w, s[0]);
      SilentWork(dm, id, ScanWorkers.Step(dm, id, w, s[0]), s[1..]);
    }
  }

  lemma SilentStep(dm: DeviceManager, id: ScanID, w: Worker, i: Instr)
    requires Silent(i)
    ensures var v := ScanWorkers.Step(dm, id, w, i);
      && v.scanId == w.scanId && v.maxPointId == (if i.pointID.Some? then i.pointID.value else w.maxPointId)
      && Announcement(dm, id, w, i) == None
  {
  }

  /** The worker's point counter after `total` points of a scan def. */
  function Highest(total: nat): nat {
    if total == 0 then 0 else total - 1
  }

  /** The worker is inside the scan def and has seen `total` points. */
  predicate InsideDef(id: ScanID, w: Worker, total: nat) {
    (w.scanId == None || w.scanId == Some(id)) && w.maxPointId == Highest(total)
  }

  lemma StepScanWork(dm: DeviceManager, id: ScanID, w: Worker, plan: Plan, total: nat)
    requires plan.Valid() && plan.scanDefId.Some? && InsideDef(id, w, total)
    ensures var s := Stream(plan, total);
      && InsideDef(id, Work(dm, id, w, s), total + plan.NumPoints()) && Work(dm, id, w, s).scanId == Some(id)
      && Announcements(dm, id, w, s) == [OpenNumPoints(Highest(total), plan.NumPoints())]
  {
    hide BeforeOpen, AfterOpen, Stream, LastPoint;
    var a, open, b := BeforeOpen(plan), OpenInstr(plan), AfterOpen(plan, total);
    StreamParts(plan, total);
    StreamPoints(plan, total, Highest(total));
    QuietParts(plan, 0);
    PointFree(a, w.maxPointId);
    SilentWork(dm, id, w, a);
    var w1 := Work(dm, id, w, a);
    OpenWork(dm, id, w1, plan);
    var w2 := Work(dm, id, w1, [open]);
    SilentWork(dm, id, w2, b);
    WorkConcat(dm, id, w1, [open], b);
    WorkConcat(dm, id, w, a, [open] + b);
  }

  lemma OpenWork(dm: DeviceManager, id: ScanID, w: Worker, plan: Plan)
    requires plan.scanDefId.Some? && (w.scanId == None || w.scanId == Some(id))
    ensures var v := Work(dm, id, w, [OpenInstr(plan)]);
      && v.scanId == Some(id) && v.maxPointId == w.maxPointId
      && Announcements(dm, id, w, [OpenInstr(plan)]) == [OpenNumPoints(w.maxPointId, plan.NumPoints())]
  {
    var v := ScanWorkers.Step(dm, id, w, OpenInstr(plan));
    assert Work(dm, id, v, []) == v;
    assert Announcements(dm, id, v, []) == [];
  }

  /** The numbers announced when the step scans of a scan def open, `before` points having been taken. */
  function OpenAnnouncements(rs: seq<Request>, before: nat): seq<nat> {
    if rs == [] then []
    else (if rs[0].Step? then [OpenNumPoints(Highest(before), Points(rs[0]))] else [])
         + OpenAnnouncements(rs[1..], before + Points(rs[0]))
  }

  /** The true totals including the scan that opens. */
  function RunningTotals(rs: seq<Request>, before: nat): seq<nat> {
    if rs == [] then []
    else (if rs[0].Step? then [before + Points(rs[0])] else []) + RunningTotals(rs[1..], before + Points(rs[0]))
  }

  ghost predicate DefOutcome(dm: DeviceManager, id: ScanID, w: Worker, rs: seq<Request>, def: string, before: nat)
    requires ValidDef(rs, def)
  {
    && TriggerIDs(DefStream(rs, def, before)) == Range(before, TotalPoints(rs))
    && Announcements(dm, id, w, DefStream(rs, def, before))
       == OpenAnnouncements(rs, before) + [CloseNumPoints(Highest(before + TotalPoints(rs)))]
  }

  lemma {:induction false} DefWork(dm: DeviceManager, id: ScanID, w: Worker, rs: seq<Request>, def: string, before: nat)
    requires ValidDef(rs, def) && InsideDef(id, w, before)
    requires w.scanId == Some(id) || HasStep(rs)
    ensures DefOutcome(dm, id, w, rs, def, before)
    decreases |rs|
  {
    hide DefOutcome, OwnStream, InsideDef, Work, Announcements, TriggerIDs, Range, Stream, OpenAnnouncements;
    if rs == [] {
      DefBase(dm, id, w, rs, def, before);
    } else {
      FirstWork(dm, id, w, rs[0], def, before);
      DefWork(dm, id, Work(dm, id, w, OwnStream(rs[0], before)), rs[1..], def, before + Points(rs[0]));
      DefWorkStep(dm, id, w, rs, def, before);
    }
  }

  lemma DefBase(dm: DeviceManager, id: ScanID, w: Worker, rs: seq<Request>, def: string, before: nat)
    requires rs == [] && ValidDef(rs, def) && InsideDef(id, w, before) && w.scanId == Some(id)
    ensures DefOutcome(dm, id, w, rs, def, before)
  {
    CloseWork(dm, id, w, def);
    assert Range(before, 0) == [];
  }

  lemma DefWorkStep(dm: DeviceManager, id: ScanID, w: Worker, rs: seq<Request>, def: string, before: nat)
    requires ValidDef(rs, def) && rs != [] && InsideDef(id, w, before)
    requires DefOutcome(dm, id, Work(dm, id, w, OwnStream(rs[0], before)), rs[1..], def, before + Points(rs[0]))
    ensures DefOutcome(dm, id, w, rs, def, before)
  {
    hide Announcements, TriggerIDs, Work, Highest, OwnStream, InsideDef, Points, LastPoint, Range, OpenNumPoints,
      CloseNumPoints;
    var after := before + Points(rs[0]);
    var first, rest := OwnStream(rs[0], before), DefStream(rs[1..], def, after);
    FirstWork(dm, id, w, rs[0], def, before);
    WorkConcat(dm, id, w, first, rest);
    ConcatPoints(first, rest, 0);
    JoinRanges(before, Points(rs[0]), TotalPoints(rs[1..]));
    assert DefStream(rs, def, before) == first + rest;
    assert TotalPoints(rs) == Points(rs[0]) + TotalPoints(rs[1..]);
  }

  lemma JoinRanges(from: nat, n: nat, m: nat)
    ensures Range(from, n) + Range(from + n, m) == Range(from, n + m)
  {
  }

  lemma FirstWork(dm: DeviceManager, id: ScanID, w: Worker, r: Request, def: string, before: nat)
    requires ValidRequest(r, def) && InsideDef(id, w, before)
    ensures var s := OwnStream(r, before);
      && InsideDef(id, Work(dm, id, w, s), before + Points(r))
      && (r.Step? || w.scanId == Some(id) ==> Work(dm, id, w, s).scanId == Some(id))
      && TriggerIDs(s) == Range(before, Points(r))
      && Announcements(dm, id, w, s) == (if r.Step? then [OpenNumPoints(Highest(before), Points(r))] else [])
  {
    hide Stream;
    match r
    case Step(plan) =>
      StepScanWork(dm, id, w, plan, before);
      StreamPoints(plan, before, 0);
    case Mute(instrs) =>
      SilentWork(dm, id, w, instrs);
      PointFree(instrs, w.maxPointId);
  }

  lemma CloseWork(dm: DeviceManager, id: ScanID, w: Worker, def: string)
    requires w.scanId == Some(id)
    ensures Announcements(dm, id, w, [Closing(def)]) == [CloseNumPoints(w.maxPointId)]
    ensures TriggerIDs([Closing(def)]) == []
  {
    var v := ScanWorkers.Step(dm, id, w, Closing(def));
    assert Announcements(dm, id, v, []) == [];
  }

  // ----- Main results -----

  /** What the queue hands out for a scan def whose requests all arrived before it was closed. */
  ghost function HandedOut(rs: seq<Request>, def: string): seq<Instr>
    requires ValidDef(rs, def)
  {
    RB.Streams(Blocks(rs, def), map[def := 0])
  }

  /**
    A scan def with at least one step scan, drained from the request queue and executed by the worker: its points
    are numbered 0, 1, ... without gap or repeat across all its scans, and the worker announces the listed numbers.
   */
  lemma DefIsNumbered(dm: DeviceManager, id: ScanID, rs: seq<Request>, def: string)
    requires ValidDef(rs, def) && HasStep(rs)
    ensures var out := HandedOut(rs, def);
      && RB.NoneEmpty(Blocks(rs, def), map[def := 0])
      && TriggerIDs(out) == Range(0, TotalPoints(rs))
      && Announcements(dm, id, IDLE_WORKER, out)
         == OpenAnnouncements(rs, 0) + [CloseNumPoints(Highest(TotalPoints(rs)))]
  {
    hide DefStream, Blocks, TriggerIDs, Announcements, TotalPoints, OpenAnnouncements;
    hide RB.Streams, RB.NoneEmpty, HasStep, ValidDef;
    QueueYieldsDef(rs, def, map[def := 0]);
    DefWork(dm, id, IDLE_WORKER, rs, def, 0);
  }

  /** The last number announced is the number of points taken exactly when the scan def took a point at all. */
  lemma ClosingIsTotal(dm: DeviceManager, id: ScanID, rs: seq<Request>, def: string)
    requires ValidDef(rs, def) && HasStep(rs)
    ensures var (out, a) := (HandedOut(rs, def), Announcements(dm, id, IDLE_WORKER, HandedOut(rs, def)));
      a != [] && (a[|a| - 1] == |TriggerIDs(out)| <==> TriggerIDs(out) != [])
  {
    hide HandedOut, Announcements, OpenAnnouncements;
    DefIsNumbered(dm, id, rs, def);
  }

  /** No step scan opens when exactly one point has been taken. */
  predicate NeverAfterOne(rs: seq<Request>, before: nat) {
    rs == [] || ((rs[0].Step? ==> before != 1) && NeverAfterOne(rs[1..], before + Points(rs[0])))
  }

  lemma {:induction false} OpeningFormula(rs: seq<Request>, before: nat)
    ensures |OpenAnnouncements(rs, before)| == |RunningTotals(rs, before)|
    ensures OpenAnnouncements(rs, before) == RunningTotals(rs, before) <==> NeverAfterOne(rs, before)
  {
    if rs != [] {
      var after := before + Points(rs[0]);
      OpeningFormula(rs[1..], after);
      assert OpenNumPoints(Highest(before), Points(rs[0])) == before + Points(rs[0]) <==> before != 1;
      if rs[0].Step? {
        var x, y := OpenAnnouncements(rs, before), RunningTotals(rs, before);
        assert x[1..] == OpenAnnouncements(rs[1..], after) && y[1..] == RunningTotals(rs[1..], after);
      } else {
        assert OpenAnnouncements(rs, before) == OpenAnnouncements(rs[1..], after);
        assert RunningTotals(rs, before) == RunningTotals(rs[1..], after);
      }
    }
  }

  /**
    The numbers announced at the openings are the true totals up to and including the scan that opens, exactly when no
    step scan opens after exactly one point.
   */
  lemma OpeningsAreTotals(dm: DeviceManager, id: ScanID, rs: seq<Request>, def: string)
    requires ValidDef(rs, def) && HasStep(rs)
    ensures var a := Announcements(dm, id, IDLE_WORKER, HandedOut(rs, def));
      a != [] && (a[..|a| - 1] == RunningTotals(rs, 0) <==> NeverAfterOne(rs, 0))
  {
    hide HandedOut, Announcements, OpenAnnouncements, RunningTotals, NeverAfterOne, TriggerIDs;
    DefIsNumbered(dm, id, rs, def);
    OpeningFormula(rs, 0);
  }

  /** A step scan of one motor that takes `n` points. */
  function LineScan(n: nat, def: string): Plan {
    Plan(["samx"], [], seq(n, _ => [0.0]), [0.0], 1, false, Some(def))
  }

  lemma OneRequest(r: Request, before: nat)
    ensures TotalPoints([r]) == Points(r)
    ensures OpenAnnouncements([r], before) == if r.Step? then [OpenNumPoints(Highest(before), Points(r))] else []
  {
    assert [r][1..] == [];
  }

  /** Two scans of one point: the second announces one point instead of two. */
  lemma SecondOpeningWrong(dm: DeviceManager, id: ScanID, def: string)
    ensures var rs := [Step(LineScan(1, def)), Step(LineScan(1, def))];
      ValidDef(rs, def) && Announcements(dm, id, IDLE_WORKER, HandedOut(rs, def)) == [1, 1, 2]
  {
    var r := Step(LineScan(1, def));
    var rs := [r, r];
    assert Points(r) == 1 && rs[1..] == [r] && [r][1..] == [];
    OneRequest(r, 1);
    assert HasStep(rs) && TotalPoints(rs) == 2;
    hide HandedOut, Announcements, Stream;
    DefIsNumbered(dm, id, rs, def);
  }

  /** A scan without positions: its closing announces a point that was not taken. */
  lemma ClosingWrong(dm: DeviceManager, id: ScanID, def: string)
    ensures var rs := [Step(LineScan(0, def))];
      && ValidDef(rs, def) && TriggerIDs(HandedOut(rs, def)) == []
      && Announcements(dm, id, IDLE_WORKER, HandedOut(rs, def)) == [0, 1]
  {
    var r := Step(LineScan(0, def));
    var rs := [r];
    assert Points(r) == 0 && rs[1..] == [];
    assert HasStep(rs);
    hide HandedOut, Announcements, TriggerIDs;
    DefIsNumbered(dm, id, rs, def);
  }
}
