/** The storage of the scan bundler: how scans enter it, what readings do to it, and when it forgets them. */
module BundlerStorage {
  import opened Instructions
  import opened ScanBundlers

  const MAX_HISTORY := 10

  datatype Status = Open | Closed | Aborted | Paused | Halted | OtherStatus

  datatype ScanType = StepType | FlyType

  /** What a status message tells of a scan, with the devices the device manager derives from it. */
  datatype Info = Info(scanType: Option<ScanType>, monitored: seq<Device>, baseline: seq<Device>)

  datatype StatusMessage = StatusMessage(scanID: ScanID, status: Status, info: Info)

  /** A scan first heard of when it had ended has no info. */
  datatype Entry = Entry(
    status: Status,
    info: Option<Info>,
    stored: map<PointID, map<Device, Signal>>,
    sent: set<PointID>,
    baseline: map<Device, Signal>)

  datatype Monitors = Monitors(devices: seq<Device>, done: map<PointID, map<Device, bool>>)

  datatype BaselineMarks = BaselineMarks(devices: seq<Device>, done: map<Device, bool>)

  /** The last two record what was handed to the emitters. */
  datatype Storage = Storage(
    sync: map<ScanID, Entry>,
    monitored: map<ScanID, Monitors>,
    baseline: map<ScanID, BaselineMarks>,
    initialized: set<ScanID>,
    history: seq<ScanID>,
    pointLog: map<ScanID, seq<Emission>>,
    baselineLog: map<ScanID, seq<map<Device, Signal>>>)

  predicate Ended(e: Entry) {
    e.status == Closed || e.status == Aborted
  }

  // ----- Status messages -----

  /** The ended scans that are no longer in the history. */
  function Forgotten(s: Storage): set<ScanID> {
    set id | id in s.sync && Ended(s.sync[id]) && id !in s.history
  }

  function Without(s: Storage, ids: set<ScanID>): Storage {
    s.(sync := s.sync - ids, monitored := s.monitored - ids, baseline := s.baseline - ids,
       initialized := s.initialized - ids)
  }

  function Cleaned(s: Storage): Storage {
    Without(s, Forgotten(s))
  }

  function Remember(h: seq<ScanID>, id: ScanID): seq<ScanID> {
    if id in h then h
    else if |h| < MAX_HISTORY then h + [id]
    else h[|h| + 1 - MAX_HISTORY..] + [id]
  }

  function Opened(s: Storage, id: ScanID, info: Info): Storage {
    s.(sync := s.sync[id := Entry(Open, Some(info), map[], {}, map[])],
       monitored := s.monitored[id := Monitors(info.monitored, map[])],
       baseline := s.baseline[id := BaselineMarks(info.baseline, NoneDone(info.baseline))],
       initialized := s.initialized + {id},
       pointLog := s.pointLog[id := []],
       baselineLog := s.baselineLog[id := []])
  }

  /** A scan that is not in the storage yet; only an open status brings its info. */
  function Introduced(s: Storage, m: StatusMessage): Storage {
    var o := if m.status == Open && m.scanID !in s.initialized then Opened(s, m.scanID, m.info) else s;
    o.(history := Remember(o.history, m.scanID))
  }

  function Modified(s: Storage, m: StatusMessage): Storage {
    if m.status == OtherStatus || m.status == Open || m.scanID == "" then s
    else if m.scanID in s.sync then s.(sync := s.sync[m.scanID := s.sync[m.scanID].(status := m.status)])
    else s.(sync := s.sync[m.scanID := Entry(m.status, None, map[], {}, map[])],
            initialized := s.initialized + {m.scanID},
            history := Remember(s.history, m.scanID))
  }

  function Handled(s: Storage, m: StatusMessage): Storage {
    var c := Cleaned(s);
    var i := if m.scanID !in c.sync then Introduced(c, m) else c;
    if m.status != Open then Modified(i, m) else i
  }

  // ----- Readings -----

  function PointsOf(s: Storage, id: ScanID): Points
    requires id in s.sync && id in s.monitored && id in s.pointLog
  {
    Points(s.sync[id].stored, s.monitored[id].done, s.sync[id].sent, s.pointLog[id])
  }

  function WithPoints(s: Storage, id: ScanID, p: Points): Storage
    requires id in s.sync && id in s.monitored
  {
    s.(sync := s.sync[id := s.sync[id].(stored := p.stored, sent := p.sent)],
       monitored := s.monitored[id := s.monitored[id].(done := p.done)],
       pointLog := s.pointLog[id := p.emitted])
  }

  function BaselineOf(s: Storage, id: ScanID): Baseline
    requires id in s.sync && id in s.baseline && id in s.baselineLog
  {
    Baseline(s.sync[id].baseline, s.baseline[id].done, s.baselineLog[id])
  }

  function WithBaseline(s: Storage, id: ScanID, b: Baseline): Storage
    requires id in s.sync && id in s.baseline
  {
    s.(sync := s.sync[id := s.sync[id].(baseline := b.stored)],
       baseline := s.baseline[id := s.baseline[id].(done := b.done)],
       baselineLog := s.baselineLog[id := b.emitted])
  }

  /** The scan is opened in the storage. */
  predicate IsOpened(s: Storage, id: ScanID) {
    id in s.sync && id in s.monitored && id in s.baseline && id in s.pointLog && id in s.baselineLog
  }

  datatype Priority = AsMonitored | AsBaseline | AsOther

  /** `parts` are the entries of `signal`; `readbacks` is what Redis holds of the devices when it is asked. */
  datatype DeviceMessage = DeviceMessage(
    scanID: ScanID, device: Device, signal: Signal, pointID: Option<PointID>, priority: Priority,
    parts: map<Device, Signal>, readbacks: map<Device, Signal>)

  function TypeOf(e: Entry): Option<ScanType> {
    if e.info.Some? then e.info.value.scanType else None
  }

  /** What a monitored reading brings to a point: of a step scan a device's signal, of a fly scan all it knows. */
  datatype PointReport =
    | OfStep(report: Report)
    | OfFly(point: PointID, parts: map<Device, Signal>, readbacks: map<Device, Signal>)

  predicate AllRead(devices: seq<Device>, readbacks: map<Device, Signal>) {
    forall d :: d in devices ==> d in readbacks
  }

  function ReadBack(devices: seq<Device>, readbacks: map<Device, Signal>): map<Device, Signal> {
    map d | d in devices && d in readbacks :: readbacks[d]
  }

  /**
    A fly scan's point is emitted at each reading, with the present read-backs of the monitored devices. When one of
    these is missing an exception is raised, with the reading stored and nothing emitted.
   */
  function FlyUpdate(devices: seq<Device>, s: Points, p: PointID, parts: map<Device, Signal>,
                     readbacks: map<Device, Signal>): Points
  {
    var merged := At(s.stored, p) + parts;
    if merged == map[] || !AllRead(devices, readbacks) then s.(stored := s.stored[p := merged])
    else
      var point := merged + ReadBack(devices, readbacks);
      Points(s.stored[p := point], s.done, s.sent + {p}, s.emitted + [Emission(p, point)])
  }

  function UpdatePoints(devices: seq<Device>, s: Points, r: PointReport): Points {
    match r
    case OfStep(report) => Update(devices, s, report)
    case OfFly(p, parts, readbacks) => FlyUpdate(devices, s, p, parts, readbacks)
  }

  /** Whether a message adds to the points of a scan. */
  predicate Reports(s: Storage, m: DeviceMessage) {
    && IsOpened(s, m.scanID) && TypeOf(s.sync[m.scanID]).Some?
    && m.priority == AsMonitored && m.pointID.Some?
  }

  function ReportOf(s: Storage, m: DeviceMessage): PointReport
    requires Reports(s, m)
  {
    match TypeOf(s.sync[m.scanID]).value
    case StepType => OfStep(Report(m.pointID.value, m.device, m.signal))
    case FlyType => OfFly(m.pointID.value, m.parts, m.readbacks)
  }

  /** Readings of scans that are not opened, or of unknown type, leave the points alone. */
  function Added(s: Storage, m: DeviceMessage): Storage {
    var id := m.scanID;
    if Reports(s, m) then
      WithPoints(s, id, UpdatePoints(s.monitored[id].devices, PointsOf(s, id), ReportOf(s, m)))
    else if IsOpened(s, id) && m.priority == AsBaseline && !LacksType(s.sync[id]) then
      WithBaseline(s, id, UpdateBaseline(s.baseline[id].devices, BaselineOf(s, id), Reading(m.device, m.signal)))
    else s
  }

  /** An ended scan whose info names no scan type takes no readings at all. */
  predicate LacksType(e: Entry) {
    Ended(e) && (e.info.None? || e.info.value.scanType.None?)
  }

  lemma WithoutNone(s: Storage)
    ensures Without(s, {}) == s
  {
  }

  lemma WithoutMore(s: Storage, ids: set<ScanID>, id: ScanID)
    ensures Without(Without(s, ids), {id}) == Without(s, ids + {id})
  {
    assert s.sync - (ids + {id}) == s.sync - ids - {id};
    assert s.monitored - (ids + {id}) == s.monitored - ids - {id};
    assert s.baseline - (ids + {id}) == s.baseline - ids - {id};
  }

  class ScanBundler {
    var sync: map<ScanID, Entry>
    var monitored: map<ScanID, Monitors>
    var baseline: map<ScanID, BaselineMarks>
    var initialized: set<ScanID>
    var history: seq<ScanID>
    ghost var pointLog: map<ScanID, seq<Emission>>
    ghost var baselineLog: map<ScanID, seq<map<Device, Signal>>>

    constructor ()
      ensures State() == EMPTY
    {
      sync, monitored, baseline, initialized, history := map[], map[], map[], {}, [];
      pointLog, baselineLog := map[], map[];
    }

    ghost function State(): Storage
      reads this
    {
      Storage(sync, monitored, baseline, initialized, history, pointLog, baselineLog)
    }

    method FindForgotten() returns (remove: set<ScanID>)
      ensures remove == Forgotten(State())
    {
      remove := {};
      var todo := sync.Keys;
      while todo != {}
        invariant todo <= sync.Keys
        invariant remove == Forgotten(State()) - todo
        decreases |todo|
      {
        var id :| id in todo;
        todo := todo - {id};
        if sync[id].status != Closed && sync[id].status != Aborted { continue; }
        if id in history { continue; }
        remove := remove + {id};
      }
    }

    method Remove(id: ScanID)
      modifies this`sync, this`monitored, this`baseline, this`initialized
      ensures State() == Without(old(State()), {id})
    {
      sync, monitored, baseline := sync - {id}, monitored - {id}, baseline - {id};
      initialized := initialized - {id};
    }

    method CleanupStorage()
      modifies this
      ensures State() == Cleaned(old(State()))
    {
      hide Without, Forgotten;
      var left := FindForgotten();
      ghost var removed: set<ScanID> := {};
      WithoutNone(State());
      while left != {}
        invariant removed + left == Forgotten(old(State()))
        invariant State() == Without(old(State()), removed)
        decreases |left|
      {
        var id :| id in left;
        WithoutMore(old(State()), removed, id);
        left, removed := left - {id}, removed + {id};
        Remove(id);
      }
      assert removed + {} == removed;
    }

    method RememberScan(id: ScanID)
      modifies this`history
      ensures history == Remember(old(history), id)
    {
      if id !in history {
        history := history + [id];
        if |history| > MAX_HISTORY {
          history := history[|history| - MAX_HISTORY..];
        }
      }
    }

    method InitializeScanContainer(m: StatusMessage)
      modifies this
      ensures State() == if m.status == Open && m.scanID !in old(initialized)
        then Opened(old(State()), m.scanID, m.info) else old(State())
    {
      if m.status != Open { return; }
      var id := m.scanID;
      if id !in initialized {
        sync := sync[id := Entry(Open, Some(m.info), map[], {}, map[])];
        monitored := monitored[id := Monitors(m.info.monitored, map[])];
        baseline := baseline[id := BaselineMarks(m.info.baseline, NoneDone(m.info.baseline))];
        initialized := initialized + {id};
        pointLog, baselineLog := pointLog[id := []], baselineLog[id := []];
      }
    }

    method ScanStatusModification(m: StatusMessage)
      modifies this
      ensures State() == Modified(old(State()), m)
    {
      if m.status == OtherStatus || m.status == Open { return; }
      if m.scanID == "" { return; }
      if m.scanID in sync {
        sync := sync[m.scanID := sync[m.scanID].(status := m.status)];
      } else {
        sync := sync[m.scanID := Entry(m.status, None, map[], {}, map[])];
        initialized := initialized + {m.scanID};
        RememberScan(m.scanID);
      }
    }

    method HandleScanStatusMessage(m: StatusMessage)
      modifies this
      ensures State() == Handled(old(State()), m)
    {
      CleanupStorage();
      if m.scanID !in sync {
        InitializeScanContainer(m);
        RememberScan(m.scanID);
      }
      if m.status != Open {
        ScanStatusModification(m);
      }
    }

    method StepScanUpdate(id: ScanID, device: Device, signal: Signal, pointID: Option<PointID>)
      requires IsOpened(State(), id)
      modifies this
      ensures State() ==
        if pointID.None? then old(State())
        else WithPoints(old(State()), id,
               Update(old(monitored)[id].devices, PointsOf(old(State()), id), Report(pointID.value, device, signal)))
    {
      if pointID.None? { return; }
      var p := pointID.value;
      var entry, monitors := sync[id], monitored[id];
      entry := entry.(stored := entry.stored[p := At(entry.stored, p)[device := signal]]);
      if p !in monitors.done {
        monitors := monitors.(done := monitors.done[p := NoneDone(monitors.devices)]);
      }
      monitors := monitors.(done := monitors.done[p := monitors.done[p][device := true]]);
      assert monitors.done == Update(monitors.devices, PointsOf(State(), id), Report(p, device, signal)).done;
      if Complete(monitors.devices, monitors.done[p]) {
        pointLog := pointLog[id := pointLog[id] + [Emission(p, entry.stored[p])]];
        if p !in entry.sent {
          entry := entry.(sent := entry.sent + {p});
        } else {
          assert entry.sent + {p} == entry.sent;
        }
      } else {
        assert pointLog[id := pointLog[id]] == pointLog;
      }
      sync, monitored := sync[id := entry], monitored[id := monitors];
    }

    method FlyScanUpdate(id: ScanID, parts: map<Device, Signal>, readbacks: map<Device, Signal>,
                         pointID: Option<PointID>)
      requires IsOpened(State(), id)
      modifies this
      ensures State() ==
        if pointID.None? then old(State())
        else WithPoints(old(State()), id,
               FlyUpdate(old(monitored)[id].devices, PointsOf(old(State()), id), pointID.value, parts, readbacks))
    {
      hide ReadBack;
      if pointID.None? { return; }
      var p := pointID.value;
      var entry, devices := sync[id], monitored[id].devices;
      var merged := At(entry.stored, p) + parts;
      assert |merged| == 0 <==> merged == map[];
      assert monitored[id := monitored[id].(done := monitored[id].done)] == monitored;
      if |merged| == 0 || exists d :: d in devices && d !in readbacks {
        assert !AllRead(devices, readbacks) || merged == map[];
        assert pointLog[id := pointLog[id]] == pointLog;
        sync := sync[id := entry.(stored := entry.stored[p := merged])];
        return;
      }
      assert AllRead(devices, readbacks);
      var point := merged + ReadBack(devices, readbacks);
      sync := sync[id := entry.(stored := entry.stored[p := point], sent := entry.sent + {p})];
      pointLog := pointLog[id := pointLog[id] + [Emission(p, point)]];
    }

    method BaselineUpdate(id: ScanID, device: Device, signal: Signal)
      requires IsOpened(State(), id)
      modifies this
      ensures State() == WithBaseline(old(State()), id,
        UpdateBaseline(old(baseline)[id].devices, BaselineOf(old(State()), id), Reading(device, signal)))
    {
      var marks := baseline[id];
      marks := marks.(done := marks.done[device := true]);
      sync := sync[id := sync[id].(baseline := sync[id].baseline[device := signal])];
      if forall d :: d in marks.done ==> marks.done[d] {
        baselineLog := baselineLog[id := baselineLog[id] + [sync[id].baseline]];
        marks := marks.(done := NoneDone(marks.devices));
      } else {
        assert baselineLog[id := baselineLog[id]] == baselineLog;
      }
      baseline := baseline[id := marks];
    }

    /**
      One message of a device whose scan has been waited for; a scan that never appears drops it. For a scan without
      info the look-ups raise and nothing is stored.
     */
    method AddDeviceToStorage(m: DeviceMessage)
      requires Consistent(State())
      modifies this
      ensures State() == Added(old(State()), m)
    {
      var id := m.scanID;
      if id !in initialized { return; }
      var e := sync[id];
      if e.status == Aborted || e.status == Closed {
        if e.info.None? || e.info.value.scanType.None? { return; }
      }
      if e.info.None? { return; }
      assert IsOpened(State(), id);
      if m.priority == AsMonitored {
        if e.info.value.scanType == Some(StepType) {
          StepScanUpdate(id, m.device, m.signal, m.pointID);
        } else if e.info.value.scanType == Some(FlyType) {
          FlyScanUpdate(id, m.parts, m.readbacks, m.pointID);
        }
      } else if m.priority == AsBaseline {
        BaselineUpdate(id, m.device, m.signal);
      }
    }
  }

  const EMPTY := Storage(map[], map[], map[], {}, [], map[], map[])

  // ----- Every run -----

  datatype Event = StatusArrives(status: StatusMessage) | ReadingArrives(reading: DeviceMessage)

  function Step(s: Storage, e: Event): Storage {
    match e
    case StatusArrives(m) => Handled(s, m)
    case ReadingArrives(m) => Added(s, m)
  }

  function Run(es: seq<Event>): Storage {
    if es == [] then EMPTY else Step(Run(es[..|es| - 1]), es[|es| - 1])
  }

  /** The two views of what is stored agree, and the history holds at most ten scans, each once. */
  ghost predicate Consistent(s: Storage) {
    && s.sync.Keys == s.initialized
    && (forall id :: id in s.sync && s.sync[id].info.Some? <==> IsOpened(s, id))
    && s.monitored.Keys == s.baseline.Keys <= s.sync.Keys
    && s.monitored.Keys <= s.pointLog.Keys && s.monitored.Keys <= s.baselineLog.Keys
    && Distinct(s.history) && |s.history| <= MAX_HISTORY
  }

  /** What the history loses when a scan is remembered. */
  function Evicted(h: seq<ScanID>, id: ScanID): set<ScanID> {
    if id in h || |h| < MAX_HISTORY then {} else {h[0]}
  }

  lemma RememberDistinct(h: seq<ScanID>, id: ScanID)
    requires Distinct(h) && |h| <= MAX_HISTORY
    ensures Distinct(Remember(h, id)) && |Remember(h, id)| <= MAX_HISTORY && id in Remember(h, id)
    ensures forall x :: x in h ==> x in Remember(h, id) || x in Evicted(h, id)
  {
    if id !in h && |h| == MAX_HISTORY {
      assert Remember(h, id) == h[1..] + [id];
      assert h == [h[0]] + h[1..];
    }
  }

  lemma CleanedConsistent(s: Storage)
    requires Consistent(s)
    ensures Consistent(Cleaned(s))
  {
  }

  lemma IntroducedConsistent(s: Storage, m: StatusMessage)
    requires Consistent(s) && m.scanID !in s.sync
    ensures Consistent(Introduced(s, m))
  {
    RememberDistinct(s.history, m.scanID);
    hide Remember, Evicted, Distinct, NoneDone;
  }

  lemma ModifiedConsistent(s: Storage, m: StatusMessage)
    requires Consistent(s)
    ensures Consistent(Modified(s, m))
  {
    RememberDistinct(s.history, m.scanID);
    hide Remember, Evicted, Distinct;
  }

  lemma AddedConsistent(s: Storage, m: DeviceMessage)
    requires Consistent(s)
    ensures Consistent(Added(s, m))
  {
    hide UpdatePoints, UpdateBaseline, Remember;
  }

  /** Right after the cleanup every stored closed or aborted scan is in the history; no other scan was dropped. */
  lemma CleanupExact(s: Storage)
    requires Consistent(s)
    ensures Consistent(Cleaned(s)) && Forgotten(Cleaned(s)) == {} && |Cleaned(s).history| <= MAX_HISTORY
    ensures forall id :: id in s.sync && (!Ended(s.sync[id]) || id in s.history) ==>
      id in Cleaned(s).sync && Cleaned(s).sync[id] == s.sync[id]
    ensures forall id :: id in s.monitored && (!Ended(s.sync[id]) || id in s.history) ==>
      && id in Cleaned(s).monitored && Cleaned(s).monitored[id] == s.monitored[id]
      && id in Cleaned(s).baseline && Cleaned(s).baseline[id] == s.baseline[id]
  {
    CleanedConsistent(s);
  }

  lemma IntroducedForgets(s: Storage, m: StatusMessage)
    requires Consistent(s) && m.scanID !in s.sync && Forgotten(s) == {}
    ensures Forgotten(Introduced(s, m)) <= Evicted(s.history, m.scanID) && m.scanID in Introduced(s, m).history
  {
    hide NoneDone, Distinct;
    RememberDistinct(s.history, m.scanID);
    hide Remember, Evicted;
    var t := Introduced(s, m);
    assert forall id :: id in s.sync && Ended(s.sync[id]) && id !in s.history ==> id in Forgotten(s);
    forall id | id in Forgotten(t) ensures id in Evicted(s.history, m.scanID) {}
  }

  lemma ModifiedForgets(s: Storage, m: StatusMessage)
    requires m.scanID in s.sync || m.scanID in s.history
    ensures Forgotten(Modified(s, m)) <= Forgotten(s) + if m.scanID in s.history then {} else {m.scanID}
  {
    ModifiedRest(s, m);
    hide Modified;
  }

  lemma ModifiedRest(s: Storage, m: StatusMessage)
    requires m.scanID in s.sync || m.scanID in s.history
    ensures Modified(s, m).history == s.history
    ensures forall id :: id != m.scanID && id in Modified(s, m).sync ==>
      id in s.sync && Modified(s, m).sync[id] == s.sync[id]
  {
    hide Distinct;
    if m.scanID in s.sync {
      hide Remember;
    }
  }

  /** The ended scans outside the history: at most one between two messages. */
  lemma HandledForgets(s: Storage, m: StatusMessage)
    requires Consistent(s)
    ensures |Forgotten(Handled(s, m))| <= 1
  {
    hide Remember, Evicted, Distinct, Forgotten, Modified, Introduced, Cleaned;
    CleanupExact(s);
    var c := Cleaned(s);
    if m.scanID !in c.sync {
      IntroducedForgets(c, m);
      var i := Introduced(c, m);
      ModifiedForgets(i, m);
      EvictsOne(c.history, m.scanID);
      AtMostOne(Forgotten(i), Evicted(c.history, m.scanID));
      AtMostOne(Forgotten(Modified(i, m)), Evicted(c.history, m.scanID));
    } else {
      ModifiedForgets(c, m);
      AtMostOne(Forgotten(Modified(c, m)), {m.scanID});
    }
  }

  lemma EvictsOne(h: seq<ScanID>, id: ScanID)
    ensures |Evicted(h, id)| <= 1
  {
  }

  lemma AtMostOne(a: set<ScanID>, b: set<ScanID>)
    requires |b| <= 1
    ensures a <= b ==> |a| <= 1
  {
    if a <= b { assert b == a + (b - a); }
  }

  lemma AddedForgets(s: Storage, m: DeviceMessage)
    ensures Forgotten(Added(s, m)) == Forgotten(s) && Added(s, m).history == s.history
  {
    hide UpdatePoints, UpdateBaseline;
    forall id ensures id in Forgotten(Added(s, m)) <==> id in Forgotten(s) {
      assert id in Added(s, m).sync <==> id in s.sync;
    }
  }

  lemma StepConsistent(s: Storage, e: Event)
    requires Consistent(s) && |Forgotten(s)| <= 1
    ensures Consistent(Step(s, e)) && |Forgotten(Step(s, e))| <= 1
  {
    hide Consistent, Forgotten, Added, Cleaned, Introduced, Modified;
    match e
    case ReadingArrives(m) =>
      AddedConsistent(s, m);
      AddedForgets(s, m);
    case StatusArrives(m) =>
      HandledForgets(s, m);
      HandledConsistent(s, m);
  }

  lemma HandledConsistent(s: Storage, m: StatusMessage)
    requires Consistent(s)
    ensures Consistent(Handled(s, m))
  {
    hide Consistent, Cleaned, Introduced, Modified;
    CleanedConsistent(s);
    var c := Cleaned(s);
    if m.scanID !in c.sync {
      IntroducedConsistent(c, m);
      ModifiedConsistent(Introduced(c, m), m);
    } else {
      ModifiedConsistent(c, m);
    }
  }

  /** Main result: in every reachable state the views agree and at most one ended scan has outlived its history. */
  lemma {:induction false} RunConsistent(es: seq<Event>)
    ensures Consistent(Run(es)) && |Forgotten(Run(es))| <= 1
  {
    if es != [] {
      hide Step, Consistent, Forgotten;
      RunConsistent(es[..|es| - 1]);
      StepConsistent(Run(es[..|es| - 1]), es[|es| - 1]);
    } else {
      assert Forgotten(EMPTY) == {};
    }
  }

  function EndedScans(s: Storage): set<ScanID> {
    set id | id in s.sync && Ended(s.sync[id])
  }

  /** So ended scans cannot pile up: never more than eleven are stored. */
  lemma EndedBounded(es: seq<Event>)
    ensures |EndedScans(Run(es))| <= MAX_HISTORY + 1
  {
    var s := Run(es);
    RunConsistent(es);
    hide Run;
    SizeOfDistinct(s.history);
    var known := EndedScans(s) * ToSet(s.history);
    assert EndedScans(s) == Forgotten(s) + known;
    SmallerSet(known, ToSet(s.history));
  }

  lemma SmallerSet(a: set<ScanID>, b: set<ScanID>)
    requires a <= b
    ensures |a| <= |b|
  {
    assert b == a + (b - a);
  }

  // ----- The points of one scan in a run with others -----

  /** The readings a scan has been given since it was last opened. */
  ghost function ReportsOf(es: seq<Event>, id: ScanID): seq<PointReport> {
    if es == [] then [] else
      var before, e := es[..|es| - 1], es[|es| - 1];
      match e
      case StatusArrives(m) =>
        if IsOpened(Cleaned(Run(before)), id) then ReportsOf(before, id) else []
      case ReadingArrives(m) =>
        ReportsOf(before, id) +
        if m.scanID == id && Reports(Run(before), m) then [ReportOf(Run(before), m)] else []
  }

  function CollectAll(devices: seq<Device>, rs: seq<PointReport>): Points {
    if rs == [] then NO_POINTS else UpdatePoints(devices, CollectAll(devices, rs[..|rs| - 1]), rs[|rs| - 1])
  }

  /** A scan has been given reports of its own type only, and holds what they amount to. */
  ghost predicate Holds(s: Storage, id: ScanID, rs: seq<PointReport>) {
    IsOpened(s, id) ==>
      && PointsOf(s, id) == CollectAll(s.monitored[id].devices, rs)
      && (forall k :: 0 <= k < |rs| ==> TypeOf(s.sync[id]) == Some(if rs[k].OfStep? then StepType else FlyType))
  }

  lemma CleanedHolds(s: Storage, id: ScanID, rs: seq<PointReport>)
    requires Consistent(s) && Holds(s, id, rs)
    ensures Holds(Cleaned(s), id, rs)
  {
    hide CollectAll, Distinct;
  }

  lemma IntroducedHolds(s: Storage, m: StatusMessage, id: ScanID, rs: seq<PointReport>)
    requires Consistent(s) && Holds(s, id, rs) && m.scanID !in s.sync
    ensures Holds(Introduced(s, m), id, if IsOpened(s, id) then rs else [])
  {
    hide Remember, Distinct, UpdatePoints, NoneDone;
  }

  lemma ModifiedHolds(s: Storage, m: StatusMessage, id: ScanID, rs: seq<PointReport>)
    requires Consistent(s) && Holds(s, id, rs)
    ensures Holds(Modified(s, m), id, rs) && (IsOpened(Modified(s, m), id) <==> IsOpened(s, id))
  {
    hide Remember, Distinct, CollectAll;
  }

  lemma StatusHolds(s: Storage, m: StatusMessage, id: ScanID, rs: seq<PointReport>)
    requires Consistent(s) && Holds(s, id, rs)
    ensures Holds(Handled(s, m), id, if IsOpened(Cleaned(s), id) then rs else [])
  {
    hide Consistent, Cleaned, Introduced, Modified, Holds, IsOpened;
    CleanedConsistent(s);
    CleanedHolds(s, id, rs);
    var c, left := Cleaned(s), if IsOpened(Cleaned(s), id) then rs else [];
    if m.scanID !in c.sync {
      IntroducedConsistent(c, m);
      IntroducedHolds(c, m, id, rs);
      ModifiedHolds(Introduced(c, m), m, id, left);
    } else {
      UnopenedHolds(c, id);
      ModifiedHolds(c, m, id, left);
    }
  }

  lemma UnopenedHolds(s: Storage, id: ScanID)
    ensures !IsOpened(s, id) ==> Holds(s, id, [])
  {
  }

  lemma ReadingHolds(s: Storage, m: DeviceMessage, id: ScanID, rs: seq<PointReport>)
    requires Consistent(s) && Holds(s, id, rs)
    ensures Holds(Added(s, m), id,
      rs + if m.scanID == id && Reports(s, m) then [ReportOf(s, m)] else [])
  {
    hide UpdatePoints, UpdateBaseline, Distinct;
    assert rs + [] == rs;
    if m.scanID == id && Reports(s, m) {
      var now := rs + [ReportOf(s, m)];
      assert now[..|rs|] == rs;
      forall k | 0 <= k < |now| ensures TypeOf(s.sync[id]) == Some(if now[k].OfStep? then StepType else FlyType) {
        if k < |rs| { assert now[k] == rs[k]; }
      }
    }
  }

  /**
    Main result: whatever else is stored and forgotten meanwhile, an opened scan holds, and has emitted, exactly what
    its own readings since it was opened amount to.
   */
  lemma {:induction false} RunHolds(es: seq<Event>, id: ScanID)
    ensures Holds(Run(es), id, ReportsOf(es, id))
  {
    if es != [] {
      hide Step, Holds, Consistent, IsOpened, Cleaned, Reports;
      var before, e := es[..|es| - 1], es[|es| - 1];
      RunHolds(before, id);
      RunConsistent(before);
      match e
      case StatusArrives(m) =>
        StatusHolds(Run(before), m, id, ReportsOf(before, id));
        assert Step(Run(before), e) == Handled(Run(before), m) by { StepIs(Run(before), e); }
      case ReadingArrives(m) =>
        ReadingHolds(Run(before), m, id, ReportsOf(before, id));
        assert Step(Run(before), e) == Added(Run(before), m) by { StepIs(Run(before), e); }
    }
  }

  lemma StepIs(s: Storage, e: Event)
    ensures e.StatusArrives? ==> Step(s, e) == Handled(s, e.status)
    ensures e.ReadingArrives? ==> Step(s, e) == Added(s, e.reading)
  {
  }

  function StepReports(rs: seq<PointReport>): seq<Report> {
    if rs == [] then [] else
      StepReports(rs[..|rs| - 1]) + if rs[|rs| - 1].OfStep? then [rs[|rs| - 1].report] else []
  }

  /** A step scan's points are those its reports amount to in `ScanBundlers`. */
  lemma {:induction false} StepScanHolds(devices: seq<Device>, rs: seq<PointReport>)
    requires forall k :: 0 <= k < |rs| ==> rs[k].OfStep?
    ensures CollectAll(devices, rs) == Collect(devices, StepReports(rs))
  {
    if rs != [] {
      hide Update;
      var before, r := rs[..|rs| - 1], rs[|rs| - 1];
      StepScanHolds(devices, before);
      assert StepReports(rs) == StepReports(before) + [r.report];
      assert StepReports(rs)[..|StepReports(before)|] == StepReports(before);
    }
  }

  /** All that has been reported for a point of a fly scan, later values overwriting earlier ones. */
  function FlyPoint(devices: seq<Device>, rs: seq<PointReport>, p: PointID): map<Device, Signal> {
    if rs == [] then map[] else
      var before, r := FlyPoint(devices, rs[..|rs| - 1], p), rs[|rs| - 1];
      if r.OfStep? || r.point != p then before
      else if AllRead(devices, r.readbacks) then before + r.parts + ReadBack(devices, r.readbacks)
      else before + r.parts
  }

  ghost predicate AllFly(rs: seq<PointReport>) {
    forall k :: 0 <= k < |rs| ==> rs[k].OfFly? && rs[k].parts != map[]
  }

  /** How many of the reports found all read-backs. */
  function Readable(devices: seq<Device>, rs: seq<PointReport>): nat {
    if rs == [] then 0 else
      var before, r := Readable(devices, rs[..|rs| - 1]), rs[|rs| - 1];
      if r.OfFly? && AllRead(devices, r.readbacks) then before + 1 else before
  }

  lemma FlyStep(devices: seq<Device>, s: Points, r: PointReport, p: PointID)
    requires r.OfFly? && r.parts != map[]
    ensures var (t, all) := (UpdatePoints(devices, s, r), AllRead(devices, r.readbacks));
      && At(t.stored, p) ==
           (if r.point != p then At(s.stored, p)
            else if all then At(s.stored, p) + r.parts + ReadBack(devices, r.readbacks)
            else At(s.stored, p) + r.parts)
      && t.emitted == (if all then s.emitted + [Emission(r.point, At(t.stored, r.point))] else s.emitted)
  {
    hide AllRead, ReadBack;
    var d :| d in r.parts;
    assert d in At(s.stored, r.point) + r.parts;
  }

  lemma {:induction false} FlyScanHolds(devices: seq<Device>, rs: seq<PointReport>, p: PointID)
    requires AllFly(rs)
    ensures At(CollectAll(devices, rs).stored, p) == FlyPoint(devices, rs, p)
    ensures |CollectAll(devices, rs).emitted| == Readable(devices, rs)
  {
    if rs != [] {
      var n := |rs| - 1;
      FlyScanHolds(devices, rs[..n], p);
      FlyStep(devices, CollectAll(devices, rs[..n]), rs[n], p);
      hide At, UpdatePoints, AllRead, ReadBack;
    }
  }

  /**
    A fly scan emits at every report that finds all read-backs and at no other, and then all that has been reported for
    the point.
   */
  lemma {:induction false} FlyScanEmits(devices: seq<Device>, rs: seq<PointReport>, k: nat)
    requires AllFly(rs) && k < |rs|
    ensures |CollectAll(devices, rs).emitted| == Readable(devices, rs)
    ensures AllRead(devices, rs[k].readbacks) ==>
      && Readable(devices, rs[..k]) < Readable(devices, rs)
      && CollectAll(devices, rs).emitted[Readable(devices, rs[..k])]
         == Emission(rs[k].point, FlyPoint(devices, rs[..k + 1], rs[k].point))
  {
    hide CollectAll, FlyPoint, AllRead;
    var n := |rs| - 1;
    FlyScanHolds(devices, rs[..n], rs[n].point);
    FlyEmitsLast(devices, rs);
    if k < n {
      FlyScanEmits(devices, rs[..n], k);
      assert rs[..n][k] == rs[k] && rs[..n][..k] == rs[..k] && rs[..n][..k + 1] == rs[..k + 1];
    } else {
      assert rs[..k + 1] == rs;
    }
  }

  lemma FlyEmitsLast(devices: seq<Device>, rs: seq<PointReport>)
    requires AllFly(rs) && rs != []
    ensures var (r, before) := (rs[|rs| - 1], CollectAll(devices, rs[..|rs| - 1]).emitted);
      CollectAll(devices, rs).emitted ==
        if AllRead(devices, r.readbacks) then before + [Emission(r.point, FlyPoint(devices, rs, r.point))] else before
  {
    var n := |rs| - 1;
    FlyScanHolds(devices, rs, rs[n].point);
    FlyStep(devices, CollectAll(devices, rs[..n]), rs[n], rs[n].point);
    hide At, UpdatePoints, FlyPoint, AllRead;
  }
}
