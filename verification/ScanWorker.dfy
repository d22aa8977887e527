/**
  The scan worker's bookkeeping: wait groups, scan ID, point counter and staged devices, and the
  polling loops that hold it back until the devices have reported.
 */
module ScanWorkers {
  import opened Instructions

  /** The device sets the worker asks its device manager for. They do not change during a scan. */
  datatype DeviceManager = DeviceManager(
    monitored: set<Device>,
    excluded: set<Device>,
    baseline: set<Device>,
    enabled: set<Device>,
    detectors: set<Device>)
  {
    function Monitored(priority: seq<Device>): set<Device> {
      (monitored + ToSet(priority)) - excluded
    }
  }

  type Groups = map<string, map<Device, nat>>

  datatype Worker = Worker(
    groups: Groups,
    scanId: Option<ScanID>,
    scanMotors: seq<Device>,
    priority: seq<Device>,
    maxPointId: nat,
    staged: set<Device>,
    lastTrigger: nat)

  /** The worker after `reset`. */
  const IDLE_WORKER := Worker(map[], None, [], [], 0, {}, 0)

  // ----- What one instruction does -----

  function Resolve(dm: DeviceManager, w: Worker, t: Target): set<Device> {
    match t
    case Devices(names) => ToSet(names)
    case Group(name) =>
      if name == "primary" then dm.Monitored(w.priority)
      else if name == "scan_motor" then ToSet(w.scanMotors)
      else {}
    case Unspecified => {}
  }

  /** The devices an instruction is sent to. */
  function Recipients(dm: DeviceManager, w: Worker, i: Instr): set<Device> {
    match i.action
    case Set(_) => Resolve(dm, w, i.target)
    case Rpc => Resolve(dm, w, i.target)
    case Read => if i.target.Devices? then ToSet(i.target.names) else dm.Monitored(w.priority)
    case Trigger => dm.detectors
    case Stage => dm.enabled
    case Unstage => dm.enabled
    case PreScan => dm.enabled
    case BaselineReading => dm.baseline
    case _ => {}
  }

  function Merge(groups: Groups, g: string, devices: set<Device>, diid: nat): Groups {
    var entries := if g in groups then groups[g] else map[];
    groups[g := entries + All(devices, diid)]
  }

  function Register(dm: DeviceManager, w: Worker, i: Instr): Groups {
    if i.waitGroup == "" || i.action.Wait? then w.groups
    else Merge(w.groups, i.waitGroup, Resolve(dm, w, i.target), i.diid)
  }

  /** The number of points announced when a scan opens, from the highest point ID seen so far. */
  function OpenNumPoints(maxPointId: nat, requested: nat): nat {
    if maxPointId > 0 then maxPointId + requested + 1 else requested
  }

  function CloseNumPoints(maxPointId: nat): nat {
    maxPointId + 1
  }

  function Opened(scanId: ScanID, w: Worker, i: Instr): Worker
    requires i.action.OpenScan?
  {
    var w1 := if w.scanId.None?
      then w.(scanId := Some(scanId), scanMotors := i.action.scanMotors, priority := i.action.priority)
      else w;
    if i.scanDefId.None? then w1.(maxPointId := 0) else w1
  }

  function Closed(scanId: ScanID, w: Worker): Worker {
    if w.scanId == Some(scanId) then w.(scanId := None) else w
  }

  /** What `_instruction_step` changes before it checks for an interruption. */
  function Noted(dm: DeviceManager, w: Worker, i: Instr): Worker {
    (if i.pointID.Some? then w.(maxPointId := i.pointID.value) else w).(groups := Register(dm, w, i))
  }

  /** Everything `_instruction_step` changes before it starts waiting. */
  function Begin(dm: DeviceManager, scanId: ScanID, w: Worker, i: Instr): Worker {
    var w1 := Noted(dm, w, i);
    match i.action
    case OpenScan(_, _, _) => Opened(scanId, w1, i)
    case CloseScan => if i.scanDefId.None? then Closed(scanId, w1) else w1
    case CloseScanDef => Closed(scanId, w1)
    case Stage => w1.(staged := w1.staged + dm.enabled)
    case Unstage => w1.(staged := w1.staged - dm.enabled)
    case Trigger => w1.(lastTrigger := i.diid)
    case _ => w1
  }

  /** The number of points a status message announces when the instruction opens or closes a scan. */
  function Announcement(dm: DeviceManager, scanId: ScanID, w: Worker, i: Instr): Option<nat> {
    var w1 := Begin(dm, scanId, w, i);
    match i.action
    case OpenScan(_, _, requested) => Some(OpenNumPoints(w1.maxPointId, requested))
    case CloseScan =>
      if i.scanDefId.None? && w.scanId == Some(scanId) then Some(CloseNumPoints(w1.maxPointId)) else None
    case CloseScanDef => if w.scanId == Some(scanId) then Some(CloseNumPoints(w1.maxPointId)) else None
    case _ => None
  }

  /** The same when the active request is a fly scan that has taken `flown` positions, which its closing announces. */
  function FlownAnnouncement(dm: DeviceManager, scanId: ScanID, w: Worker, i: Instr, flown: Option<nat>): Option<nat> {
    var announced := Announcement(dm, scanId, w, i);
    if announced.Some? && flown.Some? && !i.action.OpenScan? then flown else announced
  }

  // ----- What one instruction waits for -----

  datatype Channel = ReqStatus | ReadStatus | StagedStatus

  /** The worker goes on once every device in `want` has reported that DIID on `channel`. */
  datatype Need = Need(channel: Channel, checkRID: bool, want: map<Device, nat>)

  function Pending(groups: Groups, g: string, devices: set<Device>): map<Device, nat> {
    if g == "" || g !in groups then map[] else map d | d in groups[g] && d in devices :: groups[g][d]
  }

  function All(devices: set<Device>, diid: nat): map<Device, nat> {
    map d | d in devices :: diid
  }

  function NeedOf(dm: DeviceManager, w: Worker, i: Instr): Need {
    match i.action
    case Wait(ForMove) => Need(ReqStatus, true, Pending(w.groups, i.waitGroup, Resolve(dm, w, i.target)))
    case Wait(ForRead) => Need(ReadStatus, false, Pending(w.groups, i.waitGroup, Resolve(dm, w, i.target)))
    case Wait(ForTrigger) => Need(ReqStatus, false, All(dm.detectors, w.lastTrigger))
    case PreScan => Need(ReqStatus, false, All(dm.enabled, i.diid))
    case Stage => Need(StagedStatus, false, All(dm.enabled, i.diid))
    case Unstage => Need(StagedStatus, false, All(dm.enabled, i.diid))
    case _ => Need(ReqStatus, false, map[])
  }

  /** Whether the worker polls at all: a wait for an unknown wait group returns at once. */
  predicate Blocks(w: Worker, i: Instr) {
    match i.action
    case Wait(ForTrigger) => true
    case Wait(_) => i.waitGroup != "" && i.waitGroup in w.groups
    case Stage => true
    case Unstage => true
    case PreScan => true
    case _ => false
  }

  function Forget(groups: Groups, g: string, devices: set<Device>): Groups {
    if g == "" || g !in groups then groups
    else groups[g := map d | d in groups[g] && d !in devices :: groups[g][d]]
  }

  /** What is left to do once the wait is over: the awaited devices leave their wait group. */
  function Finish(dm: DeviceManager, w: Worker, i: Instr): Worker {
    if i.action == Wait(ForMove) || i.action == Wait(ForRead)
    then w.(groups := Forget(w.groups, i.waitGroup, Resolve(dm, w, i.target)))
    else w
  }

  function Step(dm: DeviceManager, scanId: ScanID, w: Worker, i: Instr): Worker {
    Finish(dm, Begin(dm, scanId, w, i), i)
  }

  // ----- Status keys -----

  /** A status message of a device: `ok` is its `success`, idle or staged flag. */
  datatype Record = Record(scanId: ScanID, rid: string, diid: nat, ok: bool)

  datatype StatusKeys = StatusKeys(req: map<Device, Record>, read: map<Device, Record>, staged: map<Device, Record>) {
    function On(c: Channel): map<Device, Record> {
      match c
      case ReqStatus => req
      case ReadStatus => read
      case StagedStatus => staged
    }
  }

  predicate Matches(r: Record, scanId: ScanID, rid: string, checkRID: bool, diid: nat) {
    r.ok && r.scanId == scanId && r.diid == diid && (checkRID ==> r.rid == rid)
  }

  /** The test at the end of every polling loop. */
  predicate Met(kv: StatusKeys, need: Need, scanId: ScanID, rid: string) {
    forall d :: d in need.want ==>
      d in kv.On(need.channel) && Matches(kv.On(need.channel)[d], scanId, rid, need.checkRID, need.want[d])
  }

  /** One pass of a polling loop: the keys it reads, and whether it is interrupted or sees a failed movement. */
  datatype Poll = Poll(keys: StatusKeys, aborted: bool)

  datatype Outcome = Passed(polls: nat) | ScanAbortion(polls: nat) | StillWaiting

  function WaitOutcome(dm: DeviceManager, w: Worker, i: Instr, polls: seq<Poll>, scanId: ScanID, rid: string): Outcome {
    if Blocks(w, i) then FirstEnd(polls, 0, NeedOf(dm, w, i), scanId, rid) else Passed(0)
  }

  /** The first pass from `k` on that ends the loop. */
  function FirstEnd(polls: seq<Poll>, k: nat, need: Need, scanId: ScanID, rid: string): Outcome
    requires k <= |polls|
    decreases |polls| - k
  {
    if k == |polls| then StillWaiting
    else if polls[k].aborted then ScanAbortion(k)
    else if Met(polls[k].keys, need, scanId, rid) then Passed(k)
    else FirstEnd(polls, k + 1, need, scanId, rid)
  }

  /** The loop lets the worker pass exactly at the first pass that reads a satisfied need, if none before it aborts. */
  lemma {:induction false} FirstEndIsFirst(polls: seq<Poll>, k: nat, need: Need, scanId: ScanID, rid: string, p: nat)
    requires k <= |polls|
    ensures FirstEnd(polls, k, need, scanId, rid) == Passed(p) <==>
      && k <= p < |polls|
      && Met(polls[p].keys, need, scanId, rid)
      && (forall j :: k <= j <= p ==> !polls[j].aborted)
      && (forall j :: k <= j < p ==> !Met(polls[j].keys, need, scanId, rid))
    decreases |polls| - k
  {
    if k < |polls| {
      FirstEndIsFirst(polls, k + 1, need, scanId, rid, p);
    }
  }

  class ScanWorker {
    const dm: DeviceManager
    var groups: Groups
    var scanId: Option<ScanID>
    var scanMotors: seq<Device>
    var priority: seq<Device>
    var maxPointId: nat
    var stagedDevices: set<Device>
    var lastTrigger: nat

    constructor (dm: DeviceManager)
      ensures this.dm == dm && State() == IDLE_WORKER
    {
      this.dm := dm;
      groups, scanId, scanMotors, priority := map[], None, [], [];
      maxPointId, stagedDevices, lastTrigger := 0, {}, 0;
    }

    function State(): Worker
      reads this
    {
      Worker(groups, scanId, scanMotors, priority, maxPointId, stagedDevices, lastTrigger)
    }

    method GetDevices(t: Target) returns (devices: set<Device>)
      ensures devices == Resolve(dm, State(), t)
    {
      devices := {};
      match t
      case Devices(names) =>
        for k := 0 to |names|
          invariant devices == ToSet(names[..k])
        {
          devices := devices + {names[k]};
          assert names[..k + 1] == names[..k] + [names[k]];
        }
        assert names[..|names|] == names;
      case Group(name) =>
        if name == "primary" {
          devices := dm.Monitored(priority);
        } else if name == "scan_motor" {
          devices := ToSet(scanMotors);
        }
      case Unspecified =>
    }

    method AddWaitGroup(i: Instr)
      modifies this`groups
      ensures groups == Register(dm, old(State()), i)
    {
      if i.waitGroup == "" || i.action.Wait? { return; }
      var devices := GetDevices(i.target);
      var entry := map d | d in devices :: i.diid;
      if i.waitGroup in groups {
        groups := groups[i.waitGroup := groups[i.waitGroup] + entry];
      } else {
        groups := groups[i.waitGroup := entry];
        assert map[] + entry == entry;
      }
    }

    method Open(i: Instr, id: ScanID) returns (numPoints: nat)
      requires i.action.OpenScan?
      modifies this`scanId, this`scanMotors, this`priority, this`maxPointId
      ensures State() == Opened(id, old(State()), i)
      ensures numPoints == OpenNumPoints(maxPointId, i.action.numPoints)
    {
      if scanId.None? {
        scanId := Some(id);
        scanMotors := i.action.scanMotors;
        priority := i.action.priority;
      }
      if i.scanDefId.None? {
        maxPointId := 0;
      }
      numPoints := maxPointId + i.action.numPoints;
      if maxPointId > 0 {
        numPoints := numPoints + 1;
      }
    }

    /** Returns the announced number of points, or None when another scan is open. `flown` is given for fly scans. */
    method Close(id: ScanID, flown: Option<nat>) returns (numPoints: Option<nat>)
      modifies this`scanId
      ensures State() == Closed(id, old(State()))
      ensures numPoints ==
        if old(scanId) != Some(id) then None else if flown.Some? then flown else Some(CloseNumPoints(maxPointId))
    {
      if scanId != Some(id) { return None; }
      scanId := None;
      if flown.Some? { return flown; }
      return Some(maxPointId + 1);
    }

    /** `_wait_for_idle`, `_wait_for_read`, `_wait_for_trigger`, `_wait_for_stage`, `_wait_for_pre_scan`. */
    method PollUntil(need: Need, id: ScanID, rid: string, polls: seq<Poll>) returns (r: Outcome)
      ensures r == FirstEnd(polls, 0, need, id, rid)
    {
      var k := 0;
      while k < |polls|
        invariant k <= |polls|
        invariant FirstEnd(polls, 0, need, id, rid) == FirstEnd(polls, k, need, id, rid)
      {
        if polls[k].aborted { return ScanAbortion(k); }
        if Met(polls[k].keys, need, id, rid) { return Passed(k); }
        k := k + 1;
      }
      return StillWaiting;
    }

    /**
      `_instruction_step`. `stopped` is what the interruption check finds, `polls` what the wait, if there is one, finds
      in the status keys; `flown` are the positions of a fly scan.
     */
    method InstructionStep(i: Instr, id: ScanID, rid: string, stopped: bool, polls: seq<Poll>, flown: Option<nat>)
      returns (announced: Option<nat>, r: Outcome)
      modifies this
      ensures stopped ==> State() == Noted(dm, old(State()), i) && announced == None && r == ScanAbortion(0)
      ensures !stopped ==> (var w := Begin(dm, id, old(State()), i);
        && r == WaitOutcome(dm, w, i, polls, id, rid)
        && State() == (if r.Passed? then Step(dm, id, old(State()), i) else w)
        && announced == FlownAnnouncement(dm, id, old(State()), i, flown))
    {
      announced := None;
      AddWaitGroup(i);
      if i.pointID.Some? {
        maxPointId := i.pointID.value;
      }
      if stopped { return None, ScanAbortion(0); }
      match i.action {
        case OpenScan(_, _, _) => var n := Open(i, id); announced := Some(n);
        case CloseScan => if i.scanDefId.None? { announced := Close(id, flown); }
        case CloseScanDef => announced := Close(id, flown);
        case Stage => stagedDevices := stagedDevices + dm.enabled;
        case Unstage => stagedDevices := stagedDevices - dm.enabled;
        case Trigger => lastTrigger := i.diid;
        case _ =>
      }
      r := Passed(0);
      if Blocks(State(), i) {
        r := PollUntil(NeedOf(dm, State(), i), id, rid, polls);
      }
      if r.Passed? && (i.action == Wait(ForMove) || i.action == Wait(ForRead)) {
        var devices := GetDevices(i.target);
        groups := Forget(groups, i.waitGroup, devices);
      }
    }
  }
}
