/**
  The instruction stream of a step scan (`ScanBase.run`).

  `StepScan` is the generator: its methods append to `yielded` and bump `diid` and `pointID`. The functions beside
  it describe the same stream as a value; the barrier and point numbering theorems are about those functions.
 */
module StepScans {
  import opened Arithmetic
  import opened Instructions

  /** A step scan whose positions have been prepared. */
  datatype Plan = Plan(
    motors: seq<Device>,
    priority: seq<Device>,
    positions: seq<seq<real>>,
    startPos: seq<real>,
    burst: nat,
    preMove: bool,
    scanDefId: Option<string>)
  {
    /** Scan motors are the keys of a dictionary; every position has one coordinate per motor. */
    ghost predicate Valid() {
      && Distinct(motors)
      && |startPos| == |motors|
      && forall p :: 0 <= p < |positions| ==> |positions[p]| == |motors|
    }

    function NumPoints(): nat {
      |positions| * burst
    }
  }

  function Plain(plan: Plan, n: nat, action: Action, target: Target, waitGroup: string): Instr {
    Instr(action, target, waitGroup, n, None, plan.scanDefId)
  }

  function AtPointID(plan: Plan, n: nat, action: Action, target: Target, waitGroup: string, point: nat): Instr {
    Instr(action, target, waitGroup, n, Some(point), plan.scanDefId)
  }

  function SetMotor(plan: Plan, n: nat, pos: seq<real>, q: nat): Instr
    requires q < |plan.motors| == |pos|
  {
    Plain(plan, n + q, Set(pos[q]), Devices([plan.motors[q]]), "scan_motor")
  }

  function SetMotors(plan: Plan, n: nat, pos: seq<real>): seq<Instr>
    requires |pos| == |plan.motors|
  {
    seq(|pos|, q requires 0 <= q < |pos| => SetMotor(plan, n, pos, q))
  }

  function MoveAndWait(plan: Plan, n: nat, pos: seq<real>): (r: seq<Instr>)
    requires |pos| == |plan.motors|
    ensures |r| == if pos == [] then 0 else |pos| + 1
  {
    if pos == [] then [] else
      SetMotors(plan, n, pos) + [Plain(plan, n + |pos|, Wait(ForMove), Group("scan_motor"), "scan_motor")]
  }

  function AwaitPrevious(plan: Plan, n: nat, ind: nat): seq<Instr> {
    if ind > 0 then [Plain(plan, n, Wait(ForRead), Group("primary"), "readout_primary")] else []
  }

  function Acquire(plan: Plan, n: nat, point: nat): seq<Instr> {
    [
      AtPointID(plan, n, Trigger, Group("trigger"), "", point),
      Plain(plan, n + 1, Wait(ForTrigger), Group("trigger"), ""),
      AtPointID(plan, n + 2, Read, Group("primary"), "readout_primary", point),
      Plain(plan, n + 3, Wait(ForRead), Group("scan_motor"), "readout_primary")
    ]
  }

  function AtEachPoint(plan: Plan, n: nat, ind: nat, point: nat): seq<Instr>
    requires ind < |plan.positions| && plan.Valid()
  {
    var move := MoveAndWait(plan, n, plan.positions[ind]);
    var await := AwaitPrevious(plan, n + |move|, ind);
    move + await + Acquire(plan, n + |move| + |await|, point)
  }

  /** The acquisition loop from burst `b` of position `ind` on. */
  function CoreFrom(plan: Plan, n: nat, ind: nat, b: nat, point: nat): seq<Instr>
    requires plan.Valid() && ind <= |plan.positions| && b <= plan.burst
    decreases |plan.positions| - ind, plan.burst - b
  {
    if ind == |plan.positions| then
      []
    else if b == plan.burst then
      CoreFrom(plan, n, ind + 1, 0, point)
    else
      var here := AtEachPoint(plan, n, ind, point);
      here + CoreFrom(plan, n + |here|, ind, b + 1, point + 1)
  }

  function Rpcs(plan: Plan, n: nat): seq<Instr> {
    seq(|plan.motors|, q requires 0 <= q < |plan.motors| => Plain(plan, n + q, Rpc, Devices([plan.motors[q]]), ""))
  }

  function InitialRead(plan: Plan, n: nat): seq<Instr> {
    [
      Plain(plan, n, Read, Devices(plan.motors), "scan_motor"),
      Plain(plan, n + 1, Wait(ForRead), Devices(plan.motors), "scan_motor")
    ]
  }

  function Opening(plan: Plan, n: nat): seq<Instr> {
    [
      Plain(plan, n, OpenScan(plan.motors, plan.priority, plan.NumPoints()), Unspecified, ""),
      Plain(plan, n + 1, Stage, Unspecified, ""),
      Plain(plan, n + 2, BaselineReading, Unspecified, "")
    ]
  }

  function PreScanPart(plan: Plan, n: nat): seq<Instr>
    requires plan.Valid()
  {
    var move := if plan.preMove && |plan.positions| > 0 then MoveAndWait(plan, n, plan.positions[0]) else [];
    move + [Plain(plan, n + |move|, PreScan, Unspecified, "")]
  }

  /** Everything before the acquisition loop. */
  function Prologue(plan: Plan): (r: seq<Instr>)
    requires plan.Valid()
    ensures |r| == 5 + |plan.motors| + |PreScanPart(plan, 5 + |plan.motors|)|
  {
    InitialRead(plan, 0)
    + Rpcs(plan, 2)
    + Opening(plan, 2 + |plan.motors|)
    + PreScanPart(plan, 5 + |plan.motors|)
  }

  /** Everything after the acquisition loop. */
  function Epilogue(plan: Plan, n: nat): seq<Instr>
    requires plan.Valid()
  {
    var back := MoveAndWait(plan, n, plan.startPos);
    back + [
      Plain(plan, n + |back|, Wait(ForRead), Group("primary"), "readout_primary"),
      Plain(plan, n + |back| + 1, Unstage, Unspecified, ""),
      Plain(plan, n + |back| + 2, CloseScan, Unspecified, "")
    ]
  }

  function Core(plan: Plan, point: nat): seq<Instr>
    requires plan.Valid()
  {
    CoreFrom(plan, |Prologue(plan)|, 0, 0, point)
  }

  /** The whole stream of a step scan whose first point has the ID `point`. */
  function Stream(plan: Plan, point: nat): seq<Instr>
    requires plan.Valid()
  {
    Prologue(plan) + Core(plan, point) + Epilogue(plan, |Prologue(plan)| + |Core(plan, point)|)
  }

  /** Absolute target positions: a relative scan is offset by the motors' positions at its start. */
  function Offset(positions: seq<seq<real>>, start: seq<real>): (r: seq<seq<real>>)
    requires forall p :: 0 <= p < |positions| ==> |positions[p]| == |start|
    ensures |r| == |positions| && forall p :: 0 <= p < |r| ==> |r[p]| == |start|
  {
    seq(|positions|, p requires 0 <= p < |positions| =>
      seq(|start|, q requires 0 <= q < |start| => positions[p][q] + start[q]))
  }

  class StepScan {
    const motors: seq<Device>
    const priority: seq<Device>
    const burst: nat
    const preMove: bool
    const relative: bool
    const scanDefId: Option<string>
    var positions: seq<seq<real>>
    var startPos: seq<real>
    var diid: nat
    var pointID: nat
    var burstIndex: nat
    var yielded: seq<Instr>

    ghost predicate Valid()
      reads this
    {
      && Distinct(motors)
      && |startPos| == |motors|
      && forall p :: 0 <= p < |positions| ==> |positions[p]| == |motors|
    }

    function ToPlan(): Plan
      reads this
    {
      Plan(motors, priority, positions, startPos, burst, preMove, scanDefId)
    }

    constructor (motors: seq<Device>, priority: seq<Device>, positions: seq<seq<real>>, burst: nat,
                 preMove: bool, relative: bool, scanDefId: Option<string>)
      requires Distinct(motors)
      requires forall p :: 0 <= p < |positions| ==> |positions[p]| == |motors|
      ensures Valid()
      ensures ToPlan() == Plan(motors, priority, positions, startPos, burst, preMove, scanDefId)
      ensures this.relative == relative
      ensures diid == 0 && pointID == 0 && yielded == []
    {
      this.motors, this.priority, this.burst := motors, priority, burst;
      this.preMove, this.relative, this.scanDefId := preMove, relative, scanDefId;
      this.positions := positions;
      startPos := seq(|motors|, _ => 0.0);
      diid, pointID, burstIndex, yielded := 0, 0, 0, [];
    }

    /** `_device_msg`: attach the next DIID and hand the instruction out. */
    method Emit(action: Action, target: Target, waitGroup: string, point: Option<nat>)
      modifies this`diid, this`yielded
      ensures diid == old(diid) + 1
      ensures yielded == old(yielded) + [Instr(action, target, waitGroup, old(diid), point, scanDefId)]
    {
      yielded := yielded + [Instr(action, target, waitGroup, diid, point, scanDefId)];
      diid := diid + 1;
    }

    method MoveTo(pos: seq<real>)
      requires |pos| == |motors|
      modifies this`diid, this`yielded
      ensures yielded == old(yielded) + MoveAndWait(ToPlan(), old(diid), pos)
      ensures diid == old(diid) + |MoveAndWait(ToPlan(), old(diid), pos)|
    {
      if |pos| == 0 { return; }
      ghost var all := SetMotors(ToPlan(), diid, pos);
      for q := 0 to |motors|
        invariant diid == old(diid) + q
        invariant yielded == old(yielded) + all[..q]
      {
        Emit(Set(pos[q]), Devices([motors[q]]), "scan_motor", None);
        assert all[..q + 1] == all[..q] + [all[q]];
      }
      Emit(Wait(ForMove), Group("scan_motor"), "scan_motor", None);
    }

    method Point(ind: nat, pos: seq<real>)
      requires Valid() && ind < |positions| && pos == positions[ind]
      modifies this`diid, this`yielded, this`pointID
      ensures yielded == old(yielded) + AtEachPoint(ToPlan(), old(diid), ind, old(pointID))
      ensures diid == old(diid) + |AtEachPoint(ToPlan(), old(diid), ind, old(pointID))|
      ensures pointID == old(pointID) + 1
    {
      hide MoveAndWait;
      MoveTo(pos);
      if ind > 0 {
        Emit(Wait(ForRead), Group("primary"), "readout_primary", None);
      }
      AcquirePoint();
      pointID := pointID + 1;
    }

    /** Trigger and read the point. */
    method AcquirePoint()
      modifies this`diid, this`yielded
      ensures yielded == old(yielded) + Acquire(ToPlan(), old(diid), pointID)
      ensures diid == old(diid) + 4
    {
      Emit(Trigger, Group("trigger"), "", Some(pointID));
      Emit(Wait(ForTrigger), Group("trigger"), "", None);
      Emit(Read, Group("primary"), "readout_primary", Some(pointID));
      Emit(Wait(ForRead), Group("scan_motor"), "readout_primary", None);
    }

    /** All bursts at one position. */
    method Bursts(ind: nat)
      requires Valid() && ind < |positions|
      modifies this`diid, this`yielded, this`pointID, this`burstIndex
      ensures pointID == old(pointID) + burst
      ensures yielded + CoreFrom(ToPlan(), diid, ind + 1, 0, pointID)
              == old(yielded) + CoreFrom(ToPlan(), old(diid), ind, 0, old(pointID))
      ensures diid + |CoreFrom(ToPlan(), diid, ind + 1, 0, pointID)|
              == old(diid) + |CoreFrom(ToPlan(), old(diid), ind, 0, old(pointID))|
    {
      hide AtEachPoint;
      ghost var plan := ToPlan();
      ghost var all := CoreFrom(plan, diid, ind, 0, pointID);
      burstIndex := 0;
      while burstIndex < burst
        invariant ToPlan() == plan
        invariant burstIndex <= burst && pointID == old(pointID) + burstIndex
        invariant yielded + CoreFrom(plan, diid, ind, burstIndex, pointID) == old(yielded) + all
        invariant diid + |CoreFrom(plan, diid, ind, burstIndex, pointID)| == old(diid) + |all|
      {
        ghost var here := AtEachPoint(plan, diid, ind, pointID);
        ghost var rest := CoreFrom(plan, diid + |here|, ind, burstIndex + 1, pointID + 1);
        assert yielded + (here + rest) == yielded + here + rest;
        Point(ind, positions[ind]);
        burstIndex := burstIndex + 1;
      }
      burstIndex := 0;
    }

    /** The acquisition loop: every position, `burst` times. */
    method ScanCore()
      requires Valid()
      modifies this`diid, this`yielded, this`pointID, this`burstIndex
      ensures yielded == old(yielded) + CoreFrom(ToPlan(), old(diid), 0, 0, old(pointID))
      ensures diid == old(diid) + |CoreFrom(ToPlan(), old(diid), 0, 0, old(pointID))|
      ensures pointID == old(pointID) + |positions| * burst
    {
      ghost var plan := ToPlan();
      ghost var all := CoreFrom(plan, diid, 0, 0, pointID);
      for ind := 0 to |positions|
        invariant ToPlan() == plan
        invariant pointID == old(pointID) + ind * burst
        invariant yielded + CoreFrom(plan, diid, ind, 0, pointID) == old(yielded) + all
        invariant diid + |CoreFrom(plan, diid, ind, 0, pointID)| == old(diid) + |all|
      {
        hide CoreFrom;
        Bursts(ind);
        MulNext(ind, burst);
      }
      assert yielded + [] == yielded;
    }

    /** `_set_position_offset`: one RPC read per motor, then the relative offset. */
    method SetPositionOffset(readback: seq<real>)
      requires Valid() && |readback| == |motors|
      modifies this`diid, this`yielded, this`startPos, this`positions
      ensures Valid() && startPos == readback
      ensures positions == if relative then Offset(old(positions), readback) else old(positions)
      ensures yielded == old(yielded) + Rpcs(ToPlan(), old(diid))
      ensures diid == old(diid) + |motors|
    {
      ghost var all := Rpcs(ToPlan(), diid);
      startPos := [];
      for q := 0 to |motors|
        invariant startPos == readback[..q]
        invariant positions == old(positions)
        invariant diid == old(diid) + q
        invariant yielded == old(yielded) + all[..q]
      {
        Emit(Rpc, Devices([motors[q]]), "", None);
        startPos := startPos + [readback[q]];
        assert all[..q + 1] == all[..q] + [all[q]];
      }
      if relative {
        positions := Offset(positions, startPos);
      }
      assert Rpcs(ToPlan(), old(diid)) == all;
    }

    method ReadScanMotors()
      modifies this`diid, this`yielded
      ensures yielded == old(yielded) + InitialRead(ToPlan(), old(diid))
      ensures diid == old(diid) + 2
    {
      Emit(Read, Devices(motors), "scan_motor", None);
      Emit(Wait(ForRead), Devices(motors), "scan_motor", None);
    }

    /** `open_scan`, `stage` and `run_baseline_reading`. */
    method Open()
      modifies this`diid, this`yielded
      ensures yielded == old(yielded) + Opening(ToPlan(), old(diid))
      ensures diid == old(diid) + 3
    {
      Emit(OpenScan(motors, priority, |positions| * burst), Unspecified, "", None);
      Emit(Stage, Unspecified, "", None);
      Emit(BaselineReading, Unspecified, "", None);
    }

    method PreScanProcedure()
      requires Valid()
      modifies this`diid, this`yielded
      ensures yielded == old(yielded) + PreScanPart(ToPlan(), old(diid))
      ensures diid == old(diid) + |PreScanPart(ToPlan(), old(diid))|
    {
      if preMove && |positions| > 0 {
        MoveTo(positions[0]);
      }
      Emit(PreScan, Unspecified, "", None);
    }

    /** `finalize`, `unstage` and `cleanup`. */
    method Close()
      requires Valid()
      modifies this`diid, this`yielded
      ensures yielded == old(yielded) + Epilogue(ToPlan(), old(diid))
      ensures diid == old(diid) + |Epilogue(ToPlan(), old(diid))|
    {
      MoveTo(startPos);
      Emit(Wait(ForRead), Group("primary"), "readout_primary", None);
      Emit(Unstage, Unspecified, "", None);
      Emit(CloseScan, Unspecified, "", None);
    }

    /** `ScanBase.run`, given the motor positions the RPC reads return. */
    method Run(readback: seq<real>)
      requires Valid() && |readback| == |motors|
      requires diid == 0 && yielded == []
      modifies this
      ensures Valid() && startPos == readback
      ensures positions == if relative then Offset(old(positions), readback) else old(positions)
      ensures yielded == Stream(ToPlan(), old(pointID))
      ensures diid == |yielded|
      ensures pointID == old(pointID) + |positions| * burst
    {
      hide Rpcs, Opening, PreScanPart, CoreFrom, Epilogue, Offset;
      ReadScanMotors();
      SetPositionOffset(readback);
      Open();
      PreScanProcedure();
      assert yielded == Prologue(ToPlan());
      ScanCore();
      Close();
    }
  }

  // ----- Properties of the stream -----

  /** Every instruction of a request carries its own index as DIID. */
  ghost predicate Numbered(s: seq<Instr>, n: nat) {
    forall i :: 0 <= i < |s| ==> s[i].diid == n + i
  }

  lemma NumberedConcat(a: seq<Instr>, b: seq<Instr>, n: nat)
    requires Numbered(a, n) && Numbered(b, n + |a|)
    ensures Numbered(a + b, n)
  {
  }

  lemma PointNumbered(plan: Plan, n: nat, ind: nat, point: nat)
    requires plan.Valid() && ind < |plan.positions|
    ensures Numbered(AtEachPoint(plan, n, ind, point), n)
  {
    var move := MoveAndWait(plan, n, plan.positions[ind]);
    var await := AwaitPrevious(plan, n + |move|, ind);
    NumberedConcat(move, await, n);
    NumberedConcat(move + await, Acquire(plan, n + |move| + |await|, point), n);
  }

  lemma {:induction false} CoreNumbered(plan: Plan, n: nat, ind: nat, b: nat, point: nat)
    requires plan.Valid() && ind <= |plan.positions| && b <= plan.burst
    ensures Numbered(CoreFrom(plan, n, ind, b, point), n)
    decreases |plan.positions| - ind, plan.burst - b
  {
    hide AtEachPoint;
    if ind == |plan.positions| {
    } else if b == plan.burst {
      CoreNumbered(plan, n, ind + 1, 0, point);
    } else {
      var here := AtEachPoint(plan, n, ind, point);
      PointNumbered(plan, n, ind, point);
      CoreNumbered(plan, n + |here|, ind, b + 1, point + 1);
      NumberedConcat(here, CoreFrom(plan, n + |here|, ind, b + 1, point + 1), n);
    }
  }

  lemma PrologueNumbered(plan: Plan)
    requires plan.Valid()
    ensures Numbered(Prologue(plan), 0)
  {
    var m := |plan.motors|;
    NumberedConcat(InitialRead(plan, 0), Rpcs(plan, 2), 0);
    NumberedConcat(InitialRead(plan, 0) + Rpcs(plan, 2), Opening(plan, 2 + m), 0);
    NumberedConcat(InitialRead(plan, 0) + Rpcs(plan, 2) + Opening(plan, 2 + m), PreScanPart(plan, 5 + m), 0);
  }

  lemma StreamNumbered(plan: Plan, point: nat)
    requires plan.Valid()
    ensures Numbered(Stream(plan, point), 0)
  {
    hide Prologue, CoreFrom;
    var p, c := Prologue(plan), Core(plan, point);
    PrologueNumbered(plan);
    CoreNumbered(plan, |p|, 0, 0, point);
    NumberedConcat(p, c, 0);
    NumberedConcat(p + c, Epilogue(plan, |p| + |c|), 0);
  }
}
