/** Where in a step scan an abort finds the motors at rest: anywhere but between a set and the end of its move. */
module MoveBarriers {
  import opened Instructions
  import opened StepScans
  import opened ScanWorkers
  import opened Barriers
  import opened StepScanBarriers
  import opened BurstLag
  import opened AbortBarriers

  predicate MoveWaits(i: Instr) {
    i.action == Wait(ForMove)
  }

  // ----- The wait group of the motors behind the opening -----

  /** Only sets enter the motors' wait group, and only the waits that end a move ask for it. */
  predicate GroupedAt(i: Instr) {
    && !i.action.OpenScan?
    && (i.action.Set? ==> i.waitGroup == "scan_motor")
    && (i.waitGroup == "scan_motor" ==> i.action.Set? || MoveWaits(i))
    && (MoveWaits(i) ==> i.waitGroup == "scan_motor" && i.target == Group("scan_motor"))
  }

  predicate Grouped(s: seq<Instr>) {
    forall k :: 0 <= k < |s| ==> GroupedAt(s[k])
  }

  lemma GroupedConcat(a: seq<Instr>, b: seq<Instr>)
    requires Grouped(a) && Grouped(b)
    ensures Grouped(a + b)
  {
    hide GroupedAt;
  }

  lemma GroupedMove(plan: Plan, n: nat, pos: seq<real>)
    requires |pos| == |plan.motors|
    ensures Grouped(MoveAndWait(plan, n, pos))
  {
  }

  lemma GroupedPoint(plan: Plan, n: nat, ind: nat, point: nat)
    requires plan.Valid() && ind < |plan.positions|
    ensures Grouped(AtEachPoint(plan, n, ind, point))
  {
    var move := MoveAndWait(plan, n, plan.positions[ind]);
    var await := AwaitPrevious(plan, n + |move|, ind);
    GroupedMove(plan, n, plan.positions[ind]);
    GroupedAcquire(plan, n + |move| + |await|, point);
    assert Grouped(await);
    hide MoveAndWait, AwaitPrevious, Acquire, Grouped;
    GroupedConcat(move, await);
    GroupedConcat(move + await, Acquire(plan, n + |move| + |await|, point));
  }

  lemma GroupedAcquire(plan: Plan, n: nat, point: nat)
    ensures Grouped(Acquire(plan, n, point))
  {
  }

  lemma {:induction false} GroupedCore(plan: Plan, n: nat, ind: nat, b: nat, point: nat)
    requires plan.Valid() && ind <= |plan.positions| && b <= plan.burst
    ensures Grouped(CoreFrom(plan, n, ind, b, point))
    decreases |plan.positions| - ind, plan.burst - b
  {
    hide AtEachPoint, GroupedAt;
    if ind == |plan.positions| {
    } else if b == plan.burst {
      GroupedCore(plan, n, ind + 1, 0, point);
    } else {
      var here := AtEachPoint(plan, n, ind, point);
      GroupedPoint(plan, n, ind, point);
      GroupedCore(plan, n + |here|, ind, b + 1, point + 1);
      GroupedConcat(here, CoreFrom(plan, n + |here|, ind, b + 1, point + 1));
    }
  }

  lemma GroupedEnds(plan: Plan, n: nat)
    requires plan.Valid()
    ensures Grouped(PreScanPart(plan, n)) && Grouped(Epilogue(plan, n))
  {
    if plan.preMove && |plan.positions| > 0 { GroupedMove(plan, n, plan.positions[0]); }
    GroupedMove(plan, n, plan.startPos);
    hide MoveAndWait;
  }

  /** The length of the part up to the baseline reading, in which no motor is set. */
  function OpeningEnd(plan: Plan): nat {
    5 + |plan.motors|
  }

  /** Behind that part a step scan is grouped. */
  ghost predicate GroupedBehind(j: Job, plan: Plan) {
    && OpeningEnd(plan) <= |j.prog|
    && (forall k :: 0 <= k < OpeningEnd(plan) ==> !j.prog[k].action.Set? && !MoveWaits(j.prog[k]))
    && (forall k :: OpeningEnd(plan) <= k < |j.prog| ==> GroupedAt(j.prog[k]))
  }

  lemma StreamGrouped(j: Job, plan: Plan, base: nat)
    requires plan.Valid() && j.prog == Stream(plan, base)
    ensures GroupedBehind(j, plan)
  {
    var a := InitialRead(plan, 0) + Rpcs(plan, 2) + Opening(plan, 2 + |plan.motors|);
    var pre := PreScanPart(plan, OpeningEnd(plan));
    var c := Core(plan, base);
    var e := Epilogue(plan, |Prologue(plan)| + |c|);
    GroupedEnds(plan, OpeningEnd(plan));
    GroupedEnds(plan, |Prologue(plan)| + |c|);
    GroupedCore(plan, |Prologue(plan)|, 0, 0, base);
    OpeningUnset(plan);
    hide InitialRead, Rpcs, Opening, PreScanPart, CoreFrom, Epilogue, GroupedAt, Grouped;
    GroupedConcat(pre, c);
    GroupedConcat(pre + c, e);
    assert j.prog == a + (pre + c + e) by { assert Prologue(plan) == a + pre; }
    SplitGrouped(j, plan, a, pre + c + e);
  }

  lemma OpeningUnset(plan: Plan)
    ensures var a := InitialRead(plan, 0) + Rpcs(plan, 2) + Opening(plan, 2 + |plan.motors|);
      |a| == OpeningEnd(plan) && forall k :: 0 <= k < |a| ==> !a[k].action.Set? && !MoveWaits(a[k])
  {
  }

  lemma SplitGrouped(j: Job, plan: Plan, a: seq<Instr>, b: seq<Instr>)
    requires j.prog == a + b && |a| == OpeningEnd(plan) && Grouped(b)
    requires forall k :: 0 <= k < |a| ==> !a[k].action.Set? && !MoveWaits(a[k])
    ensures GroupedBehind(j, plan)
  {
    hide GroupedAt;
    forall k | OpeningEnd(plan) <= k < |j.prog| ensures GroupedAt(j.prog[k]) { assert j.prog[k] == b[k - |a|]; }
  }

  /** The worker knows the scan motors from the opening on. */
  lemma MotorsKnown(j: Job, plan: Plan, base: nat, k: nat)
    requires plan.Valid() && j.prog == Stream(plan, base) && OpeningEnd(plan) <= k <= |j.prog|
    ensures WorkerAt(j, k).scanMotors == plan.motors
  {
    StreamGrouped(j, plan, base);
    OpenedReady(j, plan, base);
    hide Stream, Ready, WorkerAt;
    assert forall i :: OpeningEnd(plan) <= i < k ==> GroupedAt(j.prog[i]);
    MotorsKept(j, OpeningEnd(plan), k);
  }

  lemma OpenedReady(j: Job, plan: Plan, base: nat)
    requires plan.Valid() && j.prog == Stream(plan, base)
    ensures OpeningEnd(plan) <= |j.prog| && WorkerAt(j, OpeningEnd(plan)).scanMotors == plan.motors
  {
    hide At, InitialRead, Rpcs, Opening, PreScanPart, CoreFrom, Epilogue;
    var m := |plan.motors|;
    var a, b, c, d := InitialRead(plan, 0), Rpcs(plan, 2), Opening(plan, 2 + m), PreScanPart(plan, 5 + m);
    var core := Core(plan, base);
    StreamNumbered(plan, base);
    Lengths(plan);
    AtWhole(j);
    AtSplit(j, 0, Prologue(plan) + core, Epilogue(plan, |Prologue(plan)| + |core|));
    AtSplit(j, 0, Prologue(plan), core);
    AtSplit(j, 0, a + b + c, d);
    AtSplit(j, 0, a + b, c);
    AtSplit(j, 0, a, b);
    InitialReadSettles(j, plan);
    RpcsSettle(j, plan, 2, m);
    OpeningReady(j, plan, 2 + m);
    ReadyMotors(j, plan, 5 + m);
  }

  // ----- Only the end of a move asks for a set -----

  /** What a wait group holds was registered under its name. */
  ghost predicate Named(j: Job, w: Worker, n: nat) {
    forall g, d :: g in w.groups && d in w.groups[g] ==>
      w.groups[g][d] < n && w.groups[g][d] < |j.prog| && j.prog[w.groups[g][d]].waitGroup == g
  }

  lemma BeginNames(j: Job, n: nat)
    requires j.Valid() && n < |j.prog| && Named(j, WorkerAt(j, n), n)
    ensures Named(j, During(j, n), n + 1)
  {
    hide WorkerAt, Resolve;
    assert During(j, n).groups == Register(j.dm, WorkerAt(j, n), j.prog[n]);
  }

  lemma {:induction false} GroupsNamed(j: Job, n: nat)
    requires j.Valid() && n <= |j.prog|
    ensures Named(j, WorkerAt(j, n), n)
  {
    if n > 0 {
      GroupsNamed(j, n - 1);
      BeginNames(j, n - 1);
      FinishNames(j, During(j, n - 1), n);
    }
  }

  lemma FinishNames(j: Job, w: Worker, n: nat)
    requires 0 < n <= |j.prog| && Named(j, w, n)
    ensures Named(j, Finish(j.dm, w, j.prog[n - 1]), n)
  {
    hide Resolve;
  }

  /** A wait for a trigger asks for the trigger just before. */
  lemma TriggerAsked(j: Job, k: nat, d: Device, q: nat)
    requires j.Valid() && Tidy(j.prog) && k < |j.prog| && j.prog[k].action == Wait(ForTrigger) && Asks(j, k, d, q)
    ensures k > 0 && q == k - 1 && j.prog[q].action.Trigger?
  {
    assert TidyAt(j.prog, k);
  }

  /** Stages, unstages and pre-scans ask for themselves, all other instructions but waits for nothing. */
  lemma SelfAsked(j: Job, k: nat, d: Device, q: nat)
    requires j.Valid() && k < |j.prog| && !j.prog[k].action.Wait? && Asks(j, k, d, q)
    ensures q == k && !j.prog[q].action.Set?
  {
  }

  lemma GroupAsked(j: Job, k: nat, d: Device, q: nat)
    requires j.Valid() && k < |j.prog| && j.prog[k].action.Wait? && j.prog[k].action.kind != ForTrigger
    requires Asks(j, k, d, q)
    ensures q <= k && j.prog[q].waitGroup == j.prog[k].waitGroup
  {
    GroupsNamed(j, k);
    BeginNames(j, k);
  }

  lemma AskedByMove(j: Job, plan: Plan, base: nat, k: nat, m: Device, q: nat)
    requires plan.Valid() && j.prog == Stream(plan, base) && IsSet(j, q, m) && Asks(j, k, m, q)
    ensures q < k && MoveWaits(j.prog[k])
  {
    hide Stream, SentTo, Tidy, Asks;
    StreamNumbered(plan, base);
    TidyStream(plan, base);
    StreamGrouped(j, plan, base);
    assert k < |j.prog| by { AsksInside(j, k, m, q); }
    assert q >= OpeningEnd(plan) && GroupedAt(j.prog[q]);
    if !j.prog[k].action.Wait? {
      SelfAsked(j, k, m, q);
    } else if j.prog[k].action.kind == ForTrigger {
      TriggerAsked(j, k, m, q);
    } else {
      GroupAsked(j, k, m, q);
      assert GroupedAt(j.prog[k]);
    }
  }

  lemma AsksInside(j: Job, k: nat, d: Device, q: nat)
    requires Asks(j, k, d, q)
    ensures k < |j.prog|
  {
  }

  // ----- The end of a move asks for the sets before it -----

  /** The motors' wait group holds `q` for `m`. */
  ghost predicate Holds(w: Worker, m: Device, q: nat) {
    "scan_motor" in w.groups && m in w.groups["scan_motor"] && w.groups["scan_motor"][m] == q
  }

  lemma SetHolds(j: Job, q: nat, m: Device)
    requires j.Valid() && IsSet(j, q, m) && GroupedAt(j.prog[q])
    ensures Holds(WorkerAt(j, q + 1), m, q)
  {
  }

  /** It keeps it until a wait asks for it or the motor is set again. */
  lemma StepHolds(j: Job, k: nat, m: Device, q: nat)
    requires j.Valid() && k < |j.prog| && GroupedAt(j.prog[k]) && !IsSet(j, k, m) && Holds(WorkerAt(j, k), m, q)
    ensures Holds(During(j, k), m, q)
    ensures Holds(WorkerAt(j, k + 1), m, q) || Asks(j, k, m, q)
  {
    var w, i := WorkerAt(j, k), j.prog[k];
    assert WorkerAt(j, k + 1) == Finish(j.dm, During(j, k), i);
    hide WorkerAt;
    if i.action.Set? {
      assert SentTo(j, k) == Resolve(j.dm, During(j, k), i.target) == Resolve(j.dm, w, i.target);
      assert m !in Resolve(j.dm, w, i.target);
    }
    hide Resolve;
  }

  lemma {:induction false} HeldOrAwaited(j: Job, plan: Plan, k: nat, m: Device, q: nat)
    requires j.Valid() && GroupedBehind(j, plan) && k <= |j.prog| && LastSet(j, k, m, q)
    ensures Holds(WorkerAt(j, k), m, q) || Awaited(j, k, m, q)
    decreases k
  {
    hide SentTo, WorkerAt, Holds, Asks;
    assert q >= OpeningEnd(plan);
    if k == q + 1 {
      SetHolds(j, q, m);
    } else {
      HeldOrAwaited(j, plan, k - 1, m, q);
      assert !IsSet(j, k - 1, m);
      if Awaited(j, k - 1, m, q) {
        AwaitedMonotone(j, k - 1, k, m, q);
      } else {
        StepHolds(j, k - 1, m, q);
      }
    }
  }

  lemma MoveAsks(j: Job, k: nat, m: Device, q: nat)
    requires j.Valid() && k < |j.prog| && MoveWaits(j.prog[k]) && GroupedAt(j.prog[k])
    requires m in WorkerAt(j, k).scanMotors && Holds(WorkerAt(j, k), m, q)
    ensures Asks(j, k, m, q)
  {
    hide WorkerAt;
  }

  lemma {:induction false} LastSetBefore(j: Job, k: nat, m: Device, q: nat) returns (r: nat)
    requires q < k && IsSet(j, q, m)
    ensures q <= r && LastSet(j, k, m, r)
    decreases k - q
  {
    hide IsSet;
    if exists p: nat :: q < p < k && IsSet(j, p, m) {
      var p: nat :| q < p < k && IsSet(j, p, m);
      r := LastSetBefore(j, k, m, p);
    } else {
      r := q;
    }
  }

  /** Once a move's end is passed, every set of a motor before it has been awaited. */
  lemma MoveAwaits(j: Job, plan: Plan, base: nat, n: nat, k: nat, m: Device, q: nat)
    requires plan.Valid() && j.prog == Stream(plan, base) && n <= |j.prog|
    requires IsSet(j, q, m) && q < k < n && MoveWaits(j.prog[k])
    ensures Awaited(j, n, m, q)
  {
    hide Stream, SentTo, Asks, Holds, Separated;
    StreamNumbered(plan, base);
    StreamGrouped(j, plan, base);
    assert q >= OpeningEnd(plan) && GroupedAt(j.prog[k]);
    var r := LastSetBefore(j, k, m, q);
    MotorsKnown(j, plan, base, k);
    SetMotorKnown(j, plan, base, q, m);
    HeldOrAwaited(j, plan, k, m, r);
    hide WorkerAt;
    if Holds(WorkerAt(j, k), m, r) {
      MoveAsks(j, k, m, r);
      assert Awaited(j, n, m, r);
    } else {
      AwaitedMonotone(j, k, n, m, r);
    }
    if q < r {
      StreamSeparated(j, plan, base);
      AwaitedMonotone(j, r, n, m, q);
    }
  }

  lemma SetMotorKnown(j: Job, plan: Plan, base: nat, q: nat, m: Device)
    requires plan.Valid() && j.prog == Stream(plan, base) && IsSet(j, q, m)
    ensures m in plan.motors
  {
    hide Stream, TriggersSafe;
    StreamSafe(j, plan, base);
  }

  // ----- Main result -----

  /** Instruction `n` lies between a set of the motor and the end of the wait that closes its move. */
  ghost predicate InMove(j: Job, n: nat, m: Device) {
    exists q: nat :: q < n && IsSet(j, q, m) && forall k :: q < k < n && k < |j.prog| ==> !MoveWaits(j.prog[k])
  }

  /** An abort sends the return motion to a motor at rest for sure exactly when it does not fall in a move of it. */
  lemma ReturnsAtRestWhen(j: Job, plan: Plan, base: nat, n: nat, m: Device)
    requires plan.Valid() && j.prog == Stream(plan, base) && n <= |j.prog|
    ensures ReturnsAtRest(j, n, m) <==> !InMove(j, n, m)
  {
    hide Stream, SentTo, Asks, ReturnsAtRest;
    ReturnsAtRestIff(j, plan, base, n, m);
    forall q: nat | q < n && IsSet(j, q, m)
      ensures Awaited(j, n, m, q) <==> exists k :: q < k < n && MoveWaits(j.prog[k])
    {
      if Awaited(j, n, m, q) {
        var k: nat :| k < n && Asks(j, k, m, q);
        AskedByMove(j, plan, base, k, m, q);
      }
      if k :| q < k < n && MoveWaits(j.prog[k]) {
        MoveAwaits(j, plan, base, n, k, m, q);
      }
    }
  }
}
