/** The instruction stream of a step scan keeps every barrier the worker's waits can enforce. */
module StepScanBarriers {
  import opened Arithmetic
  import opened Instructions
  import opened StepScans
  import opened ScanWorkers
  import opened Barriers

  /** `part` is the piece of the program that starts at instruction `a`. */
  ghost predicate At(j: Job, a: nat, part: seq<Instr>) {
    a + |part| <= |j.prog| && j.prog[a..a + |part|] == part
  }

  lemma AtSplit(j: Job, a: nat, x: seq<Instr>, y: seq<Instr>)
    requires At(j, a, x + y)
    ensures At(j, a, x) && At(j, a + |x|, y)
  {
    var p := j.prog[a..a + |x + y|];
    assert p[..|x|] == x && p[|x|..] == y;
    assert j.prog[a..a + |x|] == p[..|x|];
    assert j.prog[a + |x|..a + |x| + |y|] == p[|x|..];
  }

  lemma AtIndex(j: Job, a: nat, part: seq<Instr>, k: nat)
    requires At(j, a, part) && k < |part|
    ensures j.prog[a + k] == part[k]
  {
    assert j.prog[a..a + |part|][k] == j.prog[a + k];
  }

  /** Whatever the motors were told to do before instruction `n` has been waited for. */
  ghost predicate Settled(j: Job, plan: Plan, n: nat) {
    forall q: nat, d :: q < n && d in plan.motors && (IsSet(j, q, d) || IsRead(j, q, d)) ==> Awaited(j, n, d, q)
  }

  ghost predicate Ready(j: Job, plan: Plan, n: nat) {
    && n <= |j.prog|
    && Settled(j, plan, n)
    && WorkerAt(j, n).scanMotors == plan.motors
    && WorkerAt(j, n).priority == plan.priority
  }

  /** From `a` to `b` only motors are set, and only when they have settled. */
  ghost predicate Separated(j: Job, plan: Plan, a: nat, b: nat) {
    forall i: nat, d :: a <= i < b && IsSet(j, i, d) ==>
      && d in plan.motors
      && forall q: nat :: q < i && (IsSet(j, q, d) || IsRead(j, q, d)) ==> Awaited(j, i, d, q)
  }

  lemma SeparatedJoin(j: Job, plan: Plan, a: nat, b: nat, c: nat)
    requires a <= b <= c && Separated(j, plan, a, b) && Separated(j, plan, b, c)
    ensures Separated(j, plan, a, c)
  {
  }

  ghost function PrimaryGroup(j: Job, n: nat): map<Device, nat>
    requires n <= |j.prog|
  {
    var g := WorkerAt(j, n).groups;
    if "readout_primary" in g then g["readout_primary"] else map[]
  }

  /** An instruction that neither sets nor reads keeps the motors settled. */
  lemma QuietSettles(j: Job, plan: Plan, n: nat)
    requires n < |j.prog| && Settled(j, plan, n) && !j.prog[n].action.Set? && !j.prog[n].action.Read?
    ensures Settled(j, plan, n + 1) && Separated(j, plan, n, n + 1)
  {
    hide Wanted, SentTo;
    forall q: nat, d | q < n + 1 && d in plan.motors && (IsSet(j, q, d) || IsRead(j, q, d))
      ensures Awaited(j, n + 1, d, q)
    {
      AwaitedMonotone(j, n, n + 1, d, q);
    }
  }

  lemma QuietStep(j: Job, plan: Plan, n: nat)
    requires n < |j.prog| && Ready(j, plan, n)
    requires !j.prog[n].action.Set? && !j.prog[n].action.Read? && !j.prog[n].action.OpenScan?
    ensures Ready(j, plan, n + 1) && Separated(j, plan, n, n + 1)
    ensures j.prog[n].waitGroup != "readout_primary" ==> PrimaryGroup(j, n + 1) == PrimaryGroup(j, n)
  {
    QuietSettles(j, plan, n);
    hide Settled, Separated;
  }

  // ----- Moving -----

  /** The last set of `m` before `t` was to `x`. */
  ghost predicate InPlace(j: Job, t: nat, m: Device, x: real) {
    exists q: nat :: LastSet(j, t, m, q) && j.prog[q].action == Set(x)
  }

  ghost predicate AllInPlace(j: Job, plan: Plan, t: nat, pos: seq<real>) {
    |pos| == |plan.motors| && forall q: nat :: q < |pos| ==> InPlace(j, t, plan.motors[q], pos[q])
  }

  /** At `n` the move's wait group holds the DIIDs of its first `k` sets. */
  ghost predicate MoveGroup(j: Job, plan: Plan, n: nat, a: nat, k: nat)
    requires n <= |j.prog| && k <= |plan.motors|
  {
    var groups := WorkerAt(j, n).groups;
    forall r :: 0 <= r < k ==>
      && "scan_motor" in groups && plan.motors[r] in groups["scan_motor"]
      && groups["scan_motor"][plan.motors[r]] == a + r
  }

  /** After `k` sets of a move the wait group holds exactly their DIIDs, and nothing else has changed. */
  lemma {:induction false} AfterSets(j: Job, plan: Plan, a: nat, pos: seq<real>, k: nat)
    requires Distinct(plan.motors) && |pos| == |plan.motors| && k <= |pos|
    requires At(j, a, SetMotors(plan, a, pos)) && Ready(j, plan, a)
    ensures var w, v := WorkerAt(j, a), WorkerAt(j, a + k);
      && v.scanMotors == plan.motors && v.priority == plan.priority
      && PrimaryGroup(j, a + k) == PrimaryGroup(j, a)
      && MoveGroup(j, plan, a + k, a, k)
  {
    if k > 0 {
      AfterSets(j, plan, a, pos, k - 1);
      AtIndex(j, a, SetMotors(plan, a, pos), k - 1);
      hide At, Ready, WorkerAt;
      NextSet(j, plan, a, k - 1);
    }
  }

  /** One set adds its motor's DIID to the wait group. */
  lemma NextSet(j: Job, plan: Plan, a: nat, k: nat)
    requires Distinct(plan.motors) && k < |plan.motors| && a + k < |j.prog|
    requires j.prog[a + k].action.Set? && j.prog[a + k].target == Devices([plan.motors[k]])
    requires j.prog[a + k].waitGroup == "scan_motor" && j.prog[a + k].diid == a + k && j.prog[a + k].pointID == None
    requires MoveGroup(j, plan, a + k, a, k)
    ensures var w, v := WorkerAt(j, a + k), WorkerAt(j, a + k + 1);
      && v.scanMotors == w.scanMotors && v.priority == w.priority
      && PrimaryGroup(j, a + k + 1) == PrimaryGroup(j, a + k)
      && MoveGroup(j, plan, a + k + 1, a, k + 1)
  {
  }

  lemma SetSegment(j: Job, plan: Plan, a: nat, pos: seq<real>, k: nat)
    requires Distinct(plan.motors) && |pos| == |plan.motors| && k < |pos|
    requires At(j, a, SetMotors(plan, a, pos)) && Ready(j, plan, a)
    ensures j.prog[a + k].action == Set(pos[k])
    ensures SentTo(j, a + k) == {plan.motors[k]}
  {
    AtIndex(j, a, SetMotors(plan, a, pos), k);
  }

  /** The wait that ends a move asks every motor for the DIID of its set. */
  lemma MoveWait(j: Job, plan: Plan, n: nat, a: nat)
    requires n < |j.prog|
    requires j.prog[n] == Plain(plan, n, Wait(ForMove), Group("scan_motor"), "scan_motor")
    requires WorkerAt(j, n).scanMotors == plan.motors && plan.motors != []
    requires MoveGroup(j, plan, n, a, |plan.motors|)
    ensures forall r :: 0 <= r < |plan.motors| ==> Asks(j, n, plan.motors[r], a + r)
    ensures WorkerAt(j, n + 1) == WorkerAt(j, n).(groups := WorkerAt(j, n + 1).groups)
    ensures PrimaryGroup(j, n + 1) == PrimaryGroup(j, n)
  {
  }

  lemma MoveSegment(j: Job, plan: Plan, a: nat, pos: seq<real>)
    requires Distinct(plan.motors) && |pos| == |plan.motors|
    requires At(j, a, MoveAndWait(plan, a, pos)) && Ready(j, plan, a)
    ensures var b := a + |MoveAndWait(plan, a, pos)|;
      && Ready(j, plan, b) && Separated(j, plan, a, b)
      && PrimaryGroup(j, b) == PrimaryGroup(j, a)
      && AllInPlace(j, plan, b, pos)
  {
    hide WorkerAt, SentTo, Settled, Separated, LastSet, MoveGroup;
    if pos != [] {
      var m := |pos|;
      var wait := Plain(plan, a + m, Wait(ForMove), Group("scan_motor"), "scan_motor");
      AtSplit(j, a, SetMotors(plan, a, pos), [wait]);
      AtIndex(j, a + m, [wait], 0);
      AfterSets(j, plan, a, pos, m);
      forall k: nat | k < m ensures j.prog[a + k].action == Set(pos[k]) && SentTo(j, a + k) == {plan.motors[k]} {
        SetSegment(j, plan, a, pos, k);
      }
      MoveWait(j, plan, a + m, a);
      MoveSettles(j, plan, a, m);
      forall k: nat | k < m ensures InPlace(j, a + m + 1, plan.motors[k], pos[k]) {
        assert LastSet(j, a + m + 1, plan.motors[k], a + k);
      }
    } else {
      NothingSeparated(j, plan, a);
    }
  }

  lemma NothingSeparated(j: Job, plan: Plan, a: nat)
    ensures Separated(j, plan, a, a)
  {
  }

  lemma MoveSettles(j: Job, plan: Plan, a: nat, m: nat)
    requires Distinct(plan.motors) && m == |plan.motors| && a + m < |j.prog|
    requires Settled(j, plan, a)
    requires forall k :: 0 <= k < m ==> j.prog[a + k].action.Set? && SentTo(j, a + k) == {plan.motors[k]}
    requires j.prog[a + m].action.Wait?
    requires forall k :: 0 <= k < m ==> Asks(j, a + m, plan.motors[k], a + k)
    ensures Settled(j, plan, a + m + 1) && Separated(j, plan, a, a + m + 1)
    ensures forall k :: 0 <= k < m ==> LastSet(j, a + m + 1, plan.motors[k], a + k)
  {
    hide SentTo, Wanted;
    forall q: nat, d | q < a + m + 1 && d in plan.motors && (IsSet(j, q, d) || IsRead(j, q, d))
      ensures Awaited(j, a + m + 1, d, q)
    {
      if q < a {
        AwaitedMonotone(j, a, a + m + 1, d, q);
      } else {
        assert q < a + m && d == plan.motors[q - a];
        assert Asks(j, a + m, d, q);
      }
    }
    forall i: nat, d | a <= i < a + m + 1 && IsSet(j, i, d)
      ensures d in plan.motors
      ensures forall q: nat :: q < i && (IsSet(j, q, d) || IsRead(j, q, d)) ==> Awaited(j, i, d, q)
    {
      assert i < a + m && d == plan.motors[i - a];
      assert forall r :: a <= r < i ==> SentTo(j, r) == {plan.motors[r - a]};
      forall q: nat | q < i && (IsSet(j, q, d) || IsRead(j, q, d)) ensures Awaited(j, i, d, q) {
        AwaitedMonotone(j, a, i, d, q);
      }
    }
    forall k: nat | k < m ensures LastSet(j, a + m + 1, plan.motors[k], a + k) {
      forall r: nat | a + k < r < a + m + 1 ensures !IsSet(j, r, plan.motors[k]) {
        assert r < a + m ==> SentTo(j, r) == {plan.motors[r - a]};
      }
    }
  }

  // ----- Acquiring -----

  ghost function MonitoredBy(j: Job, plan: Plan): set<Device> {
    j.dm.Monitored(plan.priority)
  }

  /**
    Instruction `r` read `point` from every monitored device. The motors among them have been waited for
    before `n`; the others have too, or are still listed in the wait group under this DIID.
   */
  ghost predicate ReadBefore(j: Job, plan: Plan, n: nat, r: nat, point: nat)
    requires n <= |j.prog|
  {
    && r < n && j.prog[r].action.Read? && j.prog[r].pointID == Some(point)
    && SentTo(j, r) == MonitoredBy(j, plan)
    && forall d :: d in MonitoredBy(j, plan) ==>
         || Awaited(j, n, d, r)
         || (d !in plan.motors && d in PrimaryGroup(j, n) && PrimaryGroup(j, n)[d] == r)
  }

  /** The read and the wait that close an acquisition. */
  lemma ReadSegment(j: Job, plan: Plan, r: nat, point: nat)
    requires r + 1 < |j.prog| && Ready(j, plan, r)
    requires j.prog[r] == AtPointID(plan, r, Read, Group("primary"), "readout_primary", point)
    requires j.prog[r + 1] == Plain(plan, r + 1, Wait(ForRead), Group("scan_motor"), "readout_primary")
    ensures Ready(j, plan, r + 2) && Separated(j, plan, r, r + 2) && ReadBefore(j, plan, r + 2, r, point)
  {
    var w := WorkerAt(j, r + 1);
    assert forall d :: d in MonitoredBy(j, plan) ==>
      d in w.groups["readout_primary"] && w.groups["readout_primary"][d] == r;
    assert forall d :: d in MonitoredBy(j, plan) && d in plan.motors ==> Asks(j, r + 1, d, r);
    ReadSettles(j, plan, r);
  }

  lemma ReadSettles(j: Job, plan: Plan, r: nat)
    requires r + 1 < |j.prog| && Settled(j, plan, r)
    requires j.prog[r].action.Read? && j.prog[r + 1].action.Wait?
    requires forall d :: d in SentTo(j, r) && d in plan.motors ==> Asks(j, r + 1, d, r)
    ensures Settled(j, plan, r + 2) && Separated(j, plan, r, r + 2)
  {
    hide SentTo, Wanted;
    forall q: nat, d | q < r + 2 && d in plan.motors && (IsSet(j, q, d) || IsRead(j, q, d))
      ensures Awaited(j, r + 2, d, q)
    {
      if q < r {
        AwaitedMonotone(j, r, r + 2, d, q);
      } else {
        assert q == r && Asks(j, r + 1, d, q);
      }
    }
  }

  /** From the second position on, every monitored device has been waited for before the next trigger. */
  lemma AwaitSegment(j: Job, plan: Plan, n: nat, r: nat, point: nat)
    requires n < |j.prog| && Ready(j, plan, n) && ReadBefore(j, plan, n, r, point)
    requires j.prog[n] == Plain(plan, n, Wait(ForRead), Group("primary"), "readout_primary")
    ensures Ready(j, plan, n + 1) && Separated(j, plan, n, n + 1)
    ensures forall d :: d in MonitoredBy(j, plan) ==> Awaited(j, n + 1, d, r)
  {
    QuietStep(j, plan, n);
    hide Settled, Separated, SentTo;
    forall d | d in MonitoredBy(j, plan) ensures Awaited(j, n + 1, d, r) {
      if Awaited(j, n, d, r) {
        AwaitedMonotone(j, n, n + 1, d, r);
      } else {
        assert Asks(j, n, d, r);
      }
    }
  }

  // ----- One point -----

  /** What the waits before the trigger of point `k` guarantee; `ind` is the position the point belongs to. */
  ghost predicate Safe(j: Job, plan: Plan, t: nat, ind: nat, k: nat, base: nat) {
    && Ready(j, plan, t) && t < |j.prog| && j.prog[t].pointID == Some(base + k)
    && ind < |plan.positions| && AllInPlace(j, plan, t, plan.positions[ind])
    && (k > 0 ==> HasPreviousRead(j, plan, t, base + k - 1, ind > 0))
  }

  ghost predicate PreviousRead(j: Job, plan: Plan, t: nat, r: nat, point: nat, all: bool) {
    && r < t && r < |j.prog| && j.prog[r].action.Read? && j.prog[r].pointID == Some(point)
    && SentTo(j, r) == MonitoredBy(j, plan)
    && forall d :: d in MonitoredBy(j, plan) && (all || d in plan.motors) ==> Awaited(j, t, d, r)
  }

  ghost predicate HasPreviousRead(j: Job, plan: Plan, t: nat, point: nat, all: bool) {
    exists r: nat :: PreviousRead(j, plan, t, r, point, all)
  }

  ghost predicate HasReadBefore(j: Job, plan: Plan, n: nat, point: nat)
    requires n <= |j.prog|
  {
    exists r: nat :: ReadBefore(j, plan, n, r, point)
  }

  lemma ReadBeforeLater(j: Job, plan: Plan, n: nat, m: nat, r: nat, point: nat)
    requires n <= m <= |j.prog| && ReadBefore(j, plan, n, r, point) && PrimaryGroup(j, m) == PrimaryGroup(j, n)
    ensures ReadBefore(j, plan, m, r, point)
  {
    hide SentTo, PrimaryGroup;
    forall d | Awaited(j, n, d, r) ensures Awaited(j, m, d, r) {
      AwaitedMonotone(j, n, m, d, r);
    }
  }

  lemma InPlaceLater(j: Job, plan: Plan, m: nat, t: nat, pos: seq<real>)
    requires m <= t <= |j.prog| && AllInPlace(j, plan, m, pos)
    requires forall i :: m <= i < t ==> !j.prog[i].action.Set?
    ensures AllInPlace(j, plan, t, pos)
  {
    hide SentTo;
    forall q: nat | q < |pos| ensures InPlace(j, t, plan.motors[q], pos[q]) {
      var r: nat :| LastSet(j, m, plan.motors[q], r) && j.prog[r].action == Set(pos[q]);
      assert LastSet(j, t, plan.motors[q], r);
    }
  }

  /** The optional wait for the previous point. */
  lemma AwaitPart(j: Job, plan: Plan, n: nat, ind: nat, point: nat)
    requires At(j, n, AwaitPrevious(plan, n, ind)) && Ready(j, plan, n) && HasReadBefore(j, plan, n, point)
    ensures HasPreviousRead(j, plan, n + |AwaitPrevious(plan, n, ind)|, point, ind > 0)
  {
    hide SentTo, WorkerAt, PrimaryGroup, Settled;
    var r: nat :| ReadBefore(j, plan, n, r, point);
    if ind > 0 {
      AtIndex(j, n, AwaitPrevious(plan, n, ind), 0);
      AwaitSegment(j, plan, n, r, point);
      assert PreviousRead(j, plan, n + 1, r, point, true);
    } else {
      assert PreviousRead(j, plan, n, r, point, false);
    }
  }

  lemma AwaitKeeps(j: Job, plan: Plan, n: nat, ind: nat, pos: seq<real>)
    requires At(j, n, AwaitPrevious(plan, n, ind)) && Ready(j, plan, n) && AllInPlace(j, plan, n, pos)
    ensures var t := n + |AwaitPrevious(plan, n, ind)|;
      Ready(j, plan, t) && Separated(j, plan, n, t) && AllInPlace(j, plan, t, pos)
  {
    hide SentTo, WorkerAt, PrimaryGroup, Settled, AllInPlace, Ready;
    if ind > 0 {
      AtIndex(j, n, AwaitPrevious(plan, n, ind), 0);
      QuietStep(j, plan, n);
      InPlaceLater(j, plan, n, n + 1, pos);
    }
  }

  /** The move and the optional wait in front of the trigger. */
  lemma ApproachSegment(j: Job, plan: Plan, n: nat, ind: nat, k: nat, base: nat)
    requires plan.Valid() && ind < |plan.positions|
    requires var move := MoveAndWait(plan, n, plan.positions[ind]);
      At(j, n, move + AwaitPrevious(plan, n + |move|, ind))
    requires Ready(j, plan, n)
    requires k > 0 ==> HasReadBefore(j, plan, n, base + k - 1)
    ensures var move := MoveAndWait(plan, n, plan.positions[ind]);
      var t := n + |move| + |AwaitPrevious(plan, n + |move|, ind)|;
      && Ready(j, plan, t) && Separated(j, plan, n, t) && AllInPlace(j, plan, t, plan.positions[ind])
      && (k > 0 ==> HasPreviousRead(j, plan, t, base + k - 1, ind > 0))
  {
    hide MoveAndWait, SentTo, WorkerAt, PrimaryGroup, AllInPlace, ReadBefore, HasPreviousRead, Settled, At;
    hide AwaitPrevious;
    var pos := plan.positions[ind];
    var move := MoveAndWait(plan, n, pos);
    var m := n + |move|;
    AtSplit(j, n, move, AwaitPrevious(plan, m, ind));
    MoveSegment(j, plan, n, pos);
    if k > 0 {
      var r: nat :| ReadBefore(j, plan, n, r, base + k - 1);
      ReadBeforeLater(j, plan, n, m, r, base + k - 1);
      AwaitPart(j, plan, m, ind, base + k - 1);
    }
    AwaitKeeps(j, plan, m, ind, pos);
  }

  lemma AcquireSegment(j: Job, plan: Plan, t: nat, point: nat)
    requires At(j, t, Acquire(plan, t, point)) && Ready(j, plan, t)
    ensures Ready(j, plan, t + 4) && Separated(j, plan, t, t + 4) && HasReadBefore(j, plan, t + 4, point)
    ensures j.prog[t].pointID == Some(point)
    ensures forall i :: t < i < t + 4 ==> !j.prog[i].action.Trigger?
  {
    AcquireParts(j, plan, t, point);
    hide ReadBefore, Ready, Separated, At, Acquire;
    QuietStep(j, plan, t);
    QuietStep(j, plan, t + 1);
    ReadSegment(j, plan, t + 2, point);
    SeparatedJoin(j, plan, t, t + 1, t + 2);
    SeparatedJoin(j, plan, t, t + 2, t + 4);
    assert ReadBefore(j, plan, t + 4, t + 2, point);
  }

  lemma AcquireParts(j: Job, plan: Plan, t: nat, point: nat)
    requires At(j, t, Acquire(plan, t, point))
    ensures t + 4 <= |j.prog|
    ensures j.prog[t] == AtPointID(plan, t, Trigger, Group("trigger"), "", point)
    ensures j.prog[t + 1] == Plain(plan, t + 1, Wait(ForTrigger), Group("trigger"), "")
    ensures j.prog[t + 2] == AtPointID(plan, t + 2, Read, Group("primary"), "readout_primary", point)
    ensures j.prog[t + 3] == Plain(plan, t + 3, Wait(ForRead), Group("scan_motor"), "readout_primary")
  {
    var part := Acquire(plan, t, point);
    AtIndex(j, t, part, 0);
    AtIndex(j, t, part, 1);
    AtIndex(j, t, part, 2);
    AtIndex(j, t, part, 3);
  }

  lemma NoTrigger(j: Job, plan: Plan, n: nat, ind: nat)
    requires plan.Valid() && ind < |plan.positions|
    requires var move := MoveAndWait(plan, n, plan.positions[ind]);
      At(j, n, move + AwaitPrevious(plan, n + |move|, ind))
    ensures var move := MoveAndWait(plan, n, plan.positions[ind]);
      forall i :: n <= i < n + |move| + |AwaitPrevious(plan, n + |move|, ind)| ==> !j.prog[i].action.Trigger?
  {
    var move := MoveAndWait(plan, n, plan.positions[ind]);
    var part := move + AwaitPrevious(plan, n + |move|, ind);
    forall i: nat | n <= i < n + |part| ensures !j.prog[i].action.Trigger? {
      AtIndex(j, n, part, i - n);
    }
  }

  lemma PointSegment(j: Job, plan: Plan, n: nat, ind: nat, k: nat, base: nat)
    requires plan.Valid() && ind < |plan.positions|
    requires At(j, n, AtEachPoint(plan, n, ind, base + k)) && Ready(j, plan, n)
    requires k > 0 ==> HasReadBefore(j, plan, n, base + k - 1)
    ensures var b := n + |AtEachPoint(plan, n, ind, base + k)|;
      && Ready(j, plan, b) && Separated(j, plan, n, b) && HasReadBefore(j, plan, b, base + k)
      && forall i :: n <= i < b && j.prog[i].action.Trigger? ==> Safe(j, plan, i, ind, k, base)
  {
    hide MoveAndWait, AwaitPrevious, At, HasReadBefore, HasPreviousRead, AllInPlace, Settled, WorkerAt;
    var move := MoveAndWait(plan, n, plan.positions[ind]);
    var await := AwaitPrevious(plan, n + |move|, ind);
    var t := n + |move| + |await|;
    AtSplit(j, n, move + await, Acquire(plan, t, base + k));
    ApproachSegment(j, plan, n, ind, k, base);
    NoTrigger(j, plan, n, ind);
    AcquireSegment(j, plan, t, base + k);
  }

  // ----- The acquisition loop -----

  /** The position index of each point, in the order the points are taken. */
  function Schedule(plan: Plan, ind: nat, b: nat): seq<nat>
    requires ind <= |plan.positions| && b <= plan.burst
    decreases |plan.positions| - ind, plan.burst - b
  {
    if ind == |plan.positions| then []
    else if b == plan.burst then Schedule(plan, ind + 1, 0)
    else [ind] + Schedule(plan, ind, b + 1)
  }

  ghost predicate Scheduled(j: Job, plan: Plan, i: nat, sched: seq<nat>, base: nat) {
    exists k: nat :: k < |sched| && Safe(j, plan, i, sched[k], k, base)
  }

  ghost predicate TriggersSafe(j: Job, plan: Plan, a: nat, b: nat, sched: seq<nat>, base: nat) {
    forall i: nat :: a <= i < b && i < |j.prog| && j.prog[i].action.Trigger? ==> Scheduled(j, plan, i, sched, base)
  }

  lemma {:induction false} CoreSafe(j: Job, plan: Plan, n: nat, ind: nat, b: nat, k: nat, base: nat, sched: seq<nat>)
    requires plan.Valid() && ind <= |plan.positions| && b <= plan.burst
    requires k <= |sched| && sched[k..] == Schedule(plan, ind, b)
    requires At(j, n, CoreFrom(plan, n, ind, b, base + k)) && Ready(j, plan, n)
    requires k > 0 ==> HasReadBefore(j, plan, n, base + k - 1)
    ensures var e := n + |CoreFrom(plan, n, ind, b, base + k)|;
      Ready(j, plan, e) && Separated(j, plan, n, e) && TriggersSafe(j, plan, n, e, sched, base)
    decreases |plan.positions| - ind, plan.burst - b
  {
    hide AtEachPoint, CoreFrom, Schedule, Ready, At, HasReadBefore, Safe, Separated, TriggersSafe;
    CoreUnfolds(plan, n, ind, b, base + k);
    if ind == |plan.positions| {
      NothingSeparated(j, plan, n);
      NothingTriggered(j, plan, n, sched, base);
    } else if b == plan.burst {
      CoreSafe(j, plan, n, ind + 1, 0, k, base, sched);
    } else {
      var here := AtEachPoint(plan, n, ind, base + k);
      var rest := CoreFrom(plan, n + |here|, ind, b + 1, base + k + 1);
      AtSplit(j, n, here, rest);
      assert sched[k..][0] == sched[k] == ind && sched[k..][1..] == sched[k + 1..] == Schedule(plan, ind, b + 1);
      PointSegment(j, plan, n, ind, k, base);
      CoreSafe(j, plan, n + |here|, ind, b + 1, k + 1, base, sched);
      SeparatedJoin(j, plan, n, n + |here|, n + |here| + |rest|);
      PointTriggers(j, plan, n, n + |here|, n + |here| + |rest|, k, base, sched);
    }
  }

  /** The loop and its schedule, one step unfolded. */
  lemma CoreUnfolds(plan: Plan, n: nat, ind: nat, b: nat, point: nat)
    requires plan.Valid() && ind <= |plan.positions| && b <= plan.burst
    ensures ind == |plan.positions| ==> CoreFrom(plan, n, ind, b, point) == [] && Schedule(plan, ind, b) == []
    ensures ind < |plan.positions| && b == plan.burst ==>
      CoreFrom(plan, n, ind, b, point) == CoreFrom(plan, n, ind + 1, 0, point) &&
      Schedule(plan, ind, b) == Schedule(plan, ind + 1, 0)
    ensures ind < |plan.positions| && b < plan.burst ==>
      var here := AtEachPoint(plan, n, ind, point);
      CoreFrom(plan, n, ind, b, point) == here + CoreFrom(plan, n + |here|, ind, b + 1, point + 1) &&
      Schedule(plan, ind, b) == [ind] + Schedule(plan, ind, b + 1)
  {
    hide AtEachPoint;
  }

  lemma NothingTriggered(j: Job, plan: Plan, n: nat, sched: seq<nat>, base: nat)
    ensures TriggersSafe(j, plan, n, n, sched, base)
  {
  }

  lemma PointTriggers(j: Job, plan: Plan, a: nat, b: nat, c: nat, k: nat, base: nat, sched: seq<nat>)
    requires k < |sched| && TriggersSafe(j, plan, b, c, sched, base) && b <= |j.prog|
    requires forall i :: a <= i < b && j.prog[i].action.Trigger? ==> Safe(j, plan, i, sched[k], k, base)
    ensures TriggersSafe(j, plan, a, c, sched, base)
  {
    hide Safe;
  }

  // ----- The whole stream -----

  lemma InitialReadSettles(j: Job, plan: Plan)
    requires At(j, 0, InitialRead(plan, 0))
    ensures Settled(j, plan, 2) && Separated(j, plan, 0, 2) && WorkerAt(j, 2).scanId == None
  {
    AtIndex(j, 0, InitialRead(plan, 0), 0);
    AtIndex(j, 0, InitialRead(plan, 0), 1);
    assert j.prog[0] == Plain(plan, 0, Read, Devices(plan.motors), "scan_motor");
    assert j.prog[1] == Plain(plan, 1, Wait(ForRead), Devices(plan.motors), "scan_motor");
    assert WorkerAt(j, 1) == IDLE_WORKER.(groups := Merge(map[], "scan_motor", ToSet(plan.motors), 0));
    assert forall d :: d in SentTo(j, 0) && d in plan.motors ==> Asks(j, 1, d, 0);
    ReadSettles(j, plan, 0);
  }

  lemma {:induction false} RpcsSettle(j: Job, plan: Plan, n: nat, k: nat)
    requires k <= |plan.motors| && At(j, n, Rpcs(plan, n))
    requires Settled(j, plan, n) && WorkerAt(j, n).scanId == None
    ensures Settled(j, plan, n + k) && Separated(j, plan, n, n + k) && WorkerAt(j, n + k).scanId == None
  {
    if k > 0 {
      RpcsSettle(j, plan, n, k - 1);
      RpcAt(j, plan, n, k - 1);
      hide Settled, Separated, WorkerAt, At, Rpcs;
      QuietSettles(j, plan, n + k - 1);
      RpcKeepsScanId(j, n + k - 1);
      SeparatedJoin(j, plan, n, n + k - 1, n + k);
    } else {
      NothingSeparated(j, plan, n);
    }
  }

  lemma RpcAt(j: Job, plan: Plan, n: nat, k: nat)
    requires At(j, n, Rpcs(plan, n)) && k < |plan.motors|
    ensures n + k < |j.prog| && j.prog[n + k].action.Rpc?
  {
    AtIndex(j, n, Rpcs(plan, n), k);
  }

  lemma RpcKeepsScanId(j: Job, n: nat)
    requires n < |j.prog| && j.prog[n].action.Rpc?
    ensures WorkerAt(j, n + 1).scanId == WorkerAt(j, n).scanId
  {
  }

  lemma OpeningReady(j: Job, plan: Plan, n: nat)
    requires At(j, n, Opening(plan, n)) && Settled(j, plan, n) && WorkerAt(j, n).scanId == None
    ensures Ready(j, plan, n + 3) && Separated(j, plan, n, n + 3)
  {
    OpeningParts(j, plan, n);
    QuietSettles(j, plan, n);
    OpenTells(j, plan, n);
    assert Ready(j, plan, n + 1);
    hide Settled, Separated, Ready, WorkerAt, At, Opening;
    QuietStep(j, plan, n + 1);
    QuietStep(j, plan, n + 2);
    SeparatedJoin(j, plan, n, n + 1, n + 2);
    SeparatedJoin(j, plan, n, n + 2, n + 3);
  }

  lemma OpeningParts(j: Job, plan: Plan, n: nat)
    requires At(j, n, Opening(plan, n))
    ensures n + 3 <= |j.prog|
    ensures j.prog[n] == Plain(plan, n, OpenScan(plan.motors, plan.priority, plan.NumPoints()), Unspecified, "")
    ensures j.prog[n + 1].action.Stage? && j.prog[n + 2].action.BaselineReading?
  {
    AtIndex(j, n, Opening(plan, n), 0);
    AtIndex(j, n, Opening(plan, n), 1);
    AtIndex(j, n, Opening(plan, n), 2);
  }

  /** Opening the scan tells the worker the scan motors and the readout priorities. */
  lemma OpenTells(j: Job, plan: Plan, n: nat)
    requires n < |j.prog| && WorkerAt(j, n).scanId == None
    requires j.prog[n] == Plain(plan, n, OpenScan(plan.motors, plan.priority, plan.NumPoints()), Unspecified, "")
    ensures WorkerAt(j, n + 1).scanMotors == plan.motors && WorkerAt(j, n + 1).priority == plan.priority
  {
  }

  lemma PreScanReady(j: Job, plan: Plan, n: nat)
    requires plan.Valid() && At(j, n, PreScanPart(plan, n)) && Ready(j, plan, n)
    ensures var e := n + |PreScanPart(plan, n)|; Ready(j, plan, e) && Separated(j, plan, n, e)
  {
    hide MoveAndWait, Ready, At, AllInPlace, Separated;
    var move := if plan.preMove && |plan.positions| > 0 then MoveAndWait(plan, n, plan.positions[0]) else [];
    var last := [Plain(plan, n + |move|, PreScan, Unspecified, "")];
    AtSplit(j, n, move, last);
    if plan.preMove && |plan.positions| > 0 {
      MoveSegment(j, plan, n, plan.positions[0]);
    } else {
      NothingSeparated(j, plan, n);
    }
    LastIsPreScan(j, plan, n + |move|);
    SeparatedJoin(j, plan, n, n + |move|, n + |move| + 1);
  }

  lemma LastIsPreScan(j: Job, plan: Plan, n: nat)
    requires At(j, n, [Plain(plan, n, PreScan, Unspecified, "")]) && Ready(j, plan, n)
    ensures Ready(j, plan, n + 1) && Separated(j, plan, n, n + 1)
  {
    AtIndex(j, n, [Plain(plan, n, PreScan, Unspecified, "")], 0);
    QuietStep(j, plan, n);
  }

  lemma PrologueReady(j: Job, plan: Plan)
    requires plan.Valid() && At(j, 0, Prologue(plan))
    ensures var e := |Prologue(plan)|; Ready(j, plan, e) && Separated(j, plan, 0, e)
  {
    hide At, Ready, Settled, InitialRead, Rpcs, Opening, PreScanPart;
    var m := |plan.motors|;
    var a, b, c, d := InitialRead(plan, 0), Rpcs(plan, 2), Opening(plan, 2 + m), PreScanPart(plan, 5 + m);
    Lengths(plan);
    AtSplit(j, 0, a + b + c, d);
    AtSplit(j, 0, a + b, c);
    AtSplit(j, 0, a, b);
    InitialReadSettles(j, plan);
    RpcsSettle(j, plan, 2, m);
    OpeningReady(j, plan, 2 + m);
    PreScanReady(j, plan, 5 + m);
  }

  lemma Lengths(plan: Plan)
    ensures |InitialRead(plan, 0)| == 2 && |Rpcs(plan, 2)| == |plan.motors| && |Opening(plan, 2 + |plan.motors|)| == 3
  {
  }

  lemma {:induction false} QuietTail(j: Job, plan: Plan, n: nat, part: seq<Instr>)
    requires At(j, n, part) && Ready(j, plan, n)
    requires forall i :: 0 <= i < |part| ==>
      !part[i].action.Set? && !part[i].action.Read? && !part[i].action.OpenScan? && !part[i].action.Trigger?
    ensures Separated(j, plan, n, n + |part|)
    ensures forall i :: n <= i < n + |part| ==> !j.prog[i].action.Trigger?
    decreases |part|
  {
    hide Ready;
    if part != [] {
      AtIndex(j, n, part, 0);
      assert part == part[..1] + part[1..];
      AtSplit(j, n, part[..1], part[1..]);
      QuietStep(j, plan, n);
      QuietTail(j, plan, n + 1, part[1..]);
    }
  }

  lemma EpilogueSeparated(j: Job, plan: Plan, n: nat)
    requires plan.Valid() && At(j, n, Epilogue(plan, n)) && Ready(j, plan, n)
    ensures Separated(j, plan, n, n + |Epilogue(plan, n)|)
    ensures forall i :: n <= i < n + |Epilogue(plan, n)| ==> !j.prog[i].action.Trigger?
  {
    hide Ready, AllInPlace, At;
    var back := MoveAndWait(plan, n, plan.startPos);
    var rest := Epilogue(plan, n)[|back|..];
    assert back + rest == Epilogue(plan, n);
    AtSplit(j, n, back, rest);
    MoveSegment(j, plan, n, plan.startPos);
    forall i: nat | n <= i < n + |back| ensures !j.prog[i].action.Trigger? {
      AtIndex(j, n, back, i - n);
    }
    QuietTail(j, plan, n + |back|, rest);
  }

  /** Every set of the stream finds its motor settled, and every trigger is safe. */
  lemma StreamSafe(j: Job, plan: Plan, base: nat)
    requires plan.Valid() && j.prog == Stream(plan, base)
    ensures j.Valid() && Separated(j, plan, 0, |j.prog|)
    ensures TriggersSafe(j, plan, 0, |j.prog|, Schedule(plan, 0, 0), base)
  {
    hide Prologue, CoreFrom, Epilogue, Ready, Scheduled, HasReadBefore;
    StreamNumbered(plan, base);
    var p, c := Prologue(plan), Core(plan, base);
    var e := Epilogue(plan, |p| + |c|);
    AtWhole(j);
    AtSplit(j, 0, p + c, e);
    AtSplit(j, 0, p, c);
    PrologueReady(j, plan);
    PrologueNoTrigger(j, plan);
    CoreSafe(j, plan, |p|, 0, 0, 0, base, Schedule(plan, 0, 0));
    EpilogueSeparated(j, plan, |p| + |c|);
  }

  lemma AtWhole(j: Job)
    ensures At(j, 0, j.prog)
  {
    assert j.prog[0..|j.prog|] == j.prog;
  }

  lemma PrologueNoTrigger(j: Job, plan: Plan)
    requires plan.Valid() && At(j, 0, Prologue(plan))
    ensures forall i :: 0 <= i < |Prologue(plan)| ==> !j.prog[i].action.Trigger?
  {
    forall i: nat | i < |Prologue(plan)| ensures !j.prog[i].action.Trigger? {
      AtIndex(j, 0, Prologue(plan), i);
    }
  }

  /** Point `k` belongs to position `k / burst`. */
  lemma {:induction false} ScheduleIs(plan: Plan, ind: nat, b: nat, x: nat)
    requires ind <= |plan.positions| && b <= plan.burst && x < |Schedule(plan, ind, b)|
    ensures plan.burst > 0
    ensures Schedule(plan, ind, b)[x] == (ind * plan.burst + b + x) / plan.burst < |plan.positions|
    decreases |plan.positions| - ind, plan.burst - b, x
  {
    if b == plan.burst {
      ScheduleIs(plan, ind + 1, 0, x);
      assert (ind + 1) * plan.burst + x == ind * plan.burst + b + x;
    } else if x == 0 {
      BlockOf(ind * plan.burst + b, plan.burst, ind, b);
    } else {
      ScheduleIs(plan, ind, b + 1, x - 1);
    }
  }

  // ----- Barrier safety -----

  /** Every scan motor stands at position `ind` and none of its sets is still under way. */
  ghost predicate MotorsAt(j: Job, plan: Plan, s: System, ind: nat) {
    && ind < |plan.positions| && |plan.positions[ind]| == |plan.motors|
    && (forall q: nat :: q < |plan.motors| ==>
         plan.motors[q] in s.pos && s.pos[plan.motors[q]] == plan.positions[ind][q])
    && MotorsIdle(j, plan, s)
  }

  ghost predicate MotorsIdle(j: Job, plan: Plan, s: System) {
    forall m, q: nat :: m in plan.motors && (m, q) in s.sent && IsSet(j, q, m) ==> (m, q) in s.done
  }

  /** `point` has been read from all monitored devices, and the readings of those in `who` are finished. */
  ghost predicate PointRead(j: Job, plan: Plan, s: System, point: nat, who: set<Device>) {
    exists r: nat ::
      && r < s.pc && r < |j.prog| && j.prog[r].action.Read? && j.prog[r].pointID == Some(point)
      && SentTo(j, r) == MonitoredBy(j, plan)
      && forall d :: d in who ==> (d, r) in s.done
  }

  ghost predicate AboutToSend(j: Job, s: System) {
    !s.busy && s.pc < |j.prog|
  }

  /**
    The worker is about to send the trigger of a point: all scan motors have arrived at that point's position, and
    the readings of the previous point are finished, those of the monitored motors always, those of all monitored
    devices from the second position on.
   */
  ghost predicate TriggerSafe(j: Job, plan: Plan, base: nat, s: System)
    requires AboutToSend(j, s)
  {
    var id := j.prog[s.pc].pointID;
    && id.Some? && id.value >= base && plan.burst > 0
    && var p := id.value - base;
    && MotorsAt(j, plan, s, p / plan.burst)
    && (p > 0 ==> PointRead(j, plan, s, id.value - 1, MonitoredBy(j, plan) * ToSet(plan.motors)))
    && (p >= plan.burst ==> PointRead(j, plan, s, id.value - 1, MonitoredBy(j, plan)))
  }

  /** Main result: every trigger of every run is safe. */
  lemma TriggerIsSafe(j: Job, plan: Plan, base: nat, run: seq<System>, k: nat)
    requires plan.Valid() && j.prog == Stream(plan, base)
    requires IsRun(j, run) && k < |run| && AboutToSend(j, run[k]) && j.prog[run[k].pc].action.Trigger?
    ensures TriggerSafe(j, plan, base, run[k])
  {
    hide SentTo, MotorsAt, PointRead, Stream, Schedule, Safe, Inv, IsRun;
    StreamSafe(j, plan, base);
    SeparatedSets(j, plan);
    RunKeeps(j, run, k);
    var s := run[k];
    var sched := Schedule(plan, 0, 0);
    assert Scheduled(j, plan, s.pc, sched, base);
    var p: nat :| p < |sched| && Safe(j, plan, s.pc, sched[p], p, base);
    ScheduleIs(plan, 0, 0, p);
    SafeMeans(j, plan, s, sched[p], p, base);
    PointIdOf(j, plan, s.pc, sched[p], p, base);
  }

  lemma SeparatedSets(j: Job, plan: Plan)
    requires Separated(j, plan, 0, |j.prog|)
    ensures SetsSeparated(j)
  {
  }

  lemma PointIdOf(j: Job, plan: Plan, t: nat, ind: nat, p: nat, base: nat)
    requires Safe(j, plan, t, ind, p, base)
    ensures j.prog[t].pointID == Some(base + p)
  {
  }

  lemma SafeMeans(j: Job, plan: Plan, s: System, ind: nat, p: nat, base: nat)
    requires Inv(j, s) && !s.busy && Safe(j, plan, s.pc, ind, p, base)
    ensures MotorsAt(j, plan, s, ind)
    ensures p > 0 ==> PointRead(j, plan, s, base + p - 1, MonitoredBy(j, plan) * ToSet(plan.motors))
    ensures p > 0 && ind > 0 ==> PointRead(j, plan, s, base + p - 1, MonitoredBy(j, plan))
  {
    hide SentTo, WorkerAt, Truthful;
    forall q: nat | q < |plan.motors|
      ensures plan.motors[q] in s.pos && s.pos[plan.motors[q]] == plan.positions[ind][q]
    {
      var m, x := plan.motors[q], plan.positions[ind][q];
      assert InPlace(j, s.pc, m, x);
      var r: nat :| LastSet(j, s.pc, m, r) && j.prog[r].action == Set(x);
      assert Awaited(j, s.pc, m, r);
    }
    if p > 0 {
      var r: nat :| PreviousRead(j, plan, s.pc, r, base + p - 1, ind > 0);
      assert forall d :: Awaited(j, s.pc, d, r) ==> (d, r) in s.done;
    }
  }

  /** Whenever the worker is about to set a motor, every earlier set and every earlier reading of it is finished. */
  lemma SetIsSafe(j: Job, plan: Plan, base: nat, run: seq<System>, k: nat, m: Device, q: nat)
    requires plan.Valid() && j.prog == Stream(plan, base)
    requires IsRun(j, run) && k < |run| && AboutToSend(j, run[k]) && IsSet(j, run[k].pc, m)
    requires (m, q) in run[k].sent && (IsSet(j, q, m) || IsRead(j, q, m))
    ensures m in plan.motors && (m, q) in run[k].done
  {
    StreamSafe(j, plan, base);
    SeparatedSets(j, plan);
    RunKeeps(j, run, k);
  }
}
