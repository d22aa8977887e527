/**
  The one gap in the barriers of a step scan: at the first position, bursts after the first are triggered
  without waiting for the other monitored devices.
 */
module BurstLag {
  import opened Instructions
  import opened StepScans
  import opened ScanWorkers
  import opened Barriers
  import opened StepScanBarriers

  // ----- Devices that withhold some reports never block a worker that does not ask for them -----

  /** A wait only asks for what has been sent, and never for a withheld report. */
  ghost predicate Answerable(j: Job, n: nat, withheld: set<(Device, nat)>) {
    forall k: nat, d, q: nat :: k < n && Asks(j, k, d, q) ==>
      q <= k && d in SentTo(j, q) && (d, q) !in withheld
  }

  function KeysFor(need: Need, scanId: ScanID, rid: string): StatusKeys {
    var records := map d | d in need.want :: Record(scanId, rid, need.want[d], true);
    match need.channel
    case ReqStatus => StatusKeys(records, map[], map[])
    case ReadStatus => StatusKeys(map[], records, map[])
    case StagedStatus => StatusKeys(map[], map[], records)
  }

  /** A state before instruction `n` in which everything sent is finished except the withheld reports. */
  ghost predicate Prompt(j: Job, s: System, n: nat, withheld: set<(Device, nat)>) {
    && n <= |j.prog| && s.pc == n && !s.busy && s.worker == WorkerAt(j, n)
    && (forall d, q: nat :: (d, q) in s.sent <==> q < n && d in SentTo(j, q))
    && s.done == s.sent - withheld
    && Truthful(j, s.keys, s.done)
  }

  ghost function Answer(j: Job, s: System, withheld: set<(Device, nat)>): System
    requires s.pc < |j.prog|
  {
    var done := s.sent - withheld;
    var keys := KeysFor(Wanted(j, s.pc), j.scanId, j.rid);
    var i := j.prog[s.pc];
    var pos := if i.action.Set?
      then s.pos + map d | d in SentTo(j, s.pc) && (d, s.pc) in done :: i.action.value
      else s.pos;
    s.(done := done, keys := keys, pos := pos)
  }

  lemma AnswerIsTruthful(j: Job, s: System, t: System, n: nat, withheld: set<(Device, nat)>)
    requires n < |j.prog| && s.pc == n && t == Answer(j, s, withheld)
    requires forall d, q: nat :: Asks(j, n, d, q) ==> (d, q) in s.sent && (d, q) !in withheld
    ensures Truthful(j, t.keys, t.done) && Met(t.keys, Wanted(j, n), j.scanId, j.rid)
  {
    hide Wanted, SentTo;
    var need := Wanted(j, n);
    forall c: Channel, d | d in t.keys.On(c) ensures (d, t.keys.On(c)[d].diid) in t.done {
      assert Asks(j, n, d, need.want[d]);
    }
  }

  lemma PromptStep(j: Job, s: System, n: nat, withheld: set<(Device, nat)>) returns (t: System, u: System, v: System)
    requires j.Valid() && n < |j.prog| && Prompt(j, s, n, withheld) && Answerable(j, n + 1, withheld)
    ensures Next(j, s, t) && Next(j, t, u) && Next(j, u, v) && Prompt(j, v, n + 1, withheld)
  {
    hide Begin, NeedOf, Recipients, Truthful;
    t := s.(busy := true, worker := During(j, n), sent := s.sent + set d | d in SentTo(j, n) :: (d, n));
    assert Dispatch(j, s, t);
    u := Answer(j, t, withheld);
    AnswerIsTruthful(j, t, u, n, withheld);
    assert Environment(j, t, u) by {
      forall d ensures Moved(j, t, u, d) {
        if (d, n) in u.done && j.prog[n].action.Set? {
          assert Arrives(j, t, u, d, n);
        } else {
          assert forall q: nat :: !Arrives(j, t, u, d, q);
        }
      }
    }
    v := u.(busy := false, pc := n + 1, worker := WorkerAt(j, n + 1));
    assert Proceed(j, u, v);
  }

  lemma {:induction false} PromptRun(j: Job, n: nat, withheld: set<(Device, nat)>) returns (run: seq<System>)
    requires j.Valid() && n <= |j.prog| && Answerable(j, n, withheld)
    ensures |run| > 0 && IsRun(j, run) && Prompt(j, run[|run| - 1], n, withheld)
  {
    hide Next, Truthful, Answerable;
    if n == 0 {
      run := [System(0, false, IDLE_WORKER, {}, {}, StatusKeys(map[], map[], map[]), map[])];
      NothingSent(j, run[0], withheld);
    } else {
      assert Answerable(j, n - 1, withheld) by { AnswerableEarlier(j, n - 1, n, withheld); }
      var before := PromptRun(j, n - 1, withheld);
      var t, u, v := PromptStep(j, before[|before| - 1], n - 1, withheld);
      run := before + [t, u, v];
    }
  }

  lemma AnswerableEarlier(j: Job, m: nat, n: nat, withheld: set<(Device, nat)>)
    requires m <= n && Answerable(j, n, withheld)
    ensures Answerable(j, m, withheld)
  {
  }

  lemma NothingSent(j: Job, s: System, withheld: set<(Device, nat)>)
    requires s == System(0, false, IDLE_WORKER, {}, {}, StatusKeys(map[], map[], map[]), map[])
    ensures Init(j, s) && Prompt(j, s, 0, withheld)
  {
  }

  // ----- The waits of a step scan only ask for what has been sent -----

  /** Wait groups are registered for the devices the instruction goes to; a wait for a trigger follows the trigger. */
  ghost predicate Tidy(s: seq<Instr>) {
    forall k: nat :: k < |s| ==> TidyAt(s, k)
  }

  ghost predicate TidyAt(s: seq<Instr>, k: nat)
    requires k < |s|
  {
      && (s[k].waitGroup != "" && !s[k].action.Wait? ==>
           s[k].action.Set? || (s[k].action.Read? && (s[k].target.Devices? || s[k].target == Group("primary"))))
      && (s[k].action == Wait(ForTrigger) ==> k > 0 && s[k - 1].action.Trigger?)
  }

  lemma TidyConcat(a: seq<Instr>, b: seq<Instr>)
    requires Tidy(a) && Tidy(b)
    ensures Tidy(a + b)
  {
    var s := a + b;
    forall k: nat | k < |s| ensures TidyAt(s, k) {
      if k >= |a| {
        assert TidyAt(b, k - |a|);
      } else {
        assert TidyAt(a, k);
      }
    }
  }

  lemma TidyPoint(plan: Plan, n: nat, ind: nat, point: nat)
    requires plan.Valid() && ind < |plan.positions|
    ensures Tidy(AtEachPoint(plan, n, ind, point))
  {
    var move := MoveAndWait(plan, n, plan.positions[ind]);
    var await := AwaitPrevious(plan, n + |move|, ind);
    TidyMove(plan, n, plan.positions[ind]);
    TidyAwait(plan, n + |move|, ind);
    TidyAcquire(plan, n + |move| + |await|, point);
    hide MoveAndWait, AwaitPrevious, Acquire, Tidy;
    TidyConcat(move, await);
    TidyConcat(move + await, Acquire(plan, n + |move| + |await|, point));
  }

  lemma TidyAwait(plan: Plan, n: nat, ind: nat)
    ensures Tidy(AwaitPrevious(plan, n, ind))
  {
  }

  lemma TidyMove(plan: Plan, n: nat, pos: seq<real>)
    requires |pos| == |plan.motors|
    ensures Tidy(MoveAndWait(plan, n, pos))
  {
  }

  lemma TidyAcquire(plan: Plan, n: nat, point: nat)
    ensures Tidy(Acquire(plan, n, point))
  {
  }

  lemma {:induction false} TidyCore(plan: Plan, n: nat, ind: nat, b: nat, point: nat)
    requires plan.Valid() && ind <= |plan.positions| && b <= plan.burst
    ensures Tidy(CoreFrom(plan, n, ind, b, point))
    decreases |plan.positions| - ind, plan.burst - b
  {
    hide AtEachPoint;
    if ind == |plan.positions| {
    } else if b == plan.burst {
      TidyCore(plan, n, ind + 1, 0, point);
    } else {
      var here := AtEachPoint(plan, n, ind, point);
      TidyPoint(plan, n, ind, point);
      TidyCore(plan, n + |here|, ind, b + 1, point + 1);
      TidyConcat(here, CoreFrom(plan, n + |here|, ind, b + 1, point + 1));
    }
  }

  lemma TidyPrologue(plan: Plan)
    requires plan.Valid()
    ensures Tidy(Prologue(plan))
  {
    var m := |plan.motors|;
    TidyConcat(InitialRead(plan, 0), Rpcs(plan, 2));
    TidyConcat(InitialRead(plan, 0) + Rpcs(plan, 2), Opening(plan, 2 + m));
    TidyConcat(InitialRead(plan, 0) + Rpcs(plan, 2) + Opening(plan, 2 + m), PreScanPart(plan, 5 + m));
  }

  lemma TidyEpilogue(plan: Plan, n: nat)
    requires plan.Valid()
    ensures Tidy(Epilogue(plan, n))
  {
  }

  lemma TidyStream(plan: Plan, base: nat)
    requires plan.Valid()
    ensures Tidy(Stream(plan, base))
  {
    hide Prologue, CoreFrom, Epilogue, Tidy;
    var p, c := Prologue(plan), Core(plan, base);
    TidyPrologue(plan);
    TidyCore(plan, |p|, 0, 0, base);
    TidyEpilogue(plan, |p| + |c|);
    TidyConcat(p, c);
    TidyConcat(p + c, Epilogue(plan, |p| + |c|));
  }

  ghost predicate Backed(j: Job, w: Worker, n: nat) {
    forall g, d :: g in w.groups && d in w.groups[g] ==> w.groups[g][d] < n && IsSentTo(j, w.groups[g][d], d)
  }

  ghost predicate IsSentTo(j: Job, q: nat, d: Device) {
    q < |j.prog| && d in SentTo(j, q)
  }

  lemma {:induction false} GroupsBacked(j: Job, n: nat)
    requires j.Valid() && Tidy(j.prog) && n <= |j.prog|
    ensures Backed(j, WorkerAt(j, n), n)
  {
    if n > 0 {
      GroupsBacked(j, n - 1);
      BeginBacked(j, n - 1);
      FinishBacked(j, During(j, n - 1), n);
    }
  }

  lemma BeginBacked(j: Job, n: nat)
    requires j.Valid() && Tidy(j.prog) && n < |j.prog| && Backed(j, WorkerAt(j, n), n)
    ensures Backed(j, During(j, n), n + 1)
  {
    hide IsSentTo, WorkerAt;
    var w, i := WorkerAt(j, n), j.prog[n];
    assert During(j, n).groups == Register(j.dm, w, i);
    if i.waitGroup != "" && !i.action.Wait? {
      forall d | d in Resolve(j.dm, w, i.target) ensures IsSentTo(j, n, d) {
        RegisteredIsSent(j, n, d);
      }
    }
  }

  lemma RegisteredIsSent(j: Job, n: nat, d: Device)
    requires Tidy(j.prog) && n < |j.prog| && j.prog[n].waitGroup != "" && !j.prog[n].action.Wait?
    requires d in Resolve(j.dm, WorkerAt(j, n), j.prog[n].target)
    ensures IsSentTo(j, n, d)
  {
    assert TidyAt(j.prog, n);
  }

  lemma FinishBacked(j: Job, w: Worker, n: nat)
    requires 0 < n <= |j.prog| && Backed(j, w, n)
    ensures Backed(j, Finish(j.dm, w, j.prog[n - 1]), n)
  {
    hide IsSentTo, Resolve;
  }

  lemma AsksBacked(j: Job, k: nat, d: Device, q: nat)
    requires j.Valid() && Tidy(j.prog) && Asks(j, k, d, q)
    ensures q <= k && IsSentTo(j, q, d)
  {
    assert TidyAt(j.prog, k);
    GroupsBacked(j, k);
    BeginBacked(j, k);
  }

  // ----- Two consecutive bursts at the first position -----

  /** Where the acquisitions of bursts `p - 1` and `p` of the first position start. */
  lemma {:induction false} FindBursts(j: Job, plan: Plan, base: nat, n: nat, b: nat, p: nat) returns (a: nat)
    requires plan.Valid() && |plan.positions| > 0 && b < p < plan.burst
    requires At(j, n, CoreFrom(plan, n, 0, b, base + b)) && Ready(j, plan, n)
    requires b > 0 ==> HasReadBefore(j, plan, n, base + b - 1)
    ensures Ready(j, plan, a)
    ensures var first := AtEachPoint(plan, a, 0, base + p - 1);
      At(j, a, first) && At(j, a + |first|, AtEachPoint(plan, a + |first|, 0, base + p))
    decreases p - b
  {
    hide AtEachPoint, Ready, At, HasReadBefore, Safe;
    var here := AtEachPoint(plan, n, 0, base + b);
    var m := n + |here|;
    AtSplit(j, n, here, CoreFrom(plan, m, 0, b + 1, base + b + 1));
    PointSegment(j, plan, n, 0, b, base);
    if b + 1 == p {
      a := n;
      var next := AtEachPoint(plan, m, 0, base + p);
      AtSplit(j, m, next, CoreFrom(plan, m + |next|, 0, p + 1, base + p + 1));
    } else {
      a := FindBursts(j, plan, base, m, b + 1, p);
    }
  }

  /** The shape of the two acquisitions: `r` is the read of the first, `t` the trigger of the second. */
  lemma BetweenBursts(j: Job, plan: Plan, a: nat, point: nat) returns (r: nat, t: nat)
    requires plan.Valid() && |plan.positions| > 0 && Ready(j, plan, a)
    requires var first := AtEachPoint(plan, a, 0, point);
      At(j, a, first) && At(j, a + |first|, AtEachPoint(plan, a + |first|, 0, point + 1))
    ensures r < t < |j.prog|
    ensures j.prog[r].action.Read? && j.prog[r].pointID == Some(point) && j.prog[r].target == Group("primary")
    ensures j.prog[t].action.Trigger? && j.prog[t].pointID == Some(point + 1)
    ensures forall k :: r < k < t ==> j.prog[k].action.Set? || OnlyMotors(j.prog[k])
    ensures a <= r && forall k :: a <= k < t ==> !j.prog[k].action.OpenScan?
  {
    hide AtEachPoint, MoveAndWait, Ready, At;
    var m1 := |MoveAndWait(plan, a, plan.positions[0])|;
    var c := a + m1 + 4;
    r, t := a + m1 + 2, c + m1;
    PointShape(j, plan, a, point);
    PointShape(j, plan, c, point + 1);
  }

  /** The acquisition of a burst at the first position: a move, a trigger and its wait, a read and its wait. */
  lemma PointShape(j: Job, plan: Plan, a: nat, point: nat)
    requires plan.Valid() && |plan.positions| > 0 && At(j, a, AtEachPoint(plan, a, 0, point))
    ensures var t := a + |MoveAndWait(plan, a, plan.positions[0])|;
      && |AtEachPoint(plan, a, 0, point)| == t - a + 4 && t + 4 <= |j.prog|
      && (forall k :: a <= k < t ==> j.prog[k].action.Set? || OnlyMotors(j.prog[k]))
      && j.prog[t].action.Trigger? && j.prog[t].pointID == Some(point)
      && j.prog[t + 1].action.Wait?
      && j.prog[t + 2].action.Read? && j.prog[t + 2].pointID == Some(point) && j.prog[t + 2].target == Group("primary")
      && OnlyMotors(j.prog[t + 3])
  {
    var move := MoveAndWait(plan, a, plan.positions[0]);
    var t := a + |move|;
    assert AtEachPoint(plan, a, 0, point) == move + Acquire(plan, t, point);
    AtSplit(j, a, move, Acquire(plan, t, point));
    MoveShape(j, plan, a);
    hide MoveAndWait, At, AtEachPoint;
    AtIndex(j, t, Acquire(plan, t, point), 0);
    AtIndex(j, t, Acquire(plan, t, point), 1);
    AtIndex(j, t, Acquire(plan, t, point), 2);
    AtIndex(j, t, Acquire(plan, t, point), 3);
  }

  lemma MoveShape(j: Job, plan: Plan, a: nat)
    requires plan.Valid() && |plan.positions| > 0 && At(j, a, MoveAndWait(plan, a, plan.positions[0]))
    ensures var t := a + |MoveAndWait(plan, a, plan.positions[0])|;
      t <= |j.prog| && forall k :: a <= k < t ==> j.prog[k].action.Set? || OnlyMotors(j.prog[k])
  {
    var move := MoveAndWait(plan, a, plan.positions[0]);
    forall k: nat | a <= k < a + |move| ensures j.prog[k].action.Set? || OnlyMotors(j.prog[k]) {
      AtIndex(j, a, move, k - a);
    }
  }

  predicate OnlyMotors(i: Instr) {
    i.action.Wait? && i.action.kind != ForTrigger && i.target == Group("scan_motor")
  }

  lemma OnlyMotorsAsked(j: Job, k: nat, d: Device, q: nat)
    requires k < |j.prog| && OnlyMotors(j.prog[k]) && Asks(j, k, d, q)
    ensures d in WorkerAt(j, k).scanMotors
  {
  }

  /** The motors stay the same as long as no scan is opened. */
  lemma {:induction false} MotorsKept(j: Job, a: nat, k: nat)
    requires a <= k <= |j.prog| && forall i :: a <= i < k ==> !j.prog[i].action.OpenScan?
    ensures WorkerAt(j, k).scanMotors == WorkerAt(j, a).scanMotors
    ensures WorkerAt(j, k).priority == WorkerAt(j, a).priority
  {
    if k > a { MotorsKept(j, a, k - 1); }
  }

  // ----- Points are read once -----

  /** Reads in the acquisition loop carry increasing point IDs, from `point` on. */
  ghost predicate ReadsIncrease(s: seq<Instr>, point: nat) {
    && (forall i :: 0 <= i < |s| && s[i].action.Read? ==> s[i].pointID.Some? && s[i].pointID.value >= point)
    && (forall i, k :: 0 <= i < k < |s| && s[i].action.Read? && s[k].action.Read? ==>
         s[i].pointID.value < s[k].pointID.value)
  }

  lemma PointReadsOnce(plan: Plan, n: nat, ind: nat, point: nat)
    requires plan.Valid() && ind < |plan.positions|
    ensures ReadsIncrease(AtEachPoint(plan, n, ind, point), point)
    ensures var s := AtEachPoint(plan, n, ind, point);
      forall i :: 0 <= i < |s| && s[i].action.Read? ==> s[i].pointID == Some(point)
  {
    var move := MoveAndWait(plan, n, plan.positions[ind]);
    assert forall i :: 0 <= i < |move| ==> !move[i].action.Read?;
    hide MoveAndWait;
  }

  lemma {:induction false} CoreReadsIncrease(plan: Plan, n: nat, ind: nat, b: nat, point: nat)
    requires plan.Valid() && ind <= |plan.positions| && b <= plan.burst
    ensures ReadsIncrease(CoreFrom(plan, n, ind, b, point), point)
    decreases |plan.positions| - ind, plan.burst - b
  {
    hide AtEachPoint;
    if ind == |plan.positions| {
    } else if b == plan.burst {
      CoreReadsIncrease(plan, n, ind + 1, 0, point);
    } else {
      var here := AtEachPoint(plan, n, ind, point);
      PointReadsOnce(plan, n, ind, point);
      CoreReadsIncrease(plan, n + |here|, ind, b + 1, point + 1);
    }
  }

  lemma ReadOnce(j: Job, plan: Plan, base: nat, r: nat, q: nat)
    requires plan.Valid() && j.prog == Stream(plan, base)
    requires r < |j.prog| && j.prog[r].action.Read? && j.prog[r].pointID.Some?
    requires q < |j.prog| && j.prog[q].action.Read? && j.prog[q].pointID == j.prog[r].pointID
    ensures q == r
  {
    var p, c := Prologue(plan), Core(plan, base);
    CoreReadsIncrease(plan, |p|, 0, 0, base);
    NoPointReads(p, plan);
    hide Prologue, CoreFrom;
    NoReads(plan, |p| + |c|);
    hide Epilogue;
    assert j.prog[r] == c[r - |p|] && j.prog[q] == c[q - |p|];
  }

  lemma NoPointReads(p: seq<Instr>, plan: Plan)
    requires plan.Valid() && p == Prologue(plan)
    ensures forall i :: 0 <= i < |p| && p[i].action.Read? ==> p[i].pointID == None
  {
  }

  lemma NoReads(plan: Plan, n: nat)
    requires plan.Valid()
    ensures forall i :: 0 <= i < |Epilogue(plan, n)| ==> !Epilogue(plan, n)[i].action.Read?
  {
  }

  // ----- Exactly when the previous reading is guaranteed -----

  /**
    A run in which the trigger of burst `p` of the first position is sent although `d` has not finished
    reading the burst before.
   */
  lemma LaggingRun(j: Job, plan: Plan, base: nat, p: nat, d: Device) returns (run: seq<System>)
    requires plan.Valid() && j.prog == Stream(plan, base) && |plan.positions| > 0 && 0 < p < plan.burst
    requires d in MonitoredBy(j, plan) && d !in plan.motors
    ensures |run| > 0 && IsRun(j, run)
    ensures var s := run[|run| - 1];
      && AboutToSend(j, s) && j.prog[s.pc].action.Trigger? && j.prog[s.pc].pointID == Some(base + p)
      && !PointRead(j, plan, s, base + p - 1, MonitoredBy(j, plan))
  {
    hide Stream, AtEachPoint, Ready, At, Tidy, Answerable, PointRead, IsRun;
    StreamNumbered(plan, base);
    TidyStream(plan, base);
    CoreStart(j, plan, base);
    var a := FindBursts(j, plan, base, |Prologue(plan)|, 0, p);
    var r, t := BetweenBursts(j, plan, a, base + p - 1);
    ReadyMotors(j, plan, a);
    LagAnswerable(j, plan, a, r, t, d);
    run := PromptRun(j, t, {(d, r)});
    LagUnread(j, plan, base, run[|run| - 1], r, d);
  }

  lemma CoreStart(j: Job, plan: Plan, base: nat)
    requires plan.Valid() && j.prog == Stream(plan, base)
    ensures At(j, |Prologue(plan)|, Core(plan, base)) && Ready(j, plan, |Prologue(plan)|)
  {
    hide Prologue, CoreFrom, Epilogue, Ready, At;
    var p, c := Prologue(plan), Core(plan, base);
    AtWhole(j);
    AtSplit(j, 0, p + c, Epilogue(plan, |p| + |c|));
    AtSplit(j, 0, p, c);
    PrologueReady(j, plan);
  }

  lemma ReadyMotors(j: Job, plan: Plan, n: nat)
    requires Ready(j, plan, n)
    ensures n <= |j.prog| && WorkerAt(j, n).scanMotors == plan.motors
  {
  }

  lemma LagAnswerable(j: Job, plan: Plan, a: nat, r: nat, t: nat, d: Device)
    requires j.Valid() && Tidy(j.prog) && a <= r < t < |j.prog| && d !in plan.motors
    requires WorkerAt(j, a).scanMotors == plan.motors
    requires forall k :: a <= k < t ==> !j.prog[k].action.OpenScan?
    requires j.prog[r].action.Read? && forall k :: r < k < t ==> j.prog[k].action.Set? || OnlyMotors(j.prog[k])
    ensures Answerable(j, t, {(d, r)})
  {
    hide WorkerAt;
    forall k: nat, e, q: nat | k < t && Asks(j, k, e, q)
      ensures q <= k && e in SentTo(j, q) && (e, q) != (d, r)
    {
      AsksBacked(j, k, e, q);
      if q == r && k > r {
        MotorsKept(j, a, k);
        OnlyMotorsAsked(j, k, e, q);
      }
    }
  }

  lemma LagUnread(j: Job, plan: Plan, base: nat, s: System, r: nat, d: Device)
    requires plan.Valid() && j.prog == Stream(plan, base) && r < |j.prog| && d in MonitoredBy(j, plan)
    requires j.prog[r].action.Read? && j.prog[r].pointID.Some? && (d, r) !in s.done
    ensures !PointRead(j, plan, s, j.prog[r].pointID.value, MonitoredBy(j, plan))
  {
    forall q: nat | q < |j.prog| && j.prog[q].action.Read? && j.prog[q].pointID == j.prog[r].pointID ensures q == r {
      ReadOnce(j, plan, base, r, q);
    }
  }

  /** In every run, the trigger of point `base + p` waits for all monitored devices to have read the point before. */
  ghost predicate AlwaysWaits(j: Job, plan: Plan, base: nat, p: nat)
    requires p > 0
  {
    forall run: seq<System>, k: nat ::
      IsRun(j, run) && k < |run| && TriggerOf(j, run[k], base + p) ==>
        PointRead(j, plan, run[k], base + p - 1, MonitoredBy(j, plan))
  }

  ghost predicate TriggerOf(j: Job, s: System, point: nat) {
    AboutToSend(j, s) && j.prog[s.pc].action.Trigger? && j.prog[s.pc].pointID == Some(point)
  }

  /**
    The reading of the previous point is guaranteed exactly for points beyond the first position's bursts,
    or when nothing but scan motors is monitored.
   */
  lemma WaitsIff(j: Job, plan: Plan, base: nat, p: nat)
    requires plan.Valid() && j.prog == Stream(plan, base) && 0 < p < plan.NumPoints()
    ensures AlwaysWaits(j, plan, base, p) <==> p >= plan.burst || MonitoredBy(j, plan) <= ToSet(plan.motors)
  {
    hide Stream, PointRead, IsRun, MotorsAt;
    if p >= plan.burst || MonitoredBy(j, plan) <= ToSet(plan.motors) {
      forall run: seq<System>, k: nat | IsRun(j, run) && k < |run| && TriggerOf(j, run[k], base + p)
        ensures PointRead(j, plan, run[k], base + p - 1, MonitoredBy(j, plan))
      {
        TriggerIsSafe(j, plan, base, run, k);
        assert MonitoredBy(j, plan) <= ToSet(plan.motors) ==>
          MonitoredBy(j, plan) * ToSet(plan.motors) == MonitoredBy(j, plan);
      }
    } else {
      var d :| d in MonitoredBy(j, plan) && d !in plan.motors;
      var run := LaggingRun(j, plan, base, p, d);
      assert TriggerOf(j, run[|run| - 1], base + p);
    }
  }
}
