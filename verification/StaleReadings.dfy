/**
  Several requests of one scan: what earlier requests have left in the status keys can satisfy a wait for a reading,
  because that wait compares scan ID and DIID but not the request.
 */
module StaleReadings {
  import opened Instructions
  import opened StepScans
  import opened ScanWorkers
  import opened Barriers
  import opened StepScanBarriers
  import opened BurstLag
  import opened AbortBarriers
  import opened MoveBarriers

  /** The devices' last reports to earlier requests of the scan: on which channel, by whom, with which DIID. */
  type Reports = set<(Channel, Device, nat)>

  // ----- Runs of a request that is not the first of its scan -----

  /** A success of this scan is backed by a finished instruction, or was reported to an earlier request. */
  ghost predicate TruthfulAmong(j: Job, stale: Reports, keys: StatusKeys, done: set<(Device, nat)>) {
    forall c: Channel, d ::
      d in keys.On(c) && keys.On(c)[d].ok && keys.On(c)[d].scanId == j.scanId ==>
        (d, keys.On(c)[d].diid) in done || (keys.On(c)[d].rid != j.rid && (c, d, keys.On(c)[d].diid) in stale)
  }

  ghost predicate InitAmong(j: Job, stale: Reports, s: System) {
    && s.pc == 0 && !s.busy && s.worker == IDLE_WORKER && s.sent == {} && s.done == {}
    && TruthfulAmong(j, stale, s.keys, s.done)
  }

  ghost predicate EnvironmentAmong(j: Job, stale: Reports, s: System, t: System) {
    && t == s.(done := t.done, keys := t.keys, pos := t.pos)
    && s.done <= t.done <= s.sent
    && TruthfulAmong(j, stale, t.keys, t.done)
    && forall d :: Moved(j, s, t, d)
  }

  ghost predicate NextAmong(j: Job, stale: Reports, s: System, t: System) {
    Dispatch(j, s, t) || Proceed(j, s, t) || EnvironmentAmong(j, stale, s, t)
  }

  ghost predicate IsRunAmong(j: Job, stale: Reports, run: seq<System>) {
    && |run| > 0 && InitAmong(j, stale, run[0])
    && forall k :: 0 <= k < |run| - 1 ==> NextAmong(j, stale, run[k], run[k + 1])
  }

  /** An earlier report can satisfy what wait `k` asks of `d`. */
  ghost predicate Satisfies(j: Job, stale: Reports, k: nat, d: Device, q: nat)
    requires k < |j.prog|
  {
    !Wanted(j, k).checkRID && (Wanted(j, k).channel, d, q) in stale
  }

  /** Some wait before `n` asks for it that no earlier report can satisfy. */
  ghost predicate FirmlyAwaited(j: Job, stale: Reports, n: nat, d: Device, q: nat) {
    exists k: nat :: k < n && Asks(j, k, d, q) && !Satisfies(j, stale, k, d, q)
  }

  ghost predicate InvAmong(j: Job, stale: Reports, s: System) {
    && Frontier(s) <= |j.prog|
    && s.worker == (if s.busy then During(j, s.pc) else WorkerAt(j, s.pc))
    && TruthfulAmong(j, stale, s.keys, s.done)
    && (forall d, q: nat :: FirmlyAwaited(j, stale, s.pc, d, q) ==> (d, q) in s.done)
  }

  lemma ProceedAmong(j: Job, stale: Reports, s: System, t: System)
    requires InvAmong(j, stale, s) && Proceed(j, s, t)
    ensures InvAmong(j, stale, t)
  {
    hide Begin, Recipients, NeedOf;
    forall d, q: nat | FirmlyAwaited(j, stale, t.pc, d, q) ensures (d, q) in t.done {
      var k: nat :| k < t.pc && Asks(j, k, d, q) && !Satisfies(j, stale, k, d, q);
      if k < s.pc {
        assert FirmlyAwaited(j, stale, s.pc, d, q);
      } else {
        assert d in s.keys.On(Wanted(j, k).channel);
      }
    }
  }

  lemma {:induction false} RunKeepsAmong(j: Job, stale: Reports, run: seq<System>, k: nat)
    requires IsRunAmong(j, stale, run) && k < |run|
    ensures InvAmong(j, stale, run[k])
  {
    if k > 0 {
      hide Begin, Recipients, NeedOf, Wanted, TruthfulAmong;
      RunKeepsAmong(j, stale, run, k - 1);
      var s, t := run[k - 1], run[k];
      assert NextAmong(j, stale, s, t);
      if Dispatch(j, s, t) {
      } else if Proceed(j, s, t) {
        ProceedAmong(j, stale, s, t);
      }
    }
  }

  // ----- Runs in which earlier reports answer -----

  /** What is asked for has been sent, and is not withheld unless an earlier report satisfies the wait. */
  ghost predicate AnswerableAmong(j: Job, stale: Reports, n: nat, withheld: set<(Device, nat)>) {
    forall k: nat, d, q: nat :: k < n && Asks(j, k, d, q) ==>
      q <= k && d in SentTo(j, q) && ((d, q) in withheld ==> Satisfies(j, stale, k, d, q))
  }

  ghost function KeysAmong(j: Job, need: Need, withheld: set<(Device, nat)>): StatusKeys {
    var records := map d | d in need.want ::
      Record(j.scanId, if (d, need.want[d]) in withheld then j.rid + "-" else j.rid, need.want[d], true);
    match need.channel
    case ReqStatus => StatusKeys(records, map[], map[])
    case ReadStatus => StatusKeys(map[], records, map[])
    case StagedStatus => StatusKeys(map[], map[], records)
  }

  ghost predicate PromptAmong(j: Job, stale: Reports, s: System, n: nat, withheld: set<(Device, nat)>) {
    && n <= |j.prog| && s.pc == n && !s.busy && s.worker == WorkerAt(j, n)
    && (forall d, q: nat :: (d, q) in s.sent <==> q < n && d in SentTo(j, q))
    && s.done == s.sent - withheld
    && TruthfulAmong(j, stale, s.keys, s.done)
  }

  ghost function AnswerAmong(j: Job, s: System, withheld: set<(Device, nat)>): System
    requires s.pc < |j.prog|
  {
    var done, i := s.sent - withheld, j.prog[s.pc];
    var pos := if i.action.Set?
      then s.pos + map d | d in SentTo(j, s.pc) && (d, s.pc) in done :: i.action.value
      else s.pos;
    s.(done := done, keys := KeysAmong(j, Wanted(j, s.pc), withheld), pos := pos)
  }

  lemma OtherRequest(rid: string)
    ensures rid + "-" != rid
  {
    assert |rid + "-"| == |rid| + 1;
  }

  lemma AnswerAmongTruthful(j: Job, stale: Reports, s: System, t: System, n: nat, withheld: set<(Device, nat)>)
    requires n < |j.prog| && s.pc == n && t == AnswerAmong(j, s, withheld)
    requires forall d, q: nat :: Asks(j, n, d, q) ==>
      (d, q) in s.sent && ((d, q) in withheld ==> Satisfies(j, stale, n, d, q))
    ensures TruthfulAmong(j, stale, t.keys, t.done) && Met(t.keys, Wanted(j, n), j.scanId, j.rid)
  {
    hide Wanted, SentTo;
    OtherRequest(j.rid);
    var need := Wanted(j, n);
    forall d | d in need.want ensures Asks(j, n, d, need.want[d]) {}
    forall c: Channel, d | d in t.keys.On(c)
      ensures (d, t.keys.On(c)[d].diid) in t.done
        || (t.keys.On(c)[d].rid != j.rid && (c, d, t.keys.On(c)[d].diid) in stale)
    {
      assert Asks(j, n, d, need.want[d]);
    }
  }

  lemma PromptStepAmong(j: Job, stale: Reports, s: System, n: nat, withheld: set<(Device, nat)>)
    returns (t: System, u: System, v: System)
    requires j.Valid() && n < |j.prog| && PromptAmong(j, stale, s, n, withheld)
    requires AnswerableAmong(j, stale, n + 1, withheld)
    ensures NextAmong(j, stale, s, t) && NextAmong(j, stale, t, u) && NextAmong(j, stale, u, v)
    ensures PromptAmong(j, stale, v, n + 1, withheld)
  {
    hide Begin, NeedOf, Recipients, TruthfulAmong, Satisfies;
    t := s.(busy := true, worker := During(j, n), sent := s.sent + set d | d in SentTo(j, n) :: (d, n));
    assert Dispatch(j, s, t);
    u := AnswerAmong(j, t, withheld);
    AnswerAmongTruthful(j, stale, t, u, n, withheld);
    assert EnvironmentAmong(j, stale, t, u) by {
      forall d ensures Moved(j, t, u, d) {
        if (d, n) in u.done && j.prog[n].action.Set? {
          assert Arrives(j, t, u, d, n);
        } else {
          assert forall q: nat :: !Arrives(j, t, u, d, q);
        }
      }
    }
    v := u.(busy := false, pc := n + 1, worker := WorkerAt(j, n + 1));
    assert Proceed(j, u, v);
  }

  lemma {:induction false} PromptRunAmong(j: Job, stale: Reports, n: nat, withheld: set<(Device, nat)>)
    returns (run: seq<System>)
    requires j.Valid() && n <= |j.prog| && AnswerableAmong(j, stale, n, withheld)
    ensures |run| > 0 && IsRunAmong(j, stale, run) && PromptAmong(j, stale, run[|run| - 1], n, withheld)
  {
    hide NextAmong, TruthfulAmong, AnswerableAmong;
    if n == 0 {
      run := [System(0, false, IDLE_WORKER, {}, {}, StatusKeys(map[], map[], map[]), map[])];
      NothingSentAmong(j, stale, run[0], withheld);
    } else {
      assert AnswerableAmong(j, stale, n - 1, withheld) by { AnswerableEarlierAmong(j, stale, n - 1, n, withheld); }
      var before := PromptRunAmong(j, stale, n - 1, withheld);
      var t, u, v := PromptStepAmong(j, stale, before[|before| - 1], n - 1, withheld);
      run := before + [t, u, v];
    }
  }

  lemma AnswerableEarlierAmong(j: Job, stale: Reports, m: nat, n: nat, withheld: set<(Device, nat)>)
    requires m <= n && AnswerableAmong(j, stale, n, withheld)
    ensures AnswerableAmong(j, stale, m, withheld)
  {
  }

  lemma NothingSentAmong(j: Job, stale: Reports, s: System, withheld: set<(Device, nat)>)
    requires s == System(0, false, IDLE_WORKER, {}, {}, StatusKeys(map[], map[], map[]), map[])
    ensures InitAmong(j, stale, s) && PromptAmong(j, stale, s, 0, withheld)
  {
  }

  // ----- What the waits guarantee -----

  /** In every run among these earlier reports, `d` has finished `q` when the worker stands at instruction `n`. */
  ghost predicate GuaranteedAmong(j: Job, stale: Reports, n: nat, d: Device, q: nat) {
    forall run: seq<System>, k: nat ::
      IsRunAmong(j, stale, run) && k < |run| && StandsAt(run[k], n) ==> (d, q) in run[k].done
  }

  lemma StaleRun(j: Job, stale: Reports, n: nat, d: Device, q: nat) returns (run: seq<System>)
    requires j.Valid() && Tidy(j.prog) && q < n <= |j.prog| && d in SentTo(j, q)
    requires !FirmlyAwaited(j, stale, n, d, q)
    ensures |run| > 0 && IsRunAmong(j, stale, run)
    ensures var s := run[|run| - 1]; StandsAt(s, n) && !s.busy && (d, q) in s.sent && (d, q) !in s.done
  {
    hide Tidy, IsRunAmong, SentTo, Wanted, TruthfulAmong, Satisfies;
    forall k: nat, e, r: nat | k < n && Asks(j, k, e, r)
      ensures r <= k && e in SentTo(j, r) && ((e, r) in {(d, q)} ==> Satisfies(j, stale, k, e, r))
    {
      AsksBacked(j, k, e, r);
    }
    run := PromptRunAmong(j, stale, n, {(d, q)});
  }

  /**
    Main result: among the reports of earlier requests, an instruction of a step scan is sure to be finished if and
    only if some wait before has asked for it that none of these reports can satisfy.
   */
  lemma GuaranteedAmongIff(j: Job, plan: Plan, base: nat, stale: Reports, n: nat, d: Device, q: nat)
    requires plan.Valid() && j.prog == Stream(plan, base) && q < n <= |j.prog| && d in SentTo(j, q)
    ensures GuaranteedAmong(j, stale, n, d, q) <==> FirmlyAwaited(j, stale, n, d, q)
  {
    hide Stream, FirmlyAwaited, IsRunAmong, Tidy;
    StreamNumbered(plan, base);
    if FirmlyAwaited(j, stale, n, d, q) {
      forall run: seq<System>, k: nat | IsRunAmong(j, stale, run) && k < |run| && StandsAt(run[k], n)
        ensures (d, q) in run[k].done
      {
        RunKeepsAmong(j, stale, run, k);
      }
    } else {
      TidyStream(plan, base);
      var run := StaleRun(j, stale, n, d, q);
    }
  }

  // ----- The readings of a step scan -----

  /** The readings of the points enter their own wait group, and only waits for readings ask for it. */
  lemma ReadAsked(j: Job, plan: Plan, base: nat, k: nat, d: Device, r: nat)
    requires plan.Valid() && j.prog == Stream(plan, base) && OpeningEnd(plan) <= r < |j.prog| && j.prog[r].action.Read?
    requires Asks(j, k, d, r)
    ensures k < |j.prog| && j.prog[k].action == Wait(ForRead)
  {
    hide Stream, SentTo, Tidy, Asks;
    StreamNumbered(plan, base);
    TidyStream(plan, base);
    StreamGrouped(j, plan, base);
    AsksInside(j, k, d, r);
    assert GroupedAt(j.prog[r]);
    if !j.prog[k].action.Wait? {
      ReadNotSelfAsked(j, k, d, r);
    } else if j.prog[k].action.kind == ForTrigger {
      TriggerAsked(j, k, d, r);
    } else {
      GroupAsked(j, k, d, r);
      AsksBacked(j, k, d, r);
      assert GroupedAt(j.prog[k]);
    }
  }

  lemma ReadNotSelfAsked(j: Job, k: nat, d: Device, q: nat)
    requires j.Valid() && k < |j.prog| && !j.prog[k].action.Wait? && Asks(j, k, d, q)
    ensures q == k && !j.prog[q].action.Read?
  {
  }

  lemma ReadWaitNeed(j: Job, k: nat)
    requires k < |j.prog| && j.prog[k].action == Wait(ForRead)
    ensures Wanted(j, k).channel == ReadStatus && !Wanted(j, k).checkRID
  {
  }

  /**
    Main result, the exact condition: the reading of a point is sure to be finished wherever a wait before has asked
    for it, unless an earlier request of the scan left the device on that very DIID.
   */
  lemma ReadingGuaranteedIff(j: Job, plan: Plan, base: nat, stale: Reports, n: nat, d: Device, r: nat)
    requires plan.Valid() && j.prog == Stream(plan, base) && OpeningEnd(plan) <= r < n <= |j.prog|
    requires j.prog[r].action.Read? && d in SentTo(j, r)
    ensures GuaranteedAmong(j, stale, n, d, r) <==> Awaited(j, n, d, r) && (ReadStatus, d, r) !in stale
  {
    hide Stream, SentTo, Asks, Wanted, GuaranteedAmong;
    GuaranteedAmongIff(j, plan, base, stale, n, d, r);
    forall k: nat | k < n && Asks(j, k, d, r)
      ensures k < |j.prog| && (Satisfies(j, stale, k, d, r) <==> (ReadStatus, d, r) in stale)
    {
      ReadAsked(j, plan, base, k, d, r);
      ReadWaitNeed(j, k);
    }
  }

  /** So a trigger is sent on a stale reading if an earlier request left the device on the DIID of the point before. */
  lemma TriggerOnStale(j: Job, plan: Plan, base: nat, stale: Reports, t: nat, d: Device, r: nat)
    returns (run: seq<System>)
    requires plan.Valid() && j.prog == Stream(plan, base) && OpeningEnd(plan) <= r < t < |j.prog|
    requires j.prog[r].action.Read? && j.prog[t].action.Trigger? && d in SentTo(j, r)
    requires (ReadStatus, d, r) in stale
    ensures |run| > 0 && IsRunAmong(j, stale, run)
    ensures var s := run[|run| - 1];
      AboutToSend(j, s) && s.pc == t && (d, r) in s.sent && (d, r) !in s.done
  {
    hide Stream, SentTo, Asks, Wanted, IsRunAmong, Tidy;
    StreamNumbered(plan, base);
    TidyStream(plan, base);
    forall k: nat | k < t && Asks(j, k, d, r) ensures k < |j.prog| && Satisfies(j, stale, k, d, r) {
      ReadAsked(j, plan, base, k, d, r);
      ReadWaitNeed(j, k);
    }
    run := StaleRun(j, stale, t, d, r);
  }

  // ----- Earlier reports that satisfy no wait -----

  ghost predicate Harmless(j: Job, stale: Reports) {
    forall k: nat, d, q: nat :: Asks(j, k, d, q) ==> !Satisfies(j, stale, k, d, q)
  }

  /** The records a wait of this request may rely on. */
  ghost function Reliable(j: Job, records: map<Device, Record>, done: set<(Device, nat)>): map<Device, Record> {
    map d | d in records && (records[d].ok && records[d].scanId == j.scanId ==> (d, records[d].diid) in done) ::
      records[d]
  }

  /** The state without the earlier requests' reports. */
  ghost function Fresh(j: Job, s: System): System {
    s.(keys := StatusKeys(Reliable(j, s.keys.On(ReqStatus), s.done), Reliable(j, s.keys.On(ReadStatus), s.done),
                          Reliable(j, s.keys.On(StagedStatus), s.done)))
  }

  lemma FreshKeys(j: Job, s: System, c: Channel)
    ensures Fresh(j, s).keys.On(c) == Reliable(j, s.keys.On(c), s.done)
  {
  }

  lemma FreshTruthful(j: Job, s: System)
    ensures Truthful(j, Fresh(j, s).keys, s.done)
  {
    forall c: Channel ensures Fresh(j, s).keys.On(c) == Reliable(j, s.keys.On(c), s.done) { FreshKeys(j, s, c); }
  }

  lemma FreshProceed(j: Job, stale: Reports, s: System, t: System)
    requires Harmless(j, stale) && InvAmong(j, stale, s) && Proceed(j, s, t)
    ensures Proceed(j, Fresh(j, s), Fresh(j, t))
  {
    hide Begin, Recipients, NeedOf;
    var need := Wanted(j, s.pc);
    FreshKeys(j, s, need.channel);
    forall d | d in need.want
      ensures d in Fresh(j, s).keys.On(need.channel) && (d, need.want[d]) in s.done
    {
      assert Asks(j, s.pc, d, need.want[d]);
      assert !Satisfies(j, stale, s.pc, d, need.want[d]);
    }
  }

  lemma FreshNext(j: Job, stale: Reports, s: System, t: System)
    requires Harmless(j, stale) && InvAmong(j, stale, s) && NextAmong(j, stale, s, t)
    ensures Next(j, Fresh(j, s), Fresh(j, t))
  {
    hide Begin, Recipients, NeedOf, Truthful, TruthfulAmong, Reliable, Wanted;
    if Dispatch(j, s, t) {
      assert Dispatch(j, Fresh(j, s), Fresh(j, t));
    } else if Proceed(j, s, t) {
      FreshProceed(j, stale, s, t);
    } else {
      FreshTruthful(j, t);
      forall d ensures Moved(j, Fresh(j, s), Fresh(j, t), d) {
        assert Moved(j, s, t, d);
        assert forall q: nat :: Arrives(j, Fresh(j, s), Fresh(j, t), d, q) <==> Arrives(j, s, t, d, q);
      }
      assert Environment(j, Fresh(j, s), Fresh(j, t));
    }
  }

  ghost function FreshRun(j: Job, run: seq<System>): seq<System> {
    seq(|run|, k requires 0 <= k < |run| => Fresh(j, run[k]))
  }

  /** Among reports that satisfy no wait, a run is one of a request that is the first of its scan. */
  lemma FreshIsRun(j: Job, stale: Reports, run: seq<System>)
    requires Harmless(j, stale) && IsRunAmong(j, stale, run)
    ensures IsRun(j, FreshRun(j, run))
  {
    hide NextAmong, InvAmong, Harmless, Next, Fresh;
    var own := FreshRun(j, run);
    FreshInit(j, stale, run[0]);
    forall k | 0 <= k < |own| - 1 ensures Next(j, own[k], own[k + 1]) {
      RunKeepsAmong(j, stale, run, k);
      FreshNext(j, stale, run[k], run[k + 1]);
    }
  }

  lemma FreshInit(j: Job, stale: Reports, s: System)
    requires InitAmong(j, stale, s)
    ensures Init(j, Fresh(j, s))
  {
    FreshTruthful(j, s);
  }

  /** Main result: every trigger is safe if no earlier report satisfies a wait. */
  lemma TriggerSafeAmong(j: Job, plan: Plan, base: nat, stale: Reports, run: seq<System>, k: nat)
    requires plan.Valid() && j.prog == Stream(plan, base) && Harmless(j, stale)
    requires IsRunAmong(j, stale, run) && k < |run| && AboutToSend(j, run[k]) && j.prog[run[k].pc].action.Trigger?
    ensures TriggerSafe(j, plan, base, run[k])
  {
    hide Stream, IsRun, IsRunAmong, Harmless, SentTo;
    FreshIsRun(j, stale, run);
    TriggerIsSafe(j, plan, base, FreshRun(j, run), k);
    SameTrigger(j, plan, base, run[k]);
  }

  lemma SameTrigger(j: Job, plan: Plan, base: nat, s: System)
    requires AboutToSend(j, s) && TriggerSafe(j, plan, base, Fresh(j, s))
    ensures TriggerSafe(j, plan, base, s)
  {
    hide SentTo, Fresh, Reliable, MonitoredBy;
    FreshElse(j, s);
  }

  lemma FreshElse(j: Job, s: System)
    ensures var f := Fresh(j, s);
      f.pc == s.pc && f.busy == s.busy && f.sent == s.sent && f.done == s.done && f.pos == s.pos
  {
  }

  // ----- How an earlier request comes to leave that DIID -----

  /** The same instruction but for the point it belongs to. */
  predicate SameButPoint(a: Instr, b: Instr) {
    a.action == b.action && a.target == b.target && a.waitGroup == b.waitGroup && a.diid == b.diid
  }

  ghost predicate SameBeginning(s: seq<Instr>, t: seq<Instr>) {
    |s| <= |t| && forall k :: 0 <= k < |s| ==> SameButPoint(s[k], t[k])
  }

  /** A scan of the same kind that takes further positions. */
  function Longer(plan: Plan, more: seq<seq<real>>): Plan {
    plan.(positions := plan.positions + more)
  }

  lemma SamePoint(plan: Plan, more: seq<seq<real>>, n: nat, ind: nat, p: nat, p': nat)
    requires plan.Valid() && Longer(plan, more).Valid() && ind < |plan.positions|
    ensures var (a, b) := (AtEachPoint(plan, n, ind, p), AtEachPoint(Longer(plan, more), n, ind, p'));
      |a| == |b| && SameBeginning(a, b)
  {
    var long := Longer(plan, more);
    var move, move' := MoveAndWait(plan, n, plan.positions[ind]), MoveAndWait(long, n, plan.positions[ind]);
    var await := AwaitPrevious(plan, n + |move|, ind);
    SameMove(plan, more, n, plan.positions[ind]);
    SameAcquire(plan, more, n + |move| + |await|, p, p');
    hide MoveAndWait, Acquire, SameButPoint;
    assert move == move' && await == AwaitPrevious(long, n + |move|, ind);
    SameSelf(move + await);
  }

  lemma SameMove(plan: Plan, more: seq<seq<real>>, n: nat, pos: seq<real>)
    requires |pos| == |plan.motors|
    ensures MoveAndWait(plan, n, pos) == MoveAndWait(Longer(plan, more), n, pos)
  {
  }

  lemma SameAcquire(plan: Plan, more: seq<seq<real>>, n: nat, p: nat, p': nat)
    ensures var (a, b) := (Acquire(plan, n, p), Acquire(Longer(plan, more), n, p'));
      |a| == |b| && SameBeginning(a, b)
  {
  }

  lemma SameSelf(s: seq<Instr>)
    ensures SameBeginning(s, s)
  {
  }

  lemma {:induction false} SameCore(plan: Plan, more: seq<seq<real>>, n: nat, ind: nat, b: nat, p: nat, p': nat)
    requires plan.Valid() && Longer(plan, more).Valid() && ind <= |plan.positions| && b <= plan.burst
    ensures SameBeginning(CoreFrom(plan, n, ind, b, p), CoreFrom(Longer(plan, more), n, ind, b, p'))
    decreases |plan.positions| - ind, plan.burst - b
  {
    hide AtEachPoint, SameButPoint;
    if ind == |plan.positions| {
    } else if b == plan.burst {
      SameCore(plan, more, n, ind + 1, 0, p, p');
    } else {
      SamePoint(plan, more, n, ind, p, p');
      SameCore(plan, more, n + |AtEachPoint(plan, n, ind, p)|, ind, b + 1, p + 1, p' + 1);
    }
  }

  lemma SamePrologue(plan: Plan, more: seq<seq<real>>)
    requires plan.Valid() && Longer(plan, more).Valid() && plan.positions != []
    ensures |Prologue(Longer(plan, more))| == |Prologue(plan)|
  {
    hide MoveAndWait;
    assert Longer(plan, more).positions[0] == plan.positions[0];
    SameMove(plan, more, 5 + |plan.motors|, plan.positions[0]);
  }

  /**
    Two step scans that differ in the number of their positions read the points of the shorter one with the same DIIDs,
    so the last reading of the shorter leaves each device on the DIID of a reading within the longer.
   */
  lemma SameReadings(plan: Plan, more: seq<seq<real>>, base: nat, base': nat, r: nat)
    requires plan.Valid() && Longer(plan, more).Valid() && plan.positions != []
    requires |Prologue(plan)| <= r < |Prologue(plan)| + |Core(plan, base)|
    ensures r < |Stream(plan, base)| && r < |Stream(Longer(plan, more), base')|
    ensures SameButPoint(Stream(plan, base)[r], Stream(Longer(plan, more), base')[r])
  {
    hide Prologue, CoreFrom, Epilogue, SameButPoint;
    var long := Longer(plan, more);
    SamePrologue(plan, more);
    SameCore(plan, more, |Prologue(plan)|, 0, 0, base, base');
    var k := r - |Prologue(plan)|;
    assert Stream(plan, base)[r] == Core(plan, base)[k] && Stream(long, base')[r] == Core(long, base')[k];
  }
}
