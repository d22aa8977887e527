/**
  Barrier safety: the worker executes one request against devices that finish in any order and
  report late, stale or not at all, but never claim a DIID they have not finished.
 */
module Barriers {
  import opened Instructions
  import opened ScanWorkers

  /** One request as the worker sees it. */
  datatype Job = Job(dm: DeviceManager, scanId: ScanID, rid: string, prog: seq<Instr>) {
    ghost predicate Valid() {
      forall i :: 0 <= i < |prog| ==> prog[i].diid == i
    }
  }

  // ----- The worker's state is a function of how far it has come -----

  ghost function WorkerAt(j: Job, n: nat): Worker
    requires n <= |j.prog|
  {
    if n == 0 then IDLE_WORKER else Step(j.dm, j.scanId, WorkerAt(j, n - 1), j.prog[n - 1])
  }

  /** The worker while it executes instruction `n`. */
  ghost function During(j: Job, n: nat): Worker
    requires n < |j.prog|
  {
    Begin(j.dm, j.scanId, WorkerAt(j, n), j.prog[n])
  }

  ghost function SentTo(j: Job, n: nat): set<Device>
    requires n < |j.prog|
  {
    Recipients(j.dm, During(j, n), j.prog[n])
  }

  ghost function Wanted(j: Job, n: nat): Need
    requires n < |j.prog|
  {
    NeedOf(j.dm, During(j, n), j.prog[n])
  }

  ghost predicate Asks(j: Job, n: nat, d: Device, q: nat) {
    n < |j.prog| && d in Wanted(j, n).want && Wanted(j, n).want[d] == q
  }

  /** Some wait before instruction `n` holds the worker back until `d` has reported DIID `q`. */
  ghost predicate Awaited(j: Job, n: nat, d: Device, q: nat) {
    exists k: nat :: 0 <= k < n && Asks(j, k, d, q)
  }

  ghost predicate IsSet(j: Job, q: nat, d: Device) {
    q < |j.prog| && j.prog[q].action.Set? && d in SentTo(j, q)
  }

  ghost predicate IsRead(j: Job, q: nat, d: Device) {
    q < |j.prog| && j.prog[q].action.Read? && d in SentTo(j, q)
  }

  /** `q` is the last set of `d` among the first `n` instructions. */
  ghost predicate LastSet(j: Job, n: nat, d: Device, q: nat) {
    q < n && IsSet(j, q, d) && forall r: nat :: q < r < n ==> !IsSet(j, r, d)
  }

  /** A device is never set while an earlier set of it may still be under way. */
  ghost predicate SetsSeparated(j: Job) {
    forall i: nat, q: nat, d :: q < i && IsSet(j, i, d) && IsSet(j, q, d) ==> Awaited(j, i, d, q)
  }

  // ----- Worker and devices as one transition system -----

  /**
    `pc` instructions are finished; `busy` says that the next one has been sent and the worker polls.
    `done` holds the (device, DIID) pairs that are physically finished, `pos` the motors' positions.
   */
  datatype System = System(
    pc: nat,
    busy: bool,
    worker: Worker,
    sent: set<(Device, nat)>,
    done: set<(Device, nat)>,
    keys: StatusKeys,
    pos: map<Device, real>)

  ghost function Frontier(s: System): nat {
    if s.busy then s.pc + 1 else s.pc
  }

  /** Status keys may be stale or from another scan, but a success of this scan is backed by a finished instruction. */
  ghost predicate Truthful(j: Job, keys: StatusKeys, done: set<(Device, nat)>) {
    forall c: Channel, d ::
      d in keys.On(c) && keys.On(c)[d].ok && keys.On(c)[d].scanId == j.scanId ==> (d, keys.On(c)[d].diid) in done
  }

  ghost predicate Init(j: Job, s: System) {
    && s.pc == 0 && !s.busy && s.worker == IDLE_WORKER
    && s.sent == {} && s.done == {}
    && Truthful(j, s.keys, s.done)
  }

  ghost predicate Dispatch(j: Job, s: System, t: System) {
    && !s.busy && s.pc < |j.prog|
    && var w := Begin(j.dm, j.scanId, s.worker, j.prog[s.pc]);
      t == s.(busy := true, worker := w,
              sent := s.sent + set d | d in Recipients(j.dm, w, j.prog[s.pc]) :: (d, j.prog[s.pc].diid))
  }

  ghost predicate Proceed(j: Job, s: System, t: System) {
    && s.busy && s.pc < |j.prog|
    && Met(s.keys, NeedOf(j.dm, s.worker, j.prog[s.pc]), j.scanId, j.rid)
    && t == s.(busy := false, pc := s.pc + 1, worker := Finish(j.dm, s.worker, j.prog[s.pc]))
  }

  ghost predicate Arrives(j: Job, s: System, t: System, d: Device, q: nat) {
    (d, q) in t.done && (d, q) !in s.done && q < |j.prog| && j.prog[q].action.Set?
  }

  ghost predicate Moved(j: Job, s: System, t: System, d: Device) {
    if exists q: nat :: Arrives(j, s, t, d, q)
    then exists q: nat :: Arrives(j, s, t, d, q) && d in t.pos && t.pos[d] == j.prog[q].action.value
    else (d in s.pos <==> d in t.pos) && (d in s.pos ==> s.pos[d] == t.pos[d])
  }

  /** Devices finish any of their outstanding instructions, and the status keys change in any truthful way. */
  ghost predicate Environment(j: Job, s: System, t: System) {
    && t == s.(done := t.done, keys := t.keys, pos := t.pos)
    && s.done <= t.done <= s.sent
    && Truthful(j, t.keys, t.done)
    && forall d :: Moved(j, s, t, d)
  }

  ghost predicate Next(j: Job, s: System, t: System) {
    Dispatch(j, s, t) || Proceed(j, s, t) || Environment(j, s, t)
  }

  ghost predicate IsRun(j: Job, run: seq<System>) {
    && |run| > 0 && Init(j, run[0])
    && forall k :: 0 <= k < |run| - 1 ==> Next(j, run[k], run[k + 1])
  }

  // ----- What every reachable state satisfies -----

  ghost predicate SentInv(j: Job, s: System)
    requires Frontier(s) <= |j.prog|
  {
    forall d, q: nat :: (d, q) in s.sent <==> q < Frontier(s) && d in SentTo(j, q)
  }

  ghost predicate PositionInv(j: Job, s: System) {
    forall d, q: nat :: LastSet(j, Frontier(s), d, q) && (d, q) in s.done ==>
      d in s.pos && s.pos[d] == j.prog[q].action.value
  }

  ghost predicate Inv(j: Job, s: System) {
    && Frontier(s) <= |j.prog|
    && s.worker == (if s.busy then During(j, s.pc) else WorkerAt(j, s.pc))
    && SentInv(j, s)
    && s.done <= s.sent
    && Truthful(j, s.keys, s.done)
    && (forall d, q: nat :: Awaited(j, s.pc, d, q) ==> (d, q) in s.done)
    && PositionInv(j, s)
  }

  lemma DispatchKeeps(j: Job, s: System, t: System)
    requires j.Valid() && Inv(j, s) && Dispatch(j, s, t)
    ensures Inv(j, t)
  {
    hide Begin, Recipients, NeedOf, Step;
    forall d, q: nat | LastSet(j, Frontier(t), d, q) && (d, q) in t.done
      ensures d in t.pos && t.pos[d] == j.prog[q].action.value
    {
      assert (d, q) in s.sent;
      assert LastSet(j, Frontier(s), d, q);
    }
  }

  lemma ProceedKeeps(j: Job, s: System, t: System)
    requires j.Valid() && Inv(j, s) && Proceed(j, s, t)
    ensures Inv(j, t)
  {
    hide Begin, Recipients, NeedOf;
    forall d, q: nat | Awaited(j, t.pc, d, q) ensures (d, q) in t.done {
      var k: nat :| 0 <= k < t.pc && Asks(j, k, d, q);
      if k < s.pc {
        assert Awaited(j, s.pc, d, q);
      } else {
        var need := NeedOf(j.dm, s.worker, j.prog[s.pc]);
        assert d in s.keys.On(need.channel);
      }
    }
  }

  lemma EnvironmentKeeps(j: Job, s: System, t: System)
    requires j.Valid() && SetsSeparated(j) && Inv(j, s) && Environment(j, s, t)
    ensures Inv(j, t)
  {
    hide During, Recipients, NeedOf, WorkerAt, Truthful;
    forall d, q: nat | LastSet(j, Frontier(t), d, q) && (d, q) in t.done
      ensures d in t.pos && t.pos[d] == j.prog[q].action.value
    {
      assert Moved(j, s, t, d);
      forall r: nat | Arrives(j, s, t, d, r) ensures r == q {
        assert (d, r) in s.sent;
        assert IsSet(j, r, d);
        if r < q {
          assert Awaited(j, q, d, r);
          AwaitedMonotone(j, q, s.pc, d, r);
        }
      }
      if (d, q) !in s.done {
        assert Arrives(j, s, t, d, q);
      }
    }
  }

  lemma AwaitedMonotone(j: Job, m: nat, n: nat, d: Device, q: nat)
    requires m <= n && Awaited(j, m, d, q)
    ensures Awaited(j, n, d, q)
  {
  }

  lemma {:induction false} RunKeeps(j: Job, run: seq<System>, k: nat)
    requires j.Valid() && SetsSeparated(j) && IsRun(j, run) && k < |run|
    ensures Inv(j, run[k])
  {
    if k == 0 {
    } else {
      RunKeeps(j, run, k - 1);
      var s, t := run[k - 1], run[k];
      assert Next(j, s, t);
      if Dispatch(j, s, t) {
        DispatchKeeps(j, s, t);
      } else if Proceed(j, s, t) {
        ProceedKeeps(j, s, t);
      } else {
        EnvironmentKeeps(j, s, t);
      }
    }
  }
}
