/**
  What an abort finds under way. The worker then forgets its wait groups and sends the motors back to the start
  without waiting for anything sent before.
 */
module AbortBarriers {
  import opened Instructions
  import opened StepScans
  import opened ScanWorkers
  import opened Barriers
  import opened StepScanBarriers
  import opened BurstLag

  /** The worker is about to send instruction `n` or waits in it; both are where an interruption is checked for. */
  predicate StandsAt(s: System, n: nat) {
    s.pc == n
  }

  /** In every run, `d` has finished instruction `q` when the worker stands at instruction `n`. */
  ghost predicate Guaranteed(j: Job, n: nat, d: Device, q: nat) {
    forall run: seq<System>, k: nat ::
      IsRun(j, run) && k < |run| && StandsAt(run[k], n) ==> (d, q) in run[k].done
  }

  /** What no wait has asked for may still be under way. */
  lemma UnderWay(j: Job, n: nat, d: Device, q: nat) returns (run: seq<System>)
    requires j.Valid() && Tidy(j.prog) && q < n <= |j.prog| && d in SentTo(j, q) && !Awaited(j, n, d, q)
    ensures |run| > 0 && IsRun(j, run)
    ensures var s := run[|run| - 1]; StandsAt(s, n) && (d, q) in s.sent && (d, q) !in s.done
  {
    hide Tidy, IsRun, SentTo, Wanted, Truthful;
    forall k: nat, e, r: nat | k < n && Asks(j, k, e, r)
      ensures r <= k && e in SentTo(j, r) && (e, r) !in {(d, q)}
    {
      AsksBacked(j, k, e, r);
    }
    run := PromptRun(j, n, {(d, q)});
  }

  /**
    The barriers of a step scan are complete: wherever the worker stands, an instruction is sure to be finished if and
    only if some wait before has asked for it.
   */
  lemma GuaranteedIff(j: Job, plan: Plan, base: nat, n: nat, d: Device, q: nat)
    requires plan.Valid() && j.prog == Stream(plan, base) && q < n <= |j.prog| && d in SentTo(j, q)
    ensures Guaranteed(j, n, d, q) <==> Awaited(j, n, d, q)
  {
    hide Stream, Awaited, IsRun, Tidy;
    StreamNumbered(plan, base);
    if Awaited(j, n, d, q) {
      StreamSeparated(j, plan, base);
      forall run: seq<System>, k: nat | IsRun(j, run) && k < |run| && StandsAt(run[k], n)
        ensures (d, q) in run[k].done
      {
        RunKeeps(j, run, k);
      }
    } else {
      TidyStream(plan, base);
      var run := UnderWay(j, n, d, q);
    }
  }

  lemma StreamSeparated(j: Job, plan: Plan, base: nat)
    requires plan.Valid() && j.prog == Stream(plan, base)
    ensures SetsSeparated(j)
  {
    StreamSafe(j, plan, base);
    SeparatedSets(j, plan);
  }

  /** An abort at instruction `n` sends the return motion to a motor that has come to rest. */
  ghost predicate ReturnsAtRest(j: Job, n: nat, m: Device) {
    forall q: nat :: q < n && IsSet(j, q, m) ==> Guaranteed(j, n, m, q)
  }

  /** Exactly when the motor was not set, or each of its sets has been awaited. */
  lemma ReturnsAtRestIff(j: Job, plan: Plan, base: nat, n: nat, m: Device)
    requires plan.Valid() && j.prog == Stream(plan, base) && n <= |j.prog|
    ensures ReturnsAtRest(j, n, m) <==> forall q: nat :: q < n && IsSet(j, q, m) ==> Awaited(j, n, m, q)
  {
    hide Stream, Awaited, Guaranteed;
    forall q: nat | q < n && IsSet(j, q, m) ensures Guaranteed(j, n, m, q) <==> Awaited(j, n, m, q) {
      GuaranteedIff(j, plan, base, n, m, q);
    }
  }

  /** So an abort right behind any set of a step scan may find the motor moving. */
  lemma AbortWhileMoving(j: Job, plan: Plan, base: nat, q: nat, m: Device) returns (run: seq<System>)
    requires plan.Valid() && j.prog == Stream(plan, base) && IsSet(j, q, m)
    ensures |run| > 0 && IsRun(j, run)
    ensures var s := run[|run| - 1]; StandsAt(s, q + 1) && (m, q) in s.sent && (m, q) !in s.done
  {
    hide Stream, Tidy, IsRun;
    StreamNumbered(plan, base);
    TidyStream(plan, base);
    if Awaited(j, q + 1, m, q) {
      var k: nat :| k < q + 1 && Asks(j, k, m, q);
      AsksBacked(j, k, m, q);
      assert false;
    }
    run := UnderWay(j, q + 1, m, q);
  }
}
