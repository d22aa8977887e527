/**
  The two ends of the data processing configuration: the client's manager registers workers and publishes their
  configurations; the service's manager starts and terminates processes to match what was published last.
 */
module WorkerManagers {
  import opened Instructions

  type Config = map<string, string>

  const WORKER_CLS := "worker_cls"

  datatype Entry = Entry(id: string, config: Config)

  // ----- The service's side -----

  /** A held worker; `process` identifies its operating system process. */
  datatype Worker = Worker(process: nat, config: Config)

  /** What a process runs. */
  datatype Job = Job(cls: string, config: Config)

  /** `live` are the processes that were started and not terminated; `started` counts all that were started. */
  datatype State = State(workers: map<string, Worker>, live: map<nat, Job>, started: nat)

  function ClassOf(e: Entry): string {
    if WORKER_CLS in e.config then e.config[WORKER_CLS] else ""
  }

  predicate Known(plugins: set<string>, e: Entry) {
    ClassOf(e) != "" && ClassOf(e) in plugins
  }

  function Started(s: State, e: Entry): State {
    State(s.workers[e.id := Worker(s.started, e.config)], s.live[s.started := Job(ClassOf(e), e.config)], s.started + 1)
  }

  function Terminated(s: State, process: nat): State {
    s.(live := s.live - {process})
  }

  function Apply(plugins: set<string>, s: State, e: Entry): State {
    if !Known(plugins, e) then s
    else if e.id !in s.workers then Started(s, e)
    else if s.workers[e.id].config == e.config then s
    else Started(Terminated(s, s.workers[e.id].process), e)
  }

  function ApplyAll(plugins: set<string>, s: State, es: seq<Entry>): State {
    if es == [] then s else Apply(plugins, ApplyAll(plugins, s, es[..|es| - 1]), es[|es| - 1])
  }

  predicate Named(es: seq<Entry>, id: string) {
    exists i :: 0 <= i < |es| && es[i].id == id
  }

  /** The process belongs to one of these workers. */
  predicate OneOf(s: State, ids: set<string>, p: nat) {
    exists id :: id in ids && id in s.workers && s.workers[id].process == p
  }

  function Removed(s: State, ids: set<string>): State {
    s.(workers := s.workers - ids,
       live := map p | p in s.live && !OneOf(s, ids, p) :: s.live[p])
  }

  function Unnamed(s: State, es: seq<Entry>): set<string> {
    set id | id in s.workers && !Named(es, id)
  }

  function Update(plugins: set<string>, s: State, es: seq<Entry>): State {
    var t := ApplyAll(plugins, s, es);
    Removed(t, Unnamed(t, es))
  }

  class DAPWorkerManager {
    const plugins: set<string>
    var workers: map<string, Worker>
    var live: map<nat, Job>
    var started: nat

    constructor (plugins: set<string>)
      ensures this.plugins == plugins && Value() == State(map[], map[], 0)
    {
      this.plugins := plugins;
      workers, live, started := map[], map[], 0;
    }

    ghost function Value(): State
      reads this
    {
      State(workers, live, started)
    }

    method StartWorker(e: Entry)
      modifies this
      ensures Value() == Started(old(Value()), e)
    {
      live := live[started := Job(ClassOf(e), e.config)];
      workers := workers[e.id := Worker(started, e.config)];
      started := started + 1;
    }

    method Terminate(process: nat)
      modifies this`live
      ensures Value() == Terminated(old(Value()), process)
    {
      live := live - {process};
    }

    method ApplyEntry(e: Entry)
      modifies this
      ensures Value() == Apply(plugins, old(Value()), e)
    {
      var cls := ClassOf(e);
      if cls == "" { return; }
      if cls !in plugins { return; }
      if e.id !in workers {
        StartWorker(e);
        return;
      }
      if workers[e.id].config == e.config { return; }
      Terminate(workers[e.id].process);
      StartWorker(e);
    }

    method RemoveWorker(id: string)
      requires id in workers
      modifies this
      ensures Value() == Removed(old(Value()), {id}) && workers == old(workers) - {id}
    {
      Terminate(workers[id].process);
      workers := workers - {id};
    }

    method ApplyEntries(es: seq<Entry>)
      modifies this
      ensures Value() == ApplyAll(plugins, old(Value()), es)
    {
      for i := 0 to |es|
        invariant Value() == ApplyAll(plugins, old(Value()), es[..i])
      {
        ApplyEntry(es[i]);
        assert es[..i + 1][..i] == es[..i];
      }
      assert es[..|es|] == es;
    }

    method RemoveUnnamed(es: seq<Entry>)
      modifies this
      ensures Value() == Removed(old(Value()), Unnamed(old(Value()), es))
    {
      hide Removed, Named;
      ghost var before := Value();
      var todo := workers.Keys;
      ghost var gone: set<string> := {};
      RemovedNone(before);
      while todo != {}
        invariant Value() == Removed(before, gone)
        invariant forall id :: id in workers <==> id in before.workers && id !in gone
        invariant forall id :: id in todo ==> id in workers
        invariant forall id :: id in gone <==> id in before.workers && id !in todo && !Named(es, id)
        decreases |todo|
      {
        var id :| id in todo;
        todo := todo - {id};
        var named := IsNamed(es, id);
        if !named {
          RemovedMore(before, gone, id);
          RemoveWorker(id);
          gone := gone + {id};
        }
      }
      assert gone == Unnamed(before, es);
    }

    /** `config` is None for an empty configuration. */
    method UpdateConfig(config: Option<seq<Entry>>)
      modifies this
      ensures Value() == if config.None? then old(Value()) else Update(plugins, old(Value()), config.value)
    {
      if config.None? { return; }
      ApplyEntries(config.value);
      RemoveUnnamed(config.value);
    }
  }

  method IsNamed(es: seq<Entry>, id: string) returns (named: bool)
    ensures named == Named(es, id)
  {
    for i := 0 to |es|
      invariant !Named(es[..i], id)
    {
      if es[i].id == id { return true; }
    }
    return false;
  }

  lemma RemovedNone(s: State)
    ensures Removed(s, {}) == s
  {
  }

  lemma RemovedMore(s: State, ids: set<string>, id: string)
    requires id in s.workers && id !in ids
    ensures Removed(Removed(s, ids), {id}) == Removed(s, ids + {id})
    ensures Removed(s, ids + {id}).workers.Keys == s.workers.Keys - (ids + {id})
  {
  }

  // ----- The processes -----

  /**
    Every held worker has a live process of its own that runs its class with its configuration, and there are no other
    live processes.
   */
  ghost predicate Sound(s: State) {
    && (forall id :: id in s.workers ==>
         var w := s.workers[id];
         && w.process in s.live && w.process < s.started
         && s.live[w.process] == Job(ClassOf(Entry(id, w.config)), w.config))
    && (forall p :: p in s.live ==> Owned(s, p))
    && (forall a, b :: a in s.workers && b in s.workers && a != b ==> s.workers[a].process != s.workers[b].process)
  }

  ghost predicate Owned(s: State, p: nat) {
    exists id :: id in s.workers && s.workers[id].process == p
  }

  lemma StartedSound(s: State, e: Entry)
    requires Sound(s) && e.id !in s.workers
    ensures Sound(Started(s, e))
  {
    var t := Started(s, e);
    forall p | p in t.live ensures Owned(t, p) {
      if p == s.started {
        assert t.workers[e.id].process == p;
      } else {
        assert Owned(s, p);
        var id :| id in s.workers && s.workers[id].process == p;
        assert t.workers[id].process == p;
      }
    }
  }

  lemma RemovedSound(s: State, ids: set<string>)
    requires Sound(s)
    ensures Sound(Removed(s, ids))
  {
    var t := Removed(s, ids);
    forall p | p in t.live ensures Owned(t, p) {
      assert Owned(s, p);
      var id :| id in s.workers && s.workers[id].process == p;
      assert id in t.workers && t.workers[id].process == p;
    }
  }

  /** Restarting a worker amounts to removing it and starting it anew. */
  lemma RestartIs(s: State, e: Entry)
    requires Sound(s) && e.id in s.workers
    ensures Started(Terminated(s, s.workers[e.id].process), e) == Started(Removed(s, {e.id}), e)
  {
    var p := s.workers[e.id].process;
    assert Removed(s, {e.id}).live == s.live - {p};
    assert (s.workers - {e.id})[e.id := Worker(s.started, e.config)] == s.workers[e.id := Worker(s.started, e.config)];
  }

  lemma ApplySound(plugins: set<string>, s: State, e: Entry)
    requires Sound(s)
    ensures Sound(Apply(plugins, s, e))
  {
    if Known(plugins, e) {
      if e.id in s.workers {
        RestartIs(s, e);
        RemovedSound(s, {e.id});
        hide Sound, Started, Terminated;
        StartedSound(Removed(s, {e.id}), e);
      } else {
        StartedSound(s, e);
      }
    }
  }

  lemma {:induction false} ApplyAllSound(plugins: set<string>, s: State, es: seq<Entry>)
    requires Sound(s)
    ensures Sound(ApplyAll(plugins, s, es))
  {
    if es != [] {
      hide Sound, Apply;
      ApplyAllSound(plugins, s, es[..|es| - 1]);
      ApplySound(plugins, ApplyAll(plugins, s, es[..|es| - 1]), es[|es| - 1]);
    }
  }

  lemma UpdateSound(plugins: set<string>, s: State, es: seq<Entry>)
    requires Sound(s)
    ensures Sound(Update(plugins, s, es))
  {
    ApplyAllSound(plugins, s, es);
    RemovedSound(ApplyAll(plugins, s, es), Unnamed(ApplyAll(plugins, s, es), es));
  }

  function RunUpdates(plugins: set<string>, configs: seq<seq<Entry>>): State {
    if configs == [] then State(map[], map[], 0)
    else Update(plugins, RunUpdates(plugins, configs[..|configs| - 1]), configs[|configs| - 1])
  }

  /** Main result: after any configurations the live processes are exactly the held ones, one for each ID. */
  lemma {:induction false} UpdatesSound(plugins: set<string>, configs: seq<seq<Entry>>)
    ensures Sound(RunUpdates(plugins, configs))
  {
    if configs != [] {
      UpdatesSound(plugins, configs[..|configs| - 1]);
      UpdateSound(plugins, RunUpdates(plugins, configs[..|configs| - 1]), configs[|configs| - 1]);
    }
  }

  // ----- What an update does to each ID -----

  /** The configuration of the last entry of an ID whose class is known. */
  function LastKnown(plugins: set<string>, es: seq<Entry>, id: string): Option<Config> {
    if es == [] then None
    else if es[|es| - 1].id == id && Known(plugins, es[|es| - 1]) then Some(es[|es| - 1].config)
    else LastKnown(plugins, es[..|es| - 1], id)
  }

  /** All entries of an ID whose class is known have this configuration. */
  ghost predicate Agreeing(plugins: set<string>, es: seq<Entry>, id: string, config: Config) {
    forall i :: 0 <= i < |es| && es[i].id == id && Known(plugins, es[i]) ==> es[i].config == config
  }

  lemma {:induction false} AppliedIs(plugins: set<string>, s: State, es: seq<Entry>, id: string)
    ensures var (t, c) := (ApplyAll(plugins, s, es), LastKnown(plugins, es, id));
      && (c.Some? ==> id in t.workers && t.workers[id].config == c.value)
      && (c.None? ==> (id in t.workers <==> id in s.workers) && (id in s.workers ==> t.workers[id] == s.workers[id]))
      && (id in s.workers && Agreeing(plugins, es, id, s.workers[id].config) ==>
           id in t.workers && t.workers[id] == s.workers[id])
  {
    if es != [] {
      var before, e := es[..|es| - 1], es[|es| - 1];
      AppliedIs(plugins, s, before, id);
      assert id in s.workers && Agreeing(plugins, es, id, s.workers[id].config) ==>
        Agreeing(plugins, before, id, s.workers[id].config);
      ApplyOne(plugins, ApplyAll(plugins, s, before), e, id);
    }
  }

  lemma ApplyOne(plugins: set<string>, s: State, e: Entry, id: string)
    ensures var t := Apply(plugins, s, e);
      if e.id == id && Known(plugins, e)
      then id in t.workers && t.workers[id].config == e.config &&
        (id in s.workers && s.workers[id].config == e.config ==> t.workers[id] == s.workers[id])
      else (id in t.workers <==> id in s.workers) && (id in s.workers ==> t.workers[id] == s.workers[id])
  {
  }

  /**
    Main result: after an update only named IDs are held; one with a known class runs its last such configuration, in
    the same process as before if that has not changed; one without is left as it was.
   */
  lemma UpdateIs(plugins: set<string>, s: State, es: seq<Entry>, id: string)
    ensures var (t, c) := (Update(plugins, s, es), LastKnown(plugins, es, id));
      && (id in t.workers <==> Named(es, id) && (c.Some? || id in s.workers))
      && (id in t.workers && c.Some? ==> t.workers[id].config == c.value)
      && (id in t.workers && (c.None? || (id in s.workers && Agreeing(plugins, es, id, s.workers[id].config))) ==>
           t.workers[id] == s.workers[id])
  {
    AppliedIs(plugins, s, es, id);
    KnownIsNamed(plugins, es, id);
  }

  lemma {:induction false} KnownIsNamed(plugins: set<string>, es: seq<Entry>, id: string)
    ensures LastKnown(plugins, es, id).Some? ==> Named(es, id)
  {
    if es != [] {
      var n := |es| - 1;
      KnownIsNamed(plugins, es[..n], id);
      if Named(es[..n], id) {
        var i :| 0 <= i < n && es[..n][i].id == id;
        assert es[i].id == id;
      }
    }
  }

  // ----- The client's side -----

  ghost predicate UniqueIds(es: seq<Entry>) {
    forall i, j :: 0 <= i < j < |es| ==> es[i].id != es[j].id
  }

  function WithoutId(es: seq<Entry>, id: string): seq<Entry> {
    if es == [] then [] else
      WithoutId(es[..|es| - 1], id) + if es[|es| - 1].id == id then [] else [es[|es| - 1]]
  }

  /** The first entry of an ID takes over the given settings. */
  function Changed(es: seq<Entry>, id: string, config: Config): seq<Entry> {
    if es == [] then []
    else if es[0].id == id then [Entry(id, es[0].config + config)] + es[1..]
    else [es[0]] + Changed(es[1..], id, config)
  }

  datatype Op = Add(id: string, config: Config) | Change(id: string, config: Config) | Remove(id: string)

  /** The registered workers after an operation; None when it raises and publishes nothing. */
  function Registry(es: seq<Entry>, op: Op): Option<seq<Entry>> {
    match op
    case Add(id, config) => if Named(es, id) then None else Some(es + [Entry(id, config)])
    case Change(id, config) => if Named(es, id) then Some(Changed(es, id, config)) else None
    case Remove(id) => Some(WithoutId(es, id))
  }

  class BECWorkerManager {
    var workers: seq<Entry>
    var published: Option<seq<Entry>>

    constructor ()
      ensures workers == [] && published == None
    {
      workers, published := [], None;
    }

    method PublishConfig()
      modifies this`published
      ensures published == Some(workers)
    {
      published := Some(workers);
    }

    method AddWorker(id: string, config: Config) returns (ok: bool)
      modifies this
      ensures ok == Registry(old(workers), Add(id, config)).Some?
      ensures ok ==> Some(workers) == Registry(old(workers), Add(id, config)) == published
      ensures !ok ==> workers == old(workers) && published == old(published)
    {
      var named := IsNamed(workers, id);
      if named { return false; }
      workers := workers + [Entry(id, config)];
      PublishConfig();
      return true;
    }

    /** None, an exception, when there is no such worker. */
    method GetWorker(id: string) returns (found: Option<nat>)
      ensures found.Some? <==> Named(workers, id)
      ensures found.Some? ==>
        found.value < |workers| && workers[found.value].id == id && !Named(workers[..found.value], id)
    {
      for i := 0 to |workers|
        invariant !Named(workers[..i], id)
      {
        if workers[i].id == id { return Some(i); }
      }
      assert workers[..|workers|] == workers;
      return None;
    }

    method UpdateWorker(id: string, config: Config) returns (ok: bool)
      modifies this
      ensures ok == Registry(old(workers), Change(id, config)).Some?
      ensures ok ==> Some(workers) == Registry(old(workers), Change(id, config)) == published
      ensures !ok ==> workers == old(workers) && published == old(published)
    {
      var found := GetWorker(id);
      if found.None? { return false; }
      var i := found.value;
      ChangedAt(workers, id, config, i);
      workers := workers[i := Entry(id, workers[i].config + config)];
      PublishConfig();
      return true;
    }

    method RemoveWorker(id: string)
      modifies this
      ensures Some(workers) == Registry(old(workers), Remove(id)) == published
    {
      var left: seq<Entry> := [];
      for i := 0 to |workers|
        invariant workers == old(workers) && left == WithoutId(workers[..i], id)
      {
        assert workers[..i + 1][..i] == workers[..i];
        if workers[i].id != id {
          left := left + [workers[i]];
        }
      }
      assert workers[..|workers|] == workers;
      workers := left;
      PublishConfig();
    }
  }

  lemma {:induction false} ChangedAt(es: seq<Entry>, id: string, config: Config, i: nat)
    requires i < |es| && es[i].id == id && !Named(es[..i], id)
    ensures Changed(es, id, config) == es[i := Entry(id, es[i].config + config)]
  {
    if i > 0 {
      assert es[..i][0].id == es[0].id;
      assert es[1..][..i - 1] == es[..i][1..];
      ChangedAt(es[1..], id, config, i - 1);
    }
  }

  /** What an operation on one ID leaves of the entries. */
  lemma {:induction false} WithoutIdIs(es: seq<Entry>, id: string, e: Entry)
    ensures e in WithoutId(es, id) <==> e in es && e.id != id
  {
    if es != [] {
      assert es == es[..|es| - 1] + [es[|es| - 1]];
      WithoutIdIs(es[..|es| - 1], id, e);
    }
  }

  lemma {:induction false} ChangedIs(es: seq<Entry>, id: string, config: Config)
    ensures |Changed(es, id, config)| == |es|
    ensures forall i :: 0 <= i < |es| ==> Changed(es, id, config)[i].id == es[i].id
    ensures forall i :: 0 <= i < |es| && es[i].id != id ==> Changed(es, id, config)[i] == es[i]
  {
    if es != [] && es[0].id != id { ChangedIs(es[1..], id, config); }
  }

  lemma {:induction false} WithoutIdUnique(es: seq<Entry>, id: string)
    requires UniqueIds(es)
    ensures UniqueIds(WithoutId(es, id))
  {
    if es != [] {
      var n := |es| - 1;
      var rest := WithoutId(es[..n], id);
      WithoutIdUnique(es[..n], id);
      forall i | 0 <= i < |rest| ensures rest[i].id != es[n].id { WithoutIdIs(es[..n], id, rest[i]); }
    }
  }

  /** The IDs stay unique, and entries of other IDs stay as they are. */
  lemma RegistryKeeps(es: seq<Entry>, op: Op)
    requires UniqueIds(es) && Registry(es, op).Some?
    ensures UniqueIds(Registry(es, op).value)
    ensures forall e: Entry :: e.id != op.id ==> (e in es <==> e in Registry(es, op).value)
  {
    match op
    case Add(id, config) =>
      forall i | 0 <= i < |es| ensures es[i].id != id { assert !Named(es, id); }
    case Change(id, config) => ChangedIs(es, id, config);
    case Remove(id) =>
      WithoutIdUnique(es, id);
      forall e ensures e in WithoutId(es, id) <==> e in es && e.id != id { WithoutIdIs(es, id, e); }
  }

  // ----- Both sides -----

  datatype System = System(registered: seq<Entry>, service: State)

  /** Everything published reaches the service. */
  function Act(plugins: set<string>, y: System, op: Op): System {
    var r := Registry(y.registered, op);
    if r.None? then y else System(r.value, Update(plugins, y.service, r.value))
  }

  function RunOps(plugins: set<string>, ops: seq<Op>): System {
    if ops == [] then System([], State(map[], map[], 0))
    else Act(plugins, RunOps(plugins, ops[..|ops| - 1]), ops[|ops| - 1])
  }

  /** Registered workers of a known class run with their registered configuration; only registered ones run. */
  ghost predicate FollowsRegistry(plugins: set<string>, y: System) {
    && UniqueIds(y.registered) && Sound(y.service)
    && (forall id :: id in y.service.workers ==> Named(y.registered, id))
    && (forall e :: e in y.registered && Known(plugins, e) ==>
         e.id in y.service.workers && y.service.workers[e.id].config == e.config)
  }

  lemma {:induction false} LastKnownIs(plugins: set<string>, es: seq<Entry>, id: string, c: Config)
    requires UniqueIds(es)
    ensures LastKnown(plugins, es, id) == Some(c) <==> Entry(id, c) in es && Known(plugins, Entry(id, c))
  {
    if es != [] {
      var before, e := es[..|es| - 1], es[|es| - 1];
      assert es == before + [e];
      LastKnownIs(plugins, before, id, c);
      if e.id == id {
        forall i | 0 <= i < |before| ensures before[i] != Entry(id, c) { assert es[i].id != e.id; }
        assert e == Entry(id, e.config);
      }
    }
  }

  lemma ActFollows(plugins: set<string>, y: System, op: Op)
    requires FollowsRegistry(plugins, y)
    ensures FollowsRegistry(plugins, Act(plugins, y, op))
  {
    var r := Registry(y.registered, op);
    if r.Some? {
      hide Registry, Update, Sound;
      RegistryKeeps(y.registered, op);
      var t := Update(plugins, y.service, r.value);
      UpdateSound(plugins, y.service, r.value);
      forall id | id in t.workers ensures Named(r.value, id) { UpdateIs(plugins, y.service, r.value, id); }
      forall e | e in r.value && Known(plugins, e) ensures e.id in t.workers && t.workers[e.id].config == e.config {
        assert e == Entry(e.id, e.config);
        LastKnownIs(plugins, r.value, e.id, e.config);
        UpdateIs(plugins, y.service, r.value, e.id);
        EntryNamed(r.value, e);
      }
    }
  }

  lemma EntryNamed(es: seq<Entry>, e: Entry)
    requires e in es
    ensures Named(es, e.id)
  {
  }

  /** Main result: after any operations of a client, the running workers follow the registered ones. */
  lemma {:induction false} OpsFollow(plugins: set<string>, ops: seq<Op>)
    ensures FollowsRegistry(plugins, RunOps(plugins, ops))
  {
    if ops != [] {
      hide Act, FollowsRegistry;
      OpsFollow(plugins, ops[..|ops| - 1]);
      ActFollows(plugins, RunOps(plugins, ops[..|ops| - 1]), ops[|ops| - 1]);
    }
  }

  /** Main result: an operation on one worker leaves the processes of all others alone. */
  lemma OthersUntouched(plugins: set<string>, y: System, op: Op, id: string)
    requires FollowsRegistry(plugins, y) && id != op.id
    ensures var (s, t) := (y.service, Act(plugins, y, op).service);
      (id in t.workers <==> id in s.workers) && (id in s.workers ==> t.workers[id] == s.workers[id])
  {
    var r := Registry(y.registered, op);
    if r.Some? {
      hide Registry, Update, Sound, LastKnown;
      RegistryKeeps(y.registered, op);
      UpdateIs(plugins, y.service, r.value, id);
      SameNamed(y.registered, r.value, id);
      var c := LastKnown(plugins, r.value, id);
      if c.Some? {
        var e := Entry(id, c.value);
        LastKnownIs(plugins, r.value, id, c.value);
        assert e in y.registered;
        OnlyEntry(plugins, r.value, e);
      }
    }
  }

  lemma SameNamed(a: seq<Entry>, b: seq<Entry>, id: string)
    requires forall e: Entry :: e.id == id ==> (e in a <==> e in b)
    ensures Named(a, id) <==> Named(b, id)
  {
    if Named(a, id) { var i :| 0 <= i < |a| && a[i].id == id; assert a[i] in b; }
    if Named(b, id) { var i :| 0 <= i < |b| && b[i].id == id; assert b[i] in a; }
  }

  lemma OnlyEntry(plugins: set<string>, es: seq<Entry>, e: Entry)
    requires UniqueIds(es) && e in es
    ensures Named(es, e.id) && Agreeing(plugins, es, e.id, e.config)
  {
  }
}
