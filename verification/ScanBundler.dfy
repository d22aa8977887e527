/**
  The scan bundler: device readings arrive in any order, are stored by point, and a point of a step scan is emitted
  when its last monitored device has reported. Scan status messages open and close the storage of a scan.
 */
module ScanBundlers {
  import opened Instructions

  type Signal = string
  type PointID = nat

  // ----- The readings of one step scan -----

  datatype Report = Report(point: PointID, device: Device, signal: Signal)

  datatype Emission = Emission(point: PointID, readings: map<Device, Signal>)

  /** `done` says per point which device has reported; `emitted` are the points handed to the emitters. */
  datatype Points = Points(
    stored: map<PointID, map<Device, Signal>>,
    done: map<PointID, map<Device, bool>>,
    sent: set<PointID>,
    emitted: seq<Emission>)

  function At<V>(m: map<PointID, map<Device, V>>, p: PointID): map<Device, V> {
    if p in m then m[p] else map[]
  }

  function NoneDone(devices: seq<Device>): map<Device, bool> {
    map d | d in devices :: false
  }

  predicate Complete(devices: seq<Device>, done: map<Device, bool>) {
    (forall d :: d in done ==> done[d]) && |done| == |devices|
  }

  /** One reading of a monitored device. */
  function Update(devices: seq<Device>, s: Points, r: Report): Points {
    var stored := s.stored[r.point := At(s.stored, r.point)[r.device := r.signal]];
    var marks := if r.point in s.done then s.done[r.point] else NoneDone(devices);
    var done := s.done[r.point := marks[r.device := true]];
    if Complete(devices, done[r.point])
    then Points(stored, done, s.sent + {r.point}, s.emitted + [Emission(r.point, stored[r.point])])
    else Points(stored, done, s.sent, s.emitted)
  }

  const NO_POINTS := Points(map[], map[], {}, [])

  function Collect(devices: seq<Device>, rs: seq<Report>): Points {
    if rs == [] then NO_POINTS else Update(devices, Collect(devices, rs[..|rs| - 1]), rs[|rs| - 1])
  }

  /** The last reading of each device for a point. */
  function Readings(rs: seq<Report>, p: PointID): map<Device, Signal> {
    if rs == [] then map[] else
      var before, r := Readings(rs[..|rs| - 1], p), rs[|rs| - 1];
      if r.point == p then before[r.device := r.signal] else before
  }

  function Marks(devices: seq<Device>, reported: set<Device>): map<Device, bool> {
    map d | d in ToSet(devices) + reported :: d in reported
  }

  /** What the bundler holds of a point for which `m` are the last readings. */
  ghost predicate Stands(devices: seq<Device>, s: Points, p: PointID, m: map<Device, Signal>) {
    && At(s.stored, p) == m
    && (p in s.stored <==> m != map[])
    && (p in s.done <==> m != map[])
    && (p in s.done ==> s.done[p] == Marks(devices, m.Keys))
  }

  lemma MarksGrow(devices: seq<Device>, reported: set<Device>, d: Device)
    ensures Marks(devices, reported)[d := true] == Marks(devices, reported + {d})
    ensures NoneDone(devices) == Marks(devices, {})
  {
  }

  lemma UpdateStands(devices: seq<Device>, s: Points, r: Report, m: map<Device, Signal>)
    requires Stands(devices, s, r.point, m)
    ensures Stands(devices, Update(devices, s, r), r.point, m[r.device := r.signal])
    ensures Update(devices, s, r).done[r.point] == Marks(devices, m.Keys + {r.device})
  {
    hide Marks, NoneDone, Complete;
    MarksGrow(devices, m.Keys, r.device);
    assert r.device in m[r.device := r.signal];
    assert m[r.device := r.signal].Keys == m.Keys + {r.device};
    if r.point !in s.done { assert m.Keys == {}; }
  }

  lemma OthersStand(devices: seq<Device>, s: Points, r: Report, p: PointID, m: map<Device, Signal>)
    requires Stands(devices, s, p, m) && p != r.point
    ensures Stands(devices, Update(devices, s, r), p, m)
  {
    hide Marks, NoneDone, Complete;
  }

  lemma {:induction false} StoredIs(devices: seq<Device>, rs: seq<Report>, p: PointID)
    ensures Stands(devices, Collect(devices, rs), p, Readings(rs, p))
  {
    if rs != [] {
      hide Stands, Update;
      var before, r := rs[..|rs| - 1], rs[|rs| - 1];
      StoredIs(devices, before, p);
      var s, m := Collect(devices, before), Readings(before, p);
      if r.point == p {
        UpdateStands(devices, s, r, m);
      } else {
        OthersStand(devices, s, r, p, m);
      }
    }
  }

  lemma {:induction false} SizeOfDistinct<T>(s: seq<T>)
    requires Distinct(s)
    ensures |ToSet(s)| == |s|
  {
    if s != [] {
      SizeOfDistinct(s[1..]);
      assert ToSet(s) == {s[0]} + ToSet(s[1..]);
    }
  }

  lemma SameSize<T>(a: set<T>, b: set<T>)
    requires a <= b && |a| == |b|
    ensures a == b
  {
    assert b == a + (b - a);
    assert |b - a| == 0;
  }

  lemma CompleteIff(devices: seq<Device>, reported: set<Device>)
    requires Distinct(devices)
    ensures Complete(devices, Marks(devices, reported)) <==> reported == ToSet(devices)
  {
    var m := Marks(devices, reported);
    SizeOfDistinct(devices);
    assert |m| == |m.Keys| && m.Keys == ToSet(devices) + reported;
    if Complete(devices, m) {
      assert forall d :: d in devices ==> d in m && m[d];
      assert ToSet(devices) <= reported && m.Keys == reported;
      SameSize(ToSet(devices), reported);
    }
    if reported == ToSet(devices) {
      assert m.Keys == ToSet(devices);
    }
  }

  /**
    Main result, for any reports in any order: a report emits its point, with the last readings of all devices,
    exactly when it completes the monitored devices of that point or repeats a point they have completed.
   */
  lemma EmitsIff(devices: seq<Device>, rs: seq<Report>, r: Report)
    requires Distinct(devices)
    ensures var (before, after, m) := (Collect(devices, rs), Collect(devices, rs + [r]), Readings(rs + [r], r.point));
      if m.Keys == ToSet(devices)
      then after.emitted == before.emitted + [Emission(r.point, m)] && after.sent == before.sent + {r.point}
      else after.emitted == before.emitted && after.sent == before.sent
  {
    hide Marks, Complete;
    var s := Collect(devices, rs);
    assert (rs + [r])[..|rs|] == rs;
    StoredIs(devices, rs, r.point);
    UpdateStands(devices, s, r, Readings(rs, r.point));
    CompleteIff(devices, Readings(rs, r.point).Keys + {r.device});
    assert Readings(rs + [r], r.point).Keys == Readings(rs, r.point).Keys + {r.device};
  }

  // ----- Every device reports every point once -----

  /** Reports come from monitored devices, and none reports a point twice. */
  ghost predicate Once(devices: seq<Device>, rs: seq<Report>) {
    && (forall i :: 0 <= i < |rs| ==> rs[i].device in devices)
    && (forall i, j :: 0 <= i < j < |rs| ==> rs[i].point != rs[j].point || rs[i].device != rs[j].device)
  }

  /** The readings of a point are exactly the reports made for it. */
  lemma {:induction false} ReadingsAre(devices: seq<Device>, rs: seq<Report>, p: PointID, d: Device, v: Signal)
    requires Once(devices, rs)
    ensures (d in Readings(rs, p) && Readings(rs, p)[d] == v) <==> Report(p, d, v) in rs
  {
    if rs != [] {
      var before, r := rs[..|rs| - 1], rs[|rs| - 1];
      ReadingsAre(devices, before, p, d, v);
      assert rs == before + [r];
      if r.point == p && r.device == d {
        NotBefore(devices, rs, v);
      }
    }
  }

  lemma NotBefore(devices: seq<Device>, rs: seq<Report>, v: Signal)
    requires Once(devices, rs) && rs != []
    ensures Report(rs[|rs| - 1].point, rs[|rs| - 1].device, v) !in rs[..|rs| - 1]
  {
    var n := |rs| - 1;
    forall i | 0 <= i < n ensures rs[..n][i] != Report(rs[n].point, rs[n].device, v) {
      assert rs[i].point != rs[n].point || rs[i].device != rs[n].device;
    }
  }

  predicate AllIn(devices: seq<Device>, rs: seq<Report>, p: PointID) {
    Readings(rs, p).Keys == ToSet(devices)
  }

  /** The completed points are emitted, once each, with exactly the readings reported for them. */
  ghost predicate EmittedOnce(devices: seq<Device>, rs: seq<Report>, s: Points) {
    && (forall p :: p in s.sent <==> AllIn(devices, rs, p))
    && (forall e :: e in s.emitted ==> AllIn(devices, rs, e.point) && e.readings == Readings(rs, e.point))
    && (forall p :: AllIn(devices, rs, p) ==> Emission(p, Readings(rs, p)) in s.emitted)
    && (forall i, j :: 0 <= i < j < |s.emitted| ==> s.emitted[i].point != s.emitted[j].point)
  }

  lemma OthersUnchanged(devices: seq<Device>, rs: seq<Report>, r: Report, p: PointID)
    requires p != r.point
    ensures Readings(rs + [r], p) == Readings(rs, p) && AllIn(devices, rs + [r], p) == AllIn(devices, rs, p)
  {
    assert (rs + [r])[..|rs|] == rs;
  }

  lemma FirstReport(devices: seq<Device>, rs: seq<Report>, r: Report)
    requires Once(devices, rs + [r])
    ensures Once(devices, rs) && !AllIn(devices, rs, r.point)
  {
    var t := rs + [r];
    assert t[..|rs|] == rs && t[|rs|] == r;
    forall i | 0 <= i < |rs| ensures rs[i].device in devices {
      assert t[i] == rs[i];
    }
    forall i, j | 0 <= i < j < |rs| ensures rs[i].point != rs[j].point || rs[i].device != rs[j].device {
      assert t[i] == rs[i] && t[j] == rs[j];
    }
    if r.device in Readings(rs, r.point) {
      var v := Readings(rs, r.point)[r.device];
      ReadingsAre(devices, rs, r.point, r.device, v);
      NotBefore(devices, t, v);
    }
    assert r.device in ToSet(devices);
  }

  lemma AddEmitted(devices: seq<Device>, rs: seq<Report>, r: Report, s: Points, t: Points)
    requires EmittedOnce(devices, rs, s) && !AllIn(devices, rs, r.point)
    requires if AllIn(devices, rs + [r], r.point)
      then t.emitted == s.emitted + [Emission(r.point, Readings(rs + [r], r.point))] && t.sent == s.sent + {r.point}
      else t.emitted == s.emitted && t.sent == s.sent
    ensures EmittedOnce(devices, rs + [r], t)
  {
    hide Readings, AllIn;
    forall p | p != r.point
      ensures Readings(rs + [r], p) == Readings(rs, p) && AllIn(devices, rs + [r], p) == AllIn(devices, rs, p)
    {
      OthersUnchanged(devices, rs, r, p);
    }
    forall e | e in s.emitted ensures e.point != r.point {}
  }

  /** Main result: in every arrival order each point is emitted once, when it is complete, with what was reported. */
  lemma {:induction false} EachPointOnce(devices: seq<Device>, rs: seq<Report>)
    requires Distinct(devices) && devices != [] && Once(devices, rs)
    ensures EmittedOnce(devices, rs, Collect(devices, rs))
  {
    if rs == [] {
      assert devices[0] in ToSet(devices);
    } else {
      hide EmittedOnce, Once, Readings, Update;
      var before, r := rs[..|rs| - 1], rs[|rs| - 1];
      assert rs == before + [r];
      FirstReport(devices, before, r);
      EachPointOnce(devices, before);
      EmitsIff(devices, before, r);
      AddEmitted(devices, before, r, Collect(devices, before), Collect(devices, rs));
    }
  }

  lemma SameReadings(devices: seq<Device>, rs: seq<Report>, ts: seq<Report>, p: PointID)
    requires Once(devices, rs) && Once(devices, ts) && forall r :: r in rs <==> r in ts
    ensures Readings(rs, p) == Readings(ts, p)
  {
    var m, n := Readings(rs, p), Readings(ts, p);
    forall d | d in m ensures d in n && n[d] == m[d] {
      ReadingsAre(devices, rs, p, d, m[d]);
      ReadingsAre(devices, ts, p, d, m[d]);
    }
    forall d | d in n ensures d in m {
      ReadingsAre(devices, rs, p, d, n[d]);
      ReadingsAre(devices, ts, p, d, n[d]);
    }
  }

  /** Main result: two arrival orders of the same reports leave the same state and emit the same points. */
  lemma OrderIndependent(devices: seq<Device>, rs: seq<Report>, ts: seq<Report>)
    requires Distinct(devices) && devices != [] && Once(devices, rs) && Once(devices, ts)
    requires forall r :: r in rs <==> r in ts
    ensures var (s, t) := (Collect(devices, rs), Collect(devices, ts));
      && s.stored == t.stored && s.done == t.done && s.sent == t.sent
      && (forall e :: e in s.emitted <==> e in t.emitted) && |s.emitted| == |t.emitted|
  {
    hide Readings, Update, Marks, Once;
    var s, t := Collect(devices, rs), Collect(devices, ts);
    forall p ensures Readings(rs, p) == Readings(ts, p) { SameReadings(devices, rs, ts, p); }
    forall p
      ensures Stands(devices, s, p, Readings(rs, p)) && Stands(devices, t, p, Readings(rs, p))
    {
      StoredIs(devices, rs, p);
      StoredIs(devices, ts, p);
    }
    SameStored(devices, s, t, rs);
    EachPointOnce(devices, rs);
    EachPointOnce(devices, ts);
    SameEmitted(devices, rs, ts, s, t);
  }

  lemma SameStored(devices: seq<Device>, s: Points, t: Points, rs: seq<Report>)
    requires forall p ::
      Stands(devices, s, p, Readings(rs, p)) && Stands(devices, t, p, Readings(rs, p))
    ensures s.stored == t.stored && s.done == t.done
  {
    hide Readings, Marks;
    forall p ensures p in s.stored <==> p in t.stored { assert Stands(devices, s, p, Readings(rs, p)); }
    forall p ensures p in s.done <==> p in t.done { assert Stands(devices, s, p, Readings(rs, p)); }
    forall p | p in s.stored ensures s.stored[p] == t.stored[p] { assert Stands(devices, s, p, Readings(rs, p)); }
    forall p | p in s.done ensures s.done[p] == t.done[p] { assert Stands(devices, s, p, Readings(rs, p)); }
  }

  lemma SameEmitted(devices: seq<Device>, rs: seq<Report>, ts: seq<Report>, s: Points, t: Points)
    requires EmittedOnce(devices, rs, s) && EmittedOnce(devices, ts, t)
    requires forall p :: Readings(rs, p) == Readings(ts, p)
    ensures s.sent == t.sent && (forall e :: e in s.emitted <==> e in t.emitted) && |s.emitted| == |t.emitted|
  {
    hide Readings;
    forall p ensures AllIn(devices, rs, p) == AllIn(devices, ts, p) {}
    hide AllIn;
    forall e ensures e in s.emitted <==> e in t.emitted {
      assert e == Emission(e.point, e.readings);
    }
    assert Distinct(s.emitted) && Distinct(t.emitted);
    SizeOfDistinct(s.emitted);
    SizeOfDistinct(t.emitted);
    assert ToSet(s.emitted) == ToSet(t.emitted);
  }

  // ----- Baseline readings -----

  datatype Reading = Reading(device: Device, signal: Signal)

  /** `done` says which device has reported since the baseline was last emitted. */
  datatype Baseline = Baseline(stored: map<Device, Signal>, done: map<Device, bool>, emitted: seq<map<Device, Signal>>)

  function UpdateBaseline(devices: seq<Device>, b: Baseline, r: Reading): Baseline {
    var done, stored := b.done[r.device := true], b.stored[r.device := r.signal];
    if forall d :: d in done ==> done[d] then Baseline(stored, NoneDone(devices), b.emitted + [stored])
    else Baseline(stored, done, b.emitted)
  }

  function CollectBaseline(devices: seq<Device>, rs: seq<Reading>): Baseline {
    if rs == [] then Baseline(map[], NoneDone(devices), [])
    else UpdateBaseline(devices, CollectBaseline(devices, rs[..|rs| - 1]), rs[|rs| - 1])
  }

  function Latest(rs: seq<Reading>): map<Device, Signal> {
    if rs == [] then map[] else Latest(rs[..|rs| - 1])[rs[|rs| - 1].device := rs[|rs| - 1].signal]
  }

  /** The devices that have reported since the last time all baseline devices had. */
  function Since(devices: seq<Device>, rs: seq<Reading>): set<Device> {
    if rs == [] then {} else
      var all := Since(devices, rs[..|rs| - 1]) + {rs[|rs| - 1].device};
      if ToSet(devices) <= all then {} else all
  }

  lemma AllMarked(devices: seq<Device>, reported: set<Device>)
    ensures (forall d :: d in Marks(devices, reported) ==> Marks(devices, reported)[d]) <==> ToSet(devices) <= reported
  {
    var m := Marks(devices, reported);
    if forall d :: d in m ==> m[d] {
      forall d | d in ToSet(devices) ensures d in reported { assert d in m; }
    }
  }

  /** For any readings: the baseline is emitted exactly when every baseline device has reported since it last was. */
  lemma {:induction false} BaselineEmitsIff(devices: seq<Device>, rs: seq<Reading>)
    ensures var b := CollectBaseline(devices, rs);
      && b.stored == Latest(rs) && b.done == Marks(devices, Since(devices, rs))
      && (rs != [] ==>
           var before := rs[..|rs| - 1];
           b.emitted == CollectBaseline(devices, before).emitted +
             if ToSet(devices) <= Since(devices, before) + {rs[|rs| - 1].device} then [Latest(rs)] else [])
  {
    if rs == [] {
      MarksGrow(devices, {}, "");
    } else {
      hide Marks;
      var before, r := rs[..|rs| - 1], rs[|rs| - 1];
      BaselineEmitsIff(devices, before);
      MarksGrow(devices, Since(devices, before), r.device);
      AllMarked(devices, Since(devices, before) + {r.device});
    }
  }

  function Reporters(rs: seq<Reading>): set<Device> {
    set r | r in rs :: r.device
  }

  /** When each baseline device reports at most once, in any order, the baseline is emitted once, with all of them. */
  lemma {:induction false} BaselineOnce(devices: seq<Device>, rs: seq<Reading>)
    requires devices != [] && Reporters(rs) <= ToSet(devices)
    requires forall i, j :: 0 <= i < j < |rs| ==> rs[i].device != rs[j].device
    ensures CollectBaseline(devices, rs).emitted == if Reporters(rs) == ToSet(devices) then [Latest(rs)] else []
    ensures Since(devices, rs) == if Reporters(rs) == ToSet(devices) then {} else Reporters(rs)
  {
    assert devices[0] in ToSet(devices);
    if rs != [] {
      var before, r := rs[..|rs| - 1], rs[|rs| - 1];
      assert rs == before + [r];
      assert Reporters(rs) == Reporters(before) + {r.device};
      assert r.device !in Reporters(before);
      assert r.device in Reporters(rs);
      BaselineOnce(devices, before);
      BaselineEmitsIff(devices, rs);
    }
  }

  /** What is emitted does not depend on the order either. */
  lemma {:induction false} LatestIs(rs: seq<Reading>, d: Device, v: Signal)
    requires forall i, j :: 0 <= i < j < |rs| ==> rs[i].device != rs[j].device
    ensures (d in Latest(rs) && Latest(rs)[d] == v) <==> Reading(d, v) in rs
  {
    if rs != [] {
      var before, r := rs[..|rs| - 1], rs[|rs| - 1];
      assert rs == before + [r];
      LatestIs(before, d, v);
      if r.device == d {
        forall i | 0 <= i < |before| ensures before[i] != Reading(d, v) { assert rs[i].device != r.device; }
      }
    }
  }
}
