/**
  The consumer of append-only streams: a cursor per topic, a first poll that only looks up the newest entries, and
  polls that read one entry a topic.
 */
module StreamConsumers {
  import opened Instructions

  type Topic = string

  datatype Entry = Entry(id: nat, data: string)

  type Streams = map<Topic, seq<Entry>>

  function StreamOf(log: Streams, t: Topic): seq<Entry> {
    if t in log then log[t] else []
  }

  /** The ID of the last of the first `n` entries; 0 stands for `0-0`. */
  function IdAt(s: seq<Entry>, n: nat): nat
    requires n <= |s|
  {
    if n == 0 then 0 else s[n - 1].id
  }

  ghost predicate Increasing(s: seq<Entry>) {
    && (forall i :: 0 <= i < |s| ==> s[i].id > 0)
    && (forall i, j :: 0 <= i < j < |s| ==> s[i].id < s[j].id)
  }

  /** The entries that come after an ID. */
  function After(s: seq<Entry>, id: nat): seq<Entry> {
    if s == [] then [] else if s[0].id > id then s else After(s[1..], id)
  }

  lemma {:induction false} AfterIs(s: seq<Entry>, n: nat)
    requires Increasing(s) && n <= |s|
    ensures After(s, IdAt(s, n)) == s[n..]
  {
    if s != [] && n > 0 {
      if n == 1 {
        if |s| > 1 { assert s[1..][0] == s[1]; }
      } else {
        assert IdAt(s[1..], n - 1) == IdAt(s, n);
      }
      AfterIs(s[1..], n - 1);
    }
  }

  // ----- The consumer -----

  datatype Message = Message(topic: Topic, data: string)

  function IdOf(keys: map<Topic, nat>, t: Topic): nat {
    if t in keys then keys[t] else 0
  }

  /** `xread(..., count=1)` for one topic. */
  function Unread(keys: map<Topic, nat>, t: Topic, log: Streams): seq<Entry> {
    After(StreamOf(log, t), IdOf(keys, t))
  }

  function ReadKeys(keys: map<Topic, nat>, ts: seq<Topic>, log: Streams): map<Topic, nat> {
    if ts == [] then keys else
      var t := ts[|ts| - 1];
      var before, unread := ReadKeys(keys, ts[..|ts| - 1], log), Unread(keys, t, log);
      if unread == [] then before else before[t := unread[0].id]
  }

  function ReadMessages(keys: map<Topic, nat>, ts: seq<Topic>, log: Streams): seq<Message> {
    if ts == [] then [] else
      var t := ts[|ts| - 1];
      var before, unread := ReadMessages(keys, ts[..|ts| - 1], log), Unread(keys, t, log);
      if unread == [] then before else before + [Message(t, unread[0].data)]
  }

  function Newest(keys: map<Topic, nat>, t: Topic, log: Streams): map<Topic, nat> {
    keys[t := IdAt(StreamOf(log, t), |StreamOf(log, t)|)]
  }

  class RedisStreamConsumer {
    const topics: seq<Topic>
    const fromStart: bool
    var keys: map<Topic, nat>

    constructor (topics: seq<Topic>, fromStart: bool)
      ensures this.topics == topics && this.fromStart == fromStart && keys == map[]
    {
      this.topics, this.fromStart := topics, fromStart;
      keys := map[];
    }

    method GetId(t: Topic) returns (id: nat)
      ensures id == IdOf(keys, t)
    {
      if t !in keys { return 0; }
      return keys[t];
    }

    /** The look-up of one topic's newest entry, without handing it out. */
    method LookUpNewest(t: Topic, log: Streams)
      modifies this
      ensures keys == Newest(old(keys), t, log)
    {
      var s := StreamOf(log, t);
      if |s| > 0 {
        keys := keys[t := s[|s| - 1].id];
      } else {
        keys := keys[t := 0];
      }
    }

    /** `views` are the streams at the times of the single commands. */
    method PollMessages(views: seq<Streams>) returns (messages: seq<Message>)
      requires Distinct(topics) && |views| == |topics| > 0
      modifies this
      ensures if !fromStart && old(keys) == map[]
        then keys == NewestOf(topics, views, |topics|) && messages == []
        else keys == ReadKeys(old(keys), topics, views[0]) && messages == ReadMessages(old(keys), topics, views[0])
    {
      if !fromStart && |keys| == 0 {
        for i := 0 to |topics|
          invariant keys == NewestOf(topics, views, i)
        {
          LookUpNewest(topics[i], views[i]);
        }
        messages := [];
      } else {
        messages := Read(views[0]);
      }
    }

    /** One `xread` over all topics; what is returned is handed to the callback in this order. */
    method Read(log: Streams) returns (messages: seq<Message>)
      requires Distinct(topics)
      modifies this
      ensures keys == ReadKeys(old(keys), topics, log) && messages == ReadMessages(old(keys), topics, log)
    {
      messages := [];
      for i := 0 to |topics|
        invariant keys == ReadKeys(old(keys), topics[..i], log)
        invariant messages == ReadMessages(old(keys), topics[..i], log)
      {
        assert topics[..i + 1][..i] == topics[..i];
        ReadLeaves(old(keys), topics[..i], log, topics[i]);
        var id := GetId(topics[i]);
        var unread := After(StreamOf(log, topics[i]), id);
        if |unread| > 0 {
          messages := messages + [Message(topics[i], unread[0].data)];
          keys := keys[topics[i] := unread[0].id];
        }
      }
      assert topics[..|topics|] == topics;
    }
  }

  lemma {:induction false} ReadLeaves(keys: map<Topic, nat>, ts: seq<Topic>, log: Streams, t: Topic)
    requires t !in ts
    ensures IdOf(ReadKeys(keys, ts, log), t) == IdOf(keys, t)
  {
    if ts != [] { ReadLeaves(keys, ts[..|ts| - 1], log, t); }
  }

  /** The look-ups of the first topics, each seeing the streams as they are at its time. */
  function NewestOf(topics: seq<Topic>, views: seq<Streams>, n: nat): map<Topic, nat>
    requires n <= |topics| && n <= |views|
  {
    if n == 0 then map[] else Newest(NewestOf(topics, views, n - 1), topics[n - 1], views[n - 1])
  }

  // ----- The consumer among producers -----

  /** While `LookingUp`, the first poll has still to look up the topics from the given one on. */
  datatype Phase = LookingUp(next: nat) | Reading

  /** `base` records how long the looked-up streams were. */
  datatype State = State(
    log: Streams, keys: map<Topic, nat>, phase: Phase, delivered: seq<Message>, base: map<Topic, nat>)

  /** `Fail` is a poll that loses the connection before its next command. */
  datatype Event = Append(topic: Topic, data: string, gap: nat) | Advance | Fail

  function Start(fromStart: bool): State {
    State(map[], map[], if fromStart then Reading else LookingUp(0), [], map[])
  }

  function Step(topics: seq<Topic>, s: State, e: Event): State {
    match e
    case Append(t, data, gap) =>
      var stream := StreamOf(s.log, t);
      s.(log := s.log[t := stream + [Entry(IdAt(stream, |stream|) + 1 + gap, data)]])
    case Advance =>
      if s.phase.LookingUp? && s.phase.next < |topics| then
        var t := topics[s.phase.next];
        s.(keys := Newest(s.keys, t, s.log), base := s.base[t := |StreamOf(s.log, t)|],
           phase := if s.phase.next + 1 < |topics| then LookingUp(s.phase.next + 1) else Reading)
      else
        s.(keys := ReadKeys(s.keys, topics, s.log), delivered := s.delivered + ReadMessages(s.keys, topics, s.log))
    case Fail =>
      if s.phase.LookingUp? && s.phase.next > 0 then s.(phase := Reading) else s
  }

  function Run(topics: seq<Topic>, fromStart: bool, es: seq<Event>): State {
    if es == [] then Start(fromStart) else Step(topics, Run(topics, fromStart, es[..|es| - 1]), es[|es| - 1])
  }

  function Of(ms: seq<Message>, t: Topic): seq<string> {
    if ms == [] then [] else
      Of(ms[..|ms| - 1], t) + if ms[|ms| - 1].topic == t then [ms[|ms| - 1].data] else []
  }

  function Data(s: seq<Entry>): seq<string> {
    seq(|s|, i requires 0 <= i < |s| => s[i].data)
  }

  function Base(s: State, t: Topic): nat {
    if t in s.base then s.base[t] else 0
  }

  /** How far the topic's stream has been passed. */
  function Position(s: State, t: Topic): nat {
    Base(s, t) + |Of(s.delivered, t)|
  }

  /** The data handed out are the stretch of the stream from `base`, and the cursor is the ID at its end. */
  ghost predicate Stretch(stream: seq<Entry>, base: nat, handed: seq<string>, id: nat) {
    && Increasing(stream)
    && base + |handed| <= |stream|
    && handed == Data(stream[base..base + |handed|])
    && id == IdAt(stream, base + |handed|)
  }

  /** What has been handed out of a topic follows its stream from its base without gap or repeat. */
  ghost predicate Follows(s: State, t: Topic) {
    Stretch(StreamOf(s.log, t), Base(s, t), Of(s.delivered, t), IdOf(s.keys, t))
  }

  /**
    The cursors tell a consumer that its first poll is still to come; during that poll nothing is handed out, and the
    first topics are those looked up.
   */
  ghost predicate PhaseFits(topics: seq<Topic>, fromStart: bool, s: State) {
    && (s.phase == LookingUp(0) <==> !fromStart && s.keys == map[])
    && (s.phase.LookingUp? ==>
         !fromStart && s.phase.next < |topics| && s.delivered == [] && s.base.Keys == ToSet(topics[..s.phase.next]))
  }

  lemma StretchMore(stream: seq<Entry>, base: nat, handed: seq<string>, id: nat, e: Entry)
    requires Stretch(stream, base, handed, id) && e.id > IdAt(stream, |stream|)
    ensures Stretch(stream + [e], base, handed, id)
  {
    assert (stream + [e])[base..base + |handed|] == stream[base..base + |handed|];
  }

  /** The first unread entry is the one behind the stretch. */
  lemma StretchNext(stream: seq<Entry>, base: nat, handed: seq<string>, id: nat)
    requires Stretch(stream, base, handed, id)
    ensures var unread := After(stream, id);
      if base + |handed| < |stream|
      then unread != [] && Stretch(stream, base, handed + [unread[0].data], unread[0].id)
      else unread == []
  {
    var n := base + |handed|;
    AfterIs(stream, n);
    if n < |stream| {
      assert stream[base..n + 1] == stream[base..n] + [stream[n]];
      assert Data(stream[base..n + 1]) == handed + [stream[n].data];
    }
  }

  lemma AppendFollows(topics: seq<Topic>, s: State, e: Event, t: Topic)
    requires e.Append? && Follows(s, t)
    ensures Follows(Step(topics, s, e), t)
  {
    hide Stretch;
    if e.topic == t {
      var stream := StreamOf(s.log, t);
      StretchMore(stream, Base(s, t), Of(s.delivered, t), IdOf(s.keys, t),
        Entry(IdAt(stream, |stream|) + 1 + e.gap, e.data));
    }
  }

  lemma {:induction false} OfConcat(a: seq<Message>, b: seq<Message>, t: Topic)
    ensures Of(a + b, t) == Of(a, t) + Of(b, t)
  {
    if b == [] {
      assert a + b == a;
    } else {
      assert (a + b)[..|a + b| - 1] == a + b[..|b| - 1];
      OfConcat(a, b[..|b| - 1], t);
    }
  }

  /** What the last topic of a read adds to a topic. */
  lemma ReadLast(keys: map<Topic, nat>, ts: seq<Topic>, log: Streams, t: Topic)
    requires ts != []
    ensures var (n, unread) := (|ts| - 1, Unread(keys, ts[|ts| - 1], log));
      && Of(ReadMessages(keys, ts, log), t) == Of(ReadMessages(keys, ts[..n], log), t) +
           (if ts[n] == t && unread != [] then [unread[0].data] else [])
      && IdOf(ReadKeys(keys, ts, log), t) ==
           (if ts[n] == t && unread != [] then unread[0].id else IdOf(ReadKeys(keys, ts[..n], log), t))
  {
    hide Unread, Of;
    var n := |ts| - 1;
    var unread := Unread(keys, ts[n], log);
    if unread != [] {
      var m := Message(ts[n], unread[0].data);
      OfConcat(ReadMessages(keys, ts[..n], log), [m], t);
      OfOne(m, t);
      assert Of(ReadMessages(keys, ts[..n], log), t) + [] == Of(ReadMessages(keys, ts[..n], log), t);
    }
  }

  /** A read hands out the first unread entry of every topic and moves its cursor there. */
  lemma {:induction false} ReadIs(keys: map<Topic, nat>, ts: seq<Topic>, log: Streams, t: Topic)
    requires Distinct(ts)
    ensures var unread := Unread(keys, t, log);
      if t in ts && unread != []
      then Of(ReadMessages(keys, ts, log), t) == [unread[0].data] && IdOf(ReadKeys(keys, ts, log), t) == unread[0].id
      else Of(ReadMessages(keys, ts, log), t) == [] && IdOf(ReadKeys(keys, ts, log), t) == IdOf(keys, t)
  {
    if ts == [] {
      OfNone(t);
    } else {
      var n := |ts| - 1;
      ReadIs(keys, ts[..n], log, t);
      ReadLast(keys, ts, log, t);
      assert ts == ts[..n] + [ts[n]];
      hide Unread, Of, ReadMessages, ReadKeys, IdOf;
      if ts[n] == t { assert t !in ts[..n]; }
    }
  }

  lemma OfNone(t: Topic)
    ensures Of([], t) == []
  {
  }

  lemma OfOne(m: Message, t: Topic)
    ensures Of([m], t) == if m.topic == t then [m.data] else []
  {
    assert [m][..0] == [];
  }

  lemma ReadFollows(topics: seq<Topic>, s: State, t: Topic)
    requires Distinct(topics) && Follows(s, t) && s.phase == Reading
    ensures Follows(Step(topics, s, Advance), t)
    ensures Position(Step(topics, s, Advance), t) ==
      if t in topics && Position(s, t) < |StreamOf(s.log, t)| then Position(s, t) + 1 else Position(s, t)
  {
    hide ReadKeys, ReadMessages, Of, Stretch, After, Distinct;
    ReadIs(s.keys, topics, s.log, t);
    OfConcat(s.delivered, ReadMessages(s.keys, topics, s.log), t);
    StretchNext(StreamOf(s.log, t), Base(s, t), Of(s.delivered, t), IdOf(s.keys, t));
    assert Of(s.delivered, t) + [] == Of(s.delivered, t);
  }

  lemma LookUpFollows(topics: seq<Topic>, fromStart: bool, s: State, t: Topic)
    requires Follows(s, t) && PhaseFits(topics, fromStart, s) && s.phase.LookingUp?
    ensures Follows(Step(topics, s, Advance), t)
  {
    var stream := StreamOf(s.log, t);
    assert stream[|stream|..] == [];
  }

  lemma StepFits(topics: seq<Topic>, fromStart: bool, s: State, e: Event)
    requires PhaseFits(topics, fromStart, s)
    ensures PhaseFits(topics, fromStart, Step(topics, s, e))
  {
    hide Of, ReadMessages;
    if e.Advance? {
      if s.phase.LookingUp? {
        var t, seen := topics[s.phase.next], topics[..s.phase.next];
        assert topics[..s.phase.next + 1] == seen + [t] && ToSet(seen + [t]) == ToSet(seen) + {t};
        assert t in Newest(s.keys, t, s.log);
      } else {
        ReadKeepsKeys(s.keys, topics, s.log);
        if s.keys != map[] { var t :| t in s.keys; assert t in ReadKeys(s.keys, topics, s.log); }
      }
    }
  }

  lemma {:induction false} ReadKeepsKeys(keys: map<Topic, nat>, ts: seq<Topic>, log: Streams)
    ensures keys.Keys <= ReadKeys(keys, ts, log).Keys
  {
    if ts != [] { ReadKeepsKeys(keys, ts[..|ts| - 1], log); }
  }

  /** Main result: over every interleaving of appends, commands and lost connections. */
  lemma {:induction false} RunFollows(topics: seq<Topic>, fromStart: bool, es: seq<Event>, t: Topic)
    requires Distinct(topics) && topics != []
    ensures PhaseFits(topics, fromStart, Run(topics, fromStart, es)) && Follows(Run(topics, fromStart, es), t)
  {
    if es == [] {
      assert topics[..0] == [];
    } else {
      var before, e := es[..|es| - 1], es[|es| - 1];
      RunFollows(topics, fromStart, before, t);
      var s := Run(topics, fromStart, before);
      StepFits(topics, fromStart, s, e);
      hide PhaseFits;
      match e
      case Append(_, _, _) => AppendFollows(topics, s, e, t);
      case Advance => AdvanceFollows(topics, fromStart, s, t);
      case Fail => FailFollows(topics, s, t);
    }
  }

  lemma AdvanceFollows(topics: seq<Topic>, fromStart: bool, s: State, t: Topic)
    requires Distinct(topics) && Follows(s, t) && PhaseFits(topics, fromStart, s)
    ensures Follows(Step(topics, s, Advance), t)
  {
    if s.phase.LookingUp? { LookUpFollows(topics, fromStart, s, t); } else { ReadFollows(topics, s, t); }
  }

  lemma FailFollows(topics: seq<Topic>, s: State, t: Topic)
    requires Follows(s, t)
    ensures Follows(Step(topics, s, Fail), t)
  {
  }

  /** What has been handed out of a topic is a prefix of its stream from the base on. */
  lemma DeliveredPrefix(topics: seq<Topic>, fromStart: bool, es: seq<Event>, t: Topic)
    requires Distinct(topics) && topics != []
    ensures var (s, stream) := (Run(topics, fromStart, es), StreamOf(Run(topics, fromStart, es).log, t));
      Base(s, t) <= |stream| && Of(s.delivered, t) <= Data(stream[Base(s, t)..])
  {
    RunFollows(topics, fromStart, es, t);
    var s := Run(topics, fromStart, es);
    var stream, base, n := StreamOf(s.log, t), Base(s, t), |Of(s.delivered, t)|;
    assert stream[base..][..n] == stream[base..base + n];
    assert Data(stream[base..])[..n] == Data(stream[base..][..n]);
  }

  // ----- Where delivery begins -----

  /** The topic is looked up by the `k`th event. */
  ghost predicate LookedUpBy(topics: seq<Topic>, fromStart: bool, es: seq<Event>, k: nat, t: Topic) {
    && k < |es| && es[k].Advance?
    && var s := Run(topics, fromStart, es[..k]);
    && s.phase.LookingUp? && s.phase.next < |topics| && topics[s.phase.next] == t
  }

  lemma LookedUpBefore(topics: seq<Topic>, fromStart: bool, es: seq<Event>, j: nat, t: Topic)
    requires es != []
    ensures var n := |es| - 1;
      LookedUpBy(topics, fromStart, es, j, t) <==>
        (j == n && LookedUpBy(topics, fromStart, es, n, t)) || LookedUpBy(topics, fromStart, es[..n], j, t)
  {
    if j < |es| - 1 { assert es[..|es| - 1][..j] == es[..j]; }
  }

  /** A topic gets a base when it is looked up, and then the length its stream has. */
  lemma LookUpSets(topics: seq<Topic>, fromStart: bool, es: seq<Event>, t: Topic)
    requires es != [] && Distinct(topics) && topics != []
    ensures var (n, s, now) := (|es| - 1, Run(topics, fromStart, es[..|es| - 1]), Run(topics, fromStart, es));
      if LookedUpBy(topics, fromStart, es, n, t)
      then t in now.base && t !in s.base && Base(now, t) == |StreamOf(s.log, t)|
      else (t in now.base <==> t in s.base) && Base(now, t) == Base(s, t)
  {
    hide Follows, ReadKeys, ReadMessages, Newest;
    RunFollows(topics, fromStart, es[..|es| - 1], t);
  }

  /**
    Main result, where delivery begins: at the length the stream had when the topic was looked up in the first poll.
    From the start if it never was.
   */
  lemma {:induction false} BaseIs(topics: seq<Topic>, fromStart: bool, es: seq<Event>, t: Topic) returns (k: nat)
    requires Distinct(topics) && topics != []
    ensures var s := Run(topics, fromStart, es);
      if t in s.base
      then LookedUpBy(topics, fromStart, es, k, t)
        && Base(s, t) == |StreamOf(Run(topics, fromStart, es[..k]).log, t)|
      else Base(s, t) == 0 && forall j :: !LookedUpBy(topics, fromStart, es, j, t)
  {
    k := 0;
    if es != [] {
      var n := |es| - 1;
      k := BaseIs(topics, fromStart, es[..n], t);
      LookUpSets(topics, fromStart, es, t);
      hide LookedUpBy, Run, Base;
      forall j { LookedUpBefore(topics, fromStart, es, j, t); }
      if LookedUpBy(topics, fromStart, es, n, t) {
        k := n;
      } else if t in Run(topics, fromStart, es[..n]).base {
        LookedUpEarly(topics, fromStart, es[..n], k, t);
        assert es[..n][..k] == es[..k];
      }
    }
  }

  lemma LookedUpEarly(topics: seq<Topic>, fromStart: bool, es: seq<Event>, k: nat, t: Topic)
    requires LookedUpBy(topics, fromStart, es, k, t)
    ensures k < |es|
  {
  }

  /** The `k`th event is a connection lost during the first poll, before the topic's turn but after another's. */
  ghost predicate CutOffBy(topics: seq<Topic>, fromStart: bool, es: seq<Event>, k: nat, t: Topic) {
    && k < |es| && es[k].Fail?
    && var s := Run(topics, fromStart, es[..k]);
    && s.phase.LookingUp? && 0 < s.phase.next <= |topics| && t !in topics[..s.phase.next]
  }

  ghost predicate CutOff(topics: seq<Topic>, fromStart: bool, es: seq<Event>, t: Topic) {
    exists k: nat :: CutOffBy(topics, fromStart, es, k, t)
  }

  lemma CutOffBefore(topics: seq<Topic>, fromStart: bool, es: seq<Event>, t: Topic)
    requires es != []
    ensures var n := |es| - 1;
      CutOff(topics, fromStart, es, t) <==>
        CutOffBy(topics, fromStart, es, n, t) || CutOff(topics, fromStart, es[..n], t)
  {
    var n := |es| - 1;
    if CutOff(topics, fromStart, es, t) {
      var k: nat :| CutOffBy(topics, fromStart, es, k, t);
      if k < n {
        assert es[..n][..k] == es[..k];
        assert CutOffBy(topics, fromStart, es[..n], k, t);
      }
    }
    if CutOff(topics, fromStart, es[..n], t) {
      var k: nat :| CutOffBy(topics, fromStart, es[..n], k, t);
      assert es[..n][..k] == es[..k];
      assert CutOffBy(topics, fromStart, es, k, t);
    }
  }

  /** What one step does to the look-ups: `cut` says whether the topic has been cut off before. */
  lemma LookUpStep(topics: seq<Topic>, fromStart: bool, s: State, e: Event, t: Topic, cut: bool)
    requires Distinct(topics) && t in topics && PhaseFits(topics, fromStart, s)
    requires if s.phase.Reading? then t in s.base <==> !fromStart && !cut else !cut
    ensures var (u, cutNow) :=
        (Step(topics, s, e), e.Fail? && s.phase.LookingUp? && 0 < s.phase.next && t !in topics[..s.phase.next]);
      if u.phase.Reading? then t in u.base <==> !fromStart && !(cut || cutNow) else !(cut || cutNow)
  {
    hide ReadKeys, ReadMessages, Newest;
    if s.phase.LookingUp? && e.Advance? && s.phase.next + 1 == |topics| {
      assert topics == topics[..s.phase.next] + [topics[s.phase.next]];
    }
  }

  /**
    Main result, which topics are looked up: once the first poll is over, exactly those it reached before it lost the
    connection, if it did after its first look-up; the others are delivered from their start.
   */
  lemma {:induction false} AllLookedUp(topics: seq<Topic>, fromStart: bool, es: seq<Event>, t: Topic)
    requires Distinct(topics) && t in topics
    ensures var s := Run(topics, fromStart, es);
      if s.phase.Reading? then t in s.base <==> !fromStart && !CutOff(topics, fromStart, es, t)
      else !CutOff(topics, fromStart, es, t)
  {
    if es != [] {
      var n := |es| - 1;
      AllLookedUp(topics, fromStart, es[..n], t);
      RunFollows(topics, fromStart, es[..n], t);
      CutOffBefore(topics, fromStart, es, t);
      hide CutOff, Step, Follows;
      LookUpStep(topics, fromStart, Run(topics, fromStart, es[..n]), es[n], t, CutOff(topics, fromStart, es[..n], t));
    }
  }

  lemma RunStep(topics: seq<Topic>, fromStart: bool, es: seq<Event>, e: Event)
    ensures Run(topics, fromStart, es + [e]) == Step(topics, Run(topics, fromStart, es), e)
  {
    assert (es + [e])[..|es|] == es;
  }

  /** One unread entry in the second of two streams. */
  lemma ReadSecond(a: Topic, b: Topic, e: Entry)
    requires e.id > 0 && a != b
    ensures ReadMessages(map[a := 0], [a, b], map[b := [e]]) == [Message(b, e.data)]
  {
    var ts, keys, log := [a, b], map[a := 0], map[b := [e]];
    assert ts[..1] == [a] && [a][..0] == [];
    assert StreamOf(log, a) == [] && StreamOf(log, b) == [e];
    assert Unread(keys, a, log) == [] && Unread(keys, b, log) == [e];
    assert ReadMessages(keys, [], log) == [];
    assert ReadMessages(keys, [a], log) == [];
  }

  /** A consumer of new entries gets an entry that was there before its first poll. */
  lemma OldEntryDelivered(a: Topic, b: Topic, data: string)
    requires a != b
    ensures Run([a, b], false, [Append(b, data, 0), Advance, Fail, Advance]).delivered == [Message(b, data)]
  {
    var ts, e, append := [a, b], Entry(1, data), Append(b, data, 0);
    var s0, s1 := Start(false), State(map[b := [e]], map[], LookingUp(0), [], map[]);
    var s2 := State(map[b := [e]], map[a := 0], LookingUp(1), [], map[a := 0]);
    RunStep(ts, false, [], append);
    RunStep(ts, false, [append], Advance);
    RunStep(ts, false, [append, Advance], Fail);
    RunStep(ts, false, [append, Advance, Fail], Advance);
    assert Run(ts, false, []) == s0;
    hide Run, ReadMessages, ReadKeys;
    assert [] + [append] == [append] && [append] + [Advance] == [append, Advance];
    assert [append, Advance] + [Fail] == [append, Advance, Fail];
    assert [append, Advance, Fail] + [Advance] == [append, Advance, Fail, Advance];
    assert Step(ts, s0, append) == s1 by { assert [] + [e] == [e]; }
    assert Step(ts, s1, Advance) == s2;
    ReadSecond(a, b, e);
  }
}
