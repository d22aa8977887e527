/**
  Version 1.2 of the message framing: a declaration with the lengths of header and body, the mark `_EOH_`, header
  and body. JSON and msgpack are parameters that are assumed to be invertible.
 */
module Framing {
  import opened Instructions

  /** One character a byte. */
  type Bytes = string

  const PREFIX := "MSGVERSION_"
  const VERSION := "1.2"
  const MARK := "_EOH_"
  const BUNDLE := "bundle_message"

  // ----- Decimal numbers -----

  predicate IsDigit(c: char) {
    '0' <= c <= '9'
  }

  predicate AllDigits(s: Bytes) {
    forall i :: 0 <= i < |s| ==> IsDigit(s[i])
  }

  function Digit(d: nat): (c: char)
    requires d < 10
    ensures IsDigit(c) && DigitValue(c) == d
  {
    "0123456789"[d]
  }

  function DigitValue(c: char): nat
    requires IsDigit(c)
  {
    c as nat - '0' as nat
  }

  function Decimal(n: nat): (s: Bytes)
    ensures s != "" && AllDigits(s)
  {
    if n < 10 then [Digit(n)] else Decimal(n / 10) + [Digit(n % 10)]
  }

  function Number(s: Bytes): nat
    requires AllDigits(s)
  {
    if s == "" then 0 else 10 * Number(s[..|s| - 1]) + DigitValue(s[|s| - 1])
  }

  /** `int(s)`, for which only plain digits are modelled. */
  function ParseInt(s: Bytes): Option<nat> {
    if s == "" || !AllDigits(s) then None else Some(Number(s))
  }

  lemma {:induction false} DecimalParses(n: nat)
    ensures ParseInt(Decimal(n)) == Some(n)
  {
    if n >= 10 {
      DecimalParses(n / 10);
      assert Decimal(n)[..|Decimal(n)| - 1] == Decimal(n / 10);
    } else {
      assert Number(Decimal(n)[..0]) == 0;
    }
  }

  // ----- Splitting -----

  /** Where the mark first occurs. */
  function FindMark(s: Bytes): (k: Option<nat>)
    ensures k.Some? ==> k.value + |MARK| <= |s|
  {
    if |s| < |MARK| then None
    else if s[..|MARK|] == MARK then Some(0)
    else
      var rest := FindMark(s[1..]);
      if rest.None? then None else Some(rest.value + 1)
  }

  /** `s.split("_")`. */
  function Fields(s: Bytes): (f: seq<Bytes>)
    ensures f != []
  {
    if s == "" then [""] else
      var rest := Fields(s[1..]);
      if s[0] == '_' then [""] + rest else [[s[0]] + rest[0]] + rest[1..]
  }

  predicate Plain(s: Bytes) {
    '_' !in s
  }

  lemma {:induction false} FieldsFirst(a: Bytes, s: Bytes)
    requires Plain(a)
    ensures Fields(a + "_" + s) == [a] + Fields(s)
  {
    if a == "" {
      assert (a + "_" + s)[1..] == s;
    } else {
      assert (a + "_" + s)[1..] == a[1..] + "_" + s;
      FieldsFirst(a[1..], s);
      assert [a[0]] + a[1..] == a;
    }
  }

  lemma {:induction false} FieldsLast(a: Bytes)
    requires Plain(a)
    ensures Fields(a) == [a]
  {
    if a != "" {
      FieldsLast(a[1..]);
      assert [a[0]] + a[1..] == a;
    }
  }

  /** No underscore is the last character or is followed by an E, so that no mark can begin here. */
  predicate Unmarked(s: Bytes) {
    forall i :: 0 <= i < |s| && s[i] == '_' ==> i + 1 < |s| && s[i + 1] != 'E'
  }

  lemma {:induction false} FindsMark(s: Bytes, rest: Bytes)
    requires Unmarked(s)
    ensures FindMark(s + MARK + rest) == Some(|s|)
  {
    var all := s + MARK + rest;
    if s == "" {
      assert all[..|MARK|] == MARK;
    } else {
      assert all[1..] == s[1..] + MARK + rest;
      assert Unmarked(s[1..]) by {
        forall i | 0 <= i < |s| - 1 && s[1..][i] == '_' ensures i + 1 < |s| - 1 && s[1..][i + 1] != 'E' {
          assert s[i + 1] == '_';
        }
      }
      FindsMark(s[1..], rest);
      assert all[..|MARK|] != MARK by {
        assert all[0] == s[0] && MARK[0] == '_' && MARK[1] == 'E';
        if s[0] == '_' { assert all[1] == s[1]; }
      }
    }
  }

  // ----- Frames -----

  function Declaration(headerLength: nat, bodyLength: nat): Bytes {
    PREFIX + VERSION + "_" + Decimal(headerLength) + "_" + Decimal(bodyLength)
  }

  /** The frame of a header and a body. */
  function Frame(header: Bytes, body: Bytes): Bytes {
    Declaration(|header|, |body|) + MARK + header + body
  }

  /** Header and body of a frame; None stands for an exception or another version. */
  function Unframe(msg: Bytes): (parts: Option<(Bytes, Bytes)>)
    ensures parts.Some? ==> |parts.value.0| + |parts.value.1| < |msg|
  {
    if !(PREFIX <= msg) || |msg| < 14 || msg[11..14] != VERSION then None else
      var at := FindMark(msg);
      if at.None? then None else
        var fields, rest := Fields(msg[..at.value]), msg[at.value + |MARK|..];
        if |fields| != 4 then None else
          var n := ParseInt(fields[2]);
          if n.None? then None
          else if n.value <= |rest| then Some((rest[..n.value], rest[n.value..]))
          else Some((rest, ""))
  }

  lemma DigitsPlain(s: Bytes)
    requires AllDigits(s)
    ensures Plain(s)
  {
    forall i | 0 <= i < |s| ensures s[i] != '_' { assert IsDigit(s[i]); }
  }

  lemma DeclarationFields(h: nat, b: nat)
    ensures Fields(Declaration(h, b)) == ["MSGVERSION", VERSION, Decimal(h), Decimal(b)]
  {
    hide Fields;
    DigitsPlain(Decimal(h));
    DigitsPlain(Decimal(b));
    var rest := Decimal(h) + "_" + Decimal(b);
    assert Declaration(h, b) == "MSGVERSION" + "_" + (VERSION + "_" + rest);
    FieldsFirst("MSGVERSION", VERSION + "_" + rest);
    FieldsFirst(VERSION, rest);
    FieldsFirst(Decimal(h), Decimal(b));
    FieldsLast(Decimal(b));
  }

  lemma UnmarkedDigits(s: Bytes)
    requires AllDigits(s)
    ensures Unmarked(s)
  {
  }

  lemma UnmarkedConcat(s: Bytes, t: Bytes)
    requires Unmarked(s) && t != "" && IsDigit(t[0]) && Unmarked(t)
    ensures Unmarked(s + "_" + t)
  {
  }

  lemma DeclarationUnmarked(h: nat, b: nat)
    ensures Unmarked(Declaration(h, b))
  {
    var lead := "MSGVERSION_1.2";
    UnmarkedDigits(Decimal(h));
    UnmarkedDigits(Decimal(b));
    UnmarkedConcat(lead, Decimal(h));
    UnmarkedConcat(lead + "_" + Decimal(h), Decimal(b));
    assert Declaration(h, b) == lead + "_" + Decimal(h) + "_" + Decimal(b);
  }

  /** A frame gives back its header and body, whatever bytes they hold. */
  lemma UnframeFrame(header: Bytes, body: Bytes)
    ensures Unframe(Frame(header, body)) == Some((header, body))
  {
    hide Fields, FindMark, Decimal, Number;
    var d, msg := Declaration(|header|, |body|), Frame(header, body);
    DeclarationUnmarked(|header|, |body|);
    DeclarationFields(|header|, |body|);
    DecimalParses(|header|);
    assert msg == d + MARK + (header + body);
    FindsMark(d, header + body);
    assert msg[..|d|] == d && msg[|d| + |MARK|..] == header + body;
    assert (header + body)[..|header|] == header && (header + body)[|header|..] == body;
    assert msg[..14] == PREFIX + VERSION;
    assert msg[11..14] == msg[..14][11..] == VERSION && msg[..11] == msg[..14][..11] == PREFIX;
  }

  // ----- Messages -----

  datatype Header = Header(msgType: string, compression: string)

  /** The content of a message; that of a bundle are dumped messages. */
  datatype Content = Content(content: string, metadata: string) | Members(messages: seq<Bytes>, metadata: string)

  datatype Message = Message(msgType: string, content: Content)

  /** JSON for headers, msgpack for bodies, the known message classes, and what each accepts as valid. */
  datatype Codec = Codec(
    header: Header -> Bytes,
    readHeader: Bytes -> Option<Header>,
    body: Content -> Bytes,
    readBody: Bytes -> Option<Content>,
    classes: set<string>,
    accepts: (string, Content) -> bool)

  /** Both formats are invertible, and a packed body is no shorter than the messages in it. */
  ghost predicate Lawful(c: Codec) {
    && (forall h :: c.readHeader(c.header(h)) == Some(h))
    && (forall b :: c.readBody(c.body(b)) == Some(b))
    && (forall s :: MembersFit(c, s))
    && BUNDLE in c.classes
  }

  predicate MembersFit(c: Codec, s: Bytes) {
    var b := c.readBody(s);
    b.Some? && b.value.Members? ==> forall k :: 0 <= k < |b.value.messages| ==> |b.value.messages[k]| <= |s|
  }

  /** What loading returns: None for a message of another class or an invalid one, a list for a bundle. */
  datatype Loaded = Rejected | One(msg: Message) | Many(members: seq<Loaded>)

  function Dumps(c: Codec, m: Message): Bytes {
    Frame(c.header(Header(m.msgType, "msgpack")), c.body(m.content))
  }

  function ReadHeader(c: Codec, msg: Bytes): Option<Header> {
    var parts := Unframe(msg);
    if parts.None? then None else c.readHeader(parts.value.0)
  }

  /** `get_message_class`. */
  function MessageClass(c: Codec, msg: Bytes): Option<string> {
    var h := ReadHeader(c, msg);
    if h.Some? && h.value.msgType in c.classes then Some(h.value.msgType) else None
  }

  /** `_validated_return`. */
  function Validated(c: Codec, cls: string, msgType: string, content: Content): Loaded {
    if cls != msgType || !c.accepts(cls, content) then Rejected else One(Message(msgType, content))
  }

  function ReadBody(c: Codec, msg: Bytes): (b: Option<Content>)
    requires Lawful(c)
    ensures b.Some? && b.value.Members? ==>
      forall k :: 0 <= k < |b.value.messages| ==> |b.value.messages[k]| < |msg|
  {
    var parts := Unframe(msg);
    if parts.None? then None else
      assert MembersFit(c, parts.value.1);
      c.readBody(parts.value.1)
  }

  /** `cls.loads(msg)`; None stands for an exception. */
  function Loads(c: Codec, cls: string, msg: Bytes): Option<Loaded>
    requires Lawful(c)
    decreases |msg|, 1, 0
  {
    var h, b := ReadHeader(c, msg), ReadBody(c, msg);
    if h.None? || b.None? || h.value.compression != "msgpack" then None
    else if h.value.msgType != BUNDLE then Some(Validated(c, cls, h.value.msgType, b.value))
    else if !b.value.Members? then None
    else
      var all := LoadsAll(c, b.value.messages, |msg|);
      if all.None? then None else Some(Many(all.value))
  }

  /** The members of a bundle, each loaded by its own class. */
  function LoadsAll(c: Codec, msgs: seq<Bytes>, below: nat): Option<seq<Loaded>>
    requires Lawful(c) && forall k :: 0 <= k < |msgs| ==> |msgs[k]| < below
    decreases below, 0, |msgs|
  {
    if msgs == [] then Some([]) else
      var n := |msgs| - 1;
      var front := LoadsAll(c, msgs[..n], below);
      var cls := MessageClass(c, msgs[n]);
      if front.None? || cls.None? then None else
        var last := Loads(c, cls.value, msgs[n]);
        if last.None? then None else Some(front.value + [last.value])
  }

  // ----- Round trips -----

  lemma HeaderBack(c: Codec, m: Message)
    requires Lawful(c)
    ensures ReadHeader(c, Dumps(c, m)) == Some(Header(m.msgType, "msgpack"))
    ensures ReadBody(c, Dumps(c, m)) == Some(m.content)
  {
    hide Unframe, Frame;
    UnframeFrame(c.header(Header(m.msgType, "msgpack")), c.body(m.content));
  }

  /** A dumped message other than a bundle loads back, by a class, exactly when it is one of its valid messages. */
  lemma LoadsDumpsIff(c: Codec, cls: string, m: Message)
    requires Lawful(c) && m.msgType != BUNDLE
    ensures Loads(c, cls, Dumps(c, m)) == Some(One(m)) <==> cls == m.msgType && c.accepts(cls, m.content)
    ensures Loads(c, cls, Dumps(c, m)) == Some(One(m)) || Loads(c, cls, Dumps(c, m)) == Some(Rejected)
  {
    hide Dumps, ReadHeader, ReadBody;
    HeaderBack(c, m);
  }

  /** Messages bundled to any depth. */
  datatype Tree = Leaf(msg: Message) | Pack(members: seq<Tree>, metadata: string)

  function TypeOf(t: Tree): string {
    if t.Leaf? then t.msg.msgType else BUNDLE
  }

  function Dump(c: Codec, t: Tree): Bytes {
    match t
    case Leaf(m) => Dumps(c, m)
    case Pack(ts, meta) => Dumps(c, Message(BUNDLE, Members(DumpAll(c, ts), meta)))
  }

  function DumpAll(c: Codec, ts: seq<Tree>): seq<Bytes> {
    if ts == [] then [] else DumpAll(c, ts[..|ts| - 1]) + [Dump(c, ts[|ts| - 1])]
  }

  predicate KnownTypes(c: Codec, t: Tree) {
    match t
    case Leaf(m) => m.msgType in c.classes && m.msgType != BUNDLE
    case Pack(ts, _) => forall k :: 0 <= k < |ts| ==> KnownTypes(c, ts[k])
  }

  /** Every valid message where it was bundled, None in the place of an invalid one. */
  function Expected(c: Codec, t: Tree): Loaded {
    match t
    case Leaf(m) => if c.accepts(m.msgType, m.content) then One(m) else Rejected
    case Pack(ts, _) => Many(ExpectedAll(c, ts))
  }

  function ExpectedAll(c: Codec, ts: seq<Tree>): (all: seq<Loaded>)
    ensures |all| == |ts|
  {
    if ts == [] then [] else ExpectedAll(c, ts[..|ts| - 1]) + [Expected(c, ts[|ts| - 1])]
  }

  lemma ClassBack(c: Codec, t: Tree)
    requires Lawful(c) && KnownTypes(c, t)
    ensures MessageClass(c, Dump(c, t)) == Some(TypeOf(t))
  {
    hide Dumps, ReadHeader;
    match t
    case Leaf(m) => HeaderBack(c, m);
    case Pack(ts, meta) => HeaderBack(c, Message(BUNDLE, Members(DumpAll(c, ts), meta)));
  }

  /**
    Main result: bundles load to the in-order lists of their loaded members, at every depth, whatever bytes headers
    and bodies hold; the class a bundle is loaded by does not matter.
   */
  lemma {:induction false} BundlesLoad(c: Codec, t: Tree, cls: string)
    requires Lawful(c) && KnownTypes(c, t) && (t.Leaf? ==> cls == t.msg.msgType)
    ensures Loads(c, cls, Dump(c, t)) == Some(Expected(c, t))
    decreases t, 0
  {
    hide Dumps, ReadHeader, ReadBody;
    match t
    case Leaf(m) => HeaderBack(c, m);
    case Pack(ts, meta) =>
      HeaderBack(c, Message(BUNDLE, Members(DumpAll(c, ts), meta)));
      MembersLoad(c, ts, |Dump(c, t)|);
  }

  lemma {:induction false} MembersLoad(c: Codec, ts: seq<Tree>, below: nat)
    requires Lawful(c) && forall k :: 0 <= k < |ts| ==> KnownTypes(c, ts[k])
    requires forall k :: 0 <= k < |DumpAll(c, ts)| ==> |DumpAll(c, ts)[k]| < below
    ensures LoadsAll(c, DumpAll(c, ts), below) == Some(ExpectedAll(c, ts))
    decreases ts
  {
    if ts != [] {
      hide Dump, Loads, MessageClass, KnownTypes, Expected;
      var n := |ts| - 1;
      var ds := DumpAll(c, ts);
      assert ds[..|ds| - 1] == DumpAll(c, ts[..n]) && ds[|ds| - 1] == Dump(c, ts[n]);
      forall k | 0 <= k < |ds| - 1 ensures |DumpAll(c, ts[..n])[k]| < below { assert DumpAll(c, ts[..n])[k] == ds[k]; }
      MembersLoad(c, ts[..n], below);
      ClassBack(c, ts[n]);
      LeafClass(ts[n]);
      BundlesLoad(c, ts[n], TypeOf(ts[n]));
    }
  }

  lemma LeafClass(t: Tree)
    ensures t.Leaf? ==> TypeOf(t) == t.msg.msgType
  {
  }

  // ----- Bundles in memory, and the loop that loads them -----

  /** What is handed to a bundle: bytes or a string, a message, or something else. */
  datatype Appended = Raw(bytes: Bytes) | Whole(message: Message) | Other

  function BundleMember(c: Codec, msg: Appended): seq<Bytes> {
    match msg
    case Raw(bytes) => [bytes]
    case Whole(m) => [Dumps(c, m)]
    case Other => []
  }

  class BundleMessage {
    var messages: seq<Bytes>

    constructor ()
      ensures messages == []
    {
      messages := [];
    }

    /** Messages are dumped, bytes and strings taken as they are; anything else raises and is not appended. */
    method Append(c: Codec, msg: Appended) returns (ok: bool)
      modifies this
      ensures ok == !msg.Other?
      ensures messages == old(messages) + BundleMember(c, msg)
    {
      match msg {
        case Raw(bytes) => messages := messages + [bytes];
        case Whole(_) => AppendMessage(c, msg.message);
        case Other => return false;
      }
      return true;
    }

    method AppendMessage(c: Codec, m: Message)
      modifies this
      ensures messages == old(messages) + [Dumps(c, m)]
    {
      messages := messages + [Dumps(c, m)];
    }
  }

  method LoadBundle(c: Codec, msgs: seq<Bytes>, below: nat) returns (ret: Option<seq<Loaded>>)
    requires Lawful(c) && forall k :: 0 <= k < |msgs| ==> |msgs[k]| < below
    ensures ret == LoadsAll(c, msgs, below)
  {
    var members: seq<Loaded> := [];
    for k := 0 to |msgs|
      invariant LoadsAll(c, msgs[..k], below) == Some(members)
    {
      assert msgs[..k + 1][..k] == msgs[..k];
      var cls := MessageClass(c, msgs[k]);
      if cls.None? {
        LoadsAllFails(c, msgs, below, k + 1);
        return None;
      }
      var member := Loads(c, cls.value, msgs[k]);
      if member.None? {
        LoadsAllFails(c, msgs, below, k + 1);
        return None;
      }
      members := members + [member.value];
    }
    assert msgs[..|msgs|] == msgs;
    return Some(members);
  }

  lemma {:induction false} LoadsAllFails(c: Codec, msgs: seq<Bytes>, below: nat, k: nat)
    requires Lawful(c) && k <= |msgs| && forall j :: 0 <= j < |msgs| ==> |msgs[j]| < below
    requires LoadsAll(c, msgs[..k], below).None?
    ensures LoadsAll(c, msgs, below).None?
  {
    if k < |msgs| {
      var n := |msgs| - 1;
      assert msgs[..n][..k] == msgs[..k];
      LoadsAllFails(c, msgs[..n], below, k);
    } else {
      assert msgs[..k] == msgs;
    }
  }
}
