/**
 Finding the owner of a TCP connection: the walk over the netlink messages of a
 sock_diag reply. The machine's byte order is a parameter.
 */
module PeerCred {
  import opened Wrappers
  import opened Bytes
  import opened Users

  const HEADER: nat := 16
  const RECORD: nat := 72
  const NLMSG_ERROR: nat := 2
  const NLMSG_DONE: nat := 3
  const AF_INET: Byte := 2
  const AF_INET6: Byte := 10

  datatype Order = LittleEndian | BigEndian

  function Word16(e: Order, a: Byte, b: Byte): nat {
    var x: int, y: int := a, b;
    if e == LittleEndian then x + 256 * y else 256 * x + y
  }

  function Word32(e: Order, a: Byte, b: Byte, c: Byte, d: Byte): nat {
    if e == LittleEndian then Word16(e, a, b) + 0x1_0000 * Word16(e, c, d)
    else 0x1_0000 * Word16(e, a, b) + Word16(e, c, d)
  }

  function U16At(e: Order, buf: Data, at: nat): nat
    requires at + 2 <= |buf|
  {
    Word16(e, buf[at], buf[at + 1])
  }

  function U32At(e: Order, buf: Data, at: nat): nat
    requires at + 4 <= |buf|
  {
    Word32(e, buf[at], buf[at + 1], buf[at + 2], buf[at + 3])
  }

  /** An address as four native words. */
  type Words = s: seq<nat> | |s| == 4 witness [0, 0, 0, 0]

  // ---------- one message ----------

  datatype Record = Record(family: Byte, sport: nat, dport: nat, src: Words, dst: Words, uid: Uid)

  datatype Query = Query(sport: nat, dport: nat, src: Words, dst: Words, family: Byte)

  /** The length and type of the header at an offset; a header is read in place, so it must be inside the buffer and aligned. */
  function HeaderAt(e: Order, buf: Data, at: nat): (nat, nat)
    requires at % 4 == 0 && at + HEADER <= |buf|
  {
    (U32At(e, buf, at), U16At(e, buf, at + 4))
  }

  function Address(e: Order, buf: Data, at: nat): Words
    requires at + 16 <= |buf|
  {
    [U32At(e, buf, at), U32At(e, buf, at + 4), U32At(e, buf, at + 8), U32At(e, buf, at + 12)]
  }

  /** The socket record at an offset, read in place like a header. */
  function RecordAt(e: Order, buf: Data, at: nat): Record
    requires at % 4 == 0 && at + RECORD <= |buf|
  {
    Record(buf[at], U16At(e, buf, at + 4), U16At(e, buf, at + 6), Address(e, buf, at + 8), Address(e, buf, at + 24),
           U32At(e, buf, at + 64))
  }

  predicate AddrsEqual(a: Words, b: Words, family: Byte)
  {
    if family == AF_INET then a[0] == b[0] else a == b
  }

  predicate Wanted(r: Record, q: Query)
  {
    && r.family == q.family && r.sport == q.sport && r.dport == q.dport
    && AddrsEqual(r.src, q.src, q.family) && AddrsEqual(r.dst, q.dst, q.family)
  }

  /** What the walk sees of a message: its type, and the record if the message is long enough to hold one. */
  datatype Message = Message(kind: nat, record: Option<Record>)

  predicate Matches(m: Message, q: Query) {
    m.record.Some? && Wanted(m.record.value, q)
  }

  // ---------- the messages of a buffer ----------

  lemma MultiplesAdd(a: nat, b: nat)
    requires a % 4 == 0 && b % 4 == 0
    ensures (a + b) % 4 == 0
  {
  }

  /** `NLMSG_ALIGN`. */
  function Align(len: nat): (r: nat)
    ensures r % 4 == 0 && len <= r < len + 4
  {
    len + 3 - (len + 3) % 4
  }

  /** Nothing more is read: too short for a header, a length out of range, or the end of the dump. */
  predicate StopsAt(e: Order, buf: Data, at: nat)
    requires at % 4 == 0
  {
    || at + HEADER > |buf|
    || (var (len, kind) := HeaderAt(e, buf, at); len < HEADER || at + len > |buf| || kind == NLMSG_DONE)
  }

  function MessageAt(e: Order, buf: Data, at: nat): Message
    requires at % 4 == 0 && !StopsAt(e, buf, at)
  {
    var (len, kind) := HeaderAt(e, buf, at);
    Message(kind, if HEADER + RECORD <= len then Some(RecordAt(e, buf, at + HEADER)) else None)
  }

  /** Where the next header is looked for. */
  function NextAt(e: Order, buf: Data, at: nat): (next: nat)
    requires at % 4 == 0 && !StopsAt(e, buf, at)
    ensures next % 4 == 0 && at < next
  {
    var step := Align(HeaderAt(e, buf, at).0);
    MultiplesAdd(at, step);
    at + step
  }

  /** The messages from an offset on, up to and including the first error. */
  function Messages(e: Order, buf: Data, at: nat): seq<Message>
    requires at % 4 == 0
    decreases |buf| - at
  {
    if StopsAt(e, buf, at) then []
    else
      var m := MessageAt(e, buf, at);
      [m] + (if m.kind == NLMSG_ERROR then [] else Messages(e, buf, NextAt(e, buf, at)))
  }

  // ---------- the answer ----------

  datatype Error = NetlinkError | NotFound | Ambiguous

  function Uids(ms: seq<Message>, q: Query): seq<Uid> {
    if |ms| == 0 then []
    else
      var m := ms[|ms| - 1];
      Uids(ms[..|ms| - 1], q) + (if Matches(m, q) then [m.record.value.uid] else [])
  }

  predicate NoError(ms: seq<Message>) {
    forall i :: 0 <= i < |ms| ==> ms[i].kind != NLMSG_ERROR
  }

  function Answer(uids: seq<Uid>): Result<Uid, Error> {
    if |uids| == 1 then Ok(uids[0]) else if |uids| == 0 then Err(NotFound) else Err(Ambiguous)
  }

  function Verdict(ms: seq<Message>, q: Query): Result<Uid, Error> {
    if NoError(ms) then Answer(Uids(ms, q)) else Err(NetlinkError)
  }

  lemma UidsAppend(ms: seq<Message>, m: Message, q: Query)
    ensures Uids(ms + [m], q) == Uids(ms, q) + (if Matches(m, q) then [m.record.value.uid] else [])
  {
    assert (ms + [m])[..|ms|] == ms;
  }

  /** A message that is not an error joins those seen, and the walk goes on after it. */
  lemma WalkStep(e: Order, buf: Data, at: nat, seen: seq<Message>)
    requires at % 4 == 0 && !StopsAt(e, buf, at) && MessageAt(e, buf, at).kind != NLMSG_ERROR
    ensures seen + Messages(e, buf, at) == (seen + [MessageAt(e, buf, at)]) + Messages(e, buf, NextAt(e, buf, at))
  {
    var m, later := MessageAt(e, buf, at), Messages(e, buf, NextAt(e, buf, at));
    assert seen + ([m] + later) == (seen + [m]) + later;
  }

  /** The record check of the walk on a message it does not skip. */
  method Collect(e: Order, buf: Data, offset: nat, q: Query, matches: seq<Uid>) returns (r: seq<Uid>)
    requires offset % 4 == 0 && !StopsAt(e, buf, offset)
    ensures var m := MessageAt(e, buf, offset); r == matches + (if Matches(m, q) then [m.record.value.uid] else [])
  {
    r := matches;
    var at, len := offset + HEADER, HeaderAt(e, buf, offset).0;
    if at + RECORD <= offset + len {
      var record := RecordAt(e, buf, at);
      if Wanted(record, q) {
        r := matches + [record.uid];
      }
    }
  }

  lemma ErrorShows(seen: seq<Message>, m: Message)
    requires m.kind == NLMSG_ERROR
    ensures !NoError(seen + [m])
  {
    assert (seen + [m])[|seen|] == m;
  }

  /** The walk with a moving offset gives the verdict on the list of messages. */
  method ParseInetDiagUid(e: Order, buf: Data, q: Query) returns (r: Result<Uid, Error>)
    ensures r == Verdict(Messages(e, buf, 0), q)
  {
    var offset := 0;
    var matches: seq<Uid> := [];
    ghost var seen: seq<Message> := [];
    while offset + HEADER <= |buf|
      invariant offset % 4 == 0
      invariant Messages(e, buf, 0) == seen + Messages(e, buf, offset)
      invariant NoError(seen) && matches == Uids(seen, q)
      decreases |buf| - offset
    {
      var (len, kind) := HeaderAt(e, buf, offset);
      if len < HEADER || offset + len > |buf| {
        break;
      }
      if kind == NLMSG_DONE {
        break;
      }
      if kind == NLMSG_ERROR {
        ErrorShows(seen, MessageAt(e, buf, offset));
        return Err(NetlinkError);
      }
      matches := Collect(e, buf, offset, q, matches);
      UidsAppend(seen, MessageAt(e, buf, offset), q);
      WalkStep(e, buf, offset, seen);
      seen := seen + [MessageAt(e, buf, offset)];
      offset := NextAt(e, buf, offset);
    }
    assert Messages(e, buf, 0) == seen;
    r := Answer(matches);
  }

  // ---------- exactly when an owner is found ----------

  lemma {:induction false} NoMatchNoUid(ms: seq<Message>, q: Query)
    ensures Uids(ms, q) == [] <==> forall i :: 0 <= i < |ms| ==> !Matches(ms[i], q)
  {
    if |ms| > 0 {
      var front := ms[..|ms| - 1];
      NoMatchNoUid(front, q);
      assert forall i :: 0 <= i < |front| ==> front[i] == ms[i];
    }
  }

  /** Message `i` is the only match, and `uid` owns it. */
  ghost predicate OnlyMatch(ms: seq<Message>, q: Query, uid: Uid, i: nat)
  {
    && i < |ms| && Matches(ms[i], q) && ms[i].record.value.uid == uid
    && forall j :: 0 <= j < |ms| && Matches(ms[j], q) ==> j == i
  }

  lemma {:induction false} OneUidExactly(ms: seq<Message>, q: Query, uid: Uid)
    ensures Uids(ms, q) == [uid] <==> exists i: nat :: OnlyMatch(ms, q, uid, i)
  {
    if |ms| > 0 {
      var front, last := ms[..|ms| - 1], |ms| - 1;
      OneUidExactly(front, q, uid);
      NoMatchNoUid(front, q);
      if Matches(ms[last], q) {
        LastMatchExactly(ms, q, uid);
      } else {
        EarlierMatchExactly(ms, q, uid);
      }
    }
  }

  lemma LastMatchExactly(ms: seq<Message>, q: Query, uid: Uid)
    requires |ms| > 0 && Matches(ms[|ms| - 1], q)
    ensures Uids(ms, q) == [uid] <==> exists i: nat :: OnlyMatch(ms, q, uid, i)
  {
    var front, last := ms[..|ms| - 1], |ms| - 1;
    NoMatchNoUid(front, q);
    assert forall i :: 0 <= i < |front| ==> front[i] == ms[i];
    if Uids(ms, q) == [uid] {
      assert Uids(front, q) == [] && ms[last].record.value.uid == uid by {
        assert Uids(ms, q)[|Uids(front, q)|] == ms[last].record.value.uid;
      }
      assert OnlyMatch(ms, q, uid, last);
    }
    if i: nat :| OnlyMatch(ms, q, uid, i) {
      assert i == last;
    }
  }

  lemma EarlierMatchExactly(ms: seq<Message>, q: Query, uid: Uid)
    requires |ms| > 0 && !Matches(ms[|ms| - 1], q)
    ensures var front := ms[..|ms| - 1];
            (exists i: nat :: OnlyMatch(ms, q, uid, i)) <==> (exists i: nat :: OnlyMatch(front, q, uid, i))
  {
    var front := ms[..|ms| - 1];
    if i: nat :| OnlyMatch(ms, q, uid, i) {
      assert front[i] == ms[i];
      assert OnlyMatch(front, q, uid, i);
    }
    if i: nat :| OnlyMatch(front, q, uid, i) {
      assert front[i] == ms[i];
      assert forall j :: 0 <= j < |ms| && Matches(ms[j], q) ==> j < |front| && front[j] == ms[j];
      assert OnlyMatch(ms, q, uid, i);
    }
  }

  /** An owner is named exactly when no error header is reached and exactly one record matches, and it is that record's owner. */
  lemma OwnerExactly(e: Order, buf: Data, q: Query, uid: Uid)
    ensures var ms := Messages(e, buf, 0);
            Verdict(ms, q) == Ok(uid) <==> NoError(ms) && exists i: nat :: OnlyMatch(ms, q, uid, i)
  {
    var ms := Messages(e, buf, 0);
    OneUidExactly(ms, q, uid);
    assert Answer(Uids(ms, q)) == Ok(uid) <==> Uids(ms, q) == [uid];
  }

  // ---------- a dump as the kernel lays it out ----------

  function Native16(e: Order, n: nat): Data
    requires n < 0x1_0000
  {
    if e == LittleEndian then [n % 256, n / 256] else [n / 256, n % 256]
  }

  function Native32(e: Order, n: nat): Data
    requires n < 0x1_0000_0000
  {
    if e == LittleEndian then Native16(e, n % 0x1_0000) + Native16(e, n / 0x1_0000)
    else Native16(e, n / 0x1_0000) + Native16(e, n % 0x1_0000)
  }

  lemma Native16ReadsBack(e: Order, n: nat)
    requires n < 0x1_0000
    ensures U16At(e, Native16(e, n), 0) == n
  {
  }

  lemma Native32ReadsBack(e: Order, n: nat)
    requires n < 0x1_0000_0000
    ensures |Native32(e, n)| == 4 && U32At(e, Native32(e, n), 0) == n
  {
    Native16ReadsBack(e, n % 0x1_0000);
    Native16ReadsBack(e, n / 0x1_0000);
  }

  /** A message before layout; `other` are the ten header bytes the walk does not look at. */
  datatype Sent = Sent(kind: nat, other: Data, body: Data)

  predicate Layable(m: Sent) {
    m.kind < 0x1_0000 && |m.other| == 10 && HEADER + |m.body| < 0x1_0000_0000
  }

  function Pad(len: nat): Data {
    seq(Align(len) - len, i => 0)
  }

  /** The sixteen bytes of a header. */
  function Head(e: Order, len: nat, kind: nat, other: Data): (r: Data)
    requires len < 0x1_0000_0000 && kind < 0x1_0000 && |other| == 10
    ensures |r| == HEADER && U32At(e, r, 0) == len && U16At(e, r, 4) == kind
  {
    var l, k := Native32(e, len), Native16(e, kind);
    assert U32At(e, l, 0) == len by { Native32ReadsBack(e, len); }
    assert U16At(e, k, 0) == kind by { Native16ReadsBack(e, kind); }
    l + k + other
  }

  /** Header, body, and padding to a multiple of four. */
  function Layout(e: Order, m: Sent): (r: Data)
    requires Layable(m)
    ensures |r| == Align(HEADER + |m.body|)
  {
    var len := HEADER + |m.body|;
    Head(e, len, m.kind, m.other) + m.body + Pad(len)
  }

  predicate AllLayable(ms: seq<Sent>) {
    forall i :: 0 <= i < |ms| ==> Layable(ms[i])
  }

  function LayoutAll(e: Order, ms: seq<Sent>): (r: Data)
    requires AllLayable(ms)
    ensures |r| % 4 == 0
  {
    if |ms| == 0 then []
    else
      var first, rest := Layout(e, ms[0]), LayoutAll(e, ms[1..]);
      MultiplesAdd(|first|, |rest|);
      first + rest
  }

  function Received(e: Order, m: Sent): Message {
    Message(m.kind, if |m.body| >= RECORD then Some(RecordAt(e, m.body, 0)) else None)
  }

  function ReceivedUpToError(e: Order, ms: seq<Sent>): seq<Message> {
    if |ms| == 0 then []
    else [Received(e, ms[0])] + (if ms[0].kind == NLMSG_ERROR then [] else ReceivedUpToError(e, ms[1..]))
  }

  /** `s` lies in the buffer at an offset. */
  predicate LiesAt(buf: Data, at: nat, s: Data) {
    at + |s| <= |buf| && forall k :: 0 <= k < |s| ==> buf[at + k] == s[k]
  }

  lemma SameWords(e: Order, buf: Data, at: nat, s: Data, k: nat)
    requires LiesAt(buf, at, s)
    ensures k + 2 <= |s| ==> U16At(e, buf, at + k) == U16At(e, s, k)
    ensures k + 4 <= |s| ==> U32At(e, buf, at + k) == U32At(e, s, k)
    ensures k + 16 <= |s| ==> Address(e, buf, at + k) == Address(e, s, k)
  {
    assert forall j :: k <= j < |s| ==> buf[at + j] == s[j];
  }

  lemma SameRecord(e: Order, buf: Data, at: nat, body: Data)
    requires at % 4 == 0 && LiesAt(buf, at, body) && |body| >= RECORD
    ensures RecordAt(e, buf, at) == RecordAt(e, body, 0)
  {
    SameWords(e, buf, at, body, 4);
    SameWords(e, buf, at, body, 6);
    SameWords(e, buf, at, body, 8);
    SameWords(e, buf, at, body, 24);
    SameWords(e, buf, at, body, 64);
  }

  lemma PartsLie(buf: Data, at: nat, head: Data, body: Data, pad: Data)
    requires LiesAt(buf, at, head + body + pad)
    ensures LiesAt(buf, at, head) && LiesAt(buf, at + |head|, body)
  {
    var whole := head + body + pad;
    assert forall k :: 0 <= k < |head| ==> head[k] == whole[k];
    forall k | 0 <= k < |body|
      ensures buf[at + |head| + k] == body[k]
    {
      assert whole[|head| + k] == body[k];
    }
  }

  lemma SameHeader(e: Order, buf: Data, at: nat, head: Data)
    requires at % 4 == 0 && LiesAt(buf, at, head) && |head| == HEADER
    ensures HeaderAt(e, buf, at) == (U32At(e, head, 0), U16At(e, head, 4))
  {
    SameWords(e, buf, at, head, 0);
    SameWords(e, buf, at, head, 4);
  }

  /** Where the message after `m` starts. */
  function AfterMessage(at: nat, m: Sent): (next: nat)
    requires at % 4 == 0
    ensures next % 4 == 0
  {
    MultiplesAdd(at, Align(HEADER + |m.body|));
    at + Align(HEADER + |m.body|)
  }

  lemma SameMessage(e: Order, buf: Data, at: nat, m: Sent)
    requires at % 4 == 0 && Layable(m) && m.kind != NLMSG_DONE && LiesAt(buf, at, Layout(e, m))
    ensures !StopsAt(e, buf, at) && MessageAt(e, buf, at) == Received(e, m) && NextAt(e, buf, at) == AfterMessage(at, m)
  {
    var len := HEADER + |m.body|;
    var head := Head(e, len, m.kind, m.other);
    PartsLie(buf, at, head, m.body, Pad(len));
    SameHeader(e, buf, at, head);
    if |m.body| >= RECORD {
      MultiplesAdd(at, HEADER);
      SameRecord(e, buf, at + HEADER, m.body);
    }
  }

  lemma MessagesFrom(e: Order, buf: Data, at: nat, m: Message, next: nat)
    requires at % 4 == 0 && !StopsAt(e, buf, at) && MessageAt(e, buf, at) == m && NextAt(e, buf, at) == next
    ensures next % 4 == 0
    ensures Messages(e, buf, at) == [m] + (if m.kind == NLMSG_ERROR then [] else Messages(e, buf, next))
  {
  }

  lemma NextMessage(e: Order, buf: Data, at: nat, m: Sent)
    requires at % 4 == 0 && Layable(m) && m.kind != NLMSG_DONE && LiesAt(buf, at, Layout(e, m))
    ensures Messages(e, buf, at) == [Received(e, m)] + (if m.kind == NLMSG_ERROR then [] else Messages(e, buf, AfterMessage(at, m)))
  {
    SameMessage(e, buf, at, m);
    MessagesFrom(e, buf, at, Received(e, m), AfterMessage(at, m));
  }

  lemma SameStop(e: Order, buf: Data, at: nat, after: Data)
    requires at % 4 == 0 && LiesAt(buf, at, after) && |buf| == at + |after|
    ensures StopsAt(e, buf, at) == StopsAt(e, after, 0)
  {
    SameWords(e, buf, at, after, 0);
    SameWords(e, buf, at, after, 4);
  }

  /** From an offset on the buffer holds these messages, one after another, and then nothing to read. */
  ghost predicate Dumped(e: Order, buf: Data, at: nat, ms: seq<Sent>)
    requires at % 4 == 0
    decreases |ms|
  {
    if |ms| == 0 then StopsAt(e, buf, at)
    else
      && Layable(ms[0]) && ms[0].kind != NLMSG_DONE && LiesAt(buf, at, Layout(e, ms[0]))
      && Dumped(e, buf, AfterMessage(at, ms[0]), ms[1..])
  }

  lemma {:induction false} DumpIsSeen(e: Order, buf: Data, at: nat, ms: seq<Sent>)
    requires at % 4 == 0 && Dumped(e, buf, at, ms)
    ensures Messages(e, buf, at) == ReceivedUpToError(e, ms)
    decreases |ms|
  {
    if |ms| > 0 {
      NextMessage(e, buf, at, ms[0]);
      DumpIsSeen(e, buf, AfterMessage(at, ms[0]), ms[1..]);
    }
  }

  lemma HalvesLie(buf: Data, at: nat, front: Data, back: Data)
    requires LiesAt(buf, at, front + back)
    ensures LiesAt(buf, at, front) && LiesAt(buf, at + |front|, back)
  {
    assert front + back + [] == front + back;
    PartsLie(buf, at, front, back, []);
  }

  lemma LayoutAllCons(e: Order, ms: seq<Sent>)
    requires AllLayable(ms) && |ms| > 0
    ensures LayoutAll(e, ms) == Layout(e, ms[0]) + LayoutAll(e, ms[1..])
  {
  }

  lemma {:induction false} LayoutIsDump(e: Order, buf: Data, at: nat, ms: seq<Sent>, end: nat)
    requires at % 4 == 0 && AllLayable(ms) && (forall i :: 0 <= i < |ms| ==> ms[i].kind != NLMSG_DONE)
    requires LiesAt(buf, at, LayoutAll(e, ms))
    requires end == at + |LayoutAll(e, ms)| && end % 4 == 0 && StopsAt(e, buf, end)
    ensures Dumped(e, buf, at, ms)
    decreases |ms|
  {
    if |ms| > 0 {
      LayoutAllCons(e, ms);
      HalvesLie(buf, at, Layout(e, ms[0]), LayoutAll(e, ms[1..]));
      LayoutIsDump(e, buf, AfterMessage(at, ms[0]), ms[1..], end);
    }
  }

  lemma BothLie(front: Data, after: Data)
    ensures LiesAt(front + after, 0, front) && LiesAt(front + after, |front|, after)
  {
  }

  /** A dump of any messages, followed by anything at which the walk stops, is seen as it was laid out. */
  lemma DumpReadsBack(e: Order, ms: seq<Sent>, after: Data)
    requires AllLayable(ms) && (forall i :: 0 <= i < |ms| ==> ms[i].kind != NLMSG_DONE)
    requires StopsAt(e, after, 0)
    ensures Messages(e, LayoutAll(e, ms) + after, 0) == ReceivedUpToError(e, ms)
  {
    var front := LayoutAll(e, ms);
    BothLie(front, after);
    SameStop(e, front + after, |front|, after);
    LayoutIsDump(e, front + after, 0, ms, |front|);
    DumpIsSeen(e, front + after, 0, ms);
  }

  // ---------- the question asked ----------

  datatype Endpoint = V4(octets: Data, port: nat) | V6(octets: Data, port: nat)

  predicate IsEndpoint(p: Endpoint) {
    |p.octets| == (if p.V4? then 4 else 16) && p.port < 0x1_0000
  }

  function FamilyOf(p: Endpoint): Byte {
    if p.V4? then AF_INET else AF_INET6
  }

  /** A port in network order, as the two bytes a record holds. */
  function PortBytes(port: nat): Data
    requires port < 0x1_0000
  {
    [port / 256, port % 256]
  }

  function AddressWords(e: Order, p: Endpoint): Words
    requires IsEndpoint(p)
  {
    if p.V4? then [U32At(e, p.octets, 0), 0, 0, 0] else Address(e, p.octets, 0)
  }

  /** `fill_addrs`; the two ends must be of one family. */
  function QueryFor(e: Order, src: Endpoint, dst: Endpoint): Option<Query>
    requires IsEndpoint(src) && IsEndpoint(dst)
  {
    if src.V4? != dst.V4? then None
    else Some(Query(U16At(e, PortBytes(src.port), 0), U16At(e, PortBytes(dst.port), 0),
                    AddressWords(e, src), AddressWords(e, dst), FamilyOf(src)))
  }

  lemma Word16Injective(e: Order, a: Byte, b: Byte, c: Byte, d: Byte)
    ensures Word16(e, a, b) == Word16(e, c, d) <==> a == c && b == d
  {
  }

  lemma Word32Injective(e: Order, a: Byte, b: Byte, c: Byte, d: Byte, a': Byte, b': Byte, c': Byte, d': Byte)
    ensures Word32(e, a, b, c, d) == Word32(e, a', b', c', d') <==> a == a' && b == b' && c == c' && d == d'
  {
    var p, q, p', q' := Word16(e, a, b), Word16(e, c, d), Word16(e, a', b'), Word16(e, c', d');
    assert p < 0x1_0000 && q < 0x1_0000 && p' < 0x1_0000 && q' < 0x1_0000;
    Word16Injective(e, a, b, a', b');
    Word16Injective(e, c, d, c', d');
    assert Word32(e, a, b, c, d) == Word32(e, a', b', c', d') <==> p == p' && q == q';
  }

  lemma PortsDiffer(e: Order, x: Data, i: nat, y: Data, j: nat)
    requires i + 2 <= |x| && j + 2 <= |y|
    ensures U16At(e, x, i) == U16At(e, y, j) <==> x[i..i + 2] == y[j..j + 2]
  {
    assert x[i..i + 2] == [x[i], x[i + 1]] && y[j..j + 2] == [y[j], y[j + 1]];
    Word16Injective(e, x[i], x[i + 1], y[j], y[j + 1]);
  }

  lemma WordsDiffer(e: Order, x: Data, i: nat, y: Data, j: nat)
    requires i + 4 <= |x| && j + 4 <= |y|
    ensures U32At(e, x, i) == U32At(e, y, j) <==> x[i..i + 4] == y[j..j + 4]
  {
    assert x[i..i + 4] == [x[i], x[i + 1], x[i + 2], x[i + 3]] && y[j..j + 4] == [y[j], y[j + 1], y[j + 2], y[j + 3]];
    Word32Injective(e, x[i], x[i + 1], x[i + 2], x[i + 3], y[j], y[j + 1], y[j + 2], y[j + 3]);
  }

  lemma AddressesDiffer(e: Order, x: Data, i: nat, y: Data, j: nat)
    requires i + 16 <= |x| && j + 16 <= |y|
    ensures Address(e, x, i) == Address(e, y, j) <==> x[i..i + 16] == y[j..j + 16]
  {
    WordsDiffer(e, x, i, y, j);
    WordsDiffer(e, x, i + 4, y, j + 4);
    WordsDiffer(e, x, i + 8, y, j + 8);
    WordsDiffer(e, x, i + 12, y, j + 12);
    Quarters(x, i);
    Quarters(y, j);
  }

  lemma Quarters(x: Data, i: nat)
    requires i + 16 <= |x|
    ensures x[i..i + 16] == x[i..i + 4] + x[i + 4..i + 8] + x[i + 8..i + 12] + x[i + 12..i + 16]
    ensures x[i..i + 4] == x[i..i + 16][..4] && x[i + 4..i + 8] == x[i..i + 16][4..8]
    ensures x[i + 8..i + 12] == x[i..i + 16][8..12] && x[i + 12..i + 16] == x[i..i + 16][12..]
  {
  }

  /** The record's bytes at an offset are those of an endpoint's address. */
  predicate HoldsAddress(buf: Data, at: nat, p: Endpoint)
    requires at + 16 <= |buf| && IsEndpoint(p)
  {
    buf[at..at + |p.octets|] == p.octets
  }

  lemma AddressMatch(e: Order, buf: Data, at: nat, p: Endpoint)
    requires at + 16 <= |buf| && IsEndpoint(p)
    ensures AddrsEqual(Address(e, buf, at), AddressWords(e, p), FamilyOf(p)) <==> HoldsAddress(buf, at, p)
  {
    if p.V4? {
      WordsDiffer(e, buf, at, p.octets, 0);
      assert p.octets[0..4] == p.octets;
    } else {
      AddressesDiffer(e, buf, at, p.octets, 0);
      assert p.octets[0..16] == p.octets;
    }
  }

  /** On a machine of either byte order, the record wanted is the one whose bytes are the family, the ports in network order and the address octets of the question. */
  lemma WantedExactly(e: Order, buf: Data, at: nat, src: Endpoint, dst: Endpoint)
    requires at % 4 == 0 && at + RECORD <= |buf| && IsEndpoint(src) && IsEndpoint(dst) && QueryFor(e, src, dst).Some?
    ensures Wanted(RecordAt(e, buf, at), QueryFor(e, src, dst).value) <==>
              && buf[at] == FamilyOf(src)
              && buf[at + 4..at + 6] == PortBytes(src.port) && buf[at + 6..at + 8] == PortBytes(dst.port)
              && HoldsAddress(buf, at + 8, src) && HoldsAddress(buf, at + 24, dst)
  {
    PortsDiffer(e, buf, at + 4, PortBytes(src.port), 0);
    PortsDiffer(e, buf, at + 6, PortBytes(dst.port), 0);
    assert PortBytes(src.port)[0..2] == PortBytes(src.port) && PortBytes(dst.port)[0..2] == PortBytes(dst.port);
    AddressMatch(e, buf, at + 8, src);
    AddressMatch(e, buf, at + 24, dst);
  }

  // ---------- from bytes to an owner ----------

  lemma Native32Unique(e: Order, n: nat, a: Byte, b: Byte, c: Byte, d: Byte)
    requires n < 0x1_0000_0000
    ensures Word32(e, a, b, c, d) == n <==> Native32(e, n) == [a, b, c, d]
  {
    Native32ReadsBack(e, n);
    var s := Native32(e, n);
    assert s == [s[0], s[1], s[2], s[3]];
    Word32Injective(e, a, b, c, d, s[0], s[1], s[2], s[3]);
  }

  /** The owner of a record is in its bytes 64 to 68, and nowhere else. */
  lemma UidExactly(e: Order, buf: Data, at: nat, n: nat)
    requires at % 4 == 0 && at + RECORD <= |buf|
    ensures RecordAt(e, buf, at).uid == n <==> n < 0x1_0000_0000 && buf[at + 64..at + 68] == Native32(e, n)
  {
    var a, b, c, d := buf[at + 64], buf[at + 65], buf[at + 66], buf[at + 67];
    assert buf[at + 64..at + 68] == [a, b, c, d];
    Word32Small(e, a, b, c, d);
    if n < 0x1_0000_0000 { Native32Unique(e, n, a, b, c, d); }
  }

  lemma Word32Small(e: Order, a: Byte, b: Byte, c: Byte, d: Byte)
    ensures Word32(e, a, b, c, d) < 0x1_0000_0000
  {
  }

  /** A body with the family, the ports in network order and the addresses of the question, in the kernel's layout. */
  predicate Asked(body: Data, src: Endpoint, dst: Endpoint)
    requires IsEndpoint(src) && IsEndpoint(dst)
  {
    && |body| >= 72 && body[0] == (if src.V4? then 2 else 10)
    && body[4..6] == [src.port / 256, src.port % 256] && body[6..8] == [dst.port / 256, dst.port % 256]
    && body[8..8 + |src.octets|] == src.octets && body[24..24 + |dst.octets|] == dst.octets
  }

  lemma AskedBytes(body: Data, src: Endpoint, dst: Endpoint)
    requires IsEndpoint(src) && IsEndpoint(dst) && src.V4? == dst.V4? && |body| >= RECORD
    ensures Asked(body, src, dst) <==>
              && body[0] == FamilyOf(src) && body[4..6] == PortBytes(src.port) && body[6..8] == PortBytes(dst.port)
              && HoldsAddress(body, 8, src) && HoldsAddress(body, 24, dst)
  {
  }

  /** Endpoints of two families make no question. */
  lemma FamiliesMustAgree(e: Order, src: Endpoint, dst: Endpoint)
    requires IsEndpoint(src) && IsEndpoint(dst)
    ensures QueryFor(e, src, dst).None? <==> src.V4? != dst.V4?
  {
  }

  lemma WantedAsked(e: Order, body: Data, src: Endpoint, dst: Endpoint)
    requires IsEndpoint(src) && IsEndpoint(dst) && QueryFor(e, src, dst).Some? && |body| >= RECORD
    ensures Wanted(RecordAt(e, body, 0), QueryFor(e, src, dst).value) <==> Asked(body, src, dst)
  {
    FamiliesMustAgree(e, src, dst);
    WantedExactly(e, body, 0, src, dst);
    AskedBytes(body, src, dst);
  }

  lemma MatchesAsked(e: Order, m: Sent, src: Endpoint, dst: Endpoint)
    requires IsEndpoint(src) && IsEndpoint(dst) && src.V4? == dst.V4?
    ensures QueryFor(e, src, dst).Some?
    ensures Matches(Received(e, m), QueryFor(e, src, dst).value) <==> Asked(m.body, src, dst)
  {
    FamiliesMustAgree(e, src, dst);
    if |m.body| >= RECORD { WantedAsked(e, m.body, src, dst); }
  }

  lemma {:induction false} AllReceived(e: Order, ms: seq<Sent>)
    requires forall k :: 0 <= k < |ms| ==> ms[k].kind != 2
    ensures |ReceivedUpToError(e, ms)| == |ms| && NoError(ReceivedUpToError(e, ms))
    ensures forall k :: 0 <= k < |ms| ==> ReceivedUpToError(e, ms)[k] == Received(e, ms[k])
  {
    if |ms| > 0 {
      AllReceived(e, ms[1..]);
      assert forall k :: 0 < k < |ms| ==> ms[k] == ms[1..][k - 1];
    }
  }

  lemma {:induction false} ErrorReceived(e: Order, ms: seq<Sent>, k: nat)
    requires k < |ms| && ms[k].kind == 2
    ensures !NoError(ReceivedUpToError(e, ms))
  {
    var r := ReceivedUpToError(e, ms);
    if ms[0].kind == 2 {
      assert r[0].kind == NLMSG_ERROR;
    } else {
      ErrorReceived(e, ms[1..], k - 1);
      var rest := ReceivedUpToError(e, ms[1..]);
      var j :| 0 <= j < |rest| && rest[j].kind == NLMSG_ERROR;
      assert r[j + 1] == rest[j];
    }
  }

  /** Message `i` alone is asked for, and `uid` is in its owner field. */
  ghost predicate OnlyOwner(e: Order, ms: seq<Sent>, src: Endpoint, dst: Endpoint, uid: nat, i: nat)
    requires IsEndpoint(src) && IsEndpoint(dst)
  {
    && i < |ms| && Asked(ms[i].body, src, dst)
    && uid < 0x1_0000_0000 && ms[i].body[64..68] == Native32(e, uid)
    && forall j :: 0 <= j < |ms| && Asked(ms[j].body, src, dst) ==> j == i
  }

  /** The messages received match where those sent are asked for, and the owner is read from byte 64. */
  lemma ReceivedAsSent(e: Order, ms: seq<Sent>, src: Endpoint, dst: Endpoint, uid: nat)
    requires IsEndpoint(src) && IsEndpoint(dst) && src.V4? == dst.V4? && forall k :: 0 <= k < |ms| ==> ms[k].kind != 2
    ensures var rs, q := ReceivedUpToError(e, ms), QueryFor(e, src, dst).value;
            && |rs| == |ms| && NoError(rs)
            && forall j :: 0 <= j < |ms| ==>
                 && (Matches(rs[j], q) <==> Asked(ms[j].body, src, dst))
                 && (Matches(rs[j], q) ==> (rs[j].record.value.uid == uid <==> uid < 0x1_0000_0000 && ms[j].body[64..68] == Native32(e, uid)))
  {
    var rs, q := ReceivedUpToError(e, ms), QueryFor(e, src, dst).value;
    AllReceived(e, ms);
    forall j | 0 <= j < |ms|
      ensures Matches(rs[j], q) <==> Asked(ms[j].body, src, dst)
      ensures Matches(rs[j], q) ==> (rs[j].record.value.uid == uid <==> uid < 0x1_0000_0000 && ms[j].body[64..68] == Native32(e, uid))
    {
      OneReceived(e, ms[j], src, dst, uid);
    }
  }

  lemma OneReceived(e: Order, m: Sent, src: Endpoint, dst: Endpoint, uid: nat)
    requires IsEndpoint(src) && IsEndpoint(dst) && src.V4? == dst.V4?
    ensures var r, q := Received(e, m), QueryFor(e, src, dst).value;
            && (Matches(r, q) <==> Asked(m.body, src, dst))
            && (Matches(r, q) ==> (r.record.value.uid == uid <==> uid < 0x1_0000_0000 && m.body[64..68] == Native32(e, uid)))
  {
    MatchesAsked(e, m, src, dst);
    if |m.body| >= RECORD { UidExactly(e, m.body, 0, uid); }
  }

  lemma OwnerOfReceived(e: Order, ms: seq<Sent>, src: Endpoint, dst: Endpoint, uid: nat, i: nat)
    requires IsEndpoint(src) && IsEndpoint(dst) && src.V4? == dst.V4? && forall k :: 0 <= k < |ms| ==> ms[k].kind != 2
    ensures OnlyMatch(ReceivedUpToError(e, ms), QueryFor(e, src, dst).value, uid, i) <==> OnlyOwner(e, ms, src, dst, uid, i)
  {
    ReceivedAsSent(e, ms, src, dst, uid);
  }

  lemma VerdictMeans(rs: seq<Message>, q: Query, uid: Uid)
    requires NoError(rs)
    ensures Verdict(rs, q) == Ok(uid) <==> exists i: nat :: OnlyMatch(rs, q, uid, i)
    ensures Verdict(rs, q) == Err(NotFound) <==> forall j :: 0 <= j < |rs| ==> !Matches(rs[j], q)
    ensures Verdict(rs, q) != Err(NetlinkError)
  {
    OneUidExactly(rs, q, uid);
    NoMatchNoUid(rs, q);
    assert Answer(Uids(rs, q)) == Ok(uid) <==> Uids(rs, q) == [uid];
  }

  /** The dump of these messages, and what the walk answers to a question about two endpoints. */
  function AnswerTo(e: Order, ms: seq<Sent>, after: Data, src: Endpoint, dst: Endpoint): Result<Uid, Error>
    requires IsEndpoint(src) && IsEndpoint(dst) && src.V4? == dst.V4? && AllLayable(ms)
  {
    Verdict(Messages(e, LayoutAll(e, ms) + after, 0), QueryFor(e, src, dst).value)
  }

  /**
   From the kernel's bytes to the answer: a uid is named exactly when one message has
   the record asked for and carries that uid at byte 64; no record and several
   records are told apart; an error message anywhere is an error.
   */
  lemma OwnerOfDumpExactly(e: Order, ms: seq<Sent>, after: Data, src: Endpoint, dst: Endpoint, uid: nat)
    requires IsEndpoint(src) && IsEndpoint(dst) && src.V4? == dst.V4?
    requires AllLayable(ms) && (forall k :: 0 <= k < |ms| ==> ms[k].kind != 3) && StopsAt(e, after, 0)
    ensures (exists k :: 0 <= k < |ms| && ms[k].kind == 2) ==> AnswerTo(e, ms, after, src, dst) == Err(NetlinkError)
    ensures (forall k :: 0 <= k < |ms| ==> ms[k].kind != 2) ==>
              && (AnswerTo(e, ms, after, src, dst) == Ok(uid) <==> exists i: nat :: OnlyOwner(e, ms, src, dst, uid, i))
              && (AnswerTo(e, ms, after, src, dst) == Err(NotFound) <==> forall j :: 0 <= j < |ms| ==> !Asked(ms[j].body, src, dst))
              && AnswerTo(e, ms, after, src, dst) != Err(NetlinkError)
  {
    DumpReadsBack(e, ms, after);
    if k :| 0 <= k < |ms| && ms[k].kind == 2 {
      ErrorReceived(e, ms, k);
    } else {
      var rs, q := ReceivedUpToError(e, ms), QueryFor(e, src, dst).value;
      ReceivedAsSent(e, ms, src, dst, uid);
      VerdictMeans(rs, q, uid);
      forall i: nat
        ensures OnlyMatch(rs, q, uid, i) <==> OnlyOwner(e, ms, src, dst, uid, i)
      {
        OwnerOfReceived(e, ms, src, dst, uid, i);
      }
    }
  }

  /** The walk stops at an end marker, whatever follows, and at fewer than sixteen bytes. */
  lemma EndStops(e: Order, m: Sent, rest: Data)
    ensures m.kind == 3 && Layable(m) ==> StopsAt(e, Layout(e, m) + rest, 0)
    ensures |rest| < 16 ==> StopsAt(e, rest, 0)
  {
    if m.kind == 3 && Layable(m) {
      var head := Head(e, HEADER + |m.body|, m.kind, m.other);
      var buf := Layout(e, m) + rest;
      HalvesLie(buf, 0, Layout(e, m), rest);
      PartsLie(buf, 0, head, m.body, Pad(HEADER + |m.body|));
      SameHeader(e, buf, 0, head);
    }
  }
}
