/**
 The framing of the control connection: a 32-bit big-endian length, a type byte and
 a payload. Control messages carry JSON, which is a parameter here; stream data,
 ping and pong are concrete.
 */
module Ipc {
  import opened Wrappers
  import opened Bytes
  import opened ByteStreams
  import AgentRoutes

  type U32 = x: int | 0 <= x < 0x1_0000_0000

  const MAX_FRAME: nat := 16 * 1024 * 1024

  datatype Error = UnexpectedEof | EmptyFrame | FrameTooLarge(len: nat) | UnknownType(b: Byte) | InvalidJson | StreamDataTooShort

  /** The structs that travel as JSON. */
  datatype Control =
    | Register(version: U32, capabilities: seq<string>, instanceToken: string)
    | Devices(generation: nat, devices: seq<AgentRoutes.Sanitized>)
    | OpenRequest(streamId: U32, routeId: string, service: string)
    | Opened(streamId: U32, ok: bool, failReason: Option<string>)
    | Close(streamId: U32, reason: string)

  datatype MsgType =
    RegisterAgent | DeviceSnapshot | DeviceSnapshotChanged | OpenPrivateStream | OpenResult | StreamData | StreamClose | Ping | Pong

  datatype Message =
    | JsonMessage(kind: MsgType, content: Control)
    | DataMessage(streamId: U32, data: Data)
    | PingMessage
    | PongMessage

  /** The struct a type of message carries. */
  predicate Carries(kind: MsgType, c: Control) {
    match kind
    case RegisterAgent => c.Register?
    case DeviceSnapshot => c.Devices?
    case DeviceSnapshotChanged => c.Devices?
    case OpenPrivateStream => c.OpenRequest?
    case OpenResult => c.Opened?
    case StreamClose => c.Close?
    case _ => false
  }

  predicate WellTyped(m: Message) {
    m.JsonMessage? ==> Carries(m.kind, m.content)
  }

  /** JSON printing, and parsing for a type of message. */
  datatype Json = Json(encode: Control -> Data, decode: (MsgType, Data) -> Option<Control>)

  /** Parsing for the type a struct was printed as gives it back. */
  ghost predicate Faithful(json: Json) {
    forall kind, c :: Carries(kind, c) ==> json.decode(kind, json.encode(c)) == Some(c)
  }

  function TypeByte(kind: MsgType): Byte {
    match kind
    case RegisterAgent => 1
    case DeviceSnapshot => 2
    case DeviceSnapshotChanged => 3
    case OpenPrivateStream => 4
    case OpenResult => 5
    case StreamData => 6
    case StreamClose => 7
    case Ping => 8
    case Pong => 9
  }

  function TypeOfByte(b: Byte): Option<MsgType> {
    match b
    case 1 => Some(RegisterAgent)
    case 2 => Some(DeviceSnapshot)
    case 3 => Some(DeviceSnapshotChanged)
    case 4 => Some(OpenPrivateStream)
    case 5 => Some(OpenResult)
    case 6 => Some(StreamData)
    case 7 => Some(StreamClose)
    case 8 => Some(Ping)
    case 9 => Some(Pong)
    case _ => None
  }

  function BigEndian(n: U32): Data {
    [n / 0x100_0000, n / 0x1_0000 % 256, n / 256 % 256, n % 256]
  }

  function FromBigEndian(s: Data): U32
    requires |s| == 4
  {
    var a: int, b: int, c: int, d: int := s[0], s[1], s[2], s[3];
    0x100_0000 * a + 0x1_0000 * b + 256 * c + d
  }

  lemma BigEndianReadsBack(n: U32)
    ensures FromBigEndian(BigEndian(n)) == n
    ensures var s := BigEndian(n); |s| == 4 && n == 16777216 * (s[0] as int) + 65536 * (s[1] as int) + 256 * (s[2] as int) + (s[3] as int)
  {
    assert n / 0x1_0000 == n / 256 / 256 && n / 0x100_0000 == n / 256 / 256 / 256;
  }

  // ---------- messages ----------

  function EncodeMessage(json: Json, m: Message): (MsgType, Data) {
    match m
    case JsonMessage(kind, content) => (kind, json.encode(content))
    case DataMessage(id, data) => (StreamData, BigEndian(id) + data)
    case PingMessage => (Ping, [])
    case PongMessage => (Pong, [])
  }

  function DecodeMessage(json: Json, kind: MsgType, payload: Data): Result<Message, Error> {
    match kind
    case StreamData =>
      if |payload| < 4 then Err(StreamDataTooShort) else Ok(DataMessage(FromBigEndian(payload[..4]), payload[4..]))
    case Ping => Ok(PingMessage)
    case Pong => Ok(PongMessage)
    case _ =>
      var content := json.decode(kind, payload);
      if content.Some? then Ok(JsonMessage(kind, content.value)) else Err(InvalidJson)
  }

  lemma MessageReadsBack(json: Json, m: Message)
    requires Faithful(json) && WellTyped(m)
    ensures var (kind, payload) := EncodeMessage(json, m); DecodeMessage(json, kind, payload) == Ok(m)
  {
    match m
    case DataMessage(id, data) =>
      var payload := BigEndian(id) + data;
      assert payload[..4] == BigEndian(id) && payload[4..] == data;
      BigEndianReadsBack(id);
    case _ =>
  }

  /** The numbers on the wire: from 1 for a registration to 9 for a pong, and no others. */
  lemma TypesOnTheWire(b: Byte)
    ensures TypeOfByte(b).Some? <==> 1 <= b <= 9
    ensures TypeOfByte(b).Some? ==> TypeByte(TypeOfByte(b).value) == b
    ensures 1 <= b <= 9 ==>
              TypeOfByte(b).value
              == [RegisterAgent, DeviceSnapshot, DeviceSnapshotChanged, OpenPrivateStream, OpenResult, StreamData, StreamClose, Ping, Pong][b - 1]
  {
  }

  // ---------- frames ----------

  function Frame(json: Json, m: Message): Data {
    var (kind, payload) := EncodeMessage(json, m);
    [TypeByte(kind)] + payload
  }

  /** The length is cast to 32 bits. */
  function Encode(json: Json, m: Message): Data {
    BigEndian(|Frame(json, m)| % 0x1_0000_0000) + Frame(json, m)
  }

  /** A data message byte by byte; ping and pong are five bytes. */
  lemma BytesOnTheWire(json: Json, id: U32, data: Data)
    ensures |data| <= 0xffff_fffa ==> Encode(json, DataMessage(id, data)) == BigEndian(5 + |data|) + ([6] + BigEndian(id) + data)
    ensures Encode(json, PingMessage) == [0, 0, 0, 1, 8] && Encode(json, PongMessage) == [0, 0, 0, 1, 9]
  {
    DataOnTheWire(json, id, data);
    assert Frame(json, PingMessage) == [8] && Frame(json, PongMessage) == [9];
    assert BigEndian(1) == [0, 0, 0, 1];
  }

  lemma DataOnTheWire(json: Json, id: U32, data: Data)
    ensures |data| <= 0xffff_fffa ==> Encode(json, DataMessage(id, data)) == BigEndian(5 + |data|) + ([6] + BigEndian(id) + data)
  {
    DataFrame(json, id, data);
    if |data| <= 0xffff_fffa { assert (5 + |data|) % 0x1_0000_0000 == 5 + |data|; }
  }

  lemma DataFrame(json: Json, id: U32, data: Data)
    ensures Frame(json, DataMessage(id, data)) == [6] + BigEndian(id) + data
    ensures |Frame(json, DataMessage(id, data))| == 5 + |data|
  {
    assert EncodeMessage(json, DataMessage(id, data)) == (StreamData, BigEndian(id) + data);
    assert [6] + (BigEndian(id) + data) == [6] + BigEndian(id) + data;
  }

  function DecodeFrame(json: Json, body: Data): Result<Message, Error>
    requires |body| > 0
  {
    var kind := TypeOfByte(body[0]);
    if kind.None? then Err(UnknownType(body[0])) else DecodeMessage(json, kind.value, body[1..])
  }

  /** The message at the front of the input, and the input after it. */
  function Decode(json: Json, input: Data): (Result<Message, Error>, Data) {
    var (header, rest) := Exactly(input, 4);
    if header.None? then (Err(UnexpectedEof), rest)
    else
      var len := FromBigEndian(header.value);
      if len == 0 then (Err(EmptyFrame), rest)
      else if len > MAX_FRAME then (Err(FrameTooLarge(len)), rest)
      else
        var (body, after) := Exactly(rest, len);
        if body.None? then (Err(UnexpectedEof), after) else (DecodeFrame(json, body.value), after)
  }

  /** The frame at the front of the input has arrived whole and may be read. */
  predicate Whole(input: Data) {
    |input| >= 4 && 1 <= FromBigEndian(input[..4]) <= 16777216 && |input| - 4 >= FromBigEndian(input[..4])
  }

  /** When each error is reported; `n` is the length the header announces. */
  lemma ErrorsExactly(json: Json, input: Data)
    ensures var (r, n) := (Decode(json, input).0, if |input| < 4 then 0 else FromBigEndian(input[..4]));
            && (r == Err(UnexpectedEof) <==> |input| < 4 || (1 <= n <= 16777216 && |input| < 4 + n))
            && (r == Err(EmptyFrame) <==> |input| >= 4 && n == 0)
            && (forall len :: r == Err(FrameTooLarge(len)) <==> |input| >= 4 && n > 16777216 && len == n)
            && (forall b :: r == Err(UnknownType(b)) <==> Whole(input) && b == input[4] && !(1 <= b <= 9))
            && (r == Err(StreamDataTooShort) <==> Whole(input) && input[4] == 6 && n < 5)
            && (r == Err(InvalidJson) <==>
                  Whole(input) && input[4] in {1, 2, 3, 4, 5, 7} && json.decode(TypeOfByte(input[4]).value, input[5..4 + n]) == None)
  {
    if Whole(input) {
      var n := FromBigEndian(input[..4]);
      assert input[4..][..n][0] == input[4];
      assert input[4..][..n][1..] == input[5..4 + n];
    }
  }

  method WriteMessage(json: Json, writer: Writer, m: Message)
    modifies writer
    ensures writer.output == old(writer.output) + Encode(json, m)
  {
    var (kind, payload) := EncodeMessage(json, m);
    var len := (1 + |payload|) % 0x1_0000_0000;
    writer.WriteAll(BigEndian(len));
    writer.WriteAll([TypeByte(kind)]);
    writer.WriteAll(payload);
    assert [TypeByte(kind)] + payload == Frame(json, m);
  }

  method ReadMessage(json: Json, reader: Reader) returns (r: Result<Message, Error>)
    modifies reader
    ensures (r, reader.input) == Decode(json, old(reader.input))
  {
    var header := reader.ReadExact(4);
    if header.None? {
      return Err(UnexpectedEof);
    }
    var len := FromBigEndian(header.value);
    if len == 0 {
      return Err(EmptyFrame);
    }
    if len > MAX_FRAME {
      return Err(FrameTooLarge(len));
    }
    var body := reader.ReadExact(len);
    if body.None? {
      return Err(UnexpectedEof);
    }
    var kind := TypeOfByte(body.value[0]);
    if kind.None? {
      return Err(UnknownType(body.value[0]));
    }
    r := DecodeMessage(json, kind.value, body.value[1..]);
  }

  /** Stream data needs no JSON. */
  lemma MessageOfData(json: Json, id: U32, data: Data)
    ensures DecodeFrame(json, Frame(json, DataMessage(id, data))) == Ok(DataMessage(id, data))
  {
    var payload := BigEndian(id) + data;
    assert payload[..4] == BigEndian(id) && payload[4..] == data;
    BigEndianReadsBack(id);
    assert Frame(json, DataMessage(id, data))[1..] == payload;
  }

  lemma FrameReadsBack(json: Json, m: Message)
    requires Faithful(json) && WellTyped(m)
    ensures DecodeFrame(json, Frame(json, m)) == Ok(m)
  {
    MessageReadsBack(json, m);
    assert Frame(json, m)[1..] == EncodeMessage(json, m).1;
  }

  /** What reading a written message does first: the length as written, the frame and what follows it. */
  lemma HeaderFirst(json: Json, m: Message, rest: Data)
    ensures var (header, after) := Exactly(Encode(json, m) + rest, 4);
            && header.Some? && FromBigEndian(header.value) == |Frame(json, m)| % 0x1_0000_0000
            && after == Frame(json, m) + rest
  {
    var len := |Frame(json, m)| % 0x1_0000_0000;
    FrontFirst(BigEndian(len), Frame(json, m), rest);
    BigEndianReadsBack(len);
  }

  /** A message reads back, whatever follows it, exactly when its frame is at most 16 MiB; a wrapped length never does. */
  lemma ReadsBackExactly(json: Json, m: Message, rest: Data)
    requires Faithful(json) && WellTyped(m)
    ensures Decode(json, Encode(json, m) + rest) == (Ok(m), rest) <==> |Frame(json, m)| <= 16 * 1024 * 1024
  {
    var frame := Frame(json, m);
    HeaderFirst(json, m, rest);
    FrameReadsBack(json, m);
    if |frame| <= MAX_FRAME {
      assert (frame + rest)[..|frame|] == frame && (frame + rest)[|frame|..] == rest;
    }
  }

  function EncodeAll(json: Json, ms: seq<Message>): Data {
    if |ms| == 0 then [] else Encode(json, ms[0]) + EncodeAll(json, ms[1..])
  }

  /** Messages until the connection ends between two of them. */
  function DecodeAll(json: Json, input: Data): Result<seq<Message>, Error>
    decreases |input|
  {
    if |input| == 0 then Ok([])
    else
      var (first, rest) := Decode(json, input);
      if first.Err? then Err(first.error)
      else
        var others := DecodeAll(json, rest);
        if others.Err? then others else Ok([first.value] + others.value)
  }

  ghost predicate AllTyped(ms: seq<Message>) {
    forall i :: 0 <= i < |ms| ==> WellTyped(ms[i])
  }

  ghost predicate AllWithin(json: Json, ms: seq<Message>, limit: nat) {
    forall i :: 0 <= i < |ms| ==> |Frame(json, ms[i])| <= limit
  }

  lemma DecodeAllCons(json: Json, m: Message, rest: Data)
    requires Faithful(json) && WellTyped(m) && |Frame(json, m)| <= MAX_FRAME
    ensures var all, others := DecodeAll(json, Encode(json, m) + rest), DecodeAll(json, rest);
            all == if others.Err? then others else Ok([m] + others.value)
  {
    ReadsBackExactly(json, m, rest);
  }

  /** Messages read back in order from the concatenated frames when each fits. */
  lemma {:induction false} SequenceReadsBack(json: Json, ms: seq<Message>)
    requires Faithful(json) && AllTyped(ms) && AllWithin(json, ms, MAX_FRAME)
    ensures DecodeAll(json, EncodeAll(json, ms)) == Ok(ms)
  {
    if |ms| > 0 {
      SequenceReadsBack(json, ms[1..]);
      DecodeAllCons(json, ms[0], EncodeAll(json, ms[1..]));
      assert [ms[0]] + ms[1..] == ms;
    }
  }

  lemma WithinTail(json: Json, ms: seq<Message>, limit: nat)
    requires |ms| > 0
    ensures AllWithin(json, ms, limit) <==> |Frame(json, ms[0])| <= limit && AllWithin(json, ms[1..], limit)
  {
    assert ms == [ms[0]] + ms[1..];
  }

  lemma TooLargeStops(json: Json, m: Message, rest: Data)
    requires MAX_FRAME < |Frame(json, m)| < 0x1_0000_0000
    ensures DecodeAll(json, Encode(json, m) + rest).Err?
  {
    HeaderFirst(json, m, rest);
    assert Decode(json, Encode(json, m) + rest).0 == Err(FrameTooLarge(|Frame(json, m)|));
  }

  lemma {:induction false} OversizedFails(json: Json, ms: seq<Message>)
    requires Faithful(json) && AllTyped(ms)
    requires AllWithin(json, ms, 0xffff_ffff) && !AllWithin(json, ms, MAX_FRAME)
    ensures DecodeAll(json, EncodeAll(json, ms)).Err?
  {
    var m, rest := ms[0], EncodeAll(json, ms[1..]);
    WithinTail(json, ms, MAX_FRAME);
    WithinTail(json, ms, 0xffff_ffff);
    if |Frame(json, m)| <= MAX_FRAME {
      DecodeAllCons(json, m, rest);
      OversizedFails(json, ms[1..]);
    } else {
      TooLargeStops(json, m, rest);
    }
  }

  /** When 32 bits hold every length, a sequence reads back exactly when each frame is at most 16 MiB. */
  lemma SequenceReadsBackExactly(json: Json, ms: seq<Message>)
    requires Faithful(json) && AllTyped(ms) && AllWithin(json, ms, 0xffff_ffff)
    ensures DecodeAll(json, EncodeAll(json, ms)) == Ok(ms) <==> AllWithin(json, ms, MAX_FRAME)
  {
    if AllWithin(json, ms, MAX_FRAME) {
      SequenceReadsBack(json, ms);
    } else {
      OversizedFails(json, ms);
    }
  }
}
