/** The smart-socket framing: four hexadecimal digits of length, then the payload. */
module Packet {
  import opened Wrappers
  import opened ByteStreams
  import opened Bytes

  datatype Error = UnexpectedEof | InvalidLength | UnexpectedStatus | Refused(reason: Data)

  const MAX_PAYLOAD: nat := 0xffff
  const PLUS: Byte := 43
  const OKAY: Data := [79, 75, 65, 89]
  const FAIL: Data := [70, 65, 73, 76]

  // ---------- hexadecimal numbers ----------

  function Digit(v: nat): Byte
    requires v < 16
  {
    if v < 10 then 48 + v else 87 + v
  }

  function DigitValue(b: Byte): Option<nat> {
    if 48 <= b <= 57 then Some(b - 48)
    else if 97 <= b <= 102 then Some(b - 87)
    else if 65 <= b <= 70 then Some(b - 55)
    else None
  }

  /** `{:x}`. */
  function Hex(n: nat): Data {
    if n < 16 then [Digit(n)] else Hex(n / 16) + [Digit(n % 16)]
  }

  function Zeros(k: nat): Data {
    seq(k, i => 48)
  }

  /** `{:04x}`: at least four digits, more when the number needs them. */
  function EncodeHex4(n: nat): Data {
    var digits := Hex(n);
    if |digits| < 4 then Zeros(4 - |digits|) + digits else digits
  }

  function HexValue(s: Data): Option<nat> {
    if |s| == 0 then Some(0)
    else
      var high, low := HexValue(s[..|s| - 1]), DigitValue(s[|s| - 1]);
      if high.None? || low.None? then None else Some(16 * high.value + low.value)
  }

  /** `usize::from_str_radix(_, 16)` on four bytes: either case of digit, and one leading plus sign. */
  function ParseHex4(s: Data): Option<nat>
    requires |s| == 4
  {
    if s[0] == PLUS then HexValue(s[1..]) else HexValue(s)
  }

  function Pow16(k: nat): nat {
    if k == 0 then 1 else 16 * Pow16(k - 1)
  }

  lemma {:induction false} HexValueBound(s: Data)
    ensures HexValue(s).Some? ==> HexValue(s).value < Pow16(|s|)
  {
    if |s| > 0 { HexValueBound(s[..|s| - 1]); }
  }

  lemma ParseHex4Bound(s: Data)
    requires |s| == 4
    ensures ParseHex4(s).Some? ==> ParseHex4(s).value <= MAX_PAYLOAD
  {
    HexValueBound(s);
    HexValueBound(s[1..]);
    assert Pow16(4) == 65536 && Pow16(3) == 4096 by { assert Pow16(2) == 256; }
  }

  /** Exactly `k` digits. */
  function Digits(n: nat, k: nat): (s: Data)
    ensures |s| == k && PLUS !in s
  {
    if k == 0 then [] else Digits(n / 16, k - 1) + [Digit(n % 16)]
  }

  /** As many lower-case digits as the number needs and zeros before them. */
  lemma {:induction false} PaddedHex(n: nat, k: nat)
    requires k > 0 && n < Pow16(k)
    ensures |Hex(n)| <= k && Zeros(k - |Hex(n)|) + Hex(n) == Digits(n, k)
  {
    if k == 1 {
      assert Pow16(1) == 16 * Pow16(0);
      assert Digits(n / 16, 0) == [];
    } else if n < 16 {
      assert 0 < Pow16(k - 1);
      PaddedHex(0, k - 1);
      assert Zeros(k - 1) == Zeros(k - 2) + [48];
      assert Digits(0, k - 1) == Zeros(k - 1);
      assert Digits(n, k) == Digits(0, k - 1) + [Digit(n)];
    } else {
      PaddedHex(n / 16, k - 1);
      var pad := Zeros(k - |Hex(n)|);
      assert pad + (Hex(n / 16) + [Digit(n % 16)]) == (pad + Hex(n / 16)) + [Digit(n % 16)];
    }
  }

  lemma HeaderDigits(n: nat)
    requires n <= MAX_PAYLOAD
    ensures EncodeHex4(n) == Digits(n, 4)
  {
    assert Pow16(4) == 65536 by { assert Pow16(2) == 256; }
    PaddedHex(n, 4);
    assert |Hex(n)| == 4 ==> Zeros(0) + Hex(n) == Hex(n);
  }

  /** A header never has more than four digits for a payload that fits, and always for one that does not. */
  lemma {:induction false} HexLength(n: nat, k: nat)
    requires k > 0 && n >= Pow16(k)
    ensures |Hex(n)| > k
  {
    if k > 1 {
      HexLength(n / 16, k - 1);
    } else {
      assert Pow16(1) == 16 * Pow16(0);
    }
  }

  lemma {:induction false} DigitsValue(n: nat, k: nat)
    requires n < Pow16(k)
    ensures HexValue(Digits(n, k)) == Some(n)
  {
    if k > 0 {
      DigitsValue(n / 16, k - 1);
      var s := Digits(n, k);
      assert s[..k - 1] == Digits(n / 16, k - 1);
    }
  }

  // ---------- what a header may look like ----------

  function Lower(b: Byte): Byte {
    if 65 <= b <= 90 then b + 32 else b
  }

  function Lowered(s: Data): Data {
    seq(|s|, i requires 0 <= i < |s| => Lower(s[i]))
  }

  /** A header with its digits in lower case and a plus sign read as a zero. */
  function Canonical(s: Data): Data
    requires |s| == 4
  {
    if s[0] == PLUS then [48] + Lowered(s[1..]) else Lowered(s)
  }

  lemma DigitSpellings(b: Byte, v: nat)
    requires v < 16
    ensures DigitValue(b) == Some(v) <==> Lower(b) == Digit(v)
  {
  }

  lemma SameEnd(s: Data, x: Byte, t: Data, y: Byte)
    requires |s| == |t|
    ensures s + [x] == t + [y] <==> s == t && x == y
  {
    assert (s + [x])[..|s|] == s && (t + [y])[..|t|] == t;
    assert (s + [x])[|s|] == x && (t + [y])[|t|] == y;
  }

  lemma HexValueStep(s: Data, n: nat)
    requires |s| > 0
    ensures HexValue(s) == Some(n) <==> HexValue(s[..|s| - 1]) == Some(n / 16) && DigitValue(s[|s| - 1]) == Some(n % 16)
  {
    var high, low := HexValue(s[..|s| - 1]), DigitValue(s[|s| - 1]);
    if high.Some? && low.Some? {
      assert 16 * high.value + low.value == n <==> high.value == n / 16 && low.value == n % 16;
    }
  }

  lemma DigitsStep(s: Data, n: nat)
    requires |s| > 0
    ensures Lowered(s) == Digits(n, |s|) <==>
              Lowered(s[..|s| - 1]) == Digits(n / 16, |s| - 1) && Lower(s[|s| - 1]) == Digit(n % 16)
  {
    var k, last := |s| - 1, s[|s| - 1];
    assert Lowered(s) == Lowered(s[..k]) + [Lower(last)];
    SameEnd(Lowered(s[..k]), Lower(last), Digits(n / 16, k), Digit(n % 16));
  }

  lemma {:induction false} ValueDigits(s: Data, n: nat)
    ensures HexValue(s) == Some(n) <==> n < Pow16(|s|) && Lowered(s) == Digits(n, |s|)
  {
    if |s| > 0 {
      var front, last := s[..|s| - 1], s[|s| - 1];
      ValueDigits(front, n / 16);
      HexValueStep(s, n);
      DigitsStep(s, n);
      DigitSpellings(last, n % 16);
      var p := Pow16(|front|);
      assert n < 16 * p <==> n / 16 < p;
    }
  }

  /**
   Reading a header accepts exactly the spellings of what writing one emits: either
   case, and a plus sign in place of a leading zero.
   */
  lemma HeaderSpellings(s: Data, n: nat)
    requires |s| == 4
    ensures ParseHex4(s) == Some(n) <==> Canonical(s) == EncodeHex4(n)
  {
    assert Pow16(4) == 65536 && Pow16(3) == 4096 by { assert Pow16(2) == 256; }
    if n > MAX_PAYLOAD {
      HexLength(n, 4);
      ParseHex4Bound(s);
    } else {
      HeaderDigits(n);
      ValueDigits(s, n);
      ValueDigits(s[1..], n);
      if s[0] == PLUS { PlusDigits(Lowered(s[1..]), n); }
    }
  }

  lemma {:induction false} PlusDigits(t: Data, n: nat)
    requires n < Pow16(|t| + 1)
    ensures [48] + t == Digits(n, |t| + 1) <==> n < Pow16(|t|) && t == Digits(n, |t|)
  {
    var k := |t|;
    assert Digits(n, k + 1) == Digits(n / 16, k) + [Digit(n % 16)];
    if k > 0 {
      var front, last := t[..k - 1], t[k - 1];
      PlusDigits(front, n / 16);
      assert [48] + t == ([48] + front) + [last] && t == front + [last];
      SameEnd([48] + front, last, Digits(n / 16, k), Digit(n % 16));
      SameEnd(front, last, Digits(n / 16, k - 1), Digit(n % 16));
    } else {
      assert Pow16(1) == 16 * Pow16(0);
      assert Digits(n, 1) == [Digit(n)] && [48] + t == [48];
    }
  }

  // ---------- packets ----------

  function Encode(payload: Data): Data {
    EncodeHex4(|payload|) + payload
  }

  /** The packet at the front of the input, and the input after it. */
  function Decode(input: Data): (Result<Data, Error>, Data) {
    var (header, rest) := Exactly(input, 4);
    if header.None? then (Err(UnexpectedEof), rest)
    else
      var n := ParseHex4(header.value);
      if n.None? then (Err(InvalidLength), rest)
      else
        var (payload, after) := Exactly(rest, n.value);
        (if payload.Some? then Ok(payload.value) else Err(UnexpectedEof), after)
  }

  /** When each error is reported. */
  lemma ErrorsExactly(input: Data)
    ensures var (r, n) := (Decode(input).0, if |input| < 4 then None else ParseHex4(input[..4]));
            && (r == Err(UnexpectedEof) <==> |input| < 4 || (n.Some? && |input| < 4 + n.value))
            && (r == Err(InvalidLength) <==> |input| >= 4 && n.None?)
            && r != Err(UnexpectedStatus)
  {
  }

  method WritePacket(writer: Writer, payload: Data)
    modifies writer
    ensures writer.output == old(writer.output) + Encode(payload)
  {
    writer.WriteAll(EncodeHex4(|payload|));
    writer.WriteAll(payload);
  }

  method ReadPacket(reader: Reader) returns (r: Result<Data, Error>)
    modifies reader
    ensures (r, reader.input) == Decode(old(reader.input))
  {
    var header := reader.ReadExact(4);
    if header.None? {
      return Err(UnexpectedEof);
    }
    var n := ParseHex4(header.value);
    if n.None? {
      return Err(InvalidLength);
    }
    var payload := Some([]);
    if n.value > 0 {
      payload := reader.ReadExact(n.value);
    }
    r := if payload.Some? then Ok(payload.value) else Err(UnexpectedEof);
  }

  lemma HeaderReadsBack(n: nat)
    requires n <= MAX_PAYLOAD
    ensures |EncodeHex4(n)| == 4 && ParseHex4(EncodeHex4(n)) == Some(n)
  {
    HeaderDigits(n);
    assert Pow16(4) == 65536 by { assert Pow16(2) == 256; }
    DigitsValue(n, 4);
  }

  lemma DecodedFits(input: Data)
    ensures Decode(input).0.Ok? ==> |Decode(input).0.value| <= MAX_PAYLOAD
  {
    if |input| >= 4 { ParseHex4Bound(input[..4]); }
  }

  /** A packet reads back, whatever follows it, exactly when its length fits four digits. */
  lemma ReadsBackExactly(payload: Data, rest: Data)
    ensures Decode(Encode(payload) + rest) == (Ok(payload), rest) <==> |payload| <= 65535
  {
    var input := Encode(payload) + rest;
    DecodedFits(input);
    if |payload| <= MAX_PAYLOAD {
      HeaderReadsBack(|payload|);
      FrontFirst(EncodeHex4(|payload|), payload, rest);
    }
  }

  function EncodeAll(payloads: seq<Data>): Data {
    if |payloads| == 0 then [] else Encode(payloads[0]) + EncodeAll(payloads[1..])
  }

  /** Packets until the stream ends between two of them. */
  function DecodeAll(input: Data): Result<seq<Data>, Error>
    decreases |input|
  {
    if |input| == 0 then Ok([])
    else
      var (first, rest) := Decode(input);
      if first.Err? then Err(first.error)
      else
        var others := DecodeAll(rest);
        if others.Err? then others else Ok([first.value] + others.value)
  }

  lemma {:induction false} AllDecodedFit(input: Data)
    ensures DecodeAll(input).Ok? ==> forall i :: 0 <= i < |DecodeAll(input).value| ==> |DecodeAll(input).value[i]| <= MAX_PAYLOAD
    decreases |input|
  {
    DecodedFits(input);
    if |input| > 0 && Decode(input).0.Ok? { AllDecodedFit(Decode(input).1); }
  }

  /** A sequence of packets reads back from the concatenated bytes exactly when every length fits four digits. */
  lemma {:induction false} SequenceReadsBackExactly(payloads: seq<Data>)
    ensures DecodeAll(EncodeAll(payloads)) == Ok(payloads) <==> forall i :: 0 <= i < |payloads| ==> |payloads[i]| <= MAX_PAYLOAD
  {
    AllDecodedFit(EncodeAll(payloads));
    if forall i :: 0 <= i < |payloads| ==> |payloads[i]| <= MAX_PAYLOAD {
      if |payloads| > 0 {
        assert forall i :: 0 <= i < |payloads[1..]| ==> payloads[1..][i] == payloads[i + 1];
        SequenceReadsBackExactly(payloads[1..]);
        ReadsBackExactly(payloads[0], EncodeAll(payloads[1..]));
        assert [payloads[0]] + payloads[1..] == payloads;
      }
    }
  }

  function Ascii(text: string): Data {
    seq(|text|, i requires 0 <= i < |text| => if text[i] as int < 128 then text[i] as int else 63)
  }

  // ---------- replies ----------

  datatype Reply = Okay(payload: Data) | Fail(reason: Data)

  function EncodeReply(reply: Reply): Data {
    match reply
    case Okay(payload) => OKAY + Encode(payload)
    case Fail(reason) => FAIL + Encode(reason)
  }

  function DecodeReply(input: Data): (Result<Data, Error>, Data) {
    var (status, rest) := Exactly(input, 4);
    if status.None? then (Err(UnexpectedEof), rest)
    else if status.value == OKAY then Decode(rest)
    else if status.value == FAIL then
      var (reason, after) := Decode(rest);
      (if reason.Ok? then Err(Refused(reason.value)) else reason, after)
    else (Err(UnexpectedStatus), rest)
  }

  method WriteOkayPayload(writer: Writer, payload: Data)
    modifies writer
    ensures writer.output == old(writer.output) + EncodeReply(Okay(payload))
  {
    writer.WriteAll(OKAY);
    WritePacket(writer, payload);
  }

  method WriteFail(writer: Writer, reason: Data)
    modifies writer
    ensures writer.output == old(writer.output) + EncodeReply(Fail(reason))
  {
    writer.WriteAll(FAIL);
    WritePacket(writer, reason);
  }

  method ReadOkayPayload(reader: Reader) returns (r: Result<Data, Error>)
    modifies reader
    ensures (r, reader.input) == DecodeReply(old(reader.input))
  {
    var status := reader.ReadExact(4);
    if status.None? {
      return Err(UnexpectedEof);
    }
    if status.value == OKAY {
      r := ReadPacket(reader);
    } else if status.value == FAIL {
      r := ReadPacket(reader);
      if r.Ok? {
        r := Err(Refused(r.value));
      }
    } else {
      r := Err(UnexpectedStatus);
    }
  }

  function Body(reply: Reply): Data {
    if reply.Okay? then reply.payload else reply.reason
  }

  /** A reply comes back as its payload or as the error that carries its reason, exactly when that fits. */
  lemma ReplyReadsBackExactly(reply: Reply, rest: Data)
    ensures var expected := if reply.Okay? then Ok(reply.payload) else Err(Refused(reply.reason));
            DecodeReply(EncodeReply(reply) + rest) == (expected, rest) <==> |Body(reply)| <= MAX_PAYLOAD
  {
    assert OKAY[0] != FAIL[0];
    FrontFirst(if reply.Okay? then OKAY else FAIL, Encode(Body(reply)), rest);
    ReadsBackExactly(Body(reply), rest);
  }

  /** A reply whose status is neither word is refused after the status; otherwise only the packet's own errors occur. */
  lemma ReplyErrorsExactly(input: Data)
    ensures var r := DecodeReply(input).0;
            && (r == Err(UnexpectedStatus) <==> |input| >= 4 && input[..4] != Ascii("OKAY") && input[..4] != Ascii("FAIL"))
            && (|input| < 4 ==> r == Err(UnexpectedEof))
            && (|input| >= 4 && input[..4] == Ascii("OKAY") ==> r == Decode(input[4..]).0)
            && (forall reason :: r == Err(Refused(reason)) <==>
                  |input| >= 4 && input[..4] == Ascii("FAIL") && Decode(input[4..]).0 == Ok(reason))
  {
    assert OKAY == Ascii("OKAY") && FAIL == Ascii("FAIL") && OKAY[0] != FAIL[0];
    if |input| >= 4 { ErrorsExactly(input[4..]); }
  }

  /** The four digits of a length, as adb clients read them. */
  function Header(n: nat): (s: Data)
    requires n <= 65535
    ensures |s| == 4
  {
    var digits := Ascii("0123456789abcdef");
    [digits[n / 4096], digits[n / 256 % 16], digits[n / 16 % 16], digits[n % 16]]
  }

  lemma OneDigitMore(n: nat, k: nat, s: Data)
    requires k > 0 && Digits(n / 16, k - 1) == s
    ensures Digits(n, k) == s + [Digit(n % 16)]
  {
  }

  lemma Quotients(n: nat)
    requires n <= 65535
    ensures n / 16 / 16 == n / 256 && n / 256 / 16 == n / 4096 && n / 4096 < 16
  {
  }

  lemma FourDigits(n: nat)
    requires n <= 65535
    ensures Digits(n, 4) == [Digit(n / 4096), Digit(n / 256 % 16), Digit(n / 16 % 16), Digit(n % 16)]
  {
    Quotients(n);
    assert n / 4096 % 16 == n / 4096;
    OneDigitMore(n / 4096, 1, []);
    OneDigitMore(n / 256, 2, [Digit(n / 4096 % 16)]);
    OneDigitMore(n / 16, 3, [Digit(n / 4096 % 16), Digit(n / 256 % 16)]);
    OneDigitMore(n, 4, [Digit(n / 4096 % 16), Digit(n / 256 % 16), Digit(n / 16 % 16)]);
  }

  lemma DigitsInText(n: nat)
    requires n <= 65535
    ensures Digits(n, 4) == Header(n)
  {
    FourDigits(n);
    DigitText(n / 4096);
    DigitText(n / 256 % 16);
    DigitText(n / 16 % 16);
    DigitText(n % 16);
  }

  lemma HeaderOnTheWire(n: nat)
    requires n <= 65535
    ensures EncodeHex4(n) == Header(n)
  {
    HeaderDigits(n);
    DigitsInText(n);
  }

  lemma DigitText(v: nat)
    requires v < 16
    ensures Digit(v) == Ascii("0123456789abcdef")[v]
  {
  }

  /** Packets and replies byte by byte. */
  lemma RepliesOnTheWire(payload: Data)
    requires |payload| <= 65535
    ensures Encode(payload) == Header(|payload|) + payload
    ensures EncodeReply(Okay(payload)) == Ascii("OKAY") + Header(|payload|) + payload
    ensures EncodeReply(Fail(payload)) == Ascii("FAIL") + Header(|payload|) + payload
  {
    HeaderOnTheWire(|payload|);
    assert OKAY == Ascii("OKAY") && FAIL == Ascii("FAIL");
  }
}
