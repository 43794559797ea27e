/**
 The frames of the stream multiplexer as bytes: in every run, what the two FIFOs
 carry is read back frame by frame from the bytes written for it.
 */
module Wire {
  import opened Wrappers
  import opened Bytes
  import opened Streams
  import opened Mux
  import Ipc

  /** What control frames say besides the stream id and the outcome. */
  datatype Details = Details(routeId: nat -> string, service: nat -> string, failReason: nat -> Option<string>, closeReason: nat -> string)

  function ToMessage(d: Details, f: Frame): Ipc.Message
    requires f.0 < ID_LIMIT
  {
    var (id, m) := f;
    match m
    case Open => Ipc.JsonMessage(Ipc.OpenPrivateStream, Ipc.OpenRequest(id, d.routeId(id), d.service(id)))
    case OpenResult(ok) => Ipc.JsonMessage(Ipc.OpenResult, Ipc.Opened(id, ok, if ok then None else d.failReason(id)))
    case StreamData(data) => Ipc.DataMessage(id, data)
    case StreamClose => Ipc.JsonMessage(Ipc.StreamClose, Ipc.Close(id, d.closeReason(id)))
  }

  /** What each control message about a stream tells the other side. */
  lemma WhatIsSaid(d: Details, id: nat)
    requires id < ID_LIMIT
    ensures var m := ToMessage(d, (id, Open)).content;
            m.streamId == id && m.routeId == d.routeId(id) && m.service == d.service(id)
    ensures var ok, failed := ToMessage(d, (id, OpenResult(true))).content, ToMessage(d, (id, OpenResult(false))).content;
            && ok.streamId == failed.streamId == id && ok.ok && !failed.ok
            && ok.failReason == None && failed.failReason == d.failReason(id)
    ensures var m := ToMessage(d, (id, StreamClose)).content; m.streamId == id && m.reason == d.closeReason(id)
  {
  }

  /** How a read loop sees a message that concerns a stream. */
  function ToFrame(m: Ipc.Message): Option<Frame> {
    match m
    case DataMessage(id, data) => Some((id, StreamData(data)))
    case JsonMessage(OpenPrivateStream, OpenRequest(id, _, _)) => Some((id, Open))
    case JsonMessage(OpenResult, Opened(id, ok, _)) => Some((id, OpenResult(ok)))
    case JsonMessage(StreamClose, Close(id, _)) => Some((id, StreamClose))
    case _ => None
  }

  /** Every frame fits its message: the id is a u32 and the data came from one read buffer. */
  ghost predicate Small(log: seq<Frame>) {
    forall i :: 0 <= i < |log| ==> log[i].0 < 0x1_0000_0000 && (log[i].1.StreamData? ==> |log[i].1.data| <= 65536)
  }

  ghost function Messages(d: Details, log: seq<Frame>): seq<Ipc.Message>
    requires Small(log)
  {
    seq(|log|, i requires 0 <= i < |log| => ToMessage(d, log[i]))
  }

  /** Control messages about streams are short of 16 MiB. */
  ghost predicate ControlFits(json: Ipc.Json, d: Details) {
    && (forall id: nat :: id < ID_LIMIT ==> |Ipc.Frame(json, ToMessage(d, (id, Open)))| <= Ipc.MAX_FRAME)
    && (forall id: nat, ok :: id < ID_LIMIT ==> |Ipc.Frame(json, ToMessage(d, (id, OpenResult(ok))))| <= Ipc.MAX_FRAME)
    && (forall id: nat :: id < ID_LIMIT ==> |Ipc.Frame(json, ToMessage(d, (id, StreamClose)))| <= Ipc.MAX_FRAME)
  }

  // ---------- the frames of a run are small ----------

  lemma {:induction false} NextIdBound(c: Conn, acts: seq<Act>)
    requires CanRun(c, acts) && c.nextId <= ID_LIMIT
    ensures Run(c, acts).nextId <= ID_LIMIT
    decreases |acts|
  {
    if |acts| > 0 { NextIdBound(Mux.Step(c, acts[0]), acts[1..]); }
  }

  lemma FrameInView(log: seq<Frame>, i: nat)
    requires i < |log|
    ensures log[i].1 in Only(log, log[i].0)
  {
    OnlyTake(log, i, log[i].0);
  }

  lemma ControlOrBoundedData(log: seq<Msg>, m: Msg)
    requires m in log && (DaemonGrammar(log) || AgentGrammar(log))
    ensures m.StreamData? ==> |m.data| <= READ_BUFFER
  {
    var i :| 0 <= i < |log| && log[i] == m;
    if i > 0 { assert log[1..][i - 1] == m; }
  }

  /** A frame in a FIFO belongs to a stream whose id the daemon has drawn. */
  lemma FrameHasStream(c: Conn, id: nat)
    requires ConnInv(c)
    requires Only(c.up, id) != [] || Only(c.down, id) != []
    ensures id < c.nextId
  {
    assert Inv(View(c, id));
    OnlyPrefix(c.up, c.upTaken, id);
    assert DaemonOf(c, id).pc != Absent;
  }

  lemma LogsAreSmall(acts: seq<Act>)
    requires CanRun(INITIAL, acts)
    ensures var c := Run(INITIAL, acts); Small(c.up) && Small(c.down)
  {
    Reachable(acts);
    NextIdBound(INITIAL, acts);
    var c := Run(INITIAL, acts);
    forall i | 0 <= i < |c.up|
      ensures c.up[i].0 < ID_LIMIT && (c.up[i].1.StreamData? ==> |c.up[i].1.data| <= READ_BUFFER)
    {
      var (id, m) := c.up[i];
      FrameInView(c.up, i);
      FrameHasStream(c, id);
      assert Inv(View(c, id));
      ControlOrBoundedData(Only(c.up, id), m);
    }
    forall i | 0 <= i < |c.down|
      ensures c.down[i].0 < ID_LIMIT && (c.down[i].1.StreamData? ==> |c.down[i].1.data| <= READ_BUFFER)
    {
      var (id, m) := c.down[i];
      FrameInView(c.down, i);
      FrameHasStream(c, id);
      assert Inv(View(c, id));
      ControlOrBoundedData(Only(c.down, id), m);
    }
  }

  // ---------- bytes carry frames ----------

  /** A data frame built from one read buffer is far below the limit and its length is never truncated. */
  lemma DataFrameFits(json: Ipc.Json, id: Ipc.U32, data: Data)
    requires |data| <= READ_BUFFER
    ensures |Ipc.Frame(json, Ipc.DataMessage(id, data))| == 5 + |data| <= Ipc.MAX_FRAME
    ensures |Ipc.Frame(json, Ipc.DataMessage(id, data))| % 0x1_0000_0000 == 5 + |data|
  {
  }

  lemma MessagesFit(json: Ipc.Json, d: Details, log: seq<Frame>)
    requires Small(log) && ControlFits(json, d)
    ensures Ipc.AllTyped(Messages(d, log)) && Ipc.AllWithin(json, Messages(d, log), Ipc.MAX_FRAME)
  {
    forall i | 0 <= i < |log|
      ensures |Ipc.Frame(json, Messages(d, log)[i])| <= Ipc.MAX_FRAME
    {
      var (id, m) := log[i];
      match m
      case Open => assert ToMessage(d, (id, Open)) == ToMessage(d, log[i]);
      case OpenResult(ok) => assert ToMessage(d, (id, OpenResult(ok))) == ToMessage(d, log[i]);
      case StreamData(data) => DataFrameFits(json, id, data);
      case StreamClose => assert ToMessage(d, (id, StreamClose)) == ToMessage(d, log[i]);
    }
  }

  /** With `k` frames of a log consumed, reading the bytes still on the way yields frame `k` and leaves the bytes of the frames after it. */
  ghost predicate ReadsNext(json: Ipc.Json, d: Details, log: seq<Frame>, k: nat)
    requires Small(log) && k <= |log|
  {
    k < |log| ==>
      var ms := Messages(d, log);
      var (first, rest) := Ipc.Decode(json, Ipc.EncodeAll(json, ms[k..]));
      first.Ok? && ToFrame(first.value) == Some(log[k]) && rest == Ipc.EncodeAll(json, ms[k + 1..])
  }

  lemma NextFrame(json: Ipc.Json, d: Details, log: seq<Frame>, k: nat)
    requires Ipc.Faithful(json) && ControlFits(json, d) && Small(log) && k <= |log|
    ensures ReadsNext(json, d, log, k)
  {
    if k < |log| {
      var ms := Messages(d, log);
      MessagesFit(json, d, log);
      assert ms[k..][0] == ms[k] && ms[k..][1..] == ms[k + 1..];
      Ipc.ReadsBackExactly(json, ms[k], Ipc.EncodeAll(json, ms[k + 1..]));
    }
  }

  /**
   In every run of the multiplexer, the bytes written for each FIFO decode to
   exactly its frames, and the frame a read loop takes next is the one that
   decoding the bytes still on the way yields.
   */
  lemma WireCarriesFrames(json: Ipc.Json, d: Details, acts: seq<Act>)
    requires Ipc.Faithful(json) && ControlFits(json, d) && CanRun(INITIAL, acts)
    ensures var c := Run(INITIAL, acts);
            && Small(c.up) && Small(c.down) && c.upTaken <= |c.up| && c.downTaken <= |c.down|
            && Ipc.DecodeAll(json, Ipc.EncodeAll(json, Messages(d, c.up))) == Ok(Messages(d, c.up))
            && Ipc.DecodeAll(json, Ipc.EncodeAll(json, Messages(d, c.down))) == Ok(Messages(d, c.down))
            && ReadsNext(json, d, c.up, c.upTaken) && ReadsNext(json, d, c.down, c.downTaken)
  {
    LogsAreSmall(acts);
    Reachable(acts);
    var c := Run(INITIAL, acts);
    MessagesFit(json, d, c.up);
    MessagesFit(json, d, c.down);
    Ipc.SequenceReadsBack(json, Messages(d, c.up));
    Ipc.SequenceReadsBack(json, Messages(d, c.down));
    NextFrame(json, d, c.up, c.upTaken);
    NextFrame(json, d, c.down, c.downTaken);
  }
}
