/**
 One private stream between an adb client and an upstream adb server, seen from
 both ends of the control connection: `forward_private` and the read loop of the
 daemon on one side, `open_private_stream` and the read loop of the agent on the
 other, with one FIFO of frames in each direction.

 Each endpoint is a record of the local variables and map entries the code keeps
 for one stream id. A step is one indivisible piece of code between two awaits.
 */
module Streams {
  import opened Wrappers
  import opened Bytes

  /** The frames of ipc.rs that carry a stream id (the id itself is left to the multiplexer). */
  datatype Msg = Open | OpenResult(ok: bool) | StreamData(data: Data) | StreamClose

  const READ_BUFFER: nat := 64 * 1024
  const CHANNEL_CAPACITY: nat := 32

  // ---------- the daemon's end ----------

  datatype DaemonPc = Absent | Registered | Waiting | Streaming | Leaving | Closing | Gone

  /** Why `forward_private` stopped. */
  datatype DaemonEnd = Unfinished | OpenWriteFailed | TimedOut | Refused | ClientEof | ClientGone | AgentClosed | Aborted

  datatype Daemon = Daemon(
    pc: DaemonPc, end: DaemonEnd,
    waiter: bool,               // an entry of open_waiters exists
    outcome: Option<bool>,      // the value sent through the one-shot channel
    resolutions: nat,           // how often a value was sent
    tx: bool,                   // an entry of stream_tx exists
    queue: seq<Data>,           // the mpsc channel behind it
    read: Data, unsent: Data,   // read from the client; of these, the chunk not yet framed
    inflight: Data, written: Data) // taken from the channel; written to the client

  const NO_DAEMON := Daemon(Absent, Unfinished, false, None, 0, false, [], [], [], [], [])

  datatype DaemonAct =
    | Register | SendOpen | OpenWriteFails | Timeout | TakeOutcome
    | ReadClient(data: Data) | SendClientData | RecvChunk | WriteClient(n: nat)
    | Break(why: DaemonEnd) | Abort | DropSender | SendClose | CloseWriteFails

  predicate DaemonEnabled(d: Daemon, act: DaemonAct) {
    match act
    case Register => d.pc == Absent
    case SendOpen => d.pc == Registered
    case OpenWriteFails => d.pc == Registered
    case Timeout => d.pc == Waiting && d.outcome.None?
    case TakeOutcome => d.pc == Waiting && d.outcome.Some?
    // the arms of the select: nothing is half done when one of them is chosen
    case ReadClient(data) => d.pc == Streaming && d.unsent == [] && d.inflight == [] && 0 < |data| <= READ_BUFFER
    case SendClientData => d.pc == Streaming && d.unsent != []
    case RecvChunk => d.pc == Streaming && d.unsent == [] && d.inflight == [] && d.queue != []
    case WriteClient(n) => d.pc == Streaming && 0 < n <= |d.inflight|
    case Break(why) =>
      && d.pc == Streaming && d.unsent == []
      && (match why
          case ClientEof => d.inflight == []
          case ClientGone => d.inflight != []
          case AgentClosed => d.inflight == [] && d.queue == [] && !d.tx
          case _ => false)
    case Abort => d.pc == Streaming
    case DropSender => d.pc == Leaving
    case SendClose => d.pc == Closing
    case CloseWriteFails => d.pc == Closing
  }

  /** The new state of the endpoint and the frame it writes, if any. */
  function DaemonStep(d: Daemon, act: DaemonAct): (Daemon, Option<Msg>)
    requires DaemonEnabled(d, act)
  {
    match act
    case Register => (NO_DAEMON.(pc := Registered, waiter := true, tx := true), None)
    case SendOpen => (d.(pc := Waiting), Some(Open))
    case OpenWriteFails => (d.(pc := Gone, end := OpenWriteFailed, waiter := false, tx := false), None)
    case Timeout => (d.(pc := Gone, end := TimedOut, waiter := false, tx := false), None)
    case TakeOutcome =>
      if d.outcome.value then (d.(pc := Streaming), None)
      else (d.(pc := Gone, end := Refused, tx := false), None)
    case ReadClient(data) => (d.(read := d.read + data, unsent := data), None)
    case SendClientData => (d.(unsent := []), Some(StreamData(d.unsent)))
    case RecvChunk => (d.(inflight := d.queue[0], queue := d.queue[1..]), None)
    case WriteClient(n) => (d.(written := d.written + d.inflight[..n], inflight := d.inflight[n..]), None)
    case Break(why) => (d.(pc := Leaving, end := why), None)
    // an error return leaves the stream_tx entry behind and sends no StreamClose
    case Abort => (d.(pc := Gone, end := Aborted), None)
    case DropSender => (d.(pc := Closing, tx := false), None)
    case SendClose => (d.(pc := Gone), Some(StreamClose))
    case CloseWriteFails => (d.(pc := Gone), None)
  }

  /** The bounded send inside the read loop waits while the channel is full. */
  predicate DaemonCanReceive(d: Daemon, m: Msg) {
    m.StreamData? && d.tx && d.pc != Gone ==> |d.queue| < CHANNEL_CAPACITY
  }

  /** One iteration of the daemon's read loop on a frame of this stream. */
  function DaemonReceive(d: Daemon, m: Msg): Daemon {
    match m
    case OpenResult(ok) =>
      if d.waiter then d.(waiter := false, outcome := Some(ok), resolutions := d.resolutions + 1) else d
    case StreamData(data) =>
      if d.tx && d.pc != Gone then d.(queue := d.queue + [data]) else d
    case StreamClose =>
      var d' := d.(tx := false);
      if d.waiter then d'.(waiter := false, outcome := Some(false), resolutions := d.resolutions + 1) else d'
    case Open => d
  }

  // ---------- the agent's end ----------

  datatype AgentPc = Unknown | Opening | Inserting | Running | Stopping | Finishing | Finished

  datatype AgentEnd = Alive | OpenFailed | OpenLost | DaemonClosed | UpstreamEof | UpstreamFailed

  datatype Agent = Agent(
    pc: AgentPc, end: AgentEnd,
    tx: bool, queue: seq<Data>,    // the entry of `streams` and its channel
    read: Data, unsent: Data,      // read from upstream; the chunk not yet framed
    inflight: Data, written: Data) // taken from the channel; written upstream

  const NO_AGENT := Agent(Unknown, Alive, false, [], [], [], [], [])

  datatype AgentAct =
    | OpenFails | OpenIsLost | OpenSucceeds | InsertSender
    | RecvFromDaemon | WriteUpstream(n: nat)
    | ReadUpstream(data: Data) | SendUpstreamData
    | Stop(why: AgentEnd) | RemoveSender | SendAgentClose | AgentCloseWriteFails

  predicate AgentEnabled(a: Agent, act: AgentAct) {
    match act
    case OpenFails => a.pc == Opening
    case OpenIsLost => a.pc == Opening
    case OpenSucceeds => a.pc == Opening
    case InsertSender => a.pc == Inserting
    case RecvFromDaemon => a.pc == Running && a.inflight == [] && a.queue != []
    case WriteUpstream(n) => a.pc == Running && 0 < n <= |a.inflight|
    case ReadUpstream(data) => a.pc == Running && a.unsent == [] && 0 < |data| <= READ_BUFFER
    case SendUpstreamData => a.pc == Running && a.unsent != []
    case Stop(why) =>
      && a.pc == Running
      && (match why
          case DaemonClosed => a.inflight == [] && a.queue == [] && !a.tx
          case UpstreamEof => a.unsent == []
          case UpstreamFailed => true
          case _ => false)
    case RemoveSender => a.pc == Stopping
    case SendAgentClose => a.pc == Finishing
    case AgentCloseWriteFails => a.pc == Finishing
  }

  function AgentStep(a: Agent, act: AgentAct): (Agent, Option<Msg>)
    requires AgentEnabled(a, act)
  {
    match act
    case OpenFails => (a.(pc := Finished, end := OpenFailed), Some(OpenResult(false)))
    // the service or the result could not be written: an error is logged, nothing is sent
    case OpenIsLost => (a.(pc := Finished, end := OpenLost), None)
    case OpenSucceeds => (a.(pc := Inserting), Some(OpenResult(true)))
    case InsertSender => (a.(pc := Running, tx := true), None)
    case RecvFromDaemon => (a.(inflight := a.queue[0], queue := a.queue[1..]), None)
    case WriteUpstream(n) => (a.(written := a.written + a.inflight[..n], inflight := a.inflight[n..]), None)
    case ReadUpstream(data) => (a.(read := a.read + data, unsent := data), None)
    case SendUpstreamData => (a.(unsent := []), Some(StreamData(a.unsent)))
    // one half of the select finished: the other is dropped with whatever it held
    case Stop(why) => (a.(pc := Stopping, end := why), None)
    case RemoveSender => (a.(pc := Finishing, tx := false), None)
    case SendAgentClose => (a.(pc := Finished), Some(StreamClose))
    case AgentCloseWriteFails => (a.(pc := Finished), None)
  }

  predicate AgentChannelFree(a: Agent, m: Msg) {
    m.StreamData? && a.tx && a.pc != Finished ==> |a.queue| < CHANNEL_CAPACITY
  }

  /** The read loop awaits open_private_stream, so it reads nothing while one is under way. */
  predicate AgentCanReceive(a: Agent, m: Msg) {
    a.pc != Opening && a.pc != Inserting && AgentChannelFree(a, m)
  }

  /** One iteration of the agent's read loop on a frame of this stream. */
  function AgentReceive(a: Agent, m: Msg): Agent {
    match m
    case Open => a.(pc := Opening)
    case StreamData(data) => if a.tx && a.pc != Finished then a.(queue := a.queue + [data]) else a
    case StreamClose => a.(tx := false)
    case OpenResult(_) => a
  }

  // ---------- both ends and the two FIFOs ----------

  /** `up` and `down` are every frame ever written; the first `upTaken` / `downTaken` were read. */
  datatype Stream = Stream(d: Daemon, a: Agent, up: seq<Msg>, upTaken: nat, down: seq<Msg>, downTaken: nat)

  const NO_STREAM := Stream(NO_DAEMON, NO_AGENT, [], 0, [], 0)

  function Written(log: seq<Msg>, emitted: Option<Msg>): seq<Msg> {
    if emitted.Some? then log + [emitted.value] else log
  }

  datatype StreamAct = DaemonTask(dact: DaemonAct) | DaemonRead | AgentTask(aact: AgentAct) | AgentRead

  predicate Enabled(s: Stream, act: StreamAct) {
    match act
    case DaemonTask(da) => DaemonEnabled(s.d, da)
    case DaemonRead => s.downTaken < |s.down| && DaemonCanReceive(s.d, s.down[s.downTaken])
    case AgentTask(aa) => AgentEnabled(s.a, aa)
    case AgentRead => s.upTaken < |s.up| && AgentCanReceive(s.a, s.up[s.upTaken])
  }

  function Step(s: Stream, act: StreamAct): Stream
    requires Enabled(s, act)
  {
    match act
    case DaemonTask(da) => var r := DaemonStep(s.d, da); s.(d := r.0, up := Written(s.up, r.1))
    case DaemonRead => s.(d := DaemonReceive(s.d, s.down[s.downTaken]), downTaken := s.downTaken + 1)
    case AgentTask(aa) => var r := AgentStep(s.a, aa); s.(a := r.0, down := Written(s.down, r.1))
    case AgentRead => s.(a := AgentReceive(s.a, s.up[s.upTaken]), upTaken := s.upTaken + 1)
  }

  // ---------- what is promised ----------

  /** The data bytes of a log of frames. */
  function Payload(log: seq<Msg>): Data {
    if |log| == 0 then []
    else
      var m := log[|log| - 1];
      Payload(log[..|log| - 1]) + (if m.StreamData? then m.data else [])
  }

  /** Data frames that fit the read buffer, then at most one close, last. */
  ghost predicate DataThenClose(tail: seq<Msg>) {
    forall i :: 0 <= i < |tail| ==>
      || (tail[i].StreamData? && 0 < |tail[i].data| <= READ_BUFFER)
      || (tail[i].StreamClose? && i == |tail| - 1)
  }

  ghost predicate DaemonGrammar(log: seq<Msg>) {
    log == [] || (log[0] == Open && DataThenClose(log[1..]))
  }

  ghost predicate AgentGrammar(log: seq<Msg>) {
    log == [] || log == [OpenResult(false)] || (log[0] == OpenResult(true) && DataThenClose(log[1..]))
  }

  ghost predicate Closed(log: seq<Msg>) {
    |log| > 0 && log[|log| - 1] == StreamClose
  }

  // ---------- the invariant ----------

  predicate WithinLogs(s: Stream) {
    s.upTaken <= |s.up| && s.downTaken <= |s.down|
  }

  ghost predicate LogShape(s: Stream) {
    && WithinLogs(s)
    && DaemonGrammar(s.up) && AgentGrammar(s.down)
    && (s.d.pc in {Absent, Registered} ==> s.up == [])
    && (s.d.pc == Waiting ==> s.up == [Open])
    && (s.d.pc in {Streaming, Leaving, Closing} ==> s.up != [])
    && (Closed(s.up) ==> s.d.pc == Gone)
    && (s.a.pc in {Unknown, Opening} ==> s.down == [])
    && (s.a.pc == Inserting ==> s.down == [OpenResult(true)])
    && (s.a.pc in {Running, Stopping, Finishing} ==> s.down != [] && s.down[0] == OpenResult(true))
    && (Closed(s.down) ==> s.a.pc == Finished)
  }

  ghost predicate Handshake(s: Stream)
    requires WithinLogs(s)
  {
    && (s.upTaken == 0 <==> s.a.pc == Unknown)
    && (s.a.pc in {Opening, Inserting} ==> s.upTaken == 1)
    && (s.d.waiter ==> s.downTaken == 0 && s.d.pc in {Registered, Waiting})
    && (s.d.pc in {Registered, Waiting} && !s.d.waiter ==> s.d.outcome.Some?)
    && s.d.resolutions == (if s.d.outcome.Some? then 1 else 0)
    && (s.d.outcome.Some? ==> !s.d.waiter && s.downTaken > 0 && s.down[0] == OpenResult(s.d.outcome.value))
    && (s.d.pc in {Streaming, Leaving, Closing} || |s.up| > 1 ==> s.d.outcome == Some(true))
    && (s.d.outcome != Some(true) ==> s.d.read == [] && s.d.unsent == [] && s.d.written == [] && s.d.inflight == [])
    && (s.d.pc == Absent ==> s.d == NO_DAEMON)
    && (s.a.pc == Unknown ==> s.a == NO_AGENT)
    && (s.a.end == OpenFailed ==> s.down == [OpenResult(false)])
    && (s.a.end == OpenLost ==> s.down == [])
    && (s.a.pc in {Stopping, Finishing, Finished} ==> s.a.end != Alive)
  }

  /** Nothing delivered to the daemon's read loop is lost, doubled or reordered while the client task lives. */
  ghost predicate WritesToClient(d: Daemon, got: Data, drained: bool) {
    && (d.pc in {Registered, Waiting} ==> d.written == [] && d.inflight == [])
    && (d.pc in {Registered, Waiting, Streaming} ==>
          && d.written + d.inflight + Concat(d.queue) == got
          && (!d.tx ==> drained))
    && d.written <= got
    && (d.pc in {Absent, Registered, Waiting, Streaming} ==> d.end == Unfinished)
    && (d.end == AgentClosed ==> drained && d.written == got)
  }

  /** The same at the agent: what was delivered to its read loop goes upstream in order. */
  ghost predicate WritesUpstream(a: Agent, got: Data, drained: bool) {
    && (a.pc in {Opening, Inserting} ==> a.queue == [] && a.written == [] && a.inflight == [])
    && (a.pc in {Inserting, Running} ==> a.written + a.inflight + Concat(a.queue) == got)
    && (a.pc in {Unknown, Opening, Inserting, Running} ==> a.end == Alive)
    && (a.pc == Running && !a.tx ==> drained)
    && a.written <= got
    && (a.end == DaemonClosed ==> drained && a.written == got)
  }

  /** What the daemon framed is what it read from the client, up to the chunk in hand. */
  ghost predicate ReadsFromClient(d: Daemon, sent: Data, closed: bool) {
    && |d.unsent| <= READ_BUFFER
    && (d.pc in {Absent, Registered, Waiting} ==> d.read == [] && d.unsent == [])
    && (d.pc == Streaming ==> sent + d.unsent == d.read)
    && sent <= d.read
    && (d.pc in {Leaving, Closing} || closed ==> sent == d.read)
  }

  ghost predicate ReadsFromUpstream(a: Agent, sent: Data) {
    && |a.unsent| <= READ_BUFFER
    && (a.pc in {Opening, Inserting} ==> a.unsent == [] && a.read == [])
    && (a.pc in {Unknown, Opening, Inserting, Running} ==> a.end == Alive)
    && (a.pc == Running ==> sent + a.unsent == a.read)
    && sent <= a.read
    && (a.end == UpstreamEof ==> sent == a.read)
  }

  /** Every frame of a closed log has been read. */
  ghost predicate Drained(log: seq<Msg>, taken: nat) {
    Closed(log) && taken == |log|
  }

  ghost predicate ByteFlow(s: Stream)
    requires WithinLogs(s)
  {
    && WritesToClient(s.d, Payload(s.down[..s.downTaken]), Drained(s.down, s.downTaken))
    && WritesUpstream(s.a, Payload(s.up[..s.upTaken]), Drained(s.up, s.upTaken))
    && ReadsFromClient(s.d, Payload(s.up), Closed(s.up))
    && ReadsFromUpstream(s.a, Payload(s.down))
  }

  ghost predicate Inv(s: Stream) {
    LogShape(s) && Handshake(s) && ByteFlow(s)
  }
}
