/** Whole runs of a stream: every way a task can end occurs, and sessions end with nothing lost. */
module StreamRuns {
  import opened Wrappers
  import opened Bytes
  import opened Streams

  predicate CanRun(s: Stream, acts: seq<StreamAct>)
    decreases |acts|
  {
    |acts| == 0 || (Enabled(s, acts[0]) && CanRun(Step(s, acts[0]), acts[1..]))
  }

  function Run(s: Stream, acts: seq<StreamAct>): Stream
    requires CanRun(s, acts)
    decreases |acts|
  {
    if |acts| == 0 then s else Run(Step(s, acts[0]), acts[1..])
  }

  lemma First(s: Stream, act: StreamAct, rest: seq<StreamAct>, next: Stream)
    requires Enabled(s, act) && Step(s, act) == next && CanRun(next, rest)
    ensures CanRun(s, [act] + rest) && Run(s, [act] + rest) == Run(next, rest)
  {
    assert ([act] + rest)[1..] == rest;
  }

  // ---------- two whole sessions ----------

  function Opened(): Stream {
    Stream(NO_DAEMON.(pc := Streaming, outcome := Some(true), resolutions := 1, tx := true), NO_AGENT.(pc := Running, tx := true),
           [Open], 1, [OpenResult(true)], 1)
  }

  function Opens(rest: seq<StreamAct>): seq<StreamAct> {
    [DaemonTask(Register)] + ([DaemonTask(SendOpen)] + ([AgentRead] + ([AgentTask(OpenSucceeds)] + Answers(rest))))
  }

  function Answers(rest: seq<StreamAct>): seq<StreamAct> {
    [AgentTask(InsertSender)] + ([DaemonRead] + ([DaemonTask(TakeOutcome)] + rest))
  }

  function Answering(): Stream {
    Stream(NO_DAEMON.(pc := Waiting, waiter := true, tx := true), NO_AGENT.(pc := Inserting), [Open], 1, [OpenResult(true)], 0)
  }

  lemma AnswerOpens(rest: seq<StreamAct>)
    requires CanRun(Opened(), rest)
    ensures CanRun(Answering(), Answers(rest)) && Run(Answering(), Answers(rest)) == Run(Opened(), rest)
  {
    var s5 := Answering().(a := NO_AGENT.(pc := Running, tx := true));
    var s6 := s5.(d := s5.d.(waiter := false, outcome := Some(true), resolutions := 1), downTaken := 1);
    var r6 := [DaemonTask(TakeOutcome)] + rest;
    First(s6, DaemonTask(TakeOutcome), rest, Opened());
    First(s5, DaemonRead, r6, s6);
    First(Answering(), AgentTask(InsertSender), [DaemonRead] + r6, s5);
  }

  /** The handshake: seven steps from nothing to a stream that copies both ways. */
  lemma HandshakeOpens(rest: seq<StreamAct>)
    requires CanRun(Opened(), rest)
    ensures CanRun(NO_STREAM, Opens(rest)) && Run(NO_STREAM, Opens(rest)) == Run(Opened(), rest)
  {
    var s1 := NO_STREAM.(d := NO_DAEMON.(pc := Registered, waiter := true, tx := true));
    var r2 := [AgentRead] + ([AgentTask(OpenSucceeds)] + Answers(rest));
    AskingOpens(rest);
    First(s1, DaemonTask(SendOpen), r2, Asking());
    First(NO_STREAM, DaemonTask(Register), [DaemonTask(SendOpen)] + r2, s1);
  }

  function Asking(): Stream {
    NO_STREAM.(d := NO_DAEMON.(pc := Waiting, waiter := true, tx := true), up := [Open])
  }

  lemma AskingOpens(rest: seq<StreamAct>)
    requires CanRun(Opened(), rest)
    ensures var acts := [AgentRead] + ([AgentTask(OpenSucceeds)] + Answers(rest));
            CanRun(Asking(), acts) && Run(Asking(), acts) == Run(Opened(), rest)
  {
    var s3 := Asking().(a := NO_AGENT.(pc := Opening), upTaken := 1);
    AnswerOpens(rest);
    First(s3, AgentTask(OpenSucceeds), Answers(rest), Answering());
    First(Asking(), AgentRead, [AgentTask(OpenSucceeds)] + Answers(rest), s3);
  }

  /** The client's chunk is upstream. */
  function Sent(x: Data): Stream {
    Opened().(d := Opened().d.(read := x), a := Opened().a.(written := x), up := [Open, StreamData(x)], upTaken := 2)
  }

  /** A chunk each way. */
  function Exchanged(x: Data, y: Data): Stream {
    Sent(x).(d := Sent(x).d.(written := y), a := Sent(x).a.(read := y), down := [OpenResult(true), StreamData(y)], downTaken := 2)
  }

  function ClientSends(x: Data, rest: seq<StreamAct>): seq<StreamAct> {
    [DaemonTask(ReadClient(x))] + ([DaemonTask(SendClientData)] + ([AgentRead] + ([AgentTask(RecvFromDaemon)]
      + ([AgentTask(WriteUpstream(|x|))] + rest))))
  }

  function UpstreamSends(y: Data, rest: seq<StreamAct>): seq<StreamAct> {
    [AgentTask(ReadUpstream(y))] + ([AgentTask(SendUpstreamData)] + ([DaemonRead] + ([DaemonTask(RecvChunk)]
      + ([DaemonTask(WriteClient(|y|))] + rest))))
  }

  /** The five steps of a chunk from the client, one after another. */
  lemma ClientChunkSteps(x: Data)
    requires 0 < |x| <= READ_BUFFER
    ensures var s := Opened();
            var s1 := s.(d := s.d.(read := x, unsent := x));
            var s2 := s.(d := s.d.(read := x), up := [Open, StreamData(x)]);
            var s3 := s2.(a := s.a.(queue := [x]), upTaken := 2);
            var s4 := s3.(a := s.a.(inflight := x));
            && Enabled(s, DaemonTask(ReadClient(x))) && Step(s, DaemonTask(ReadClient(x))) == s1
            && Enabled(s1, DaemonTask(SendClientData)) && Step(s1, DaemonTask(SendClientData)) == s2
            && Enabled(s2, AgentRead) && Step(s2, AgentRead) == s3
            && Enabled(s3, AgentTask(RecvFromDaemon)) && Step(s3, AgentTask(RecvFromDaemon)) == s4
            && Enabled(s4, AgentTask(WriteUpstream(|x|))) && Step(s4, AgentTask(WriteUpstream(|x|))) == Sent(x)
  {
    assert [] + x == x && [Open] + [StreamData(x)] == [Open, StreamData(x)];
    assert [x][1..] == [] && x[..|x|] == x && x[|x|..] == [];
  }

  lemma ClientChunk(x: Data, rest: seq<StreamAct>)
    requires 0 < |x| <= READ_BUFFER && CanRun(Sent(x), rest)
    ensures CanRun(Opened(), ClientSends(x, rest)) && Run(Opened(), ClientSends(x, rest)) == Run(Sent(x), rest)
  {
    var s := Opened();
    var s1 := s.(d := s.d.(read := x, unsent := x));
    var s2 := s.(d := s.d.(read := x), up := [Open, StreamData(x)]);
    var s3 := s2.(a := s.a.(queue := [x]), upTaken := 2);
    var s4 := s3.(a := s.a.(inflight := x));
    var r4 := [AgentTask(WriteUpstream(|x|))] + rest;
    var r3 := [AgentTask(RecvFromDaemon)] + r4;
    ClientChunkSteps(x);
    First(s4, AgentTask(WriteUpstream(|x|)), rest, Sent(x));
    First(s3, AgentTask(RecvFromDaemon), r4, s4);
    First(s2, AgentRead, r3, s3);
    First(s1, DaemonTask(SendClientData), [AgentRead] + r3, s2);
    First(s, DaemonTask(ReadClient(x)), [DaemonTask(SendClientData)] + ([AgentRead] + r3), s1);
  }

  lemma UpstreamChunkSteps(x: Data, y: Data)
    requires 0 < |y| <= READ_BUFFER
    ensures var s := Sent(x);
            var s1 := s.(a := s.a.(read := y, unsent := y));
            var s2 := s.(a := s.a.(read := y), down := [OpenResult(true), StreamData(y)]);
            var s3 := s2.(d := s.d.(queue := [y]), downTaken := 2);
            var s4 := s3.(d := s.d.(inflight := y));
            && Enabled(s, AgentTask(ReadUpstream(y))) && Step(s, AgentTask(ReadUpstream(y))) == s1
            && Enabled(s1, AgentTask(SendUpstreamData)) && Step(s1, AgentTask(SendUpstreamData)) == s2
            && Enabled(s2, DaemonRead) && Step(s2, DaemonRead) == s3
            && Enabled(s3, DaemonTask(RecvChunk)) && Step(s3, DaemonTask(RecvChunk)) == s4
            && Enabled(s4, DaemonTask(WriteClient(|y|))) && Step(s4, DaemonTask(WriteClient(|y|))) == Exchanged(x, y)
  {
    assert [] + y == y && [OpenResult(true)] + [StreamData(y)] == [OpenResult(true), StreamData(y)];
    assert [y][1..] == [] && y[..|y|] == y && y[|y|..] == [];
  }

  lemma UpstreamChunk(x: Data, y: Data, rest: seq<StreamAct>)
    requires 0 < |y| <= READ_BUFFER && CanRun(Exchanged(x, y), rest)
    ensures CanRun(Sent(x), UpstreamSends(y, rest)) && Run(Sent(x), UpstreamSends(y, rest)) == Run(Exchanged(x, y), rest)
  {
    var s := Sent(x);
    var s1 := s.(a := s.a.(read := y, unsent := y));
    var s2 := s.(a := s.a.(read := y), down := [OpenResult(true), StreamData(y)]);
    var s3 := s2.(d := s.d.(queue := [y]), downTaken := 2);
    var s4 := s3.(d := s.d.(inflight := y));
    var r4 := [DaemonTask(WriteClient(|y|))] + rest;
    var r3 := [DaemonTask(RecvChunk)] + r4;
    UpstreamChunkSteps(x, y);
    First(s4, DaemonTask(WriteClient(|y|)), rest, Exchanged(x, y));
    First(s3, DaemonTask(RecvChunk), r4, s4);
    First(s2, DaemonRead, r3, s3);
    First(s1, AgentTask(SendUpstreamData), [DaemonRead] + r3, s2);
    First(s, AgentTask(ReadUpstream(y)), [AgentTask(SendUpstreamData)] + ([DaemonRead] + r3), s1);
  }

  // ---------- leaving ----------

  /** A client task leaves for this reason and says so. */
  function DaemonGoes(why: DaemonEnd, rest: seq<StreamAct>): seq<StreamAct> {
    [DaemonTask(Break(why))] + ([DaemonTask(DropSender)] + ([DaemonTask(SendClose)] + ([AgentRead] + rest)))
  }

  function AgentGoes(why: AgentEnd, rest: seq<StreamAct>): seq<StreamAct> {
    [AgentTask(Stop(why))] + ([AgentTask(RemoveSender)] + ([AgentTask(SendAgentClose)] + ([DaemonRead] + rest)))
  }

  /** The stream after the client's side left and the agent's read loop heard of it. */
  function WithoutDaemon(s: Stream, why: DaemonEnd): Stream {
    s.(d := s.d.(pc := Gone, end := why, tx := false), a := s.a.(tx := false), up := s.up + [StreamClose], upTaken := |s.up| + 1)
  }

  function WithoutAgent(s: Stream, why: AgentEnd): Stream {
    s.(a := s.a.(pc := Finished, end := why, tx := false), d := s.d.(tx := false),
       down := s.down + [StreamClose], downTaken := |s.down| + 1)
  }

  lemma DaemonLeaves(s: Stream, why: DaemonEnd, rest: seq<StreamAct>)
    requires Enabled(s, DaemonTask(Break(why))) && s.upTaken == |s.up| && !s.d.waiter
    requires s.a.pc in {Running, Finished} && CanRun(WithoutDaemon(s, why), rest)
    ensures CanRun(s, DaemonGoes(why, rest)) && Run(s, DaemonGoes(why, rest)) == Run(WithoutDaemon(s, why), rest)
  {
    var s1 := s.(d := s.d.(pc := Leaving, end := why));
    var s2 := s.(d := s.d.(pc := Closing, end := why, tx := false));
    var s3 := s.(d := s.d.(pc := Gone, end := why, tx := false), up := s.up + [StreamClose]);
    First(s3, AgentRead, rest, WithoutDaemon(s, why));
    First(s2, DaemonTask(SendClose), [AgentRead] + rest, s3);
    First(s1, DaemonTask(DropSender), [DaemonTask(SendClose)] + ([AgentRead] + rest), s2);
    First(s, DaemonTask(Break(why)), [DaemonTask(DropSender)] + ([DaemonTask(SendClose)] + ([AgentRead] + rest)), s1);
  }

  lemma AgentLeaves(s: Stream, why: AgentEnd, rest: seq<StreamAct>)
    requires Enabled(s, AgentTask(Stop(why))) && s.downTaken == |s.down| && !s.d.waiter
    requires CanRun(WithoutAgent(s, why), rest)
    ensures CanRun(s, AgentGoes(why, rest)) && Run(s, AgentGoes(why, rest)) == Run(WithoutAgent(s, why), rest)
  {
    var s1 := s.(a := s.a.(pc := Stopping, end := why));
    var s2 := s.(a := s.a.(pc := Finishing, end := why, tx := false));
    var s3 := s.(a := s.a.(pc := Finished, end := why, tx := false), down := s.down + [StreamClose]);
    First(s3, DaemonRead, rest, WithoutAgent(s, why));
    First(s2, AgentTask(SendAgentClose), [DaemonRead] + rest, s3);
    First(s1, AgentTask(RemoveSender), [AgentTask(SendAgentClose)] + ([DaemonRead] + rest), s2);
    First(s, AgentTask(Stop(why)), [AgentTask(RemoveSender)] + ([AgentTask(SendAgentClose)] + ([DaemonRead] + rest)), s1);
  }

  /** Both sides have left, everything was delivered and both closes were read. */
  predicate AllDone(s: Stream, x: Data, y: Data) {
    && s.up == [Open, StreamData(x), StreamClose] && s.upTaken == 3
    && s.down == [OpenResult(true), StreamData(y), StreamClose] && s.downTaken == 3
    && s.d.pc == Gone && s.a.pc == Finished && !s.d.tx && !s.a.tx
    && s.d.read == x == s.a.written && s.a.read == y == s.d.written
  }

  /** Everything written was read, and neither side holds anything. */
  predicate AtRest(s: Stream) {
    && s.d.pc == Streaming && s.a.pc == Running && !s.d.waiter
    && s.d.unsent == [] && s.d.inflight == [] && s.d.queue == [] && s.a.unsent == [] && s.a.inflight == [] && s.a.queue == []
    && s.upTaken == |s.up| && s.downTaken == |s.down|
  }

  lemma ClientFirst(s: Stream)
    requires AtRest(s)
    ensures var acts := DaemonGoes(ClientEof, AgentGoes(DaemonClosed, []));
            CanRun(s, acts) && Run(s, acts) == WithoutAgent(WithoutDaemon(s, ClientEof), DaemonClosed)
  {
    AgentLeaves(WithoutDaemon(s, ClientEof), DaemonClosed, []);
    DaemonLeaves(s, ClientEof, AgentGoes(DaemonClosed, []));
  }

  lemma UpstreamFirst(s: Stream)
    requires AtRest(s)
    ensures var acts := AgentGoes(UpstreamEof, DaemonGoes(AgentClosed, []));
            CanRun(s, acts) && Run(s, acts) == WithoutDaemon(WithoutAgent(s, UpstreamEof), AgentClosed)
  {
    DaemonLeaves(WithoutAgent(s, UpstreamEof), AgentClosed, []);
    AgentLeaves(s, UpstreamEof, DaemonGoes(AgentClosed, []));
  }

  lemma ExchangedAtRest(x: Data, y: Data)
    ensures AtRest(Exchanged(x, y))
    ensures AllDone(WithoutAgent(WithoutDaemon(Exchanged(x, y), ClientEof), DaemonClosed), x, y)
    ensures AllDone(WithoutDaemon(WithoutAgent(Exchanged(x, y), UpstreamEof), AgentClosed), x, y)
  {
  }

  function Session(x: Data, y: Data, leaving: seq<StreamAct>): seq<StreamAct> {
    Opens(ClientSends(x, UpstreamSends(y, leaving)))
  }

  lemma SessionRuns(x: Data, y: Data, leaving: seq<StreamAct>)
    requires 0 < |x| <= READ_BUFFER && 0 < |y| <= READ_BUFFER && CanRun(Exchanged(x, y), leaving)
    ensures CanRun(NO_STREAM, Session(x, y, leaving)) && Run(NO_STREAM, Session(x, y, leaving)) == Run(Exchanged(x, y), leaving)
  {
    UpstreamChunk(x, y, leaving);
    ClientChunk(x, UpstreamSends(y, leaving));
    HandshakeOpens(ClientSends(x, UpstreamSends(y, leaving)));
  }

  /** For any chunk each way there is a run that opens, copies both, and ends from either side with nothing lost or left behind. */
  lemma SessionsComplete(x: Data, y: Data)
    requires 0 < |x| <= 65536 && 0 < |y| <= 65536
    ensures var acts := Session(x, y, DaemonGoes(ClientEof, AgentGoes(DaemonClosed, [])));
            CanRun(NO_STREAM, acts) && AllDone(Run(NO_STREAM, acts), x, y)
    ensures var acts := Session(x, y, AgentGoes(UpstreamEof, DaemonGoes(AgentClosed, [])));
            CanRun(NO_STREAM, acts) && AllDone(Run(NO_STREAM, acts), x, y)
  {
    ExchangedAtRest(x, y);
    ClientFirst(Exchanged(x, y));
    UpstreamFirst(Exchanged(x, y));
    SessionRuns(x, y, DaemonGoes(ClientEof, AgentGoes(DaemonClosed, [])));
    SessionRuns(x, y, AgentGoes(UpstreamEof, DaemonGoes(AgentClosed, [])));
  }

  // ---------- every ending occurs ----------

  lemma {:induction false} RunConcat(s: Stream, acts: seq<StreamAct>, act: StreamAct)
    requires CanRun(s, acts) && Enabled(Run(s, acts), act)
    ensures CanRun(s, acts + [act]) && Run(s, acts + [act]) == Step(Run(s, acts), act)
    decreases |acts|
  {
    if |acts| == 0 {
      First(s, act, [], Step(s, act));
      assert [] + [act] == [act] + [];
    } else {
      RunConcat(Step(s, acts[0]), acts[1..], act);
      First(s, acts[0], acts[1..] + [act], Step(s, acts[0]));
      assert acts + [act] == [acts[0]] + (acts[1..] + [act]);
    }
  }

  ghost predicate Reached(s: Stream) {
    exists acts :: CanRun(NO_STREAM, acts) && Run(NO_STREAM, acts) == s
  }

  lemma Onward(s: Stream, act: StreamAct) returns (next: Stream)
    requires Reached(s) && Enabled(s, act)
    ensures next == Step(s, act) && Reached(next)
  {
    var acts :| CanRun(NO_STREAM, acts) && Run(NO_STREAM, acts) == s;
    RunConcat(NO_STREAM, acts, act);
    next := Step(s, act);
  }

  lemma OpenIsSent() returns (s: Stream)
    ensures Reached(s) && s == NO_STREAM.(d := NO_DAEMON.(pc := Waiting, waiter := true, tx := true), up := [Open])
  {
    assert CanRun(NO_STREAM, []) && Run(NO_STREAM, []) == NO_STREAM;
    s := Onward(NO_STREAM, DaemonTask(Register));
    s := Onward(s, DaemonTask(SendOpen));
  }

  lemma OpenedIsReached()
    ensures Reached(Opened())
  {
    HandshakeOpens([]);
  }

  /** A client task can end in each of its ways, with these frames written. */
  lemma DaemonCanEnd(why: DaemonEnd) returns (s: Stream)
    requires why != Unfinished
    ensures Reached(s) && s.d.pc == Gone && s.d.end == why
    ensures s.up == match why
                    case OpenWriteFailed => []
                    case TimedOut => [Open]
                    case Refused => [Open]
                    case Aborted => [Open]
                    case _ => [Open, StreamClose]
  {
    if why == OpenWriteFailed {
      assert CanRun(NO_STREAM, []) && Run(NO_STREAM, []) == NO_STREAM;
      s := Onward(NO_STREAM, DaemonTask(Register));
      s := Onward(s, DaemonTask(OpenWriteFails));
    } else if why == TimedOut {
      s := OpenIsSent();
      s := Onward(s, DaemonTask(Timeout));
    } else if why == Refused {
      s := OpenIsRefused();
    } else {
      s := OpenedCanEnd(why);
    }
  }

  lemma OpenIsRefused() returns (s: Stream)
    ensures Reached(s) && s.d.pc == Gone && s.d.end == Refused && s.up == [Open]
    ensures s.a.pc == Finished && s.a.end == OpenFailed && s.down == [OpenResult(false)]
  {
    s := RefusalIsSent();
    s := Onward(s, DaemonRead);
    s := Onward(s, DaemonTask(TakeOutcome));
  }

  lemma RefusalIsSent() returns (s: Stream)
    ensures Reached(s) && s.d == NO_DAEMON.(pc := Waiting, waiter := true, tx := true) && s.up == [Open]
    ensures s.a.pc == Finished && s.a.end == OpenFailed && s.down == [OpenResult(false)] && s.downTaken == 0
  {
    s := OpenIsSent();
    s := Onward(s, AgentRead);
    s := Onward(s, AgentTask(OpenFails));
  }

  lemma OpenedCanEnd(why: DaemonEnd) returns (s: Stream)
    requires why in {ClientEof, ClientGone, AgentClosed, Aborted}
    ensures Reached(s) && s.d.pc == Gone && s.d.end == why && s.up == if why == Aborted then [Open] else [Open, StreamClose]
  {
    OpenedIsReached();
    s := Opened();
    if why == Aborted {
      s := Onward(s, DaemonTask(Abort));
      return;
    }
    if why == ClientGone {
      s := ChunkInHand(s);
    } else if why == AgentClosed {
      s := AgentCloses(s);
    }
    s := DaemonEnds(s, why);
  }

  lemma DaemonEnds(s0: Stream, why: DaemonEnd) returns (s: Stream)
    requires Reached(s0) && Enabled(s0, DaemonTask(Break(why))) && s0.up == [Open]
    ensures Reached(s) && s.d.pc == Gone && s.d.end == why && s.up == [Open, StreamClose]
  {
    s := Onward(s0, DaemonTask(Break(why)));
    s := Onward(s, DaemonTask(DropSender));
    s := Onward(s, DaemonTask(SendClose));
  }

  /** A chunk taken from the channel and not yet written to the client. */
  lemma ChunkInHand(s0: Stream) returns (s: Stream)
    requires Reached(s0) && s0 == Opened()
    ensures Reached(s) && s.d == s0.d.(inflight := [0]) && s.up == s0.up
  {
    s := Onward(s0, AgentTask(ReadUpstream([0])));
    s := Onward(s, AgentTask(SendUpstreamData));
    s := Onward(s, DaemonRead);
    s := Onward(s, DaemonTask(RecvChunk));
  }

  lemma AgentCloses(s0: Stream) returns (s: Stream)
    requires Reached(s0) && s0 == Opened()
    ensures Reached(s) && s.d == s0.d.(tx := false) && s.up == s0.up
  {
    s := Onward(s0, AgentTask(Stop(UpstreamEof)));
    s := Onward(s, AgentTask(RemoveSender));
    s := Onward(s, AgentTask(SendAgentClose));
    s := Onward(s, DaemonRead);
  }

  /** So can the agent's task. */
  lemma AgentCanEnd(why: AgentEnd) returns (s: Stream)
    requires why != Alive
    ensures Reached(s) && s.a.pc == Finished && s.a.end == why
    ensures s.down == match why
                      case OpenFailed => [OpenResult(false)]
                      case OpenLost => []
                      case _ => [OpenResult(true), StreamClose]
  {
    if why == OpenFailed {
      s := OpenIsRefused();
    } else if why == OpenLost {
      s := OpenIsSent();
      s := Onward(s, AgentRead);
      s := Onward(s, AgentTask(OpenIsLost));
    } else {
      OpenedIsReached();
      s := Opened();
      if why == DaemonClosed { s := DaemonClosesFirst(s); }
      s := AgentEnds(s, why);
    }
  }

  lemma AgentEnds(s0: Stream, why: AgentEnd) returns (s: Stream)
    requires Reached(s0) && Enabled(s0, AgentTask(Stop(why))) && s0.down == [OpenResult(true)]
    ensures Reached(s) && s.a.pc == Finished && s.a.end == why && s.down == [OpenResult(true), StreamClose]
  {
    s := Onward(s0, AgentTask(Stop(why)));
    s := Onward(s, AgentTask(RemoveSender));
    s := Onward(s, AgentTask(SendAgentClose));
  }

  lemma DaemonClosesFirst(s0: Stream) returns (s: Stream)
    requires Reached(s0) && s0 == Opened()
    ensures Reached(s) && s.a == s0.a.(tx := false) && s.down == s0.down
  {
    s := Onward(s0, DaemonTask(Break(ClientEof)));
    s := Onward(s, DaemonTask(DropSender));
    s := Onward(s, DaemonTask(SendClose));
    s := Onward(s, AgentRead);
  }

  /** Either close can be lost with the connection. */
  lemma ClosesCanFail() returns (s: Stream)
    ensures Reached(s) && s.d.pc == Gone && s.d.end == ClientEof && s.up == [Open]
    ensures s.a.pc == Finished && s.a.end == UpstreamFailed && s.down == [OpenResult(true)]
  {
    OpenedIsReached();
    s := Opened();
    s := Onward(s, DaemonTask(Break(ClientEof)));
    s := Onward(s, DaemonTask(DropSender));
    s := Onward(s, DaemonTask(CloseWriteFails));
    s := Onward(s, AgentTask(Stop(UpstreamFailed)));
    s := Onward(s, AgentTask(RemoveSender));
    s := Onward(s, AgentTask(AgentCloseWriteFails));
  }
}
