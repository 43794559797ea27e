/** Every step of a stream keeps the invariant; what the invariant promises at the end. */
module StreamProofs {
  import opened Wrappers
  import opened Bytes
  import opened Streams

  lemma PayloadAppend(log: seq<Msg>, m: Msg)
    ensures Payload(log + [m]) == Payload(log) + (if m.StreamData? then m.data else [])
  {
    assert (log + [m])[..|log|] == log;
  }

  lemma {:induction false} PayloadPrefix(log: seq<Msg>, k: nat)
    requires k <= |log|
    ensures Payload(log[..k]) <= Payload(log)
    decreases |log|
  {
    if k == |log| {
      assert log[..k] == log;
    } else {
      var front := log[..|log| - 1];
      PayloadPrefix(front, k);
      assert front[..k] == log[..k];
    }
  }

  /** Reading one more frame adds its payload to what was delivered. */
  lemma PayloadTake(log: seq<Msg>, k: nat)
    requires k < |log|
    ensures log[..k + 1] == log[..k] + [log[k]]
    ensures Payload(log[..k + 1]) == Payload(log[..k]) + (if log[k].StreamData? then log[k].data else [])
  {
    assert log[..k + 1] == log[..k] + [log[k]];
    PayloadAppend(log[..k], log[k]);
  }

  /** A frame that follows the grammar may be appended as long as the log is not closed. */
  lemma GrammarAppend(log: seq<Msg>, m: Msg)
    requires |log| > 0 && !Closed(log)
    requires m == StreamClose || (m.StreamData? && 0 < |m.data| <= READ_BUFFER)
    ensures DaemonGrammar(log) ==> DaemonGrammar(log + [m])
    ensures log[0] == OpenResult(true) && AgentGrammar(log) ==> AgentGrammar(log + [m])
  {
    assert (log + [m])[1..] == log[1..] + [m];
    if DataThenClose(log[1..]) {
      forall i | 0 <= i < |log[1..] + [m]|
        ensures (log[1..] + [m])[i].StreamData? ==> 0 < |(log[1..] + [m])[i].data| <= READ_BUFFER
        ensures (log[1..] + [m])[i].StreamData? || ((log[1..] + [m])[i].StreamClose? && i == |log| - 1)
      {
        if i < |log| - 1 { assert log[1..][i] == log[i + 1]; }
      }
    }
  }

  lemma TakenUnchanged(log: seq<Msg>, m: Msg, k: nat)
    requires k <= |log|
    ensures (log + [m])[..k] == log[..k]
  {
  }

  /** The frame a stream endpoint reads next is neither an opening one nor after a close. */
  lemma NextFrame(log: seq<Msg>, k: nat)
    requires DaemonGrammar(log) || AgentGrammar(log)
    requires 0 < k < |log|
    ensures log[k].StreamData? || (log[k].StreamClose? && k == |log| - 1)
  {
    assert log[1..][k - 1] == log[k];
  }

  // ---------- one endpoint at a time ----------

  lemma WrittenPart(w: Data, f: Data, c: Data, n: nat)
    requires n <= |f|
    ensures w + f[..n] + f[n..] + c == w + f + c
    ensures w + f[..n] <= w + f + c
  {
    assert f[..n] + f[n..] == f;
  }

  lemma ChunkMoved(w: Data, c: Data, rest: Data)
    ensures w + [] + (c + rest) == w + c + rest
  {
  }

  lemma ChunkQueued(w: Data, f: Data, q: Data, c: Data)
    ensures w + f + (q + c) == w + f + q + c
  {
  }

  lemma DaemonTaskDelivers(d: Daemon, act: DaemonAct, got: Data, drained: bool)
    requires WritesToClient(d, got, drained) && DaemonEnabled(d, act)
    requires d.pc == Absent ==> got == []
    ensures WritesToClient(DaemonStep(d, act).0, got, drained)
  {
    var d' := DaemonStep(d, act).0;
    match act
    case RecvChunk =>
      ConcatHead(d.queue);
      ChunkMoved(d.written, d.queue[0], Concat(d.queue[1..]));
    case WriteClient(n) => WrittenPart(d.written, d.inflight, Concat(d.queue), n);
    case Break(why) => assert why == AgentClosed ==> d.written + [] + [] == d.written;
    case _ =>
  }

  lemma DaemonTaskReads(d: Daemon, act: DaemonAct, sent: Data, closed: bool)
    requires ReadsFromClient(d, sent, closed) && DaemonEnabled(d, act)
    requires d.pc in {Absent, Registered, Waiting} ==> sent == []
    requires closed ==> d.pc == Gone
    ensures var (d', m) := DaemonStep(d, act);
            ReadsFromClient(d', sent + (if m.Some? && m.value.StreamData? then m.value.data else []), m == Some(StreamClose))
  {
    assert sent + [] == sent;
  }

  lemma DaemonReceiveDelivers(d: Daemon, m: Msg, got: Data, drained: bool)
    requires WritesToClient(d, got, false) && DaemonCanReceive(d, m)
    requires d.waiter ==> d.pc in {Registered, Waiting}
    requires drained <==> m == StreamClose
    requires d.pc == Absent ==> !m.StreamData?
    ensures WritesToClient(DaemonReceive(d, m), got + (if m.StreamData? then m.data else []), drained)
  {
    assert got + [] == got;
    if m.StreamData? {
      ConcatAppend(d.queue, m.data);
      ChunkQueued(d.written, d.inflight, Concat(d.queue), m.data);
    }
  }

  lemma AgentTaskDelivers(a: Agent, act: AgentAct, got: Data, drained: bool)
    requires WritesUpstream(a, got, drained) && AgentEnabled(a, act)
    requires a.pc in {Opening, Inserting} ==> got == []
    ensures WritesUpstream(AgentStep(a, act).0, got, drained)
  {
    var a' := AgentStep(a, act).0;
    match act
    case RecvFromDaemon =>
      ConcatHead(a.queue);
      ChunkMoved(a.written, a.queue[0], Concat(a.queue[1..]));
    case WriteUpstream(n) => WrittenPart(a.written, a.inflight, Concat(a.queue), n);
    case Stop(why) => assert why == DaemonClosed ==> a.written + [] + [] == a.written;
    case _ =>
  }

  lemma AgentTaskReads(a: Agent, act: AgentAct, sent: Data)
    requires ReadsFromUpstream(a, sent) && AgentEnabled(a, act)
    requires a.pc in {Opening, Inserting} ==> sent == []
    ensures var (a', m) := AgentStep(a, act);
            ReadsFromUpstream(a', sent + (if m.Some? && m.value.StreamData? then m.value.data else []))
  {
    assert sent + [] == sent;
  }

  lemma AgentReceiveDelivers(a: Agent, m: Msg, got: Data, drained: bool)
    requires WritesUpstream(a, got, false) && AgentCanReceive(a, m)
    requires m == Open ==> a == NO_AGENT && got == []
    requires drained <==> m == StreamClose
    ensures WritesUpstream(AgentReceive(a, m), got + (if m.StreamData? then m.data else []), drained)
  {
    assert got + [] == got;
    if m.StreamData? {
      ConcatAppend(a.queue, m.data);
      ChunkQueued(a.written, a.inflight, Concat(a.queue), m.data);
    }
  }

  // ---------- frames and handshake ----------

  lemma DaemonTaskKeepsHandshake(s: Stream, act: DaemonAct)
    requires Inv(s) && DaemonEnabled(s.d, act)
    ensures WithinLogs(Step(s, DaemonTask(act))) && Handshake(Step(s, DaemonTask(act)))
  {
  }

  lemma DaemonTaskKeepsShape(s: Stream, act: DaemonAct)
    requires Inv(s) && DaemonEnabled(s.d, act)
    ensures LogShape(Step(s, DaemonTask(act)))
  {
    match act
    case SendOpen => assert Step(s, DaemonTask(act)).up == [Open];
    case SendClientData => GrammarAppend(s.up, StreamData(s.d.unsent));
    case SendClose => GrammarAppend(s.up, StreamClose);
    case _ =>
  }

  lemma AgentTaskKeepsHandshake(s: Stream, act: AgentAct)
    requires Inv(s) && AgentEnabled(s.a, act)
    ensures WithinLogs(Step(s, AgentTask(act))) && Handshake(Step(s, AgentTask(act)))
  {
  }

  lemma AgentTaskKeepsShape(s: Stream, act: AgentAct)
    requires Inv(s) && AgentEnabled(s.a, act)
    ensures LogShape(Step(s, AgentTask(act)))
  {
    match act
    case SendUpstreamData => GrammarAppend(s.down, StreamData(s.a.unsent));
    case SendAgentClose => GrammarAppend(s.down, StreamClose);
    case _ =>
  }

  lemma DaemonReadKeepsShape(s: Stream)
    requires Inv(s) && Enabled(s, DaemonRead)
    ensures LogShape(Step(s, DaemonRead)) && Handshake(Step(s, DaemonRead))
  {
    if s.downTaken > 0 { NextFrame(s.down, s.downTaken); }
  }

  lemma AgentReadKeepsShape(s: Stream)
    requires Inv(s) && Enabled(s, AgentRead)
    ensures LogShape(Step(s, AgentRead)) && Handshake(Step(s, AgentRead))
  {
    if s.upTaken > 0 { NextFrame(s.up, s.upTaken); }
  }

  // ---------- whole steps ----------

  /** Payload, delivered part and closedness of a log after an endpoint wrote at most one frame. */
  lemma LogAfter(log: seq<Msg>, m: Option<Msg>, taken: nat)
    requires taken <= |log| && !Closed(log)
    ensures Written(log, m)[..taken] == log[..taken]
    ensures Payload(Written(log, m)) == Payload(log) + (if m.Some? && m.value.StreamData? then m.value.data else [])
    ensures Closed(Written(log, m)) <==> m == Some(StreamClose)
    ensures !Drained(Written(log, m), taken)
  {
    if m.Some? {
      PayloadAppend(log, m.value);
      TakenUnchanged(log, m.value, taken);
    } else {
      assert Payload(log) + [] == Payload(log);
    }
  }

  lemma OpeningPayload(s: Stream)
    requires Inv(s)
    ensures s.a.pc in {Unknown, Opening, Inserting} ==> Payload(s.up[..s.upTaken]) == []
    ensures s.d.pc in {Absent, Registered, Waiting} ==> Payload(s.up) == []
    ensures s.a.pc in {Unknown, Opening, Inserting} ==> Payload(s.down) == []
  {
    if s.upTaken == 1 { PayloadTake(s.up, 0); }
    PayloadAppend([], Open);
    PayloadAppend([], OpenResult(true));
  }

  lemma DaemonTaskKeepsBytes(s: Stream, act: DaemonAct)
    requires WithinLogs(s) && ByteFlow(s) && DaemonEnabled(s.d, act)
    requires !Closed(s.up)
    requires s.d.pc in {Absent, Registered, Waiting} ==> Payload(s.up) == []
    requires s.d.pc == Absent ==> Payload(s.down[..s.downTaken]) == []
    ensures WithinLogs(Step(s, DaemonTask(act))) && ByteFlow(Step(s, DaemonTask(act)))
  {
    LogAfter(s.up, DaemonStep(s.d, act).1, s.upTaken);
    DaemonTaskDelivers(s.d, act, Payload(s.down[..s.downTaken]), Drained(s.down, s.downTaken));
    DaemonTaskReads(s.d, act, Payload(s.up), false);
  }

  lemma AgentTaskKeepsBytes(s: Stream, act: AgentAct)
    requires WithinLogs(s) && ByteFlow(s) && AgentEnabled(s.a, act)
    requires !Closed(s.down)
    requires s.a.pc in {Opening, Inserting} ==> Payload(s.up[..s.upTaken]) == [] && Payload(s.down) == []
    ensures WithinLogs(Step(s, AgentTask(act))) && ByteFlow(Step(s, AgentTask(act)))
  {
    LogAfter(s.down, AgentStep(s.a, act).1, s.downTaken);
    AgentTaskDelivers(s.a, act, Payload(s.up[..s.upTaken]), Drained(s.up, s.upTaken));
    AgentTaskReads(s.a, act, Payload(s.down));
  }

  /** Reading a frame does not touch what was read from upstream. */
  lemma AgentReceiveReads(a: Agent, m: Msg, sent: Data)
    requires ReadsFromUpstream(a, sent) && (m == Open ==> a == NO_AGENT && sent == [])
    ensures ReadsFromUpstream(AgentReceive(a, m), sent)
  {
  }

  lemma DaemonReadKeepsBytes(s: Stream)
    requires WithinLogs(s) && ByteFlow(s) && Enabled(s, DaemonRead)
    requires s.d.waiter ==> s.d.pc in {Registered, Waiting}
    requires s.d.pc == Absent ==> s.down == []
    requires s.down[s.downTaken] == StreamClose ==> s.downTaken == |s.down| - 1
    ensures WithinLogs(Step(s, DaemonRead)) && ByteFlow(Step(s, DaemonRead))
  {
    PayloadTake(s.down, s.downTaken);
    var m := s.down[s.downTaken];
    DaemonReceiveDelivers(s.d, m, Payload(s.down[..s.downTaken]), m == StreamClose);
    assert Drained(s.down, s.downTaken + 1) <==> m == StreamClose;
  }

  lemma AgentReadKeepsBytes(s: Stream)
    requires WithinLogs(s) && ByteFlow(s) && Enabled(s, AgentRead)
    requires s.up[s.upTaken] == Open ==> s.a == NO_AGENT && s.upTaken == 0 && Payload(s.down) == []
    requires s.up[s.upTaken] == StreamClose ==> s.upTaken == |s.up| - 1
    ensures WithinLogs(Step(s, AgentRead)) && ByteFlow(Step(s, AgentRead))
  {
    PayloadTake(s.up, s.upTaken);
    var m := s.up[s.upTaken];
    AgentReceiveDelivers(s.a, m, Payload(s.up[..s.upTaken]), m == StreamClose);
    AgentReceiveReads(s.a, m, Payload(s.down));
    assert Drained(s.up, s.upTaken + 1) <==> m == StreamClose;
    var s' := Step(s, AgentRead);
    assert WritesUpstream(s'.a, Payload(s'.up[..s'.upTaken]), Drained(s'.up, s'.upTaken));
    assert s'.d == s.d && s'.up == s.up && s'.down == s.down && s'.downTaken == s.downTaken;
  }

  /** A daemon task exists before anything is read for it. */
  lemma NothingBeforeOpen(s: Stream)
    requires Inv(s) && s.d.pc == Absent
    ensures s.down == [] && s.up == []
  {
  }

  lemma DaemonTaskKeepsInv(s: Stream, act: DaemonAct)
    requires Inv(s) && DaemonEnabled(s.d, act)
    ensures Inv(Step(s, DaemonTask(act)))
  {
    OpeningPayload(s);
    if s.d.pc == Absent { NothingBeforeOpen(s); }
    DaemonTaskKeepsShape(s, act);
    DaemonTaskKeepsHandshake(s, act);
    DaemonTaskKeepsBytes(s, act);
  }

  lemma DaemonReadKeepsInv(s: Stream)
    requires Inv(s) && Enabled(s, DaemonRead)
    ensures Inv(Step(s, DaemonRead))
  {
    DaemonReadKeepsShape(s);
    if s.d.pc == Absent { NothingBeforeOpen(s); }
    if s.downTaken > 0 { NextFrame(s.down, s.downTaken); }
    DaemonReadKeepsBytes(s);
  }

  lemma AgentTaskKeepsInv(s: Stream, act: AgentAct)
    requires Inv(s) && AgentEnabled(s.a, act)
    ensures Inv(Step(s, AgentTask(act)))
  {
    OpeningPayload(s);
    AgentTaskKeepsShape(s, act);
    AgentTaskKeepsHandshake(s, act);
    AgentTaskKeepsBytes(s, act);
  }

  lemma AgentReadKeepsInv(s: Stream)
    requires Inv(s) && Enabled(s, AgentRead)
    ensures Inv(Step(s, AgentRead))
  {
    OpeningPayload(s);
    AgentReadKeepsShape(s);
    if s.upTaken > 0 { NextFrame(s.up, s.upTaken); }
    AgentReadKeepsBytes(s);
  }

  /** Every step of either endpoint keeps the invariant. */
  lemma StepKeepsInv(s: Stream, act: StreamAct)
    requires Inv(s) && Enabled(s, act)
    ensures Inv(Step(s, act))
  {
    match act
    case DaemonTask(da) => DaemonTaskKeepsInv(s, da);
    case DaemonRead => DaemonReadKeepsInv(s);
    case AgentTask(aa) => AgentTaskKeepsInv(s, aa);
    case AgentRead => AgentReadKeepsInv(s);
  }

  // ---------- what the invariant promises ----------

  /** Each side has written a prefix of what the other side read, at every moment. */
  lemma ByteIntegrity(s: Stream)
    requires Inv(s)
    ensures s.d.written <= s.a.read
    ensures s.a.written <= s.d.read
  {
    PayloadPrefix(s.down, s.downTaken);
    PayloadPrefix(s.up, s.upTaken);
  }

  /** If upstream ended by itself and the client's side stopped because the agent closed, the client has it all. */
  lemma UpstreamCloseIsComplete(s: Stream)
    requires Inv(s) && s.d.end == AgentClosed && s.a.end == UpstreamEof
    ensures s.d.written == s.a.read
  {
    assert s.down[..|s.down|] == s.down;
  }

  /** A stream whose open did not succeed carries no byte in either direction. */
  lemma FailedOpenCarriesNothing(s: Stream)
    requires Inv(s) && s.d.outcome != Some(true)
    ensures s.d.read == [] && s.d.written == [] && s.a.written == []
    ensures s.up in {[], [Open]}
  {
    assert s.up == [] || s.up == [Open];
    ByteIntegrity(s);
  }
}
