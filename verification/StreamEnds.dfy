/**
 How a stream ends: whoever leaves says so, whoever is told can leave, and nothing of
 the stream stays behind in the maps.
 */
module StreamEnds {
  import opened Wrappers
  import opened Bytes
  import opened Streams
  import StreamProofs

  /** A client task that left its loop has written its close. */
  ghost predicate DaemonCloses(s: Stream) {
    s.d.pc == Gone && s.d.end in {ClientEof, ClientGone, AgentClosed} ==> Closed(s.up)
  }

  /** A copy task that stopped has written its close. */
  ghost predicate AgentCloses(s: Stream) {
    s.a.pc == Finished && s.a.end in {DaemonClosed, UpstreamEof, UpstreamFailed} ==> Closed(s.down)
  }

  /** Once a close has been read, the sender it ends is gone. */
  ghost predicate ClosesEndSenders(s: Stream) {
    && (Drained(s.down, s.downTaken) ==> !s.d.tx)
    && (Drained(s.up, s.upTaken) ==> !s.a.tx)
  }

  /** Only an aborted client task leaves a map entry behind. */
  ghost predicate NoEntryLeft(s: Stream) {
    && (s.d.pc == Closing || (s.d.pc == Gone && s.d.end != Aborted) ==> !s.d.tx && !s.d.waiter)
    && (s.a.pc in {Unknown, Opening, Inserting, Finishing, Finished} ==> !s.a.tx)
  }

  /** An aborted one does: its sender goes only when the agent's close is read. */
  ghost predicate AbortLeavesEntry(s: Stream) {
    && (s.d.end == Aborted ==> s.d.pc == Gone && !s.d.waiter)
    && (s.d.end == Aborted && !s.d.tx ==> Drained(s.down, s.downTaken))
  }

  /** A client task that is gone without a close in its log. */
  ghost predicate LeftSilently(s: Stream) {
    s.d.pc == Gone && !Closed(s.up)
  }

  ghost predicate StoppedSilently(s: Stream) {
    s.a.pc == Finished && !Closed(s.down)
  }

  lemma StepKeepsDaemonCloses(s: Stream, act: StreamAct)
    requires Enabled(s, act) && act != DaemonTask(CloseWriteFails) && DaemonCloses(s)
    ensures DaemonCloses(Step(s, act))
  {
    var s' := Step(s, act);
    match act
    case DaemonTask(da) => if s.d.pc == Closing { assert da == SendClose && s'.up == s.up + [StreamClose]; }
    case _ => assert s'.up == s.up && s'.d.pc == s.d.pc && s'.d.end == s.d.end;
  }

  lemma StepKeepsAgentCloses(s: Stream, act: StreamAct)
    requires Enabled(s, act) && act != AgentTask(AgentCloseWriteFails) && AgentCloses(s)
    ensures AgentCloses(Step(s, act))
  {
    var s' := Step(s, act);
    match act
    case AgentTask(aa) => if s.a.pc == Finishing { assert aa == SendAgentClose && s'.down == s.down + [StreamClose]; }
    case AgentRead => assert s'.down == s.down && (s'.a.pc == Finished ==> s.a.pc == Finished && s'.a.end == s.a.end);
    case _ => assert s'.down == s.down && s'.a == s.a;
  }

  /** What the invariant says of the moments at which a sender is inserted and an open is read. */
  lemma InsertsComeEarly(s: Stream)
    requires Inv(s)
    ensures WithinLogs(s)
    ensures s.d.pc == Absent ==> s.down == []
    ensures s.a.pc == Inserting ==> !Drained(s.up, s.upTaken)
    ensures (s.d.waiter ==> s.d.pc in {Registered, Waiting}) && (s.d.outcome.Some? ==> !s.d.waiter)
    ensures s.upTaken < |s.up| && s.up[s.upTaken] == Open ==> s.a == NO_AGENT
  {
    if s.d.pc == Absent { StreamProofs.NothingBeforeOpen(s); }
    if 0 < s.upTaken < |s.up| { StreamProofs.NextFrame(s.up, s.upTaken); }
  }

  lemma DaemonStepEndsSenders(s: Stream, act: StreamAct)
    requires WithinLogs(s) && Enabled(s, act) && (act.DaemonTask? || act.DaemonRead?)
    requires s.d.pc == Absent ==> s.down == []
    requires ClosesEndSenders(s)
    ensures ClosesEndSenders(Step(s, act))
  {
    var s' := Step(s, act);
    match act
    case DaemonTask(da) => assert s'.up == s.up || s'.upTaken < |s'.up|;
    case DaemonRead => assert Drained(s'.down, s'.downTaken) ==> s.down[s.downTaken] == StreamClose;
  }

  lemma AgentStepEndsSenders(s: Stream, act: StreamAct)
    requires WithinLogs(s) && Enabled(s, act) && (act.AgentTask? || act.AgentRead?)
    requires s.a.pc == Inserting ==> !Drained(s.up, s.upTaken)
    requires ClosesEndSenders(s)
    ensures ClosesEndSenders(Step(s, act))
  {
    var s' := Step(s, act);
    match act
    case AgentTask(aa) => assert s'.down == s.down || s'.downTaken < |s'.down|;
    case AgentRead => assert Drained(s'.up, s'.upTaken) ==> s.up[s.upTaken] == StreamClose;
  }

  lemma StepKeepsClosesEndSenders(s: Stream, act: StreamAct)
    requires Inv(s) && Enabled(s, act) && ClosesEndSenders(s)
    ensures ClosesEndSenders(Step(s, act))
  {
    InsertsComeEarly(s);
    if act.DaemonTask? || act.DaemonRead? { DaemonStepEndsSenders(s, act); } else { AgentStepEndsSenders(s, act); }
  }

  lemma StepLeavesNoEntry(s: Stream, act: StreamAct)
    requires Enabled(s, act) && NoEntryLeft(s)
    requires (s.d.waiter ==> s.d.pc in {Registered, Waiting}) && (s.d.outcome.Some? ==> !s.d.waiter)
    requires act == AgentRead && s.up[s.upTaken] == Open ==> s.a == NO_AGENT
    ensures NoEntryLeft(Step(s, act))
  {
  }

  lemma StepKeepsNoEntryLeft(s: Stream, act: StreamAct)
    requires Inv(s) && Enabled(s, act) && NoEntryLeft(s)
    ensures NoEntryLeft(Step(s, act))
  {
    InsertsComeEarly(s);
    StepLeavesNoEntry(s, act);
  }

  lemma DaemonTaskAbortLeavesEntry(s: Stream, da: DaemonAct)
    requires WithinLogs(s) && DaemonEnabled(s.d, da) && AbortLeavesEntry(s)
    requires (s.d.pc == Streaming ==> !s.d.waiter) && (s.d.pc == Streaming && !s.d.tx ==> Drained(s.down, s.downTaken))
    requires s.d.pc in {Absent, Registered, Waiting, Streaming} ==> s.d.end == Unfinished
    ensures AbortLeavesEntry(Step(s, DaemonTask(da)))
  {
    var s' := Step(s, DaemonTask(da));
    assert s'.down == s.down && s'.downTaken == s.downTaken;
    if da == Abort { assert s'.d.tx == s.d.tx; }
  }

  lemma StepKeepsAbortLeavesEntry(s: Stream, act: StreamAct)
    requires Inv(s) && Enabled(s, act) && AbortLeavesEntry(s)
    ensures AbortLeavesEntry(Step(s, act))
  {
    var s' := Step(s, act);
    match act
    case DaemonTask(da) => DaemonTaskAbortLeavesEntry(s, da);
    case DaemonRead => if s.d.tx && !s'.d.tx { CloseIsLast(s); }
    case AgentTask(aa) => if Drained(s.down, s.downTaken) { assert s.a.pc == Finished; }
    case AgentRead => assert s'.d == s.d && s'.down == s.down;
  }

  /** The close that is read next is the last frame. */
  lemma CloseIsLast(s: Stream)
    requires Inv(s) && s.downTaken < |s.down| && s.down[s.downTaken] == StreamClose
    ensures Drained(s.down, s.downTaken + 1)
  {
    StreamProofs.NextFrame(s.down, s.downTaken);
  }

  /** Gone is gone: nothing is written after a failed close. */
  lemma StepKeepsLeftSilently(s: Stream, act: StreamAct)
    requires LogShape(s) && Enabled(s, act) && (LeftSilently(s) || act == DaemonTask(CloseWriteFails))
    ensures LeftSilently(Step(s, act))
  {
    if act.DaemonTask? {
      assert act.dact == CloseWriteFails && s.d.pc == Closing;
    } else {
      assert Step(s, act).up == s.up && Step(s, act).d.pc == s.d.pc;
    }
  }

  lemma StepKeepsStoppedSilently(s: Stream, act: StreamAct)
    requires LogShape(s) && Enabled(s, act) && (StoppedSilently(s) || act == AgentTask(AgentCloseWriteFails))
    requires act == AgentRead && s.up[s.upTaken] == Open ==> s.a == NO_AGENT
    ensures StoppedSilently(Step(s, act))
  {
    if act.AgentTask? {
      assert act.aact == AgentCloseWriteFails && s.a.pc == Finishing;
    } else {
      assert Step(s, act).down == s.down && Step(s, act).a.pc == s.a.pc;
    }
  }

  // ---------- the channels ----------

  /** A channel holds at most 32 chunks. */
  ghost predicate ChannelsHold(s: Stream) {
    |s.d.queue| <= 32 && |s.a.queue| <= 32
  }

  lemma StepKeepsChannelsHold(s: Stream, act: StreamAct)
    requires Enabled(s, act) && ChannelsHold(s)
    ensures ChannelsHold(Step(s, act))
  {
    match act
    case DaemonTask(da) =>
    case DaemonRead => assert Step(s, act).a == s.a;
    case AgentTask(aa) =>
    case AgentRead => assert Step(s, act).d == s.d;
  }

  // ---------- what follows ----------

  /**
   Once a client task has left its loop and the agent's task is over, either every
   byte of the client went upstream or upstream itself ended or failed.
   */
  lemma ClientCloseIsComplete(s: Stream)
    requires Inv(s) && DaemonCloses(s)
    requires s.d.pc == Gone && s.d.end in {ClientEof, ClientGone, AgentClosed} && s.a.pc == Finished
    ensures s.a.end in {DaemonClosed, UpstreamEof, UpstreamFailed}
    ensures s.a.end == DaemonClosed ==> s.a.written == s.d.read
  {
    assert |s.up| > 1 && s.d.outcome == Some(true);
    assert s.down[0] == OpenResult(true);
    assert s.up[..|s.up|] == s.up;
  }

  /** A loop that has read the other side's close, passed on everything and holds nothing can leave. */
  lemma ToldCanLeave(s: Stream)
    requires Inv(s) && ClosesEndSenders(s)
    ensures s.d.pc == Streaming && s.d.unsent == [] && s.d.inflight == [] && s.d.queue == [] && Drained(s.down, s.downTaken) ==>
              Enabled(s, DaemonTask(Break(AgentClosed)))
    ensures s.a.pc == Running && s.a.inflight == [] && s.a.queue == [] && Drained(s.up, s.upTaken) ==>
              Enabled(s, AgentTask(Stop(DaemonClosed)))
  {
  }
}
