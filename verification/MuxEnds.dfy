/**
 How the streams of a shared connection end, and when its two read loops
 have to wait, in every run.
 */
module MuxEnds {
  import opened Wrappers
  import opened Bytes
  import opened Streams
  import opened StreamEnds
  import opened Mux

  /** The connection fails the daemon's close of this stream. */
  predicate ClientCloseFails(acts: seq<Act>, id: nat) {
    RunDaemonTask(id, CloseWriteFails) in acts
  }

  predicate AgentCloseFails(acts: seq<Act>, id: nat) {
    RunAgentTask(id, AgentCloseWriteFails) in acts
  }

  ghost predicate Ends(c: Conn, id: nat)
    requires Shared(c)
  {
    ClosesEndSenders(View(c, id)) && NoEntryLeft(View(c, id)) && AbortLeavesEntry(View(c, id)) && ChannelsHold(View(c, id))
  }

  lemma {:induction false} RunKeepsEnds(c: Conn, acts: seq<Act>, id: nat)
    requires ConnInv(c) && CanRun(c, acts) && Ends(c, id)
    ensures ConnInv(Run(c, acts)) && Ends(Run(c, acts), id)
    decreases |acts|
  {
    if |acts| > 0 {
      var s := View(c, id);
      assert Inv(s);
      StepKeepsConnInv(c, acts[0]);
      StepRefinesStream(c, acts[0], id);
      if Seen(c, acts[0], id).Some? {
        StepKeepsClosesEndSenders(s, Seen(c, acts[0], id).value);
        StepKeepsNoEntryLeft(s, Seen(c, acts[0], id).value);
        StepKeepsAbortLeavesEntry(s, Seen(c, acts[0], id).value);
        StepKeepsChannelsHold(s, Seen(c, acts[0], id).value);
      }
      RunKeepsEnds(Mux.Step(c, acts[0]), acts[1..], id);
    }
  }

  lemma SeenIsAct(c: Conn, act: Act, id: nat)
    requires Mux.Enabled(c, act)
    ensures Seen(c, act, id) == Some(DaemonTask(CloseWriteFails)) ==> act == RunDaemonTask(id, CloseWriteFails)
    ensures Seen(c, act, id) == Some(AgentTask(AgentCloseWriteFails)) ==> act == RunAgentTask(id, AgentCloseWriteFails)
  {
  }

  lemma StepKeepsDaemonCloses(c: Conn, act: Act, id: nat)
    requires Shared(c) && Mux.Enabled(c, act) && Shared(Mux.Step(c, act))
    requires Seen(c, act, id) != Some(DaemonTask(CloseWriteFails)) && DaemonCloses(View(c, id))
    ensures DaemonCloses(View(Mux.Step(c, act), id))
  {
    var s, s', seen := View(c, id), View(Mux.Step(c, act), id), Seen(c, act, id);
    StepRefinesStream(c, act, id);
    if seen.Some? {
      assert s' == Streams.Step(s, seen.value);
      StreamEnds.StepKeepsDaemonCloses(s, seen.value);
    } else {
      assert s' == s;
    }
  }

  lemma StepKeepsAgentCloses(c: Conn, act: Act, id: nat)
    requires Shared(c) && Mux.Enabled(c, act) && Shared(Mux.Step(c, act))
    requires Seen(c, act, id) != Some(AgentTask(AgentCloseWriteFails)) && AgentCloses(View(c, id))
    ensures AgentCloses(View(Mux.Step(c, act), id))
  {
    var s, s', seen := View(c, id), View(Mux.Step(c, act), id), Seen(c, act, id);
    StepRefinesStream(c, act, id);
    if seen.Some? {
      assert s' == Streams.Step(s, seen.value);
      StreamEnds.StepKeepsAgentCloses(s, seen.value);
    } else {
      assert s' == s;
    }
  }

  lemma {:induction false} RunKeepsDaemonCloses(c: Conn, acts: seq<Act>, id: nat)
    requires ConnInv(c) && CanRun(c, acts) && DaemonCloses(View(c, id)) && !ClientCloseFails(acts, id)
    ensures ConnInv(Run(c, acts)) && DaemonCloses(View(Run(c, acts), id))
    decreases |acts|
  {
    if |acts| > 0 {
      assert acts[0] in acts;
      StepKeepsConnInv(c, acts[0]);
      SeenIsAct(c, acts[0], id);
      StepKeepsDaemonCloses(c, acts[0], id);
      RunKeepsDaemonCloses(Mux.Step(c, acts[0]), acts[1..], id);
    }
  }

  lemma {:induction false} RunKeepsAgentCloses(c: Conn, acts: seq<Act>, id: nat)
    requires ConnInv(c) && CanRun(c, acts) && AgentCloses(View(c, id)) && !AgentCloseFails(acts, id)
    ensures ConnInv(Run(c, acts)) && AgentCloses(View(Run(c, acts), id))
    decreases |acts|
  {
    if |acts| > 0 {
      assert acts[0] in acts;
      StepKeepsConnInv(c, acts[0]);
      SeenIsAct(c, acts[0], id);
      StepKeepsAgentCloses(c, acts[0], id);
      RunKeepsAgentCloses(Mux.Step(c, acts[0]), acts[1..], id);
    }
  }

  lemma StepLeavesSilently(c: Conn, act: Act, id: nat)
    requires ConnInv(c) && Mux.Enabled(c, act) && Shared(Mux.Step(c, act))
    requires LeftSilently(View(c, id)) || act == RunDaemonTask(id, CloseWriteFails)
    ensures LeftSilently(View(Mux.Step(c, act), id))
  {
    var s, seen := View(c, id), Seen(c, act, id);
    assert Inv(s);
    StepRefinesStream(c, act, id);
    if seen.Some? { StepKeepsLeftSilently(s, seen.value); }
  }

  lemma {:induction false} FailedCloseIsSilent(c: Conn, acts: seq<Act>, id: nat)
    requires ConnInv(c) && CanRun(c, acts) && (LeftSilently(View(c, id)) || ClientCloseFails(acts, id))
    ensures ConnInv(Run(c, acts)) && LeftSilently(View(Run(c, acts), id))
    decreases |acts|
  {
    if |acts| > 0 {
      StepKeepsConnInv(c, acts[0]);
      if LeftSilently(View(c, id)) || acts[0] == RunDaemonTask(id, CloseWriteFails) { StepLeavesSilently(c, acts[0], id); }
      FailedCloseIsSilent(Mux.Step(c, acts[0]), acts[1..], id);
    }
  }

  lemma StepStopsSilently(c: Conn, act: Act, id: nat)
    requires ConnInv(c) && Mux.Enabled(c, act) && Shared(Mux.Step(c, act))
    requires StoppedSilently(View(c, id)) || act == RunAgentTask(id, AgentCloseWriteFails)
    ensures StoppedSilently(View(Mux.Step(c, act), id))
  {
    var s, seen := View(c, id), Seen(c, act, id);
    assert Inv(s);
    StepRefinesStream(c, act, id);
    if seen.Some? {
      InsertsComeEarly(s);
      StepKeepsStoppedSilently(s, seen.value);
    }
  }

  lemma {:induction false} FailedAgentCloseIsSilent(c: Conn, acts: seq<Act>, id: nat)
    requires ConnInv(c) && CanRun(c, acts) && (StoppedSilently(View(c, id)) || AgentCloseFails(acts, id))
    ensures ConnInv(Run(c, acts)) && StoppedSilently(View(Run(c, acts), id))
    decreases |acts|
  {
    if |acts| > 0 {
      StepKeepsConnInv(c, acts[0]);
      if StoppedSilently(View(c, id)) || acts[0] == RunAgentTask(id, AgentCloseWriteFails) { StepStopsSilently(c, acts[0], id); }
      FailedAgentCloseIsSilent(Mux.Step(c, acts[0]), acts[1..], id);
    }
  }

  /**
   Whoever leaves an open stream says so: the close is among the frames written for the
   stream exactly if the connection did not fail that very write.
   */
  lemma LeavingIsAnnouncedExactly(acts: seq<Act>, id: nat)
    requires CanRun(INITIAL, acts)
    ensures var c := Run(INITIAL, acts); var d, a := DaemonOf(c, id), AgentOf(c, id);
            && (d.pc == Gone && d.end in {ClientEof, ClientGone, AgentClosed} ==>
                  (Closed(Only(c.up, id)) <==> !ClientCloseFails(acts, id)))
            && (a.pc == Finished && a.end in {DaemonClosed, UpstreamEof, UpstreamFailed} ==>
                  (Closed(Only(c.down, id)) <==> !AgentCloseFails(acts, id)))
  {
    Reachable([]);
    assert View(INITIAL, id) == NO_STREAM;
    if ClientCloseFails(acts, id) { FailedCloseIsSilent(INITIAL, acts, id); } else { RunKeepsDaemonCloses(INITIAL, acts, id); }
    if AgentCloseFails(acts, id) { FailedAgentCloseIsSilent(INITIAL, acts, id); } else { RunKeepsAgentCloses(INITIAL, acts, id); }
  }

  /** Whoever is told can leave: with the other side's close read and nothing left to pass on, the loop's exit is enabled. */
  lemma AnnouncedCanLeave(acts: seq<Act>, id: nat)
    requires CanRun(INITIAL, acts)
    ensures var c := Run(INITIAL, acts); var d, a := DaemonOf(c, id), AgentOf(c, id);
            && c.upTaken <= |c.up| && c.downTaken <= |c.down|
            && (d.pc == Streaming && d.unsent == [] && d.inflight == [] && d.queue == [] && Closed(Only(c.down[..c.downTaken], id)) ==>
                  Mux.Enabled(c, RunDaemonTask(id, Break(AgentClosed))))
            && (a.pc == Running && a.inflight == [] && a.queue == [] && Closed(Only(c.up[..c.upTaken], id)) ==>
                  Mux.Enabled(c, RunAgentTask(id, Stop(DaemonClosed))))
  {
    Reachable([]);
    assert View(INITIAL, id) == NO_STREAM;
    RunKeepsEnds(INITIAL, acts, id);
    var c := Run(INITIAL, acts);
    assert Inv(View(c, id));
    ClosedWhenTaken(c.down, c.downTaken, id);
    ClosedWhenTaken(c.up, c.upTaken, id);
    ToldCanLeave(View(c, id));
  }

  /** A close is the last frame of its stream, so a log read as far as the close is read whole. */
  lemma ClosedWhenTaken(log: seq<Frame>, taken: nat, id: nat)
    requires taken <= |log| && (DaemonGrammar(Only(log, id)) || AgentGrammar(Only(log, id)))
    ensures Closed(Only(log[..taken], id)) ==> Drained(Only(log, id), |Only(log[..taken], id)|)
  {
    OnlyPrefix(log, taken, id);
    var part, whole := Only(log[..taken], id), Only(log, id);
    if Closed(part) && |part| > 1 { assert whole[1..][|part| - 2] == StreamClose; }
  }

  /** No map entry outlives its stream, except that an aborted client task leaves its sender until the agent closes the stream. */
  lemma NoEntryIsLeftExactly(acts: seq<Act>, id: nat)
    requires CanRun(INITIAL, acts)
    ensures var c := Run(INITIAL, acts); var d := DaemonOf(c, id);
            && c.downTaken <= |c.down|
            && (d.pc == Gone ==> !d.waiter && (d.tx <==> d.end == Aborted && !Closed(Only(c.down[..c.downTaken], id))))
            && (AgentOf(c, id).pc == Finished ==> !AgentOf(c, id).tx)
  {
    Reachable([]);
    assert View(INITIAL, id) == NO_STREAM;
    RunKeepsEnds(INITIAL, acts, id);
    var c := Run(INITIAL, acts);
    assert Inv(View(c, id));
    ClosedWhenTaken(c.down, c.downTaken, id);
    OnlyPrefix(c.down, c.downTaken, id);
  }

  /** A stream whose client task has left has sent upstream all the client wrote, unless upstream stopped first. */
  lemma ClientCloseDeliversAll(acts: seq<Act>, id: nat)
    requires CanRun(INITIAL, acts) && !ClientCloseFails(acts, id)
    ensures var c := Run(INITIAL, acts); var d, a := DaemonOf(c, id), AgentOf(c, id);
            d.pc == Gone && d.end in {ClientEof, ClientGone, AgentClosed} && a.pc == Finished ==>
              && a.end in {DaemonClosed, UpstreamEof, UpstreamFailed}
              && (a.end == DaemonClosed ==> a.written == d.read)
  {
    Reachable([]);
    assert View(INITIAL, id) == NO_STREAM;
    RunKeepsDaemonCloses(INITIAL, acts, id);
    var s := View(Run(INITIAL, acts), id);
    assert Inv(s);
    if s.d.pc == Gone && s.d.end in {ClientEof, ClientGone, AgentClosed} && s.a.pc == Finished { ClientCloseIsComplete(s); }
  }

  // ---------- what holds up a read loop ----------

  /** The agent's read loop waits for an open only while that open is under way. */
  ghost predicate BusyIsOpening(c: Conn) {
    c.busy.Some? ==> AgentOf(c, c.busy.value).pc in {Opening, Inserting}
  }

  lemma StepKeepsBusy(c: Conn, act: Act)
    requires Shared(c) && BusyIsOpening(c) && Mux.Enabled(c, act)
    ensures BusyIsOpening(Mux.Step(c, act))
  {
    match act
    case RunAgentTask(id, aa) => if c.busy != Some(id) { assert AgentOf(c, id).pc !in {Opening, Inserting}; }
    case RunAgentRead => var (id, m) := c.up[c.upTaken];
    case _ =>
  }

  lemma {:induction false} RunKeepsBusy(c: Conn, acts: seq<Act>)
    requires ConnInv(c) && BusyIsOpening(c) && CanRun(c, acts)
    ensures ConnInv(Run(c, acts)) && BusyIsOpening(Run(c, acts))
    decreases |acts|
  {
    if |acts| > 0 {
      StepKeepsConnInv(c, acts[0]);
      StepKeepsBusy(c, acts[0]);
      RunKeepsBusy(Mux.Step(c, acts[0]), acts[1..]);
    }
  }

  /** A chunk for a channel that already holds 32. */
  predicate NoRoom(m: Msg, tx: bool, over: bool, queue: seq<Data>) {
    m.StreamData? && tx && !over && |queue| == 32
  }

  lemma AllEnds(acts: seq<Act>)
    requires CanRun(INITIAL, acts)
    ensures ConnInv(Run(INITIAL, acts)) && forall id: nat :: Ends(Run(INITIAL, acts), id)
  {
    Reachable([]);
    Reachable(acts);
    forall id: nat
      ensures Ends(Run(INITIAL, acts), id)
    {
      assert View(INITIAL, id) == NO_STREAM;
      RunKeepsEnds(INITIAL, acts, id);
    }
  }

  ghost predicate ChannelsFit(c: Conn) {
    forall id: nat :: |DaemonOf(c, id).queue| <= 32 && |AgentOf(c, id).queue| <= 32
  }

  predicate DaemonLoopRuns(c: Conn) {
    && c.downTaken < |c.down|
    && var (id, m) := c.down[c.downTaken]; var d := DaemonOf(c, id);
       !NoRoom(m, d.tx, d.pc == Gone, d.queue)
  }

  ghost predicate AgentLoopRuns(c: Conn) {
    && (forall id: nat :: AgentOf(c, id).pc !in {Opening, Inserting}) && c.upTaken < |c.up|
    && var (id, m) := c.up[c.upTaken]; var a := AgentOf(c, id);
       !NoRoom(m, a.tx, a.pc == Finished, a.queue)
  }

  lemma LoopsRun(c: Conn)
    requires Shared(c) && BusyIsOpening(c) && ChannelsFit(c)
    ensures Mux.Enabled(c, RunDaemonRead) <==> DaemonLoopRuns(c)
    ensures Mux.Enabled(c, RunAgentRead) <==> AgentLoopRuns(c)
  {
    if c.busy.None? {
      assert forall id: nat :: AgentOf(c, id).pc !in {Opening, Inserting};
    }
  }

  /**
   In every run: no channel holds more than 32 chunks; the daemon's read loop waits
   only for a frame or for room in that frame's channel; the agent's, besides, for the
   one open it may be serving.
   */
  lemma ReadLoopsWaitExactly(acts: seq<Act>)
    requires CanRun(INITIAL, acts)
    ensures var c := Run(INITIAL, acts);
            && ChannelsFit(c)
            && (Mux.Enabled(c, RunDaemonRead) <==> DaemonLoopRuns(c))
            && (Mux.Enabled(c, RunAgentRead) <==> AgentLoopRuns(c))
  {
    AllFit(acts);
    LoopsRun(Run(INITIAL, acts));
  }

  lemma AllFit(acts: seq<Act>)
    requires CanRun(INITIAL, acts)
    ensures Shared(Run(INITIAL, acts)) && BusyIsOpening(Run(INITIAL, acts)) && ChannelsFit(Run(INITIAL, acts))
  {
    AllEnds(acts);
    RunKeepsBusy(INITIAL, acts);
    forall id: nat
      ensures |DaemonOf(Run(INITIAL, acts), id).queue| <= 32 && |AgentOf(Run(INITIAL, acts), id).queue| <= 32
    {
      assert Ends(Run(INITIAL, acts), id);
    }
  }

  /** Every id from 1 that fits 32 bits can be given to a stream, and no other. */
  lemma FirstIds(id: nat)
    ensures Mux.Enabled(INITIAL, OpenStream(id)) <==> 1 <= id <= 0xffff_ffff
  {
  }
}
