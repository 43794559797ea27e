/**
 A read loop that finds a full channel waits for room inside the send, and holds the
 lock of its sender map while it waits. Whoever wants to insert or remove a sender then
 waits for the loop: when such a wait ends, and when it never does.
 */
module MuxLocks {
  import opened Wrappers
  import opened Bytes
  import opened Streams
  import opened StreamEnds
  import opened Mux
  import opened MuxEnds

  /** `daemonWaits`, `agentWaits`: the read loop sits in a send and holds the lock. */
  datatype Locked = Locked(c: Conn, daemonWaits: bool, agentWaits: bool)

  const UNLOCKED := Locked(INITIAL, false, false)

  datatype LockAct = Do(act: Act) | DaemonLoopWaits | AgentLoopWaits

  /** The steps that lock `stream_tx`, besides those of the read loop itself. */
  predicate LocksDaemonMap(c: Conn, act: Act) {
    match act
    case OpenStream(_) => true
    case RunDaemonTask(id, da) =>
      da.OpenWriteFails? || da.Timeout? || da.DropSender? || (da.TakeOutcome? && DaemonOf(c, id).outcome == Some(false))
    case _ => false
  }

  /** The steps that lock `streams`; an open is served by the read loop itself. */
  predicate LocksAgentMap(act: Act) {
    act.RunAgentTask? && act.aact.RemoveSender?
  }

  predicate Enabled(l: Locked, act: LockAct) {
    match act
    case Do(a) =>
      && Mux.Enabled(l.c, a)
      && (LocksDaemonMap(l.c, a) ==> !l.daemonWaits) && (LocksAgentMap(a) ==> !l.agentWaits)
    case DaemonLoopWaits => !l.daemonWaits && l.c.downTaken < |l.c.down| && !Mux.Enabled(l.c, RunDaemonRead)
    case AgentLoopWaits => !l.agentWaits && l.c.busy.None? && l.c.upTaken < |l.c.up| && !Mux.Enabled(l.c, RunAgentRead)
  }

  function Step(l: Locked, act: LockAct): Locked
    requires Enabled(l, act)
  {
    match act
    case Do(a) =>
      Locked(Mux.Step(l.c, a), l.daemonWaits && a != RunDaemonRead, l.agentWaits && a != RunAgentRead)
    case DaemonLoopWaits => l.(daemonWaits := true)
    case AgentLoopWaits => l.(agentWaits := true)
  }

  predicate CanRun(l: Locked, acts: seq<LockAct>)
    decreases |acts|
  {
    |acts| == 0 || (Enabled(l, acts[0]) && CanRun(Step(l, acts[0]), acts[1..]))
  }

  function Run(l: Locked, acts: seq<LockAct>): Locked
    requires CanRun(l, acts)
    decreases |acts|
  {
    if |acts| == 0 then l else Run(Step(l, acts[0]), acts[1..])
  }

  // ---------- the connection underneath ----------

  function Dos(acts: seq<LockAct>): seq<Act> {
    if |acts| == 0 then [] else (if acts[0].Do? then [acts[0].act] else []) + Dos(acts[1..])
  }

  /** Locks only remove runs: whatever holds in every run of the connection holds here. */
  lemma {:induction false} LockedRunsAreRuns(l: Locked, acts: seq<LockAct>)
    requires CanRun(l, acts)
    ensures Mux.CanRun(l.c, Dos(acts)) && Mux.Run(l.c, Dos(acts)) == Run(l, acts).c
    decreases |acts|
  {
    if |acts| > 0 {
      LockedRunsAreRuns(Step(l, acts[0]), acts[1..]);
      if acts[0].Do? {
        assert Dos(acts)[0] == acts[0].act && Dos(acts)[1..] == Dos(acts[1..]);
      } else {
        assert Dos(acts) == Dos(acts[1..]);
      }
    }
  }

  // ---------- what a waiting loop waits for ----------

  /** The stream whose channel has to get room. */
  function Awaited(log: seq<Frame>, taken: nat): nat
    requires taken < |log|
  {
    log[taken].0
  }

  ghost predicate AllEnd(c: Conn)
    requires Shared(c)
  {
    forall id: nat :: Ends(c, id)
  }

  ghost predicate WaitInv(l: Locked) {
    && ConnInv(l.c) && AllEnd(l.c)
    && (l.daemonWaits ==>
          l.c.downTaken < |l.c.down| && l.c.down[l.c.downTaken].1.StreamData? && DaemonOf(l.c, Awaited(l.c.down, l.c.downTaken)).tx)
    && (l.agentWaits ==>
          l.c.busy.None? && l.c.upTaken < |l.c.up| && l.c.up[l.c.upTaken].1.StreamData? && AgentOf(l.c, Awaited(l.c.up, l.c.upTaken)).tx)
  }

  lemma DaemonSenderStays(c: Conn, act: Act, id: nat)
    requires Mux.Enabled(c, act) && act != RunDaemonRead && !LocksDaemonMap(c, act) && DaemonOf(c, id).tx
    ensures DaemonOf(Mux.Step(c, act), id).tx
    ensures c.down <= Mux.Step(c, act).down && Mux.Step(c, act).downTaken == c.downTaken
  {
  }

  lemma AgentSenderStays(c: Conn, act: Act, id: nat)
    requires Mux.Enabled(c, act) && act != RunAgentRead && !LocksAgentMap(act) && AgentOf(c, id).tx
    ensures AgentOf(Mux.Step(c, act), id).tx
    ensures c.busy.None? ==> Mux.Step(c, act).busy.None?
    ensures c.up <= Mux.Step(c, act).up && Mux.Step(c, act).upTaken == c.upTaken
  {
  }

  lemma StepKeepsAllEnd(c: Conn, act: Act)
    requires ConnInv(c) && AllEnd(c) && Mux.Enabled(c, act)
    ensures ConnInv(Mux.Step(c, act)) && AllEnd(Mux.Step(c, act))
  {
    StepKeepsConnInv(c, act);
    forall id: nat
      ensures Ends(Mux.Step(c, act), id)
    {
      assert Ends(c, id);
      RunKeepsEnds(c, [act], id);
      assert Mux.Run(c, [act]) == Mux.Step(c, act);
    }
  }

  lemma StepKeepsWaitInv(l: Locked, act: LockAct)
    requires WaitInv(l) && Enabled(l, act)
    ensures WaitInv(Step(l, act))
  {
    if act.Do? {
      StepKeepsAllEnd(l.c, act.act);
      if l.daemonWaits && act.act != RunDaemonRead { DaemonSenderStays(l.c, act.act, Awaited(l.c.down, l.c.downTaken)); }
      if l.agentWaits && act.act != RunAgentRead { AgentSenderStays(l.c, act.act, Awaited(l.c.up, l.c.upTaken)); }
    }
  }

  lemma {:induction false} RunKeepsWaitInv(l: Locked, acts: seq<LockAct>)
    requires WaitInv(l) && CanRun(l, acts)
    ensures WaitInv(Run(l, acts))
    decreases |acts|
  {
    if |acts| > 0 {
      StepKeepsWaitInv(l, acts[0]);
      RunKeepsWaitInv(Step(l, acts[0]), acts[1..]);
    }
  }

  lemma ReachedWaitInv(acts: seq<LockAct>)
    requires CanRun(UNLOCKED, acts)
    ensures WaitInv(Run(UNLOCKED, acts))
  {
    AllEnds([]);
    RunKeepsWaitInv(UNLOCKED, acts);
  }

  // ---------- waiting for ever ----------

  /** The client's task left its loop with a full channel: it waits for the lock, the loop for the task. */
  predicate DaemonStuck(l: Locked) {
    && l.daemonWaits && l.c.downTaken < |l.c.down|
    && var (id, m) := l.c.down[l.c.downTaken]; var d := DaemonOf(l.c, id);
       m.StreamData? && d.tx && d.pc == Leaving && |d.queue| == 32
  }

  /** The same at the agent. */
  predicate AgentStuck(l: Locked) {
    && l.agentWaits && l.c.upTaken < |l.c.up| && l.c.busy.None?
    && var (id, m) := l.c.up[l.c.upTaken]; var a := AgentOf(l.c, id);
       m.StreamData? && a.tx && a.pc == Stopping && |a.queue| == 32
  }

  lemma DaemonStuckStays(l: Locked, act: LockAct)
    requires DaemonStuck(l) && Enabled(l, act)
    ensures DaemonStuck(Step(l, act)) && Step(l, act).c.downTaken == l.c.downTaken
    ensures act.Do? ==> !LocksDaemonMap(l.c, act.act)
  {
    if act.Do? { DaemonSenderStays(l.c, act.act, l.c.down[l.c.downTaken].0); }
  }

  lemma AgentStuckStays(l: Locked, act: LockAct)
    requires AgentStuck(l) && Enabled(l, act)
    ensures AgentStuck(Step(l, act)) && Step(l, act).c.upTaken == l.c.upTaken
    ensures act.Do? ==> !LocksAgentMap(act.act)
  {
    if act.Do? { AgentSenderStays(l.c, act.act, l.c.up[l.c.upTaken].0); }
  }

  /** Then the daemon reads no frame of any stream again, opens no stream and lets no client task leave. */
  lemma {:induction false} DaemonStuckForEver(l: Locked, acts: seq<LockAct>)
    requires DaemonStuck(l) && CanRun(l, acts)
    ensures DaemonStuck(Run(l, acts)) && Run(l, acts).c.downTaken == l.c.downTaken
    ensures forall id :: Do(OpenStream(id)) !in acts && Do(RunDaemonTask(id, DropSender)) !in acts
    decreases |acts|
  {
    if |acts| > 0 {
      DaemonStuckStays(l, acts[0]);
      DaemonStuckForEver(Step(l, acts[0]), acts[1..]);
    }
  }

  lemma {:induction false} AgentStuckForEver(l: Locked, acts: seq<LockAct>)
    requires AgentStuck(l) && CanRun(l, acts)
    ensures AgentStuck(Run(l, acts)) && Run(l, acts).c.upTaken == l.c.upTaken
    ensures forall id :: Do(RunAgentTask(id, RemoveSender)) !in acts
    decreases |acts|
  {
    if |acts| > 0 {
      AgentStuckStays(l, acts[0]);
      AgentStuckForEver(Step(l, acts[0]), acts[1..]);
    }
  }

  // ---------- going on ----------

  /** What the task behind a full channel does next by itself. */
  function FreeingStep(d: Daemon): DaemonAct {
    if d.pc == Waiting then TakeOutcome
    else if d.unsent != [] then SendClientData
    else if d.inflight != [] then WriteClient(|d.inflight|)
    else RecvChunk
  }

  /** How many such steps until there is room. */
  function StepsToRoom(d: Daemon): nat {
    if d.pc == Gone || |d.queue| < 32 then 0
    else if d.pc == Waiting then 4 else if d.unsent != [] then 3 else if d.inflight != [] then 2 else 1
  }

  lemma FreeingStepRuns(d: Daemon)
    requires d.pc == Streaming || (d.pc == Waiting && d.outcome == Some(true) && d.unsent == [] && d.inflight == [])
    requires |d.queue| == 32
    ensures DaemonEnabled(d, FreeingStep(d))
    ensures var d' := DaemonStep(d, FreeingStep(d)).0; d'.pc == Streaming && StepsToRoom(d') < StepsToRoom(d)
  {
  }

  /** With data to read next, the task is past the answer to its open. */
  lemma DataComesLate(s: Stream)
    requires Inv(s) && s.downTaken < |s.down| && s.down[s.downTaken].StreamData? && s.d.tx && s.d.pc != Gone && NoEntryLeft(s)
    ensures s.d.pc in {Waiting, Streaming, Leaving}
    ensures s.d.pc == Waiting ==> s.d.outcome == Some(true) && s.d.unsent == [] && s.d.inflight == []
  {
    assert s.downTaken > 0 && s.down[0] == OpenResult(true);
  }

  function AwaitedDaemon(l: Locked): Daemon
    requires l.c.downTaken < |l.c.down|
  {
    DaemonOf(l.c, Awaited(l.c.down, l.c.downTaken))
  }

  /** Waiting, and not for a task that has left its loop. */
  ghost predicate DaemonHeld(l: Locked) {
    WaitInv(l) && l.daemonWaits && !(AwaitedDaemon(l).pc == Leaving && |AwaitedDaemon(l).queue| == 32)
  }

  lemma RoomLetsDaemonRead(l: Locked)
    requires DaemonHeld(l)
    ensures Mux.Enabled(l.c, RunDaemonRead) <==> StepsToRoom(AwaitedDaemon(l)) == 0
    ensures StepsToRoom(AwaitedDaemon(l)) > 0 ==> |AwaitedDaemon(l).queue| == 32
  {
    assert Ends(l.c, Awaited(l.c.down, l.c.downTaken));
  }

  /** One step of the awaited task, while there is no room. */
  lemma FreeDaemonStep(l: Locked) returns (act: LockAct)
    requires DaemonHeld(l) && StepsToRoom(AwaitedDaemon(l)) > 0
    ensures act == Do(RunDaemonTask(Awaited(l.c.down, l.c.downTaken), FreeingStep(AwaitedDaemon(l)))) && Enabled(l, act)
    ensures DaemonHeld(Step(l, act)) && Step(l, act).c.downTaken == l.c.downTaken
    ensures StepsToRoom(AwaitedDaemon(Step(l, act))) < StepsToRoom(AwaitedDaemon(l))
  {
    var id, d := Awaited(l.c.down, l.c.downTaken), AwaitedDaemon(l);
    assert Inv(View(l.c, id)) && Ends(l.c, id);
    RoomLetsDaemonRead(l);
    OnlyTake(l.c.down, l.c.downTaken, id);
    DataComesLate(View(l.c, id));
    FreeingStepRuns(d);
    act := Do(RunDaemonTask(id, FreeingStep(d)));
    DaemonSenderStays(l.c, act.act, id);
    StepKeepsWaitInv(l, act);
  }

  lemma FreeDaemonLoop(l: Locked) returns (acts: seq<LockAct>)
    requires DaemonHeld(l)
    ensures CanRun(l, acts) && Run(l, acts).c.downTaken == l.c.downTaken + 1
    ensures |acts| <= 1 + StepsToRoom(AwaitedDaemon(l))
    decreases StepsToRoom(AwaitedDaemon(l))
  {
    RoomLetsDaemonRead(l);
    if StepsToRoom(AwaitedDaemon(l)) == 0 {
      acts := [Do(RunDaemonRead)];
    } else {
      var act := FreeDaemonStep(l);
      var rest := FreeDaemonLoop(Step(l, act));
      acts := [act] + rest;
      assert acts[1..] == rest;
    }
  }

  // ---------- the agent's side ----------

  function AgentFreeingStep(a: Agent): AgentAct {
    if a.inflight != [] then WriteUpstream(|a.inflight|) else RecvFromDaemon
  }

  function AgentStepsToRoom(a: Agent): nat {
    if a.pc == Finished || |a.queue| < 32 then 0 else if a.inflight != [] then 2 else 1
  }

  function AwaitedAgent(l: Locked): Agent
    requires l.c.upTaken < |l.c.up|
  {
    AgentOf(l.c, Awaited(l.c.up, l.c.upTaken))
  }

  ghost predicate AgentHeld(l: Locked) {
    WaitInv(l) && l.agentWaits && !(AwaitedAgent(l).pc == Stopping && |AwaitedAgent(l).queue| == 32)
  }

  lemma RoomLetsAgentRead(l: Locked)
    requires AgentHeld(l)
    ensures Mux.Enabled(l.c, RunAgentRead) <==> AgentStepsToRoom(AwaitedAgent(l)) == 0
    ensures AgentStepsToRoom(AwaitedAgent(l)) > 0 ==> |AwaitedAgent(l).queue| == 32 && AwaitedAgent(l).pc == Running
  {
    assert Ends(l.c, Awaited(l.c.up, l.c.upTaken));
  }

  lemma FreeAgentStep(l: Locked) returns (act: LockAct)
    requires AgentHeld(l) && AgentStepsToRoom(AwaitedAgent(l)) > 0
    ensures act == Do(RunAgentTask(Awaited(l.c.up, l.c.upTaken), AgentFreeingStep(AwaitedAgent(l)))) && Enabled(l, act)
    ensures AgentHeld(Step(l, act)) && Step(l, act).c.upTaken == l.c.upTaken
    ensures AgentStepsToRoom(AwaitedAgent(Step(l, act))) < AgentStepsToRoom(AwaitedAgent(l))
  {
    var id := Awaited(l.c.up, l.c.upTaken);
    RoomLetsAgentRead(l);
    act := Do(RunAgentTask(id, AgentFreeingStep(AwaitedAgent(l))));
    AgentSenderStays(l.c, act.act, id);
    StepKeepsWaitInv(l, act);
  }

  lemma FreeAgentLoop(l: Locked) returns (acts: seq<LockAct>)
    requires AgentHeld(l)
    ensures CanRun(l, acts) && Run(l, acts).c.upTaken == l.c.upTaken + 1
    ensures |acts| <= 1 + AgentStepsToRoom(AwaitedAgent(l))
    decreases AgentStepsToRoom(AwaitedAgent(l))
  {
    RoomLetsAgentRead(l);
    if AgentStepsToRoom(AwaitedAgent(l)) == 0 {
      acts := [Do(RunAgentRead)];
    } else {
      var act := FreeAgentStep(l);
      var rest := FreeAgentLoop(Step(l, act));
      acts := [act] + rest;
      assert acts[1..] == rest;
    }
  }

  // ---------- exactly when a wait never ends ----------

  /**
   In every run: a read loop of the daemon that waits for room never reads another frame
   if and only if the stream it waits for has a full channel and a task that has left
   its loop, and so waits for the lock; otherwise five steps bring it on.
   */
  lemma DaemonWaitsForEverExactly(before: seq<LockAct>)
    requires CanRun(UNLOCKED, before) && Run(UNLOCKED, before).daemonWaits
    ensures var l := Run(UNLOCKED, before);
            (forall acts :: CanRun(l, acts) ==> Run(l, acts).c.downTaken == l.c.downTaken) <==> DaemonStuck(l)
    ensures var l := Run(UNLOCKED, before);
            !DaemonStuck(l) ==> exists acts :: |acts| <= 5 && CanRun(l, acts) && Run(l, acts).c.downTaken == l.c.downTaken + 1
  {
    ReachedWaitInv(before);
    var l := Run(UNLOCKED, before);
    if DaemonStuck(l) {
      forall acts | CanRun(l, acts)
        ensures Run(l, acts).c.downTaken == l.c.downTaken
      {
        DaemonStuckForEver(l, acts);
      }
    } else {
      var acts := FreeDaemonLoop(l);
    }
  }

  lemma AgentWaitsForEverExactly(before: seq<LockAct>)
    requires CanRun(UNLOCKED, before) && Run(UNLOCKED, before).agentWaits
    ensures var l := Run(UNLOCKED, before);
            (forall acts :: CanRun(l, acts) ==> Run(l, acts).c.upTaken == l.c.upTaken) <==> AgentStuck(l)
    ensures var l := Run(UNLOCKED, before);
            !AgentStuck(l) ==> exists acts :: |acts| <= 3 && CanRun(l, acts) && Run(l, acts).c.upTaken == l.c.upTaken + 1
  {
    ReachedWaitInv(before);
    var l := Run(UNLOCKED, before);
    if AgentStuck(l) {
      forall acts | CanRun(l, acts)
        ensures Run(l, acts).c.upTaken == l.c.upTaken
      {
        AgentStuckForEver(l, acts);
      }
    } else {
      var acts := FreeAgentLoop(l);
    }
  }

  // ---------- such a run ----------

  lemma {:induction false} RunConcat(l: Locked, acts: seq<LockAct>, act: LockAct)
    requires CanRun(l, acts) && Enabled(Run(l, acts), act)
    ensures CanRun(l, acts + [act]) && Run(l, acts + [act]) == Step(Run(l, acts), act)
    decreases |acts|
  {
    if |acts| == 0 {
      assert [] + [act] == [act] && [act][1..] == [];
      assert CanRun(Step(l, act), []);
    } else {
      RunConcat(Step(l, acts[0]), acts[1..], act);
      assert (acts + [act])[0] == acts[0] && (acts + [act])[1..] == acts[1..] + [act];
    }
  }

  ghost predicate Reached(l: Locked) {
    exists acts :: CanRun(UNLOCKED, acts) && Run(UNLOCKED, acts) == l
  }

  lemma Onward(l: Locked, act: LockAct) returns (next: Locked)
    requires Reached(l) && Enabled(l, act)
    ensures next == Step(l, act) && Reached(next)
  {
    var acts :| CanRun(UNLOCKED, acts) && Run(UNLOCKED, acts) == l;
    RunConcat(UNLOCKED, acts, act);
    next := Step(l, act);
  }

  /** One open stream, everything read, and so many chunks in the two channels. */
  predicate Flowing(l: Locked, toClient: nat, toAgent: nat) {
    var c := l.c;
    var d, a := DaemonOf(c, 1), AgentOf(c, 1);
    && !l.daemonWaits && !l.agentWaits && c.busy.None? && c.upTaken == |c.up| && c.downTaken == |c.down|
    && d.pc == Streaming && d.tx && d.unsent == [] && d.inflight == [] && |d.queue| == toClient
    && a.pc == Running && a.tx && a.unsent == [] && |a.queue| == toAgent
  }

  lemma OneStreamOpens() returns (l: Locked)
    ensures Reached(l) && Flowing(l, 0, 0)
  {
    assert CanRun(UNLOCKED, []) && Run(UNLOCKED, []) == UNLOCKED;
    l := Onward(UNLOCKED, Do(OpenStream(1)));
    l := Onward(l, Do(RunDaemonTask(1, SendOpen)));
    l := Onward(l, Do(RunAgentRead));
    l := OpenIsAnswered(l);
  }

  lemma OpenIsAnswered(l0: Locked) returns (l: Locked)
    requires Reached(l0) && !l0.daemonWaits && !l0.agentWaits
    requires DaemonOf(l0.c, 1) == NO_DAEMON.(pc := Waiting, waiter := true, tx := true)
    requires AgentOf(l0.c, 1) == NO_AGENT.(pc := Opening) && l0.c.upTaken == |l0.c.up| && l0.c.down == [] && l0.c.downTaken == 0
    ensures Reached(l) && Flowing(l, 0, 0)
  {
    l := OpenSucceedsThere(l0);
    l := Onward(l, Do(RunDaemonRead));
    l := Onward(l, Do(RunDaemonTask(1, TakeOutcome)));
  }

  lemma OpenSucceedsThere(l0: Locked) returns (l: Locked)
    requires Reached(l0) && !l0.daemonWaits && !l0.agentWaits
    requires AgentOf(l0.c, 1) == NO_AGENT.(pc := Opening)
    ensures Reached(l) && l == l0.(c := l0.c.(agents := l.c.agents, busy := None, down := l0.c.down + [(1, OpenResult(true))]))
    ensures AgentOf(l.c, 1) == NO_AGENT.(pc := Running, tx := true)
  {
    l := Onward(l0, Do(RunAgentTask(1, OpenSucceeds)));
    l := Onward(l, Do(RunAgentTask(1, InsertSender)));
  }

  /** A chunk from upstream is framed and not yet read. */
  lemma UpstreamFrames(l0: Locked) returns (l: Locked)
    requires Reached(l0) && exists n, k :: Flowing(l0, n, k)
    ensures Reached(l) && l.c.downTaken + 1 == |l.c.down| && l.c.down[l.c.downTaken] == (1, StreamData([0]))
    ensures DaemonOf(l.c, 1) == DaemonOf(l0.c, 1) && AgentOf(l.c, 1) == AgentOf(l0.c, 1).(read := AgentOf(l0.c, 1).read + [0])
    ensures l == l0.(c := l0.c.(agents := l.c.agents, down := l.c.down))
  {
    l := Onward(l0, Do(RunAgentTask(1, ReadUpstream([0]))));
    l := Onward(l, Do(RunAgentTask(1, SendUpstreamData)));
  }

  lemma ClientFrames(l0: Locked) returns (l: Locked)
    requires Reached(l0) && exists n, k :: Flowing(l0, n, k)
    ensures Reached(l) && l.c.upTaken + 1 == |l.c.up| && l.c.up[l.c.upTaken] == (1, StreamData([0]))
    ensures AgentOf(l.c, 1) == AgentOf(l0.c, 1) && DaemonOf(l.c, 1) == DaemonOf(l0.c, 1).(read := DaemonOf(l0.c, 1).read + [0])
    ensures l == l0.(c := l0.c.(daemons := l.c.daemons, up := l.c.up))
  {
    l := Onward(l0, Do(RunDaemonTask(1, ReadClient([0]))));
    l := Onward(l, Do(RunDaemonTask(1, SendClientData)));
  }

  lemma FillClientChannel(n: nat) returns (l: Locked)
    requires n <= 32
    ensures Reached(l) && Flowing(l, n, 0)
  {
    l := OneStreamOpens();
    for k := 0 to n
      invariant Reached(l) && Flowing(l, k, 0)
    {
      l := UpstreamFrames(l);
      l := Onward(l, Do(RunDaemonRead));
    }
  }

  lemma FillAgentChannel(n: nat) returns (l: Locked)
    requires n <= 32
    ensures Reached(l) && Flowing(l, 0, n)
  {
    l := OneStreamOpens();
    for k := 0 to n
      invariant Reached(l) && Flowing(l, 0, k)
    {
      l := ClientFrames(l);
      l := Onward(l, Do(RunAgentRead));
    }
  }

  /** A client that stops reading and then leaves can stop the daemon's read loop for ever. */
  lemma DaemonCanStick() returns (l: Locked)
    ensures Reached(l) && DaemonStuck(l)
  {
    l := FillClientChannel(32);
    l := UpstreamFrames(l);
    l := Onward(l, Do(RunDaemonTask(1, Break(ClientEof))));
    l := Onward(l, DaemonLoopWaits);
  }

  /** An upstream that stops reading and then ends can stop the agent's. */
  lemma AgentCanStick() returns (l: Locked)
    ensures Reached(l) && AgentStuck(l)
  {
    l := FillAgentChannel(32);
    l := ClientFrames(l);
    l := Onward(l, Do(RunAgentTask(1, Stop(UpstreamEof))));
    l := Onward(l, AgentLoopWaits);
  }
}
