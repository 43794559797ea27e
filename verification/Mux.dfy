/**
 The control connection of one agent: many streams share one FIFO of frames in
 each direction. The daemon and the agent each run one read loop and one task per
 stream; any of them may take the next step.

 `up` and `down` record every frame written on the connection with the id it
 carries; the read loops have consumed the first `upTaken` and `downTaken`.
 Writing a frame is one step.
 */
module Mux {
  import opened Wrappers
  import opened Bytes
  import opened Streams
  import StreamProofs

  type Frame = (nat, Msg)

  /** Ids come from an AtomicU32; the model stops before the counter would wrap. */
  const ID_LIMIT: nat := 0x1_0000_0000

  datatype Conn = Conn(
    nextId: nat,
    daemons: map<nat, Daemon>,  // the daemon's tasks and map entries, by stream id
    agents: map<nat, Agent>,    // the same at the agent
    busy: Option<nat>,          // the open the agent's read loop is awaiting
    up: seq<Frame>, upTaken: nat,
    down: seq<Frame>, downTaken: nat)

  const INITIAL := Conn(1, map[], map[], None, [], 0, [], 0)

  function DaemonOf(c: Conn, id: nat): Daemon {
    if id in c.daemons then c.daemons[id] else NO_DAEMON
  }

  function AgentOf(c: Conn, id: nat): Agent {
    if id in c.agents then c.agents[id] else NO_AGENT
  }

  datatype Act = OpenStream(id: nat) | RunDaemonTask(id: nat, dact: DaemonAct) | RunDaemonRead | RunAgentTask(id: nat, aact: AgentAct) | RunAgentRead

  predicate Enabled(c: Conn, act: Act) {
    match act
    // ids are drawn from a counter that other connections share, so some are skipped
    case OpenStream(id) => c.nextId <= id < ID_LIMIT
    case RunDaemonTask(id, da) => !da.Register? && DaemonEnabled(DaemonOf(c, id), da)
    case RunDaemonRead =>
      && c.downTaken < |c.down|
      && var (id, m) := c.down[c.downTaken]; DaemonCanReceive(DaemonOf(c, id), m)
    case RunAgentTask(id, aa) => AgentEnabled(AgentOf(c, id), aa)
    case RunAgentRead =>
      && c.busy.None? && c.upTaken < |c.up|
      && var (id, m) := c.up[c.upTaken]; AgentChannelFree(AgentOf(c, id), m)
  }

  function Tagged(log: seq<Frame>, id: nat, emitted: Option<Msg>): seq<Frame> {
    if emitted.Some? then log + [(id, emitted.value)] else log
  }

  function Step(c: Conn, act: Act): Conn
    requires Enabled(c, act)
  {
    match act
    case OpenStream(id) =>
      c.(nextId := id + 1, daemons := c.daemons[id := DaemonStep(NO_DAEMON, Register).0])
    case RunDaemonTask(id, da) =>
      var (d, m) := DaemonStep(DaemonOf(c, id), da);
      c.(daemons := c.daemons[id := d], up := Tagged(c.up, id, m))
    case RunDaemonRead =>
      var (id, m) := c.down[c.downTaken];
      c.(daemons := c.daemons[id := DaemonReceive(DaemonOf(c, id), m)], downTaken := c.downTaken + 1)
    case RunAgentTask(id, aa) =>
      var (a, m) := AgentStep(AgentOf(c, id), aa);
      c.(agents := c.agents[id := a], down := Tagged(c.down, id, m),
         busy := if aa.OpenFails? || aa.OpenIsLost? || aa.InsertSender? then None else c.busy)
    case RunAgentRead =>
      var (id, m) := c.up[c.upTaken];
      c.(agents := c.agents[id := AgentReceive(AgentOf(c, id), m)], upTaken := c.upTaken + 1,
         busy := if m.Open? then Some(id) else None)
  }

  // ---------- runs ----------

  predicate CanRun(c: Conn, acts: seq<Act>)
    decreases |acts|
  {
    |acts| == 0 || (Enabled(c, acts[0]) && CanRun(Step(c, acts[0]), acts[1..]))
  }

  function Run(c: Conn, acts: seq<Act>): Conn
    requires CanRun(c, acts)
    decreases |acts|
  {
    if |acts| == 0 then c else Run(Step(c, acts[0]), acts[1..])
  }

  // ---------- one stream of the connection ----------

  /** The frames of one stream id, in the order written. */
  function Only(log: seq<Frame>, id: nat): seq<Msg> {
    if |log| == 0 then []
    else
      var (i, m) := log[|log| - 1];
      Only(log[..|log| - 1], id) + (if i == id then [m] else [])
  }

  function View(c: Conn, id: nat): Stream
    requires c.upTaken <= |c.up| && c.downTaken <= |c.down|
  {
    Stream(DaemonOf(c, id), AgentOf(c, id),
           Only(c.up, id), |Only(c.up[..c.upTaken], id)|,
           Only(c.down, id), |Only(c.down[..c.downTaken], id)|)
  }

  /** The step of stream `id` that a step of the connection is, if it concerns that stream. */
  function Seen(c: Conn, act: Act, id: nat): Option<StreamAct>
    requires Enabled(c, act)
  {
    match act
    case OpenStream(i) => if i == id then Some(DaemonTask(Register)) else None
    case RunDaemonTask(i, da) => if i == id then Some(DaemonTask(da)) else None
    case RunDaemonRead => if c.down[c.downTaken].0 == id then Some(DaemonRead) else None
    case RunAgentTask(i, aa) => if i == id then Some(AgentTask(aa)) else None
    case RunAgentRead => if c.up[c.upTaken].0 == id then Some(AgentRead) else None
  }

  ghost predicate Shared(c: Conn) {
    && c.upTaken <= |c.up| && c.downTaken <= |c.down|
    && (forall id :: id in c.daemons ==> id < c.nextId)
    && (forall id :: id in c.agents && c.agents[id].pc in {Opening, Inserting} ==> c.busy == Some(id))
  }

  ghost predicate AllStreams(c: Conn)
    requires Shared(c)
  {
    forall id: nat :: Inv(View(c, id))
  }

  ghost predicate ConnInv(c: Conn) {
    Shared(c) && AllStreams(c)
  }

  // ---------- projections of a log ----------

  lemma OnlyAppend(log: seq<Frame>, f: Frame, id: nat)
    ensures Only(log + [f], id) == Only(log, id) + (if f.0 == id then [f.1] else [])
  {
    assert (log + [f])[..|log|] == log;
  }

  /** What was taken of a log, seen by one stream, is a prefix of what was written for it. */
  lemma {:induction false} OnlyPrefix(log: seq<Frame>, k: nat, id: nat)
    requires k <= |log|
    ensures Only(log[..k], id) <= Only(log, id)
    decreases |log|
  {
    if k == |log| {
      assert log[..k] == log;
    } else {
      var front := log[..|log| - 1];
      OnlyPrefix(front, k, id);
      assert front[..k] == log[..k];
    }
  }

  lemma OnlyTake(log: seq<Frame>, k: nat, id: nat)
    requires k < |log|
    ensures log[k].0 != id ==> Only(log[..k + 1], id) == Only(log[..k], id)
    ensures log[k].0 == id ==>
              && |Only(log[..k + 1], id)| == |Only(log[..k], id)| + 1
              && |Only(log[..k], id)| < |Only(log, id)|
              && Only(log, id)[|Only(log[..k], id)|] == log[k].1
  {
    assert log[..k + 1] == log[..k] + [log[k]];
    OnlyAppend(log[..k], log[k], id);
    OnlyPrefix(log, k + 1, id);
  }

  // ---------- the connection refines its streams ----------

  lemma TaggedView(log: seq<Frame>, taken: nat, i: nat, m: Option<Msg>, id: nat)
    requires taken <= |log|
    ensures Tagged(log, i, m)[..taken] == log[..taken]
    ensures Only(Tagged(log, i, m), id) == if i == id then Written(Only(log, id), m) else Only(log, id)
  {
    if m.Some? { OnlyAppend(log, (i, m.value), id); }
  }

  /** No step of the connection breaks the facts its streams share. */
  lemma StepKeepsShared(c: Conn, act: Act)
    requires ConnInv(c) && Enabled(c, act)
    ensures Shared(Step(c, act))
  {
    var c' := Step(c, act);
    match act
    case OpenStream(id) =>
    case RunDaemonTask(id, da) =>
      assert id in c.daemons;
    case RunDaemonRead =>
      var (id, m) := c.down[c.downTaken];
      assert Inv(View(c, id));
      OnlyTake(c.down, c.downTaken, id);
      assert id in c.daemons;
    case RunAgentTask(id, aa) =>
    case RunAgentRead =>
  }

  lemma DaemonTaskRefines(c: Conn, i: nat, da: DaemonAct, id: nat)
    requires Shared(c) && Enabled(c, RunDaemonTask(i, da)) && Shared(Step(c, RunDaemonTask(i, da)))
    ensures i != id ==> View(Step(c, RunDaemonTask(i, da)), id) == View(c, id)
    ensures i == id ==> View(Step(c, RunDaemonTask(i, da)), id) == Streams.Step(View(c, id), DaemonTask(da))
  {
    TaggedView(c.up, c.upTaken, i, DaemonStep(DaemonOf(c, i), da).1, id);
  }

  lemma AgentTaskRefines(c: Conn, i: nat, aa: AgentAct, id: nat)
    requires Shared(c) && Enabled(c, RunAgentTask(i, aa)) && Shared(Step(c, RunAgentTask(i, aa)))
    ensures i != id ==> View(Step(c, RunAgentTask(i, aa)), id) == View(c, id)
    ensures i == id ==> View(Step(c, RunAgentTask(i, aa)), id) == Streams.Step(View(c, id), AgentTask(aa))
  {
    TaggedView(c.down, c.downTaken, i, AgentStep(AgentOf(c, i), aa).1, id);
  }

  lemma DaemonReadRefines(c: Conn, id: nat)
    requires Shared(c) && Enabled(c, RunDaemonRead) && Shared(Step(c, RunDaemonRead))
    ensures c.down[c.downTaken].0 != id ==> View(Step(c, RunDaemonRead), id) == View(c, id)
    ensures c.down[c.downTaken].0 == id ==>
              Streams.Enabled(View(c, id), DaemonRead) && View(Step(c, RunDaemonRead), id) == Streams.Step(View(c, id), DaemonRead)
  {
    OnlyTake(c.down, c.downTaken, id);
  }

  lemma AgentReadRefines(c: Conn, id: nat)
    requires Shared(c) && Enabled(c, RunAgentRead) && Shared(Step(c, RunAgentRead))
    ensures c.up[c.upTaken].0 != id ==> View(Step(c, RunAgentRead), id) == View(c, id)
    ensures c.up[c.upTaken].0 == id ==>
              Streams.Enabled(View(c, id), AgentRead) && View(Step(c, RunAgentRead), id) == Streams.Step(View(c, id), AgentRead)
  {
    OnlyTake(c.up, c.upTaken, id);
  }

  /** Each stream either does not notice a step of the connection or takes one of its own. */
  lemma StepRefinesStream(c: Conn, act: Act, id: nat)
    requires Shared(c) && Enabled(c, act) && Shared(Step(c, act))
    ensures Seen(c, act, id).None? ==> View(Step(c, act), id) == View(c, id)
    ensures Seen(c, act, id).Some? ==>
              && Streams.Enabled(View(c, id), Seen(c, act, id).value)
              && View(Step(c, act), id) == Streams.Step(View(c, id), Seen(c, act, id).value)
  {
    match act
    case OpenStream(i) =>
    case RunDaemonTask(i, da) => DaemonTaskRefines(c, i, da, id);
    case RunDaemonRead => DaemonReadRefines(c, id);
    case RunAgentTask(i, aa) => AgentTaskRefines(c, i, aa, id);
    case RunAgentRead => AgentReadRefines(c, id);
  }

  lemma StepKeepsConnInv(c: Conn, act: Act)
    requires ConnInv(c) && Enabled(c, act)
    ensures ConnInv(Step(c, act))
  {
    StepKeepsShared(c, act);
    forall id: nat
      ensures Inv(View(Step(c, act), id))
    {
      assert Inv(View(c, id));
      StepRefinesStream(c, act, id);
      if Seen(c, act, id).Some? {
        StreamProofs.StepKeepsInv(View(c, id), Seen(c, act, id).value);
      }
    }
  }

  lemma {:induction false} RunKeepsConnInv(c: Conn, acts: seq<Act>)
    requires ConnInv(c) && CanRun(c, acts)
    ensures ConnInv(Run(c, acts))
    decreases |acts|
  {
    if |acts| > 0 {
      StepKeepsConnInv(c, acts[0]);
      RunKeepsConnInv(Step(c, acts[0]), acts[1..]);
    }
  }

  lemma Reachable(acts: seq<Act>)
    requires CanRun(INITIAL, acts)
    ensures ConnInv(Run(INITIAL, acts))
  {
    forall id: nat
      ensures Inv(View(INITIAL, id))
    {
      assert View(INITIAL, id) == NO_STREAM;
    }
    RunKeepsConnInv(INITIAL, acts);
  }

  // ---------- what holds in every run ----------

  /** Bytes reach each client and each upstream in order, with nothing lost in between and nothing of another stream. */
  lemma StreamsKeepBytes(acts: seq<Act>, id: nat)
    requires CanRun(INITIAL, acts)
    ensures var c := Run(INITIAL, acts);
            && DaemonOf(c, id).written <= AgentOf(c, id).read
            && AgentOf(c, id).written <= DaemonOf(c, id).read
  {
    Reachable(acts);
    StreamProofs.ByteIntegrity(View(Run(INITIAL, acts), id));
  }

  /** A stream that upstream ended, and that the daemon ended because the agent closed it, gave the client everything. */
  lemma UpstreamEndDeliversAll(acts: seq<Act>, id: nat)
    requires CanRun(INITIAL, acts)
    ensures var c := Run(INITIAL, acts);
            DaemonOf(c, id).end == AgentClosed && AgentOf(c, id).end == UpstreamEof ==>
              DaemonOf(c, id).written == AgentOf(c, id).read
  {
    Reachable(acts);
    var s := View(Run(INITIAL, acts), id);
    if s.d.end == AgentClosed && s.a.end == UpstreamEof { StreamProofs.UpstreamCloseIsComplete(s); }
  }

  /** The frames written for each stream follow the protocol, and its waiter is resolved at most once, by the agent's result. */
  lemma FramesFollowProtocol(acts: seq<Act>, id: nat)
    requires CanRun(INITIAL, acts)
    ensures var c := Run(INITIAL, acts);
            && DaemonGrammar(Only(c.up, id)) && AgentGrammar(Only(c.down, id))
            && (|Only(c.up, id)| > 1 ==> Only(c.down, id) != [] && Only(c.down, id)[0] == OpenResult(true))
            && DaemonOf(c, id).resolutions <= 1
            && (DaemonOf(c, id).outcome.Some? ==>
                  Only(c.down, id) != [] && Only(c.down, id)[0] == OpenResult(DaemonOf(c, id).outcome.value))
  {
    Reachable(acts);
    var s := View(Run(INITIAL, acts), id);
    assert Inv(s);
  }

  /** A stream whose open was refused, lost or timed out moved no byte. */
  lemma FailedOpensAreSilent(acts: seq<Act>, id: nat)
    requires CanRun(INITIAL, acts)
    ensures var c := Run(INITIAL, acts);
            DaemonOf(c, id).outcome != Some(true) ==>
              && DaemonOf(c, id).read == [] && DaemonOf(c, id).written == [] && AgentOf(c, id).written == []
              && Only(c.up, id) in {[], [Open]}
  {
    Reachable(acts);
    var s := View(Run(INITIAL, acts), id);
    if s.d.outcome != Some(true) { StreamProofs.FailedOpenCarriesNothing(s); }
  }
}
