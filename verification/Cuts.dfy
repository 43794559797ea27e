/**
 Frames cut short. The agent's copy task writes a data frame inside one arm of a
 select; when the other arm finishes first, the write is dropped with only part of
 the frame on the shared connection. Here frames are written in parts, and every run
 of the multiplexer may cut the frame in hand whenever a copy task stops.
 */
module Cuts {
  import opened Wrappers
  import opened Bytes
  import opened Streams
  import opened Mux
  import opened Wire
  import Ipc
  import ByteStreams

  /** The first `n` bytes of a frame. */
  datatype Part = Part(frame: Frame, n: nat)

  ghost function Encoded(json: Ipc.Json, d: Details, f: Frame): Data
    requires f.0 < ID_LIMIT
  {
    Ipc.Encode(json, ToMessage(d, f))
  }

  ghost predicate IsPart(json: Ipc.Json, d: Details, p: Part) {
    Small([p.frame]) && p.frame.0 < ID_LIMIT && 0 < p.n <= |Encoded(json, d, p.frame)|
  }

  ghost predicate AreParts(json: Ipc.Json, d: Details, parts: seq<Part>) {
    forall k :: 0 <= k < |parts| ==> IsPart(json, d, parts[k])
  }

  ghost predicate IsWhole(json: Ipc.Json, d: Details, p: Part) {
    IsPart(json, d, p) && p.n == |Encoded(json, d, p.frame)|
  }

  ghost predicate AllWhole(json: Ipc.Json, d: Details, parts: seq<Part>) {
    forall k :: 0 <= k < |parts| ==> IsWhole(json, d, parts[k])
  }

  ghost function PartBytes(json: Ipc.Json, d: Details, parts: seq<Part>): Data
    requires AreParts(json, d, parts)
  {
    if |parts| == 0 then []
    else Encoded(json, d, parts[0].frame)[..parts[0].n] + PartBytes(json, d, parts[1..])
  }

  /** Reading at the start of part `k` gives its frame and leaves the bytes of the later parts. */
  ghost predicate InStepAt(json: Ipc.Json, d: Details, parts: seq<Part>, k: nat)
    requires AreParts(json, d, parts) && k < |parts|
  {
    var (first, rest) := Ipc.Decode(json, PartBytes(json, d, parts[k..]));
    first == Ok(ToMessage(d, parts[k].frame)) && rest == PartBytes(json, d, parts[k + 1..])
  }

  ghost predicate ReadsInStep(json: Ipc.Json, d: Details, parts: seq<Part>)
    requires AreParts(json, d, parts)
  {
    forall k: nat :: k < |parts| ==> InStepAt(json, d, parts, k)
  }

  // ---------- reading parts ----------

  lemma FrameFits(json: Ipc.Json, d: Details, f: Frame)
    requires ControlFits(json, d) && Small([f])
    ensures f.0 < ID_LIMIT && Ipc.WellTyped(ToMessage(d, f)) && |Ipc.Frame(json, ToMessage(d, f))| <= Ipc.MAX_FRAME
  {
    assert [f][0] == f;
    MessagesFit(json, d, [f]);
    assert Messages(d, [f])[0] == ToMessage(d, f);
  }

  /** A read that succeeds takes four bytes and as many as they say. */
  lemma DecodeTakes(json: Ipc.Json, input: Data)
    ensures var (first, rest) := Ipc.Decode(json, input);
            first.Ok? ==>
              && |input| >= 4 && Ipc.FromBigEndian(input[..4]) > 0
              && |input| == 4 + Ipc.FromBigEndian(input[..4]) + |rest|
  {
  }

  /** A cut frame is never read as itself with the rest in step: the reader takes the full length. */
  lemma CutBreaksStep(json: Ipc.Json, d: Details, f: Frame, n: nat, after: Data)
    requires ControlFits(json, d) && Small([f]) && f.0 < ID_LIMIT && 0 < n < |Encoded(json, d, f)|
    ensures var (first, rest) := Ipc.Decode(json, Encoded(json, d, f)[..n] + after);
            !(first.Ok? && rest == after)
  {
    FrameFits(json, d, f);
    var whole := Encoded(json, d, f);
    var input := whole[..n] + after;
    DecodeTakes(json, input);
    if n >= 4 {
      Ipc.HeaderFirst(json, ToMessage(d, f), []);
      assert whole + [] == whole;
      assert input[..4] == whole[..4];
    }
  }

  lemma WholeKeepsStep(json: Ipc.Json, d: Details, f: Frame, after: Data)
    requires Ipc.Faithful(json) && ControlFits(json, d) && Small([f]) && f.0 < ID_LIMIT
    ensures Ipc.Decode(json, Encoded(json, d, f) + after) == (Ok(ToMessage(d, f)), after)
  {
    FrameFits(json, d, f);
    Ipc.ReadsBackExactly(json, ToMessage(d, f), after);
  }

  lemma InStepExactly(json: Ipc.Json, d: Details, parts: seq<Part>, k: nat)
    requires Ipc.Faithful(json) && ControlFits(json, d) && AreParts(json, d, parts) && k < |parts|
    ensures InStepAt(json, d, parts, k) <==> IsWhole(json, d, parts[k])
  {
    var p, after := parts[k], PartBytes(json, d, parts[k + 1..]);
    assert parts[k..][0] == p && parts[k..][1..] == parts[k + 1..];
    assert PartBytes(json, d, parts[k..]) == Encoded(json, d, p.frame)[..p.n] + after;
    if p.n < |Encoded(json, d, p.frame)| {
      CutBreaksStep(json, d, p.frame, p.n, after);
    } else {
      assert Encoded(json, d, p.frame)[..p.n] == Encoded(json, d, p.frame);
      WholeKeepsStep(json, d, p.frame, after);
    }
  }

  /** What a cut does to the stream: once its id is out, its frame is filled up with whatever bytes follow on the connection. */
  lemma CutFrameMixesStreams(json: Ipc.Json, id: Ipc.U32, data: Data, n: nat, after: Data)
    requires |data| <= READ_BUFFER && 9 <= n <= 9 + |data| <= n + |after|
    ensures var cut := Ipc.Encode(json, Ipc.DataMessage(id, data))[..n]; var missing := 9 + |data| - n;
            Ipc.Decode(json, cut + after) == (Ok(Ipc.DataMessage(id, data[..n - 9] + after[..missing])), after[missing..])
  {
    var missing := 9 + |data| - n;
    var mixed := data[..n - 9] + after[..missing];
    var len, head := 5 + |data|, [Ipc.TypeByte(Ipc.StreamData)] + Ipc.BigEndian(id);
    DataFrameFits(json, id, data);
    assert Ipc.Frame(json, Ipc.DataMessage(id, data)) == head + data;
    var cut := Ipc.Encode(json, Ipc.DataMessage(id, data))[..n];
    assert cut == Ipc.BigEndian(len) + (head + data[..n - 9]);
    assert cut + after == (Ipc.BigEndian(len) + (head + mixed)) + after[missing..] by {
      assert after == after[..missing] + after[missing..];
    }
    MixedReads(json, id, mixed, after[missing..]);
  }

  lemma MixedReads(json: Ipc.Json, id: Ipc.U32, data: Data, rest: Data)
    requires |data| <= READ_BUFFER
    ensures var body := [Ipc.TypeByte(Ipc.StreamData)] + Ipc.BigEndian(id) + data;
            Ipc.Decode(json, (Ipc.BigEndian(5 + |data|) + body) + rest) == (Ok(Ipc.DataMessage(id, data)), rest)
  {
    var m := Ipc.DataMessage(id, data);
    DataFrameFits(json, id, data);
    Ipc.HeaderFirst(json, m, rest);
    Ipc.MessageOfData(json, id, data);
    var frame := Ipc.Frame(json, m);
    assert frame == [Ipc.TypeByte(Ipc.StreamData)] + Ipc.BigEndian(id) + data;
    assert (frame + rest)[..|frame|] == frame && (frame + rest)[|frame|..] == rest;
  }

  // ---------- the parts of a run ----------

  /** The step stops a copy task that is in the middle of writing this chunk. */
  predicate StopsInside(c: Conn, act: Act) {
    act.RunAgentTask? && act.aact.Stop? && AgentOf(c, act.id).unsent != []
  }

  /** What the agent puts on the connection in one step; a stop leaves the first `cut` bytes of the frame in hand. */
  ghost function Puts(json: Ipc.Json, d: Details, c: Conn, act: Act, cut: nat): seq<Part>
    requires Mux.Enabled(c, act) && (act.RunAgentTask? ==> act.id < ID_LIMIT)
  {
    if !act.RunAgentTask? then []
    else
      var m := AgentStep(AgentOf(c, act.id), act.aact).1;
      if m.Some? then [Part((act.id, m.value), |Encoded(json, d, (act.id, m.value))|)]
      else if StopsInside(c, act) && cut > 0 then [Part((act.id, StreamData(AgentOf(c, act.id).unsent)), cut)]
      else []
  }

  /** The cut is short of the whole frame. */
  ghost predicate IsCut(json: Ipc.Json, d: Details, c: Conn, act: Act, cut: nat) {
    StopsInside(c, act) && act.id < ID_LIMIT ==> cut < |Encoded(json, d, (act.id, StreamData(AgentOf(c, act.id).unsent)))|
  }

  /** In every state of the run. */
  ghost predicate AreCuts(json: Ipc.Json, d: Details, c: Conn, acts: seq<Act>, cuts: seq<nat>)
    requires CanRun(c, acts) && |cuts| == |acts|
    decreases |acts|
  {
    |acts| > 0 ==> IsCut(json, d, c, acts[0], cuts[0]) && AreCuts(json, d, Mux.Step(c, acts[0]), acts[1..], cuts[1..])
  }

  /** No stop of the run leaves a byte of a frame behind. */
  predicate NoFrameCut(c: Conn, acts: seq<Act>, cuts: seq<nat>)
    requires CanRun(c, acts) && |cuts| == |acts|
    decreases |acts|
  {
    |acts| > 0 ==> (StopsInside(c, acts[0]) ==> cuts[0] == 0) && NoFrameCut(Mux.Step(c, acts[0]), acts[1..], cuts[1..])
  }

  /** Whoever acts for the agent has an id that was drawn. */
  lemma AgentHasId(c: Conn, act: Act)
    requires ConnInv(c) && c.nextId <= ID_LIMIT && Mux.Enabled(c, act) && act.RunAgentTask?
    ensures act.id < ID_LIMIT
    ensures |AgentOf(c, act.id).unsent| <= READ_BUFFER
  {
    assert Inv(View(c, act.id));
    OnlyPrefix(c.up, c.upTaken, act.id);
    assert DaemonOf(c, act.id).pc != Absent;
  }

  ghost predicate Running(c: Conn) {
    ConnInv(c) && c.nextId <= ID_LIMIT
  }

  lemma StepKeepsRunning(c: Conn, act: Act)
    requires Running(c) && Mux.Enabled(c, act)
    ensures Running(Mux.Step(c, act))
  {
    StepKeepsConnInv(c, act);
  }

  /** The parts on the agent's side of the connection after a run. */
  ghost function DownParts(json: Ipc.Json, d: Details, c: Conn, acts: seq<Act>, cuts: seq<nat>): seq<Part>
    requires Running(c) && CanRun(c, acts) && |cuts| == |acts|
    decreases |acts|
  {
    if |acts| == 0 then []
    else
      assert acts[0].RunAgentTask? ==> acts[0].id < ID_LIMIT by { if acts[0].RunAgentTask? { AgentHasId(c, acts[0]); } }
      StepKeepsRunning(c, acts[0]);
      Puts(json, d, c, acts[0], cuts[0]) + DownParts(json, d, Mux.Step(c, acts[0]), acts[1..], cuts[1..])
  }

  lemma PutsParts(json: Ipc.Json, d: Details, c: Conn, act: Act, cut: nat)
    requires Running(c) && Mux.Enabled(c, act) && act.RunAgentTask? && act.id < ID_LIMIT
    requires IsCut(json, d, c, act, cut)
    ensures var parts := Puts(json, d, c, act, cut);
            && AreParts(json, d, parts)
            && (AllWhole(json, d, parts) <==> (StopsInside(c, act) ==> cut == 0))
  {
    AgentHasId(c, act);
    var a := AgentOf(c, act.id);
    var m := AgentStep(a, act.aact).1;
    assert m.Some? && m.value.StreamData? ==> |m.value.data| <= READ_BUFFER;
    assert StopsInside(c, act) ==> m.None?;
    if m.Some? {
      assert |Encoded(json, d, (act.id, m.value))| >= 4;
    } else if StopsInside(c, act) && cut > 0 {
      assert !IsWhole(json, d, Puts(json, d, c, act, cut)[0]);
    }
  }

  lemma PartsConcat(json: Ipc.Json, d: Details, x: seq<Part>, y: seq<Part>)
    ensures AreParts(json, d, x + y) <==> AreParts(json, d, x) && AreParts(json, d, y)
    ensures AllWhole(json, d, x + y) <==> AllWhole(json, d, x) && AllWhole(json, d, y)
  {
    assert forall k :: 0 <= k < |y| ==> (x + y)[|x| + k] == y[k];
    assert forall k :: 0 <= k < |x| ==> (x + y)[k] == x[k];
  }

  lemma {:induction false} RunParts(json: Ipc.Json, d: Details, c: Conn, acts: seq<Act>, cuts: seq<nat>)
    requires Running(c) && CanRun(c, acts) && |cuts| == |acts| && AreCuts(json, d, c, acts, cuts)
    ensures AreParts(json, d, DownParts(json, d, c, acts, cuts))
    ensures AllWhole(json, d, DownParts(json, d, c, acts, cuts)) <==> NoFrameCut(c, acts, cuts)
    decreases |acts|
  {
    if |acts| > 0 {
      var act := acts[0];
      StepKeepsRunning(c, act);
      RunParts(json, d, Mux.Step(c, act), acts[1..], cuts[1..]);
      if act.RunAgentTask? {
        AgentHasId(c, act);
        PutsParts(json, d, c, act, cuts[0]);
        PartsConcat(json, d, Puts(json, d, c, act, cuts[0]), DownParts(json, d, Mux.Step(c, act), acts[1..], cuts[1..]));
      } else {
        PartsConcat(json, d, [], DownParts(json, d, Mux.Step(c, act), acts[1..], cuts[1..]));
      }
    }
  }

  /**
   In every run, whatever part of the frame in hand each stop leaves behind, the
   bytes from the agent are read in step with its frames if and only if no stop
   leaves any.
   */
  lemma DownReadsInStepExactly(json: Ipc.Json, d: Details, acts: seq<Act>, cuts: seq<nat>)
    requires Ipc.Faithful(json) && ControlFits(json, d)
    requires CanRun(INITIAL, acts) && |cuts| == |acts| && AreCuts(json, d, INITIAL, acts, cuts)
    ensures Running(INITIAL)
    ensures var parts := DownParts(json, d, INITIAL, acts, cuts);
            AreParts(json, d, parts) && (ReadsInStep(json, d, parts) <==> NoFrameCut(INITIAL, acts, cuts))
  {
    Reachable([]);
    RunParts(json, d, INITIAL, acts, cuts);
    var parts := DownParts(json, d, INITIAL, acts, cuts);
    forall k: nat | k < |parts|
      ensures InStepAt(json, d, parts, k) <==> IsWhole(json, d, parts[k])
    {
      InStepExactly(json, d, parts, k);
    }
  }

  ghost function FramesWhere(test: Part -> bool, parts: seq<Part>): seq<Frame> {
    if |parts| == 0 then []
    else (if test(parts[0]) then [parts[0].frame] else []) + FramesWhere(test, parts[1..])
  }

  lemma {:induction false} FramesWhereConcat(test: Part -> bool, x: seq<Part>, y: seq<Part>)
    ensures FramesWhere(test, x + y) == FramesWhere(test, x) + FramesWhere(test, y)
  {
    if |x| == 0 {
      assert x + y == y;
    } else {
      FramesWhereConcat(test, x[1..], y);
      assert (x + y)[0] == x[0] && (x + y)[1..] == x[1..] + y;
      var head: seq<Frame> := if test(x[0]) then [x[0].frame] else [];
      assert head + (FramesWhere(test, x[1..]) + FramesWhere(test, y)) == (head + FramesWhere(test, x[1..])) + FramesWhere(test, y);
    }
  }

  lemma OneFrameWhere(test: Part -> bool, p: Part)
    ensures FramesWhere(test, [p]) == if test(p) then [p.frame] else []
  {
    assert [p][1..] == [];
    assert FramesWhere(test, [p]) == (if test(p) then [p.frame] else []) + FramesWhere(test, []);
  }

  /** The frames of whole parts. */
  ghost function WholeFrames(json: Ipc.Json, d: Details, parts: seq<Part>): seq<Frame> {
    FramesWhere(p => IsWhole(json, d, p), parts)
  }

  lemma OneWholeFrame(json: Ipc.Json, d: Details, p: Part)
    ensures WholeFrames(json, d, [p]) == if IsWhole(json, d, p) then [p.frame] else []
  {
    OneFrameWhere(q => IsWhole(json, d, q), p);
  }

  lemma PutsWhatStepEmits(json: Ipc.Json, d: Details, c: Conn, act: Act, cut: nat)
    requires Running(c) && Mux.Enabled(c, act) && act.RunAgentTask? && act.id < ID_LIMIT && IsCut(json, d, c, act, cut)
    ensures Mux.Step(c, act).down == c.down + WholeFrames(json, d, Puts(json, d, c, act, cut))
  {
    PutsParts(json, d, c, act, cut);
    var parts := Puts(json, d, c, act, cut);
    if |parts| > 0 {
      assert parts == [parts[0]];
      OneWholeFrame(json, d, parts[0]);
      assert IsWhole(json, d, parts[0]) <==> AllWhole(json, d, parts);
    }
    assert c.down + [] == c.down;
  }

  lemma OneStepMore(json: Ipc.Json, d: Details, before: seq<Frame>, middle: seq<Frame>, now: seq<Part>, later: seq<Part>, end: seq<Frame>)
    requires middle == before + WholeFrames(json, d, now) && end == middle + WholeFrames(json, d, later)
    ensures end == before + WholeFrames(json, d, now + later)
  {
    FramesWhereConcat(p => IsWhole(json, d, p), now, later);
  }

  /** The whole parts of a run are the frames of the multiplexer's FIFO. */
  lemma {:induction false} WholePartsAreFrames(json: Ipc.Json, d: Details, c: Conn, acts: seq<Act>, cuts: seq<nat>)
    requires Running(c) && CanRun(c, acts) && |cuts| == |acts| && AreCuts(json, d, c, acts, cuts)
    ensures Run(c, acts).down == c.down + WholeFrames(json, d, DownParts(json, d, c, acts, cuts))
    decreases |acts|
  {
    if |acts| == 0 {
      assert c.down + [] == c.down;
    } else {
      var act, c1 := acts[0], Mux.Step(c, acts[0]);
      StepKeepsRunning(c, act);
      WholePartsAreFrames(json, d, c1, acts[1..], cuts[1..]);
      if act.RunAgentTask? {
        AgentHasId(c, act);
        PutsWhatStepEmits(json, d, c, act, cuts[0]);
      } else {
        assert c.down + [] == c1.down;
      }
      OneStepMore(json, d, c.down, c1.down, Puts(json, d, c, act, cuts[0]),
                  DownParts(json, d, c1, acts[1..], cuts[1..]), Run(c1, acts[1..]).down);
    }
  }

  // ---------- cuts happen ----------

  /** A stop leaves any part of the frame the task is writing, and nothing if it is writing none. */
  lemma StopLeaves(json: Ipc.Json, d: Details, c: Conn, id: nat, why: AgentEnd, n: nat)
    requires id < ID_LIMIT && Mux.Enabled(c, RunAgentTask(id, Stop(why))) && n > 0
    ensures Puts(json, d, c, RunAgentTask(id, Stop(why)), n)
         == if AgentOf(c, id).unsent == [] then [] else [Part((id, StreamData(AgentOf(c, id).unsent)), n)]
  {
  }

  ghost predicate CutAfter(json: Ipc.Json, d: Details, c: Conn, acts: seq<Act>, cuts: seq<nat>) {
    CanRun(c, acts) && |cuts| == |acts| && AreCuts(json, d, c, acts, cuts) && !NoFrameCut(c, acts, cuts)
  }

  lemma Before(json: Ipc.Json, d: Details, c: Conn, act: Act, acts: seq<Act>, cuts: seq<nat>)
    requires Mux.Enabled(c, act) && !(act.RunAgentTask? && act.aact.Stop?)
    requires CutAfter(json, d, Mux.Step(c, act), acts, cuts)
    ensures CutAfter(json, d, c, [act] + acts, [0] + cuts)
  {
    assert ([act] + acts)[1..] == acts && ([0] + cuts)[1..] == cuts;
  }

  /** A stop while the task is writing the chunk `[0]`. */
  lemma CutNow(json: Ipc.Json, d: Details, c: Conn, n: nat)
    requires AgentOf(c, 1).pc == AgentPc.Running && AgentOf(c, 1).unsent == [0]
    requires 0 < n < |Encoded(json, d, (1, StreamData([0])))|
    ensures CutAfter(json, d, c, [RunAgentTask(1, Stop(UpstreamFailed))], [n])
  {
    var act := RunAgentTask(1, Stop(UpstreamFailed));
    assert [act][1..] == [] && [n][1..] == [];
    assert CanRun(Mux.Step(c, act), []);
  }

  /** From the connection on which stream 1 is being opened. */
  lemma CutWhileCopying(json: Ipc.Json, d: Details, c: Conn, n: nat) returns (acts: seq<Act>, cuts: seq<nat>)
    requires AgentOf(c, 1) == NO_AGENT.(pc := Opening)
    requires 0 < n < |Encoded(json, d, (1, StreamData([0])))|
    ensures CutAfter(json, d, c, acts, cuts)
  {
    var a1, a2, a3 := RunAgentTask(1, OpenSucceeds), RunAgentTask(1, InsertSender), RunAgentTask(1, ReadUpstream([0]));
    var c1 := Mux.Step(c, a1);
    var c2 := Mux.Step(c1, a2);
    var c3 := Mux.Step(c2, a3);
    acts, cuts := [RunAgentTask(1, Stop(UpstreamFailed))], [n];
    CutNow(json, d, c3, n);
    Before(json, d, c2, a3, acts, cuts);
    acts, cuts := [a3] + acts, [0] + cuts;
    Before(json, d, c1, a2, acts, cuts);
    acts, cuts := [a2] + acts, [0] + cuts;
    Before(json, d, c, a1, acts, cuts);
    acts, cuts := [a1] + acts, [0] + cuts;
  }

  /** A run from the empty connection after which the agent's bytes are not read in step, for every length of the part left behind. */
  lemma CutsOccur(json: Ipc.Json, d: Details, n: nat) returns (acts: seq<Act>, cuts: seq<nat>)
    requires 0 < n < |Encoded(json, d, (1, StreamData([0])))|
    ensures CutAfter(json, d, INITIAL, acts, cuts)
  {
    var a1, a2 := OpenStream(1), RunDaemonTask(1, SendOpen);
    var c1 := Mux.Step(INITIAL, a1);
    var c2 := Mux.Step(c1, a2);
    assert c2.up == [(1, Open)];
    acts, cuts := CutWhileCopying(json, d, Mux.Step(c2, RunAgentRead), n);
    Before(json, d, c2, RunAgentRead, acts, cuts);
    acts, cuts := [RunAgentRead] + acts, [0] + cuts;
    Before(json, d, c1, a2, acts, cuts);
    acts, cuts := [a2] + acts, [0] + cuts;
    Before(json, d, INITIAL, a1, acts, cuts);
    acts, cuts := [a1] + acts, [0] + cuts;
  }
}
