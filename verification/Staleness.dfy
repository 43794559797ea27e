/**
 When the registry of the single-user hub shows the newest lists. Registry writes
 come after the lock that ordered the copies is released, so a run can end with an
 older copy on show; whether it does is a matter of the order of the writes.
 */
module Staleness {
  import opened Wrappers
  import opened Registry
  import opened Watchers
  import ListText
  import Text

  // ---------- the order of copies and writes ----------

  /** The copies by number: those taken and not yet written, how many were taken, and which was written last. */
  datatype Schedule = Schedule(pending: seq<nat>, taken: nat, last: nat)

  /** Seeding took and wrote copy 0. */
  const AFTER_SEEDING := Schedule([], 1, 0)

  function Noted(s: Schedule, act: Act): Schedule {
    match act
    case Receive(_, _) => s
    case Copy(_) => s.(pending := s.pending + [s.taken], taken := s.taken + 1)
    case Write(k) =>
      if k < |s.pending| then s.(pending := Without(s.pending, k), last := s.pending[k]) else s
  }

  function Planned(s: Schedule, acts: seq<Act>): Schedule
    decreases |acts|
  {
    if |acts| == 0 then s else Planned(Noted(s, acts[0]), acts[1..])
  }

  function LastTaken(acts: seq<Act>): int {
    Planned(AFTER_SEEDING, acts).taken - 1
  }

  function LastWritten(acts: seq<Act>): nat {
    Planned(AFTER_SEEDING, acts).last
  }

  /** The poller's copies are those the schedule numbers, and the registry shows the one written last. */
  ghost predicate Follows(p: Poller, s: Schedule) {
    && s.taken == |p.taken| && s.last < |p.taken| && p.registry == Merge(p.taken[s.last])
    && |s.pending| == |p.copies|
    && forall k :: 0 <= k < |s.pending| ==> s.pending[k] < |p.taken| && p.copies[k].1 == p.taken[s.pending[k]]
  }

  lemma StepFollows(p: Poller, s: Schedule, act: Act)
    requires Follows(p, s) && Enabled(p, act)
    ensures Follows(Step(p, act), Noted(s, act))
  {
  }

  lemma {:induction false} RunFollows(p: Poller, s: Schedule, acts: seq<Act>)
    requires Follows(p, s) && CanRun(p, acts)
    ensures Follows(Run(p, acts), Planned(s, acts))
    decreases |acts|
  {
    if |acts| > 0 {
      StepFollows(p, s, acts[0]);
      RunFollows(Step(p, acts[0]), Noted(s, acts[0]), acts[1..]);
    }
  }

  // ---------- the newest copy ----------

  /** Unless some watcher has still to copy, the newest copy is the current map. */
  ghost predicate NewestIsCurrent(p: Poller) {
    && Complete(p.order, p.bodies) && |p.taken| > 0
    && ((exists w :: 0 <= w < |p.pcs| && p.pcs[w] == Inserted) || p.taken[|p.taken| - 1] == InOrder(p.order, p.bodies))
  }

  /** A pending copy belongs to a watcher that waits for its write. */
  ghost predicate CopiesPending(p: Poller) {
    && (forall k :: 0 <= k < |p.copies| ==> p.copies[k].0 < |p.pcs| && p.pcs[p.copies[k].0] == Copied)
    && (forall j, k :: 0 <= j < k < |p.copies| ==> p.copies[j].0 != p.copies[k].0)
  }

  lemma StepKeepsNewest(p: Poller, act: Act)
    requires NewestIsCurrent(p) && CopiesPending(p) && Enabled(p, act)
    ensures NewestIsCurrent(Step(p, act))
  {
    var p' := Step(p, act);
    match act
    case Receive(w, body) => assert p'.pcs[w] == Inserted;
    case Copy(w) =>
    case Write(k) =>
      if v :| 0 <= v < |p.pcs| && p.pcs[v] == Inserted { assert p'.pcs[v] == Inserted; }
  }

  lemma WriteKeepsCopies(p: Poller, k: nat)
    requires CopiesPending(p) && Enabled(p, Write(k))
    ensures CopiesPending(Step(p, Write(k)))
  {
    var p' := Step(p, Write(k));
    var w := p.copies[k].0;
    assert p'.pcs == p.pcs[w := Idle];
    assert forall j :: 0 <= j < |p'.copies| ==> p'.copies[j].0 != w;
  }

  lemma StepKeepsCopies(p: Poller, act: Act)
    requires CopiesPending(p) && Enabled(p, act)
    ensures CopiesPending(Step(p, act))
  {
    if act.Write? { WriteKeepsCopies(p, act.k); }
  }

  lemma {:induction false} RunKeepsNewest(p: Poller, acts: seq<Act>)
    requires NewestIsCurrent(p) && CopiesPending(p) && CanRun(p, acts)
    ensures NewestIsCurrent(Run(p, acts)) && CopiesPending(Run(p, acts))
    decreases |acts|
  {
    if |acts| > 0 {
      StepKeepsNewest(p, acts[0]);
      StepKeepsCopies(p, acts[0]);
      RunKeepsNewest(Step(p, acts[0]), acts[1..]);
    }
  }

  // ---------- exactly when the registry is current ----------

  /** No watcher is between receiving a list and having it in the registry. */
  predicate Quiet(p: Poller) {
    forall w :: 0 <= w < |p.pcs| ==> p.pcs[w] == Idle
  }

  /** In every run the registry shows the copy written last, whatever else is under way. */
  lemma RegistryShowsLastWritten(p: Poller, acts: seq<Act>)
    requires Seeded(p) && CanRun(p, acts)
    ensures var q := Run(p, acts);
            && |q.taken| == LastTaken(acts) + 1 && LastWritten(acts) <= LastTaken(acts)
            && q.registry == Merge(q.taken[LastWritten(acts)])
  {
    RunFollows(p, AFTER_SEEDING, acts);
  }

  /** With nothing pending, the copy taken last is the current map, and the registry shows the copy written last. */
  lemma QuietShowsLastWritten(p: Poller, acts: seq<Act>)
    requires Seeded(p) && CanRun(p, acts) && Quiet(Run(p, acts))
    ensures var q := Run(p, acts);
            && Complete(q.order, q.bodies)
            && |q.taken| == LastTaken(acts) + 1 && LastWritten(acts) <= LastTaken(acts)
            && q.taken[LastTaken(acts)] == InOrder(q.order, q.bodies)
            && q.registry == Merge(q.taken[LastWritten(acts)])
  {
    RegistryShowsLastWritten(p, acts);
    RunKeepsNewest(p, acts);
  }

  /**
   When nothing is pending, the registry shows the current map if and only if the
   copy written last is the copy taken last, or one that merges to the same list.
   */
  lemma QuietRegistryExactly(p: Poller, acts: seq<Act>)
    requires Seeded(p) && CanRun(p, acts) && Quiet(Run(p, acts))
    ensures var q := Run(p, acts);
            && Complete(q.order, q.bodies)
            && |q.taken| == LastTaken(acts) + 1 && LastWritten(acts) <= LastTaken(acts)
            && (q.registry == Merge(InOrder(q.order, q.bodies)) <==>
                  || LastWritten(acts) == LastTaken(acts)
                  || Merge(q.taken[LastWritten(acts)]) == Merge(q.taken[LastTaken(acts)]))
  {
    QuietShowsLastWritten(p, acts);
  }

  /** Copies are written in the order they were taken. */
  predicate InCopyOrder(acts: seq<Act>) {
    forall i :: 0 <= i < |acts| && acts[i].Write? ==> acts[i].k == 0
  }

  /** The pending copies are all those after the one written last, in order. */
  ghost predicate InStep(s: Schedule) {
    s.last + |s.pending| + 1 == s.taken && forall k :: 0 <= k < |s.pending| ==> s.pending[k] == s.last + 1 + k
  }

  lemma {:induction false} InOrderStaysInStep(s: Schedule, acts: seq<Act>)
    requires InStep(s) && InCopyOrder(acts)
    ensures InStep(Planned(s, acts))
    decreases |acts|
  {
    if |acts| > 0 {
      assert acts[0].Write? ==> acts[0].k == 0;
      assert forall i :: 0 <= i < |acts[1..]| ==> acts[1..][i] == acts[i + 1];
      InOrderStaysInStep(Noted(s, acts[0]), acts[1..]);
    }
  }

  lemma CopyWaits(p: Poller)
    requires CopiesPending(p) && p.copies != []
    ensures !Quiet(p)
  {
    assert p.pcs[p.copies[0].0] == Copied;
  }

  /** Written in copy order, the registry shows the current map whenever nothing is pending. */
  lemma QuietRegistryIsCurrent(p: Poller, acts: seq<Act>)
    requires Seeded(p) && CanRun(p, acts) && InCopyOrder(acts) && Quiet(Run(p, acts))
    ensures LastWritten(acts) == LastTaken(acts)
    ensures var q := Run(p, acts); Complete(q.order, q.bodies) && q.registry == Merge(InOrder(q.order, q.bodies))
  {
    QuietRegistryExactly(p, acts);
    RunFollows(p, AFTER_SEEDING, acts);
    RunKeepsNewest(p, acts);
    InOrderStaysInStep(AFTER_SEEDING, acts);
    if Run(p, acts).copies != [] { CopyWaits(Run(p, acts)); }
  }

  // ---------- a run that leaves an old copy on show ----------

  lemma RunCons(p: Poller, acts: seq<Act>)
    requires |acts| > 0 && Enabled(p, acts[0]) && CanRun(Step(p, acts[0]), acts[1..])
    ensures CanRun(p, acts) && Run(p, acts) == Run(Step(p, acts[0]), acts[1..])
  {
  }

  lemma {:induction false} RunConcat(p: Poller, a: seq<Act>, b: seq<Act>)
    requires CanRun(p, a) && CanRun(Run(p, a), b)
    ensures CanRun(p, a + b) && Run(p, a + b) == Run(Run(p, a), b)
    decreases |a|
  {
    if |a| == 0 {
      assert a + b == b;
    } else {
      var p1, all := Step(p, a[0]), a + b;
      assert Run(p, a) == Run(p1, a[1..]);
      RunConcat(p1, a[1..], b);
      assert all[0] == a[0] && all[1..] == a[1..] + b;
      RunCons(p, all);
    }
  }

  /** A watcher receives a list and copies the map. */
  lemma OneCopy(p: Poller, w: nat, body: string)
    requires Enabled(p, Receive(w, body)) && Complete(p.order, p.bodies)
    ensures var acts := [Receive(w, body), Copy(w)]; var b := p.backends[w];
            var bodies := p.bodies[b.name := (b, body)];
            && CanRun(p, acts) && Complete(p.order, bodies)
            && Run(p, acts) == p.(bodies := bodies, history := p.history + [bodies], pcs := p.pcs[w := Copied],
                                  taken := p.taken + [InOrder(p.order, bodies)],
                                  copies := p.copies + [(w, InOrder(p.order, bodies))])
  {
    var acts := [Receive(w, body), Copy(w)];
    var p1 := Step(p, acts[0]);
    assert p1.pcs[w := Copied] == p.pcs[w := Copied];
    assert acts[1..] == [acts[1]] && [acts[1]][1..] == [];
    RunCons(p1, acts[1..]);
    RunCons(p, acts);
  }

  /** Two copies written the wrong way round. */
  lemma TwoWrites(p: Poller)
    requires |p.copies| == 2 && p.copies[0].0 == 0 && p.copies[1].0 == 1 && |p.pcs| == 2
    ensures var acts := [Write(1), Write(0)];
            && CanRun(p, acts)
            && Run(p, acts).pcs == [Idle, Idle] && Run(p, acts).registry == Merge(p.copies[0].1)
            && Run(p, acts).order == p.order && Run(p, acts).bodies == p.bodies
  {
    var acts := [Write(1), Write(0)];
    var p1 := Step(p, Write(1));
    assert p1.copies == [p.copies[0]];
    assert acts[1..] == [Write(0)] && [Write(0)][1..] == [];
    RunCons(p1, acts[1..]);
    RunCons(p, acts);
  }

  function SwappedWrites(x: string, y: string): seq<Act> {
    [Receive(0, x), Copy(0)] + ([Receive(1, y), Copy(1)] + [Write(1), Write(0)])
  }

  /** Both watchers have copied; the first copy misses the second list. */
  lemma BothCopied(p: Poller, x: string, y: string)
    requires Seeded(p) && |p.order| == 2 && p.backends == p.order
    ensures var first, second := [Receive(0, x), Copy(0)], [Receive(1, y), Copy(1)];
            && CanRun(p, first) && CanRun(Run(p, first), second)
            && var q := Run(Run(p, first), second);
            && q.order == p.order && |q.pcs| == 2 && Complete(q.order, q.bodies)
            && InOrder(q.order, q.bodies) == [(p.order[0], x), (p.order[1], y)]
            && |q.copies| == 2 && q.copies[0] == (0, [(p.order[0], x), p.bodies[p.order[1].name]]) && q.copies[1].0 == 1
  {
    var a, b := p.order[0], p.order[1];
    assert a.name != b.name;
    OneCopy(p, 0, x);
    var p1 := Run(p, [Receive(0, x), Copy(0)]);
    assert InOrder(p.order, p1.bodies) == [(a, x), p.bodies[b.name]];
    OneCopy(p1, 1, y);
    var q := Run(p1, [Receive(1, y), Copy(1)]);
    assert InOrder(q.order, q.bodies) == [(a, x), (b, y)];
  }

  lemma SwappedInParts(p: Poller, x: string, y: string)
    requires var first, second, last := [Receive(0, x), Copy(0)], [Receive(1, y), Copy(1)], [Write(1), Write(0)];
             CanRun(p, first) && CanRun(Run(p, first), second) && CanRun(Run(Run(p, first), second), last)
    ensures CanRun(p, SwappedWrites(x, y))
    ensures Run(p, SwappedWrites(x, y)) == Run(Run(Run(p, [Receive(0, x), Copy(0)]), [Receive(1, y), Copy(1)]), [Write(1), Write(0)])
  {
    var first, second, last := [Receive(0, x), Copy(0)], [Receive(1, y), Copy(1)], [Write(1), Write(0)];
    RunConcat(Run(p, first), second, last);
    RunConcat(p, first, second + last);
  }

  lemma SwappedParts(p: Poller, x: string, y: string)
    requires Seeded(p) && |p.order| == 2 && p.backends == p.order
    ensures var first, second, last := [Receive(0, x), Copy(0)], [Receive(1, y), Copy(1)], [Write(1), Write(0)];
            && CanRun(p, first) && CanRun(Run(p, first), second) && CanRun(Run(Run(p, first), second), last)
            && var q := Run(Run(Run(p, first), second), last);
            && Quiet(q) && q.order == p.order && Complete(q.order, q.bodies)
            && q.registry == Merge([(p.order[0], x), p.bodies[p.order[1].name]])
            && InOrder(q.order, q.bodies) == [(p.order[0], x), (p.order[1], y)]
  {
    BothCopied(p, x, y);
    TwoWrites(Run(Run(p, [Receive(0, x), Copy(0)]), [Receive(1, y), Copy(1)]));
  }

  /** What two watchers of two backends do when their writes swap. */
  lemma SwappedWritesRun(p: Poller, x: string, y: string)
    requires Seeded(p) && |p.order| == 2 && p.backends == p.order
    ensures CanRun(p, SwappedWrites(x, y))
    ensures var q := Run(p, SwappedWrites(x, y));
            && Quiet(q) && q.order == p.order && Complete(q.order, q.bodies)
            && q.registry == Merge([(p.order[0], x), p.bodies[p.order[1].name]])
            && InOrder(q.order, q.bodies) == [(p.order[0], x), (p.order[1], y)]
  {
    SwappedParts(p, x, y);
    SwappedInParts(p, x, y);
  }

  lemma RowsOfTwo(a: Backend, x: string, b: Backend, y: string)
    ensures |Rows([(a, x), (b, y)])| == |ParseBody(x)| + |ParseBody(y)|
  {
    var lists := [(a, x), (b, y)];
    assert lists[1..] == [(b, y)] && [(b, y)][1..] == [];
    assert Rows([(b, y)]) == RowsOf(b, ParseBody(y)) + [];
    RowsOfAt(a, ParseBody(x));
    RowsOfAt(b, ParseBody(y));
  }

  /** Whenever the second list has a new number of devices, the run ends with nothing pending and a registry that is not the merge of the current map. */
  lemma RegistryCanStayStale(p: Poller, x: string, y: string)
    requires Seeded(p) && |p.order| == 2 && p.backends == p.order
    requires |ParseBody(y)| != |ParseBody(p.bodies[p.order[1].name].1)|
    ensures CanRun(p, SwappedWrites(x, y))
    ensures var q := Run(p, SwappedWrites(x, y));
            Quiet(q) && Complete(q.order, q.bodies) && q.registry != Merge(InOrder(q.order, q.bodies))
  {
    SwappedWritesRun(p, x, y);
    var a, b := p.order[0], p.order[1];
    var z := p.bodies[b.name].1;
    assert p.bodies[b.name] == (b, z);
    RowsOfTwo(a, x, b, z);
    RowsOfTwo(a, x, b, y);
  }

  /** The poller of two backends that listed nothing when it was seeded. */
  function EmptyPoller(a: Backend, b: Backend): Poller
    requires a.name != b.name
  {
    var bodies: Bodies := map[a.name := (a, ""), b.name := (b, "")];
    var lists := InOrder([a, b], bodies);
    Poller([a, b], bodies, [Idle, Idle], [a, b], [], [lists], Merge(lists), [bodies], [])
  }

  lemma OneLine(serial: string)
    requires ListText.PlainName(serial)
    ensures |ParseBody(Format([ListText.Plain(serial)], true))| == 1
  {
    var snap := [ListText.Plain(serial)];
    assert ListText.FromParser("device", "") by { assert Text.AllWords([]) && Text.Join([], " ") == ""; }
    assert ListText.PlainNames(snap) && ListText.ParsedColumns(snap);
    ListText.PrintedListParses(snap, true);
  }

  lemma EmptyPollerSeeded(a: Backend, b: Backend)
    requires a.name != b.name
    ensures var p := EmptyPoller(a, b); Seeded(p) && p.order == [a, b] && p.backends == p.order && p.bodies[b.name] == (b, "")
  {
  }

  lemma StaleWithLine(a: Backend, b: Backend, line: string)
    requires a.name != b.name && |ParseBody(line)| == 1
    ensures var p := EmptyPoller(a, b);
            && Seeded(p) && CanRun(p, SwappedWrites(line, line))
            && var q := Run(p, SwappedWrites(line, line));
            && Quiet(q) && |q.registry| == 1 && Complete(q.order, q.bodies) && |Merge(InOrder(q.order, q.bodies))| == 2
  {
    EmptyPollerSeeded(a, b);
    assert ParseBody("") == [];
    SwappedWritesRun(EmptyPoller(a, b), line, line);
    RowsOfTwo(a, line, b, "");
    RowsOfTwo(a, line, b, line);
  }

  /** A concrete such run: two backends with nothing, then one device each, and the first device alone stays on show. */
  lemma StaleRunExists(a: Backend, b: Backend)
    requires a.name != b.name
    ensures var line := Format([ListText.Plain("x")], true); var p := EmptyPoller(a, b);
            && Seeded(p) && CanRun(p, SwappedWrites(line, line))
            && var q := Run(p, SwappedWrites(line, line));
            && Quiet(q) && |q.registry| == 1 && Complete(q.order, q.bodies) && |Merge(InOrder(q.order, q.bodies))| == 2
  {
    OneLine("x");
    StaleWithLine(a, b, Format([ListText.Plain("x")], true));
  }
}
