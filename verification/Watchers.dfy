/**
 The backend poller of the single-user hub: one watcher per backend inserts its
 latest list into a shared map, copies the whole map under the lock and writes the
 registry after releasing it. The copy and the write of different watchers may
 interleave.
 */
module Watchers {
  import opened Wrappers
  import opened Registry

  type Bodies = map<string, (Backend, string)>

  /** The lists of the configured backends, in configured order. */
  function InOrder(order: seq<Backend>, bodies: Bodies): seq<(Backend, string)>
    requires forall i :: 0 <= i < |order| ==> order[i].name in bodies
  {
    seq(|order|, i requires 0 <= i < |order| => bodies[order[i].name])
  }

  ghost predicate DistinctOrder(order: seq<Backend>) {
    forall i, j :: 0 <= i < j < |order| ==> order[i].name != order[j].name
  }

  /** Each backend of the map is the configured one of its name. */
  ghost predicate Configured(order: seq<Backend>, bodies: Bodies) {
    forall i :: 0 <= i < |order| ==> order[i].name in bodies && bodies[order[i].name].0 == order[i]
  }

  /** The same lists with a new one for `b`. */
  function WithBody(lists: seq<(Backend, string)>, b: Backend, body: string): seq<(Backend, string)> {
    seq(|lists|, i requires 0 <= i < |lists| => if lists[i].0 == b then (b, body) else lists[i])
  }

  lemma InsertChangesOneList(order: seq<Backend>, bodies: Bodies, b: Backend, body: string)
    requires DistinctOrder(order) && b in order && Configured(order, bodies)
    ensures var after := bodies[b.name := (b, body)];
            Configured(order, after) && InOrder(order, after) == WithBody(InOrder(order, bodies), b, body)
  {
    var k :| 0 <= k < |order| && order[k] == b;
    assert forall i :: 0 <= i < |order| && i != k ==> order[i].name != b.name;
  }

  predicate Complete(order: seq<Backend>, bodies: Bodies) {
    forall i :: 0 <= i < |order| ==> order[i].name in bodies
  }

  /** The shared map of the poller. */
  class SharedBodies {
    var bodies: Bodies

    constructor ()
      ensures bodies == map[]
    {
      bodies := map[];
    }

    /** Seeding, under one lock: every configured backend gets the list fetched for it, or an empty one. */
    method Seed(order: seq<Backend>, fetched: map<string, string>)
      modifies this
      ensures Complete(order, bodies)
      ensures forall i :: 0 <= i < |order| && (forall j :: i < j < |order| ==> order[j].name != order[i].name) ==>
                bodies[order[i].name] == (order[i], if order[i].name in fetched then fetched[order[i].name] else "")
    {
      for k := 0 to |order|
        invariant forall i :: 0 <= i < k ==> order[i].name in bodies
        invariant forall i :: 0 <= i < k && (forall j :: i < j < k ==> order[j].name != order[i].name) ==>
                    bodies[order[i].name] == (order[i], if order[i].name in fetched then fetched[order[i].name] else "")
      {
        var b := order[k];
        var body := "";
        if b.name in fetched {
          body := fetched[b.name];
        }
        bodies := bodies[b.name := (b, body)];
      }
    }

    /**
     A watcher's insert. In the lists of any configuration with distinct names that
     has the backend, its own list is the new one and every other stays.
     */
    method Insert(b: Backend, body: string)
      modifies this
      ensures bodies == old(bodies)[b.name := (b, body)]
      ensures forall order :: DistinctOrder(order) && b in order && Configured(order, old(bodies)) ==>
                Configured(order, bodies) && InOrder(order, bodies) == WithBody(InOrder(order, old(bodies)), b, body)
    {
      forall order | DistinctOrder(order) && b in order && Configured(order, bodies)
        ensures var after := bodies[b.name := (b, body)];
                Configured(order, after) && InOrder(order, after) == WithBody(InOrder(order, bodies), b, body)
      {
        InsertChangesOneList(order, bodies, b, body);
      }
      bodies := bodies[b.name := (b, body)];
    }

    /** The copy `publish_shared` takes under the lock, unless a backend is still missing. */
    method CopyLists(order: seq<Backend>) returns (lists: Option<seq<(Backend, string)>>)
      ensures lists.Some? <==> Complete(order, bodies)
      ensures lists.Some? ==> lists.value == InOrder(order, bodies)
    {
      for i := 0 to |order|
        invariant forall k :: 0 <= k < i ==> order[k].name in bodies
      {
        if order[i].name !in bodies {
          return None;
        }
      }
      var copied: seq<(Backend, string)> := [];
      for i := 0 to |order|
        invariant copied == InOrder(order, bodies)[..i]
      {
        copied := copied + [bodies[order[i].name]];
      }
      return Some(copied);
    }
  }

  // ---------- watchers in any interleaving ----------

  /** Where a watcher is between receiving a list and having it in the registry. */
  datatype Pc = Idle | Inserted | Copied

  datatype Poller = Poller(
    order: seq<Backend>,
    bodies: Bodies,
    pcs: seq<Pc>,                                      // one per watcher
    backends: seq<Backend>,                            // the backend each watcher serves
    copies: seq<(nat, seq<(Backend, string)>)>,        // taken and not yet written, oldest first
    taken: seq<seq<(Backend, string)>>,                // every copy ever taken, in order; the seeding publish took the first
    registry: Snapshot,
    history: seq<Bodies>,                              // every value of the map since seeding
    writes: seq<Snapshot>)                             // every value written to the registry

  datatype Act = Receive(w: nat, body: string) | Copy(w: nat) | Write(k: nat)

  /** The sequence without its element `k`. */
  function Without<T>(s: seq<T>, k: nat): (r: seq<T>)
    requires k < |s|
    ensures |r| == |s| - 1 && forall j :: 0 <= j < |r| ==> r[j] == s[if j < k then j else j + 1]
  {
    s[..k] + s[k + 1..]
  }

  predicate Enabled(p: Poller, act: Act) {
    match act
    case Receive(w, _) => w < |p.pcs| && w < |p.backends| && p.pcs[w] == Idle
    case Copy(w) => w < |p.pcs| && p.pcs[w] == Inserted && Complete(p.order, p.bodies)
    case Write(k) => k < |p.copies| && p.copies[k].0 < |p.pcs|
  }

  function Step(p: Poller, act: Act): Poller
    requires Enabled(p, act)
  {
    match act
    case Receive(w, body) =>
      var bodies := p.bodies[p.backends[w].name := (p.backends[w], body)];
      p.(bodies := bodies, history := p.history + [bodies], pcs := p.pcs[w := Inserted])
    case Copy(w) =>
      var lists := InOrder(p.order, p.bodies);
      p.(copies := p.copies + [(w, lists)], taken := p.taken + [lists], pcs := p.pcs[w := Copied])
    case Write(k) =>
      var (w, lists) := p.copies[k];
      p.(copies := Without(p.copies, k), pcs := p.pcs[w := Idle],
         registry := Merge(lists), writes := p.writes + [Merge(lists)])
  }

  predicate CanRun(p: Poller, acts: seq<Act>)
    decreases |acts|
  {
    |acts| == 0 || (Enabled(p, acts[0]) && CanRun(Step(p, acts[0]), acts[1..]))
  }

  function Run(p: Poller, acts: seq<Act>): Poller
    requires CanRun(p, acts)
    decreases |acts|
  {
    if |acts| == 0 then p else Run(Step(p, acts[0]), acts[1..])
  }

  /** The poller after seeding and its own first publish, with every watcher idle. */
  ghost predicate Seeded(p: Poller) {
    && |p.pcs| == |p.backends| && (forall w :: 0 <= w < |p.pcs| ==> p.pcs[w] == Idle)
    && DistinctOrder(p.order)
    && (forall w :: 0 <= w < |p.backends| ==> p.backends[w] in p.order)
    && Configured(p.order, p.bodies)
    && p.copies == [] && p.history == [p.bodies] && p.writes == []
    && p.taken == [InOrder(p.order, p.bodies)] && p.registry == Merge(p.taken[0])
  }

  /** `lists` are the configured backends with the lists of one complete map of the history. */
  ghost predicate FromHistory(p: Poller, lists: seq<(Backend, string)>) {
    && |lists| == |p.order| && (forall i :: 0 <= i < |p.order| ==> lists[i].0 == p.order[i])
    && exists h :: 0 <= h < |p.history| && Complete(p.order, p.history[h]) && lists == InOrder(p.order, p.history[h])
  }

  ghost predicate Written(p: Poller, value: Snapshot) {
    exists lists :: FromHistory(p, lists) && value == Merge(lists)
  }

  ghost predicate Shape(p: Poller) {
    && |p.pcs| == |p.backends|
    && DistinctOrder(p.order)
    && (forall w :: 0 <= w < |p.backends| ==> p.backends[w] in p.order)
    && Configured(p.order, p.bodies)
    && |p.history| > 0 && p.history[|p.history| - 1] == p.bodies
  }

  ghost predicate PollerInv(p: Poller) {
    && Shape(p)
    && (forall k :: 0 <= k < |p.copies| ==> FromHistory(p, p.copies[k].1))
    && (forall k :: 0 <= k < |p.writes| ==> Written(p, p.writes[k]))
  }

  lemma HistoryGrows(p: Poller, p': Poller, lists: seq<(Backend, string)>)
    requires p'.order == p.order && p.history <= p'.history
    requires FromHistory(p, lists)
    ensures FromHistory(p', lists)
  {
    var h :| 0 <= h < |p.history| && Complete(p.order, p.history[h]) && lists == InOrder(p.order, p.history[h]);
    assert p'.history[h] == p.history[h];
  }

  lemma ReceiveKeepsShape(p: Poller, w: nat, body: string)
    requires Shape(p) && Enabled(p, Receive(w, body))
    ensures Shape(Step(p, Receive(w, body)))
  {
    var b := p.backends[w];
    var i :| 0 <= i < |p.order| && p.order[i] == b;
  }

  lemma ReceiveKeepsPollerInv(p: Poller, w: nat, body: string)
    requires PollerInv(p) && Enabled(p, Receive(w, body))
    ensures PollerInv(Step(p, Receive(w, body)))
  {
    var p' := Step(p, Receive(w, body));
    ReceiveKeepsShape(p, w, body);
    forall lists | FromHistory(p, lists)
      ensures FromHistory(p', lists)
    {
      HistoryGrows(p, p', lists);
    }
    forall k | 0 <= k < |p'.writes|
      ensures Written(p', p'.writes[k])
    {
      assert Written(p, p.writes[k]);
      var lists :| FromHistory(p, lists) && p.writes[k] == Merge(lists);
      assert FromHistory(p', lists);
    }
  }

  /** Only the history decides what comes from it. */
  lemma SameHistory(p: Poller, p': Poller)
    requires p'.order == p.order && p'.history == p.history
    ensures forall lists :: FromHistory(p, lists) ==> FromHistory(p', lists)
    ensures forall value :: Written(p, value) ==> Written(p', value)
  {
  }

  lemma CopyKeepsPollerInv(p: Poller, w: nat)
    requires PollerInv(p) && Enabled(p, Copy(w))
    ensures PollerInv(Step(p, Copy(w)))
  {
    var p' := Step(p, Copy(w));
    SameHistory(p, p');
    var lists := InOrder(p.order, p.bodies);
    assert p'.history[|p'.history| - 1] == p.bodies;
    assert FromHistory(p', lists);
    assert p'.copies == p.copies + [(w, lists)];
  }

  lemma WriteKeepsPollerInv(p: Poller, k: nat)
    requires PollerInv(p) && Enabled(p, Write(k))
    ensures PollerInv(Step(p, Write(k)))
  {
    var p' := Step(p, Write(k));
    SameHistory(p, p');
    assert Written(p, Merge(p.copies[k].1));
  }

  lemma StepKeepsPollerInv(p: Poller, act: Act)
    requires PollerInv(p) && Enabled(p, act)
    ensures PollerInv(Step(p, act))
  {
    match act
    case Receive(w, body) => ReceiveKeepsPollerInv(p, w, body);
    case Copy(w) => CopyKeepsPollerInv(p, w);
    case Write(k) => WriteKeepsPollerInv(p, k);
  }

  lemma {:induction false} RunKeepsPollerInv(p: Poller, acts: seq<Act>)
    requires PollerInv(p) && CanRun(p, acts)
    ensures PollerInv(Run(p, acts)) && Run(p, acts).order == p.order
    decreases |acts|
  {
    if |acts| > 0 {
      StepKeepsPollerInv(p, acts[0]);
      RunKeepsPollerInv(Step(p, acts[0]), acts[1..]);
    }
  }

  /** In every interleaving each value written is the merge, in configured order, of one complete map that held at one instant. */
  lemma WritesAreConsistent(p: Poller, acts: seq<Act>, k: nat)
    requires Seeded(p) && CanRun(p, acts)
    ensures var q := Run(p, acts); k < |q.writes| ==> Written(q, q.writes[k]) && q.order == p.order
  {
    assert p.history[0] == p.bodies;
    RunKeepsPollerInv(p, acts);
  }

  /** The guard of a copy is always met after seeding: no watcher skips its publish. */
  lemma CopyIsNeverSkipped(p: Poller, acts: seq<Act>, w: nat)
    requires Seeded(p) && CanRun(p, acts)
    ensures var q := Run(p, acts); w < |q.pcs| && q.pcs[w] == Inserted ==> Enabled(q, Copy(w))
  {
    RunKeepsPollerInv(p, acts);
  }

  // ---------- the poll before the hub accepts clients ----------

  function Body(b: Backend, fetched: map<string, string>): string {
    if b.name in fetched then fetched[b.name] else ""
  }

  /** Backends that pass the version gate, in order. */
  function Compatible(order: seq<Backend>, ok: Backend -> bool): seq<Backend> {
    if |order| == 0 then []
    else if ok(order[0]) then [order[0]] + Compatible(order[1..], ok)
    else Compatible(order[1..], ok)
  }

  /** Every configured backend in configured order, an incompatible one with an empty list. */
  function Gated(order: seq<Backend>, ok: Backend -> bool, fetched: map<string, string>): seq<(Backend, string)> {
    if |order| == 0 then []
    else [(order[0], if ok(order[0]) then Body(order[0], fetched) else "")] + Gated(order[1..], ok, fetched)
  }

  lemma {:induction false} FlatConcat<T>(a: seq<seq<T>>, b: seq<seq<T>>)
    ensures Flat(a + b) == Flat(a) + Flat(b)
  {
    if |a| == 0 {
      assert a + b == b;
    } else {
      FlatConcat(a[1..], b);
      assert (a + b)[1..] == a[1..] + b;
      Assoc(a[0], Flat(a[1..]), Flat(b));
    }
  }

  lemma RowsConcat(a: seq<(Backend, string)>, b: seq<(Backend, string)>)
    ensures Rows(a + b) == Rows(a) + Rows(b)
  {
    RowsAreBlocks(a);
    RowsAreBlocks(b);
    RowsAreBlocks(a + b);
    BlocksConcat(a, b);
    FlatConcat(Blocks(a), Blocks(b));
  }

  lemma BlocksConcat(a: seq<(Backend, string)>, b: seq<(Backend, string)>)
    ensures Blocks(a + b) == Blocks(a) + Blocks(b)
  {
  }

  lemma EmptyListHasNoRows(b: Backend)
    ensures Rows([(b, "")]) == []
  {
    assert [(b, "")][1..] == [];
    assert ParseBody("") == [];
  }

  predicate Listed(lists: seq<(Backend, string)>, name: string) {
    exists k :: 0 <= k < |lists| && lists[k].0.name == name
  }

  lemma AppendEmpty(lists: seq<(Backend, string)>, b: Backend)
    ensures var longer := lists + [(b, "")];
            && Rows(longer) == Rows(lists) && Listed(longer, b.name)
            && forall name :: Listed(lists, name) ==> Listed(longer, name)
  {
    var longer := lists + [(b, "")];
    RowsConcat(lists, [(b, "")]);
    EmptyListHasNoRows(b);
    assert longer[|lists|].0.name == b.name;
    forall name | Listed(lists, name)
      ensures Listed(longer, name)
    {
      var k :| 0 <= k < |lists| && lists[k].0.name == name;
      assert longer[k].0.name == name;
    }
  }

  /** The lists fetched from the backends that pass the gate. */
  function Fetched(c: seq<Backend>, fetched: map<string, string>): seq<(Backend, string)> {
    seq(|c|, i requires 0 <= i < |c| => (c[i], Body(c[i], fetched)))
  }

  lemma FetchedCons(b: Backend, c: seq<Backend>, fetched: map<string, string>)
    ensures Fetched([b] + c, fetched) == [(b, Body(b, fetched))] + Fetched(c, fetched)
  {
  }

  lemma {:induction false} GatedRows(order: seq<Backend>, ok: Backend -> bool, fetched: map<string, string>)
    ensures Rows(Gated(order, ok, fetched)) == Rows(Fetched(Compatible(order, ok), fetched))
  {
    if |order| > 0 {
      var b, rest := order[0], order[1..];
      var tail := Fetched(Compatible(rest, ok), fetched);
      GatedRows(rest, ok, fetched);
      if ok(b) {
        var head := (b, Body(b, fetched));
        FetchedCons(b, Compatible(rest, ok), fetched);
        RowsConcat([head], Gated(rest, ok, fetched));
        RowsConcat([head], tail);
      } else {
        RowsConcat([(b, "")], Gated(rest, ok, fetched));
        EmptyListHasNoRows(b);
        assert [] + Rows(tail) == Rows(tail);
      }
    }
  }

  /** A backend with no list yet gets an empty one. */
  method AddMissing(order: seq<Backend>, have: seq<(Backend, string)>) returns (lists: seq<(Backend, string)>)
    ensures Rows(lists) == Rows(have)
    ensures forall i :: 0 <= i < |order| ==> Listed(lists, order[i].name)
  {
    lists := have;
    for i := 0 to |order|
      invariant Rows(lists) == Rows(have)
      invariant forall j :: 0 <= j < i ==> Listed(lists, order[j].name)
    {
      if !Listed(lists, order[i].name) {
        AppendEmpty(lists, order[i]);
        lists := lists + [(order[i], "")];
      }
    }
  }

  method FetchAll(c: seq<Backend>, fetched: map<string, string>) returns (lists: seq<(Backend, string)>)
    ensures lists == Fetched(c, fetched)
  {
    lists := [];
    for i := 0 to |c|
      invariant lists == Fetched(c, fetched)[..i]
    {
      lists := lists + [(c[i], Body(c[i], fetched))];
    }
  }

  lemma {:induction false} GatedAt(order: seq<Backend>, ok: Backend -> bool, fetched: map<string, string>)
    ensures Gated(order, ok, fetched)
         == seq(|order|, i requires 0 <= i < |order| =>
                  (order[i], if ok(order[i]) && order[i].name in fetched then fetched[order[i].name] else ""))
  {
    if |order| > 0 {
      GatedAt(order[1..], ok, fetched);
      var g := Gated(order, ok, fetched);
      assert forall i :: 0 < i < |order| ==> order[i] == order[1..][i - 1] && g[i] == Gated(order[1..], ok, fetched)[i - 1];
    }
  }

  /**
   `poll_backends_once` appends incompatible backends after the others; the merged
   list is still that of all backends in configured order.
   */
  method PollBackendsOnce(order: seq<Backend>, ok: Backend -> bool, fetched: map<string, string>) returns (lists: seq<(Backend, string)>)
    ensures forall i :: 0 <= i < |order| ==> Listed(lists, order[i].name)
    ensures Merge(lists)
         == Merge(seq(|order|, i requires 0 <= i < |order| =>
                        (order[i], if ok(order[i]) && order[i].name in fetched then fetched[order[i].name] else "")))
  {
    lists := FetchAll(Compatible(order, ok), fetched);
    lists := AddMissing(order, lists);
    GatedRows(order, ok, fetched);
    GatedAt(order, ok, fetched);
  }
}
