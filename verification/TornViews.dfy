/**
 The two lists a tracking client is shown are read at two moments. Whether they were
 a user's view at one moment is a matter of what changed in between.
 */
module TornViews {
  import opened Users
  import opened Registry
  import opened Tenant

  /** The lists after each step of a run, the starting point first. */
  function Trace(w: World, acts: seq<Act>): (t: seq<Tenants>)
    requires CanRun(w, acts)
    ensures |t| == |acts| + 1 && t[0] == w.tenants && t[|acts|] == Run(w, acts).tenants
    decreases |acts|
  {
    if |acts| == 0 then [w.tenants] else [w.tenants] + Trace(Step(w, acts[0]), acts[1..])
  }

  // ---------- a window of moments ----------

  predicate SharedChanges(t: seq<Tenants>, k: nat)
    requires k + 1 < |t|
  {
    t[k].shared != t[k + 1].shared
  }

  predicate PrivateChanges(t: seq<Tenants>, uid: Uid, k: nat)
    requires k + 1 < |t|
  {
    PrivateOf(t[k], uid) != PrivateOf(t[k + 1], uid)
  }

  /** No change of the shared list comes before a change of the user's private list. */
  ghost predicate PrivateFirst(t: seq<Tenants>, uid: Uid) {
    forall a: nat, b: nat :: a <= b && b + 1 < |t| && SharedChanges(t, a) ==> !PrivateChanges(t, uid, b)
  }

  /** The pair read - the shared list at the start, the private list at the end - was the user's view at moment `k`. */
  predicate HeldAt(t: seq<Tenants>, uid: Uid, k: nat)
    requires k < |t|
  {
    t[k].shared == t[0].shared && PrivateOf(t[k], uid) == PrivateOf(t[|t| - 1], uid)
  }

  ghost predicate Held(t: seq<Tenants>, uid: Uid) {
    exists k: nat :: k < |t| && HeldAt(t, uid, k)
  }

  /** At some moment the pair held because a list had come back: the shared one after a change, or the private one before another. */
  ghost predicate CameBack(t: seq<Tenants>, uid: Uid) {
    exists k: nat :: k < |t| && HeldAt(t, uid, k) &&
      ((exists a: nat :: a < k && SharedChanges(t, a)) || (exists b: nat :: k <= b < |t| - 1 && PrivateChanges(t, uid, b)))
  }

  /** No list, once left, is published again within the window. */
  ghost predicate NothingReturns(t: seq<Tenants>, uid: Uid) {
    && (forall x: nat, y: nat, z: nat :: x <= y <= z < |t| && t[x].shared == t[z].shared ==> t[y].shared == t[x].shared)
    && (forall x: nat, y: nat, z: nat :: x <= y <= z < |t| && PrivateOf(t[x], uid) == PrivateOf(t[z], uid) ==>
          PrivateOf(t[y], uid) == PrivateOf(t[x], uid))
  }

  lemma {:induction false} SharedStays(t: seq<Tenants>, x: nat, y: nat)
    requires x <= y < |t| && forall a: nat :: x <= a < y ==> !SharedChanges(t, a)
    ensures t[x].shared == t[y].shared
    decreases y
  {
    if x < y {
      assert !SharedChanges(t, y - 1);
      SharedStays(t, x, y - 1);
    }
  }

  lemma {:induction false} PrivateStays(t: seq<Tenants>, uid: Uid, x: nat, y: nat)
    requires x <= y < |t| && forall a: nat :: x <= a < y ==> !PrivateChanges(t, uid, a)
    ensures PrivateOf(t[x], uid) == PrivateOf(t[y], uid)
    decreases y
  {
    if x < y {
      assert !PrivateChanges(t, uid, y - 1);
      PrivateStays(t, uid, x, y - 1);
    }
  }

  /** The moment after the last change of the private list among the first `n` steps. */
  lemma {:induction false} LastChange(t: seq<Tenants>, uid: Uid, n: nat) returns (m: nat)
    requires n < |t|
    ensures m <= n && (forall b: nat :: m <= b < n ==> !PrivateChanges(t, uid, b))
    ensures m > 0 ==> PrivateChanges(t, uid, m - 1)
  {
    if n == 0 || PrivateChanges(t, uid, n - 1) {
      m := n;
    } else {
      m := LastChange(t, uid, n - 1);
    }
  }

  lemma PrivateFirstHolds(t: seq<Tenants>, uid: Uid)
    requires |t| > 0 && PrivateFirst(t, uid)
    ensures Held(t, uid)
  {
    var n := |t| - 1;
    var m := LastChange(t, uid, n);
    PrivateStays(t, uid, m, n);
    forall a: nat | a < m
      ensures !SharedChanges(t, a)
    {
      assert PrivateChanges(t, uid, m - 1);
    }
    SharedStays(t, 0, m);
    assert HeldAt(t, uid, m);
  }

  /** The pair read is the view of one moment if and only if private changes came first, or a list came back. */
  lemma HeldExactly(t: seq<Tenants>, uid: Uid)
    requires |t| > 0
    ensures Held(t, uid) <==> PrivateFirst(t, uid) || CameBack(t, uid)
    ensures NothingReturns(t, uid) ==> (Held(t, uid) <==> PrivateFirst(t, uid))
  {
    if PrivateFirst(t, uid) { PrivateFirstHolds(t, uid); }
    if k: nat :| k < |t| && HeldAt(t, uid, k) {
      if (exists a: nat :: a < k && SharedChanges(t, a)) || (exists b: nat :: k <= b < |t| - 1 && PrivateChanges(t, uid, b)) {
        assert CameBack(t, uid);
      } else {
        assert PrivateFirst(t, uid);
      }
    }
    if NothingReturns(t, uid) && CameBack(t, uid) { NothingCameBack(t, uid); }
  }

  lemma NothingCameBack(t: seq<Tenants>, uid: Uid)
    requires |t| > 0 && NothingReturns(t, uid)
    ensures !CameBack(t, uid)
  {
    forall k: nat | k < |t| && HeldAt(t, uid, k)
      ensures forall a: nat :: a < k ==> !SharedChanges(t, a)
      ensures forall b: nat :: k <= b < |t| - 1 ==> !PrivateChanges(t, uid, b)
    {
      forall a: nat | a < k
        ensures !SharedChanges(t, a)
      {
        assert t[a].shared == t[0].shared && t[a + 1].shared == t[0].shared;
      }
      forall b: nat | k <= b < |t| - 1
        ensures !PrivateChanges(t, uid, b)
      {
        assert PrivateOf(t[b], uid) == PrivateOf(t[k], uid) && PrivateOf(t[b + 1], uid) == PrivateOf(t[k], uid);
      }
    }
  }

  // ---------- the window of one client ----------

  /** The step is not one of client `i`. */
  predicate Apart(act: Act, i: nat) {
    match act
    case Subscribe(j) => j != i
    case ReadShared(j) => j != i
    case ReadPrivate(j) => j != i
    case WriteBody(j) => j != i
    case Receive(j) => j != i
    case Leave(j) => j != i
    case _ => true
  }

  predicate AllApart(acts: seq<Act>, i: nat) {
    forall k :: 0 <= k < |acts| ==> Apart(acts[k], i)
  }

  lemma {:induction false} ClientWaits(w: World, acts: seq<Act>, i: nat)
    requires CanRun(w, acts) && AllApart(acts, i) && i < |w.trackers|
    ensures i < |Run(w, acts).trackers| && Run(w, acts).trackers[i] == w.trackers[i]
    decreases |acts|
  {
    if |acts| > 0 {
      assert Apart(acts[0], i);
      assert forall k :: 0 <= k < |acts[1..]| ==> acts[1..][k] == acts[k + 1];
      ClientWaits(Step(w, acts[0]), acts[1..], i);
    }
  }

  /**
   From any state: whatever happens between the two reads of client `i`, the pair it
   then holds was its user's view at one moment in between if and only if no change
   of the shared list preceded a change of the user's private list, or a list came
   back. The body it sends is printed from that pair.
   */
  lemma PairIsOneMomentExactly(w: World, i: nat, during: seq<Act>)
    requires Enabled(w, ReadShared(i)) && CanRun(Step(w, ReadShared(i)), during) && AllApart(during, i)
    ensures var start := Step(w, ReadShared(i)); var end := Run(start, during);
            var t, c := Trace(start, during), w.trackers[i];
            && Enabled(end, ReadPrivate(i))
            && var both := Step(end, ReadPrivate(i));
            && both.trackers[i].phase == Read(t[0].shared, PrivateOf(t[|t| - 1], c.uid))
            && Enabled(both, WriteBody(i))
            && Step(both, WriteBody(i)).trackers[i].phase
               == Listening(Format(t[0].shared + PrivateOf(t[|t| - 1], c.uid), c.long))
            && (Held(t, c.uid) <==> PrivateFirst(t, c.uid) || CameBack(t, c.uid))
            && (NothingReturns(t, c.uid) ==> (Held(t, c.uid) <==> PrivateFirst(t, c.uid)))
  {
    var start := Step(w, ReadShared(i));
    ClientWaits(start, during, i);
    HeldExactly(Trace(start, during), w.trackers[i].uid);
  }

  // ---------- a body that was never the view ----------

  lemma TraceCons(w: World, acts: seq<Act>)
    requires |acts| > 0 && Enabled(w, acts[0]) && CanRun(Step(w, acts[0]), acts[1..])
    ensures CanRun(w, acts) && Run(w, acts) == Run(Step(w, acts[0]), acts[1..])
    ensures Trace(w, acts) == [w.tenants] + Trace(Step(w, acts[0]), acts[1..])
  {
  }

  /** In every state of the trace the user's view is another one. */
  ghost predicate NeverShown(t: seq<Tenants>, uid: Uid, view: Snapshot) {
    forall k :: 0 <= k < |t| ==> ViewOf(t[k], uid) != view
  }

  /** What a step adds to a trace that never had the view. */
  lemma OneMore(w: World, act: Act, rest: seq<Act>, uid: Uid, view: Snapshot)
    requires Enabled(w, act) && CanRun(Step(w, act), rest)
    requires ViewOf(w.tenants, uid) != view && NeverShown(Trace(Step(w, act), rest), uid, view)
    ensures CanRun(w, [act] + rest) && Run(w, [act] + rest) == Run(Step(w, act), rest)
    ensures NeverShown(Trace(w, [act] + rest), uid, view)
  {
    assert ([act] + rest)[1..] == rest;
    TraceCons(w, [act] + rest);
  }

  /** The registry and one client, as the example goes through them. */
  function Scene(tenants: Tenants, uid: Uid, phase: Phase): World {
    World(tenants, [Tracker(uid, true, phase, 0)])
  }

  /** The second half of the example: both lists change between the reads, and the body is sent. */
  function Window(uid: Uid, b: Device, d: Device): seq<Act> {
    [ShareList([b])] + ([PublishList(uid, [d])] + ([ReadPrivate(0)] + ([WriteBody(0)] + [])))
  }

  lemma WindowSteps(uid: Uid, a: Device, b: Device, c: Device, d: Device)
    requires a != b && c != d
    ensures var t1, t2 := Tenants([b], map[uid := [c]], 0, 3), Tenants([b], map[uid := [d]], 0, 4);
            var w1, w2, w3 := Scene(t1, uid, HalfRead([a])), Scene(t2, uid, HalfRead([a])), Scene(t2, uid, Phase.Read([a], [d]));
            && Step(Scene(Tenants([a], map[uid := [c]], 0, 2), uid, HalfRead([a])), ShareList([b])) == w1
            && Step(w1, PublishList(uid, [d])) == w2 && Step(w2, ReadPrivate(0)) == w3
            && Step(w3, WriteBody(0)) == Scene(t2, uid, Listening(Format([a, d], true)))
  {
    assert [a] + [d] == [a, d];
    assert map[uid := [c]][uid := [d]] == map[uid := [d]];
  }

  /** Both lists change between the two reads. */
  lemma TornWindow(uid: Uid, a: Device, b: Device, c: Device, d: Device)
    requires a != b && c != d
    ensures var w := Scene(Tenants([a], map[uid := [c]], 0, 2), uid, HalfRead([a]));
            var acts := Window(uid, b, d);
            && CanRun(w, acts) && NeverShown(Trace(w, acts), uid, [a, d])
            && Run(w, acts) == Scene(Tenants([b], map[uid := [d]], 0, 4), uid, Listening(Format([a, d], true)))
  {
    var t1, t2 := Tenants([b], map[uid := [c]], 0, 3), Tenants([b], map[uid := [d]], 0, 4);
    var w := Scene(Tenants([a], map[uid := [c]], 0, 2), uid, HalfRead([a]));
    var w1, w2, w3 := Scene(t1, uid, HalfRead([a])), Scene(t2, uid, HalfRead([a])), Scene(t2, uid, Phase.Read([a], [d]));
    var w4 := Scene(t2, uid, Listening(Format([a, d], true)));
    WindowSteps(uid, a, b, c, d);
    ViewsDiffer(a, b, c, d);
    OneMore(w3, WriteBody(0), [], uid, [a, d]);
    OneMore(w2, ReadPrivate(0), [WriteBody(0)] + [], uid, [a, d]);
    OneMore(w1, PublishList(uid, [d]), [ReadPrivate(0)] + ([WriteBody(0)] + []), uid, [a, d]);
    OneMore(w, ShareList([b]), [PublishList(uid, [d])] + ([ReadPrivate(0)] + ([WriteBody(0)] + [])), uid, [a, d]);
  }

  lemma ViewsDiffer(a: Device, b: Device, c: Device, d: Device)
    requires a != b && c != d
    ensures [a] + [c] != [a, d] && [b] + [c] != [a, d] && [b] + [d] != [a, d] && [a] + [] != [a, d]
  {
    assert ([a] + [c])[1] == c && ([b] + [c])[0] == b && ([b] + [d])[0] == b && [a, d][0] == a && [a, d][1] == d;
  }

  function TornRun(uid: Uid, a: Device, b: Device, c: Device, d: Device): seq<Act> {
    [ShareList([a])] + ([PublishList(uid, [c])] + ([Connect(uid, true)] + ([Subscribe(0)] + ([ReadShared(0)] + Window(uid, b, d)))))
  }

  /** A run in which a client is sent a body whose list was its user's view at no moment; it is owed notifications that make it read again. */
  lemma ViewMayBeTorn(uid: Uid, a: Device, b: Device, c: Device, d: Device)
    requires a != b && c != d
    ensures var acts := TornRun(uid, a, b, c, d);
            && CanRun(START, acts) && NeverShown(Trace(START, acts), uid, [a, d])
            && var w := Run(START, acts);
            && |w.trackers| == 1 && w.trackers[0].phase == Listening(Format([a, d], true))
            && Woken(w.tenants, w.trackers[0])
  {
    TornWindow(uid, a, b, c, d);
    ViewsDiffer(a, b, c, d);
    var t0, t1, t2 := EMPTY, Tenants([a], map[], 0, 1), Tenants([a], map[uid := [c]], 0, 2);
    var w1, w2, w3 := World(t1, []), World(t2, []), Scene(t2, uid, Starting);
    var w4, w5 := Scene(t2, uid, Reading), Scene(t2, uid, HalfRead([a]));
    var r5 := Window(uid, b, d);
    var r4 := [ReadShared(0)] + r5;
    var r3 := [Subscribe(0)] + r4;
    var r2 := [Connect(uid, true)] + r3;
    var r1 := [PublishList(uid, [c])] + r2;
    assert Step(START, ShareList([a])) == w1 && Step(w1, PublishList(uid, [c])) == w2;
    assert Step(w2, Connect(uid, true)) == w3 && Step(w3, Subscribe(0)) == w4 && Step(w4, ReadShared(0)) == w5;
    OneMore(w4, ReadShared(0), r5, uid, [a, d]);
    OneMore(w3, Subscribe(0), r4, uid, [a, d]);
    OneMore(w2, Connect(uid, true), r3, uid, [a, d]);
    OneMore(w1, PublishList(uid, [c]), r2, uid, [a, d]);
    OneMore(START, ShareList([a]), r1, uid, [a, d]);
  }

  /** The trace holds the lists after each prefix of the run. */
  lemma {:induction false} TraceAt(w: World, acts: seq<Act>, k: nat)
    requires CanRun(w, acts) && k <= |acts|
    ensures CanRun(w, acts[..k]) && Trace(w, acts)[k] == Run(w, acts[..k]).tenants
    decreases |acts|
  {
    if k > 0 {
      var w1, prefix := Step(w, acts[0]), acts[..k];
      TraceAt(w1, acts[1..], k - 1);
      assert prefix[0] == acts[0] && prefix[1..] == acts[1..][..k - 1];
      TraceCons(w, prefix);
    }
  }
}
