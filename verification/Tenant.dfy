/**
 The multi-tenant registry and the clients that track it. An updater sets the
 list under a lock and notifies later; a tracking client reads the shared and the
 private list at two different moments. Any of these steps may interleave.
 */
module Tenant {
  import opened Users
  import opened Registry


  /** `owing` counts updaters that have set a changed list and not yet sent their notification. */
  datatype Tenants = Tenants(shared: Snapshot, priv: map<Uid, Snapshot>, sent: nat, owing: nat)

  const EMPTY := Tenants([], map[], 0, 0)

  function PrivateOf(t: Tenants, uid: Uid): Snapshot {
    if uid in t.priv then t.priv[uid] else []
  }

  function ViewOf(t: Tenants, uid: Uid): Snapshot {
    t.shared + PrivateOf(t, uid)
  }

  function SetShared(t: Tenants, snap: Snapshot): Tenants {
    t.(shared := snap, owing := t.owing + (if t.shared != snap then 1 else 0))
  }

  function SetPrivate(t: Tenants, uid: Uid, snap: Snapshot): Tenants {
    t.(priv := t.priv[uid := snap], owing := t.owing + (if uid !in t.priv || t.priv[uid] != snap then 1 else 0))
  }

  function DropPrivate(t: Tenants, uid: Uid): Tenants {
    if uid in t.priv then t.(priv := t.priv - {uid}, owing := t.owing + 1) else t
  }

  function Notify(t: Tenants): Tenants
    requires t.owing > 0
  {
    t.(sent := t.sent + 1, owing := t.owing - 1)
  }

  /** All owed notifications sent: what one caller sees when nobody interferes. */
  function Settled(t: Tenants): Tenants {
    t.(sent := t.sent + t.owing, owing := 0)
  }

  /** The registry itself; a method is a whole call with nothing in between. */
  class TenantRegistry {
    var shared: Snapshot
    var priv: map<Uid, Snapshot>
    var sent: nat

    constructor ()
      ensures State() == EMPTY
    {
      shared, priv, sent := [], map[], 0;
    }

    function State(): Tenants
      reads this
    {
      Tenants(shared, priv, sent, 0)
    }

    method UpdateShared(snap: Snapshot)
      modifies this
      ensures State() == Settled(SetShared(old(State()), snap))
      ensures shared == snap && priv == old(priv) && sent == old(sent) + (if old(shared) != snap then 1 else 0)
    {
      var changed := shared != snap;
      shared := snap;
      if changed {
        sent := sent + 1;
      }
    }

    method UpdateSharedFromLists(lists: seq<(Backend, string)>)
      modifies this
      ensures State() == Settled(SetShared(old(State()), Merge(lists)))
      ensures shared == Merge(lists) && priv == old(priv) && sent == old(sent) + (if old(shared) != Merge(lists) then 1 else 0)
    {
      var merged := MergeDeviceLists(lists);
      UpdateShared(merged);
    }

    method UpdateAgentDevices(uid: Uid, snap: Snapshot)
      modifies this
      ensures State() == Settled(SetPrivate(old(State()), uid, snap))
      ensures shared == old(shared) && priv == old(priv)[uid := snap]
      ensures sent == old(sent) + (if uid in old(priv) && old(priv)[uid] == snap then 0 else 1)
    {
      var changed := if uid in priv then priv[uid] != snap else true;
      priv := priv[uid := snap];
      if changed {
        sent := sent + 1;
      }
    }

    method RemoveAgent(uid: Uid)
      modifies this
      ensures State() == Settled(DropPrivate(old(State()), uid))
      ensures shared == old(shared) && priv == old(priv) - {uid} && sent == old(sent) + (if uid in old(priv) then 1 else 0)
    {
      if uid in priv {
        priv := priv - {uid};
        sent := sent + 1;
      }
    }

    method SnapshotFor(uid: Uid) returns (devices: Snapshot)
      ensures devices == ViewOf(State(), uid) == shared + (if uid in priv then priv[uid] else [])
    {
      devices := shared;
      if uid in priv {
        devices := devices + priv[uid];
      }
    }
  }

  // ---------- tracking clients ----------

  const CHANNEL: nat := 64

  /** Where `track_devices_multi` is; the data it holds between steps. */
  datatype Phase =
    | Starting
    | Reading
    | HalfRead(gotShared: Snapshot)
    | Read(bothShared: Snapshot, bothPrivate: Snapshot)
    | Listening(body: string)
    | Left

  /** `pos` is the receiver's place in the broadcast channel. */
  datatype Tracker = Tracker(uid: Uid, long: bool, phase: Phase, pos: nat)

  datatype World = World(tenants: Tenants, trackers: seq<Tracker>)

  const START := World(EMPTY, [])

  datatype Act =
    | ShareList(list: Snapshot) | PublishList(uid: Uid, list: Snapshot) | ForgetAgent(uid: Uid) | SendNotice
    | Connect(uid: Uid, long: bool)
    | Subscribe(i: nat) | ReadShared(i: nat) | ReadPrivate(i: nat) | WriteBody(i: nat) | Receive(i: nat) | Leave(i: nat)

  predicate Enabled(w: World, act: Act) {
    match act
    case ShareList(_) => true
    case PublishList(_, _) => true
    case ForgetAgent(_) => true
    case SendNotice => w.tenants.owing > 0
    case Connect(_, _) => true
    case Subscribe(i) => i < |w.trackers| && w.trackers[i].phase == Starting
    case ReadShared(i) => i < |w.trackers| && w.trackers[i].phase == Reading
    case ReadPrivate(i) => i < |w.trackers| && w.trackers[i].phase.HalfRead?
    case WriteBody(i) => i < |w.trackers| && w.trackers[i].phase.Read?
    case Receive(i) => i < |w.trackers| && w.trackers[i].phase.Listening? && w.trackers[i].pos < w.tenants.sent
    case Leave(i) => i < |w.trackers|
  }

  /** A receiver that fell more than the channel behind is told so and moved to the oldest notice kept. */
  function NextPos(pos: nat, sent: nat): nat
    requires pos < sent
  {
    if sent - pos > CHANNEL then sent - CHANNEL else pos + 1
  }

  function TrackerStep(t: Tenants, c: Tracker, act: Act): Tracker
    requires act.Receive? ==> c.pos < t.sent
    requires act.ReadPrivate? ==> c.phase.HalfRead?
    requires act.WriteBody? ==> c.phase.Read?
  {
    match act
    case Subscribe(_) => c.(phase := Reading, pos := t.sent)
    case ReadShared(_) => c.(phase := HalfRead(t.shared))
    case ReadPrivate(_) => c.(phase := Read(c.phase.gotShared, PrivateOf(t, c.uid)))
    case WriteBody(_) => c.(phase := Listening(Format(c.phase.bothShared + c.phase.bothPrivate, c.long)))
    case Receive(_) => c.(phase := Reading, pos := NextPos(c.pos, t.sent))
    case Leave(_) => c.(phase := Left)
    case _ => c
  }

  function Step(w: World, act: Act): World
    requires Enabled(w, act)
  {
    match act
    case ShareList(s) => w.(tenants := SetShared(w.tenants, s))
    case PublishList(u, s) => w.(tenants := SetPrivate(w.tenants, u, s))
    case ForgetAgent(u) => w.(tenants := DropPrivate(w.tenants, u))
    case SendNotice => w.(tenants := Notify(w.tenants))
    case Connect(u, long) => w.(trackers := w.trackers + [Tracker(u, long, Starting, 0)])
    case Subscribe(i) => w.(trackers := w.trackers[i := TrackerStep(w.tenants, w.trackers[i], act)])
    case ReadShared(i) => w.(trackers := w.trackers[i := TrackerStep(w.tenants, w.trackers[i], act)])
    case ReadPrivate(i) => w.(trackers := w.trackers[i := TrackerStep(w.tenants, w.trackers[i], act)])
    case WriteBody(i) => w.(trackers := w.trackers[i := TrackerStep(w.tenants, w.trackers[i], act)])
    case Receive(i) => w.(trackers := w.trackers[i := TrackerStep(w.tenants, w.trackers[i], act)])
    case Leave(i) => w.(trackers := w.trackers[i := TrackerStep(w.tenants, w.trackers[i], act)])
  }

  predicate CanRun(w: World, acts: seq<Act>)
    decreases |acts|
  {
    |acts| == 0 || (Enabled(w, acts[0]) && CanRun(Step(w, acts[0]), acts[1..]))
  }

  function Run(w: World, acts: seq<Act>): World
    requires CanRun(w, acts)
    decreases |acts|
  {
    if |acts| == 0 then w else Run(Step(w, acts[0]), acts[1..])
  }

  // ---------- no update is lost ----------

  /** A wake-up is on its way: queued for the client, or owed by an updater. */
  predicate Woken(t: Tenants, c: Tracker) {
    c.pos < t.sent || t.owing > 0
  }

  /** What a client has read or shown is current, or the client will be woken. */
  ghost predicate UpToDate(t: Tenants, c: Tracker) {
    match c.phase
    case Starting => true
    case Reading => true
    case HalfRead(s) => s == t.shared || Woken(t, c)
    case Read(s, p) => (s == t.shared && p == PrivateOf(t, c.uid)) || Woken(t, c)
    case Listening(body) => body == Format(ViewOf(t, c.uid), c.long) || Woken(t, c)
    case Left => true
  }

  ghost predicate WorldInv(w: World) {
    forall i :: 0 <= i < |w.trackers| ==>
      UpToDate(w.tenants, w.trackers[i]) && w.trackers[i].pos <= w.tenants.sent
  }

  /** An update of the lists leaves every client current or about to be woken. */
  lemma UpdateKeepsUpToDate(t: Tenants, t': Tenants, c: Tracker)
    requires UpToDate(t, c) && c.pos <= t.sent
    requires t'.sent == t.sent && t'.owing >= t.owing
    requires t'.shared == t.shared || t'.owing > t.owing
    requires PrivateOf(t', c.uid) == PrivateOf(t, c.uid) || t'.owing > t.owing
    ensures UpToDate(t', c)
  {
  }

  lemma StepKeepsWorldInv(w: World, act: Act)
    requires WorldInv(w) && Enabled(w, act)
    ensures WorldInv(Step(w, act))
  {
    var w' := Step(w, act);
    forall i | 0 <= i < |w'.trackers|
      ensures UpToDate(w'.tenants, w'.trackers[i]) && w'.trackers[i].pos <= w'.tenants.sent
    {
      if i < |w.trackers| {
        var c := w.trackers[i];
        assert UpToDate(w.tenants, c) && c.pos <= w.tenants.sent;
        if act.ShareList? || act.PublishList? || act.ForgetAgent? {
          UpdateKeepsUpToDate(w.tenants, w'.tenants, c);
        }
      }
    }
  }

  lemma {:induction false} RunKeepsWorldInv(w: World, acts: seq<Act>)
    requires WorldInv(w) && CanRun(w, acts)
    ensures WorldInv(Run(w, acts))
    decreases |acts|
  {
    if |acts| > 0 {
      StepKeepsWorldInv(w, acts[0]);
      RunKeepsWorldInv(Step(w, acts[0]), acts[1..]);
    }
  }

  /**
   In every run, between any two steps, a listening client was last sent its
   user's current list, or a notification (or a lag) is queued for it, or some
   updater still owes one.
   */
  lemma NoLostUpdate(acts: seq<Act>, i: nat)
    requires CanRun(START, acts)
    ensures var w := Run(START, acts);
            i < |w.trackers| && w.trackers[i].phase.Listening? ==>
              var c := w.trackers[i];
              || c.phase.body == Format(w.tenants.shared + (if c.uid in w.tenants.priv then w.tenants.priv[c.uid] else []), c.long)
              || c.pos < w.tenants.sent
              || w.tenants.owing > 0
  {
    RunKeepsWorldInv(START, acts);
  }

  lemma RunCons(w: World, acts: seq<Act>)
    requires |acts| > 0 && Enabled(w, acts[0])
    ensures CanRun(w, acts) <==> CanRun(Step(w, acts[0]), acts[1..])
    ensures CanRun(w, acts) ==> Run(w, acts) == Run(Step(w, acts[0]), acts[1..])
  {
  }
}
