/**
 How often a tracking client is woken: never more often than notices were sent since it
 subscribed, and at most 65 times before it is quiet again. For the daemon's clients
 and for those of the single-user hub.
 */
module Wakeups {
  import opened Wrappers
  import opened Users
  import opened Tenant
  import opened Policy
  import Hub = HubView

  // ---------- until a client is quiet ----------

  /** How often a client at `pos` is woken until it has seen everything sent. */
  function WakesUntilQuiet(pos: nat, sent: nat): nat
    requires pos <= sent
    decreases sent - pos
  {
    if pos == sent then 0 else 1 + WakesUntilQuiet(NextPos(pos, sent), sent)
  }

  /** Once for each notice, but the channel keeps only the last 64: all that were lost wake it once. */
  lemma {:induction false} QuietAfter(pos: nat, sent: nat)
    requires pos <= sent
    ensures WakesUntilQuiet(pos, sent) == if sent - pos <= 64 then sent - pos else 65
    decreases sent - pos
  {
    if pos < sent { QuietAfter(NextPos(pos, sent), sent); }
  }

  // ---------- the daemon's clients ----------

  function Received(acts: seq<Act>, i: nat): nat {
    if |acts| == 0 then 0 else (if acts[0] == Receive(i) then 1 else 0) + Received(acts[1..], i)
  }

  ghost predicate Ahead(w: World, i: nat, since: nat) {
    i < |w.trackers| && w.trackers[i].phase != Starting && since <= w.trackers[i].pos <= w.tenants.sent
  }

  lemma StepMovesOn(w: World, act: Act, i: nat, since: nat)
    requires Enabled(w, act) && Ahead(w, i, since)
    ensures var pos := w.trackers[i].pos; Ahead(Step(w, act), i, if act == Receive(i) then pos + 1 else pos)
  {
  }

  lemma {:induction false} WakesFromHere(w: World, acts: seq<Act>, i: nat, since: nat)
    requires CanRun(w, acts) && Ahead(w, i, since)
    ensures Received(acts, i) + since <= Run(w, acts).tenants.sent
    decreases |acts|
  {
    if |acts| > 0 {
      var pos := w.trackers[i].pos;
      StepMovesOn(w, acts[0], i, since);
      WakesFromHere(Step(w, acts[0]), acts[1..], i, if acts[0] == Receive(i) then pos + 1 else pos);
    }
  }

  /** From any state: a client that subscribes is woken at most once for each notice sent from then on. */
  lemma WakesAreBounded(w: World, acts: seq<Act>, i: nat)
    requires Enabled(w, Subscribe(i)) && CanRun(Step(w, Subscribe(i)), acts)
    ensures Received(acts, i) <= Run(Step(w, Subscribe(i)), acts).tenants.sent - w.tenants.sent
  {
    WakesFromHere(Step(w, Subscribe(i)), acts, i, w.tenants.sent);
  }

  // ---------- the hub's clients ----------

  function HubReceived(acts: seq<Hub.Act>, i: nat): nat {
    if |acts| == 0 then 0 else (if acts[0] == Hub.Receive(i) then 1 else 0) + HubReceived(acts[1..], i)
  }

  ghost predicate HubAhead(h: Hub.Hub, i: nat, since: nat) {
    i < |h.clients| && h.clients[i].phase != Hub.Starting && since <= h.clients[i].pos <= h.sent
  }

  lemma HubStepMovesOn(h: Hub.Hub, policy: HubPolicy, act: Hub.Act, i: nat, since: nat)
    requires Hub.Enabled(h, act) && HubAhead(h, i, since)
    ensures var pos := h.clients[i].pos; HubAhead(Hub.Step(h, policy, act), i, if act == Hub.Receive(i) then pos + 1 else pos)
  {
  }

  lemma {:induction false} HubWakesFromHere(h: Hub.Hub, policy: HubPolicy, acts: seq<Hub.Act>, i: nat, since: nat)
    requires Hub.CanRun(h, policy, acts) && HubAhead(h, i, since)
    ensures HubReceived(acts, i) + since <= Hub.Run(h, policy, acts).sent
    decreases |acts|
  {
    if |acts| > 0 {
      var pos := h.clients[i].pos;
      HubStepMovesOn(h, policy, acts[0], i, since);
      HubWakesFromHere(Hub.Step(h, policy, acts[0]), policy, acts[1..], i, if acts[0] == Hub.Receive(i) then pos + 1 else pos);
    }
  }

  lemma HubWakesAreBounded(h: Hub.Hub, policy: HubPolicy, acts: seq<Hub.Act>, i: nat)
    requires Hub.Enabled(h, Hub.Subscribe(i)) && Hub.CanRun(Hub.Step(h, policy, Hub.Subscribe(i)), policy, acts)
    ensures HubReceived(acts, i) <= Hub.Run(Hub.Step(h, policy, Hub.Subscribe(i)), policy, acts).sent - h.sent
  {
    HubWakesFromHere(Hub.Step(h, policy, Hub.Subscribe(i)), policy, acts, i, h.sent);
  }
}
