/**
 The shared daemon: agents by user, their private lists, the shared list and the
 tunnels. What one user sees does not depend on any other user; what an agent
 leaves behind when it goes.
 */
module Daemon {
  import opened Wrappers
  import opened Users
  import opened Registry
  import opened Session
  import opened Tenant
  import AR = AgentRoutes
  import opened Routing
  import MergeNames
  import Tunnel

  /** One control connection; `serial` tells connections apart, the token is what the agent chose. */
  datatype Conn = Conn(token: string, serial: nat)

  /** `tunnels`: who holds each listening port, and for which device. */
  datatype State = State(agents: map<Uid, Conn>, tenants: Tenants, tunnels: map<Tunnel.Port, (Uid, string)>)

  const BOOT := State(map[], EMPTY, map[])

  datatype Event =
    | PollShared(body: string)                                     // the local adb server's list
    | Register(uid: Uid, conn: Conn)
    | Publish(uid: Uid, conn: Conn, devices: seq<AR.Sanitized>)    // from that connection's read loop
    | Disconnect(uid: Uid, conn: Conn)                             // its read loop ended
    | OpenTunnel(uid: Uid, port: Tunnel.Port, serial: string, bound: Option<Tunnel.Port>) // `bound`: what a bind answers
    | CloseTunnel(uid: Uid, port: Tunnel.Port, serial: string)

  predicate IsCurrent(s: State, uid: Uid, conn: Conn) {
    uid in s.agents && s.agents[uid].token == conn.token
  }

  function WithoutOwner(tunnels: map<Tunnel.Port, (Uid, string)>, uid: Uid): map<Tunnel.Port, (Uid, string)> {
    map p | p in tunnels && tunnels[p].0 != uid :: tunnels[p]
  }

  function Apply(s: State, local: Backend, e: Event): State {
    match e
    case PollShared(body) => s.(tenants := Settled(SetShared(s.tenants, Merge([(local, body)]))))
    case Register(u, c) => s.(agents := s.agents[u := c])
    case Publish(u, c, devices) => s.(tenants := Settled(SetPrivate(s.tenants, u, AR.ToSnapshot(devices))))
    case Disconnect(u, c) =>
      if IsCurrent(s, u, c) then State(s.agents - {u}, Settled(DropPrivate(s.tenants, u)), WithoutOwner(s.tunnels, u)) else s
    case OpenTunnel(u, port, serial, bound) =>
      if port in s.tunnels && s.tunnels[port] != (u, serial) then s
      else
        var freed := s.tunnels - {port};
        s.(tunnels := if bound.Some? then freed[bound.value := (u, serial)] else freed)
    case CloseTunnel(u, port, serial) =>
      if port in s.tunnels && s.tunnels[port] == (u, serial) then s.(tunnels := s.tunnels - {port}) else s
  }

  function Run(s: State, local: Backend, events: seq<Event>): State
    decreases |events|
  {
    if |events| == 0 then s else Run(Apply(s, local, events[0]), local, events[1..])
  }

  /** The daemon's objects. A replaced connection keeps its read loop, so its events still arrive. */
  class DaemonState {
    var agents: map<Uid, Conn>
    const tenants: TenantRegistry
    const tunnels: Tunnel.TunnelManager
    const local: Backend

    constructor (local: Backend)
      ensures this.local == local && Value() == BOOT
      ensures fresh(tenants) && fresh(tunnels) && tunnels.listeners == map[]
    {
      agents := map[];
      this.local := local;
      tenants := new TenantRegistry();
      tunnels := new Tunnel.TunnelManager();
    }

    /** Every listener of the daemon has an owner. */
    predicate Owned()
      reads tunnels
    {
      forall p :: p in tunnels.listeners ==> tunnels.listeners[p].owner.Some?
    }

    function Value(): State
      reads this, tenants, tunnels
    {
      State(agents, tenants.State(), Tunnel.Owners(tunnels.listeners))
    }

    /** Registration in `handle_agent`; an older connection of the user is replaced. */
    method HandleRegister(uid: Uid, conn: Conn) returns (replaced: Option<Conn>)
      modifies this
      ensures Value() == Apply(old(Value()), local, Register(uid, conn))
      ensures agents == old(agents)[uid := conn]
      ensures replaced == if uid in old(agents) then Some(old(agents)[uid]) else None
    {
      replaced := None;
      if uid in agents {
        replaced := Some(agents[uid]);
      }
      agents := agents[uid := conn];
    }

    /** A device list arriving in `agent_read_loop`. */
    method HandleSnapshot(uid: Uid, conn: Conn, devices: seq<AR.Sanitized>)
      modifies tenants
      ensures Value() == Apply(old(Value()), local, Publish(uid, conn, devices))
      ensures tenants.shared == old(tenants.shared) && tenants.priv == old(tenants.priv)[uid := AR.ToSnapshot(devices)]
    {
      tenants.UpdateAgentDevices(uid, AR.ToSnapshot(devices));
    }

    /** The end of `handle_agent`: only the connection whose token is current takes agent, list and tunnels away. */
    method HandleDisconnect(uid: Uid, conn: Conn)
      modifies this, tenants, tunnels
      ensures Value() == Apply(old(Value()), local, Disconnect(uid, conn))
      ensures var current := uid in old(agents) && old(agents)[uid].token == conn.token;
              && agents == (if current then old(agents) - {uid} else old(agents))
              && tenants.priv == (if current then old(tenants.priv) - {uid} else old(tenants.priv))
              && tenants.shared == old(tenants.shared)
    {
      if uid in agents && agents[uid].token == conn.token {
        agents := agents - {uid};
        tenants.RemoveAgent(uid);
        tunnels.RemoveOwner(uid);
      }
    }

    /** A tunnel request of a client of `uid`. */
    method HandleOpenTunnel(uid: Uid, port: Tunnel.Port, serial: string, bound: Option<Tunnel.Port>, uids: seq<Option<Uid>>)
      returns (r: Option<Tunnel.Port>)
      requires Owned() && tunnels.Live(|uids|)
      requires bound.Some? && port != 0 ==> bound.value == port
      modifies tunnels
      ensures Owned() && tunnels.Live(|uids|)
      ensures Value() == Apply(old(Value()), local, OpenTunnel(uid, port, serial, bound))
      ensures r.Some? ==> r.value in Value().tunnels && Value().tunnels[r.value] == (uid, serial)
    {
      ghost var before := tunnels.listeners;
      Tunnel.OwnersAfterRemove(before, port);
      if bound.Some? { Tunnel.OwnersAfterAdd(before, port, bound.value, uid, serial, Tunnel.Listening(Some(uid))); }
      assert tunnels.IsMine(port, serial, Some(uid)) <==> port in Value().tunnels && Value().tunnels[port] == (uid, serial);
      var ended;
      r, ended := tunnels.Add(port, serial, Some(uid), bound, uids);
    }

    method HandleCloseTunnel(uid: Uid, port: Tunnel.Port, serial: string, uids: seq<Option<Uid>>) returns (removed: bool)
      requires Owned() && tunnels.Live(|uids|)
      modifies tunnels
      ensures Owned() && tunnels.Live(|uids|)
      ensures Value() == Apply(old(Value()), local, CloseTunnel(uid, port, serial))
      ensures removed <==> port in old(Value()).tunnels && old(Value()).tunnels[port] == (uid, serial)
    {
      Tunnel.OwnersAfterRemove(tunnels.listeners, port);
      var ended;
      removed, ended := tunnels.Remove(port, serial, Some(uid), uids);
    }

    method PollSharedOnce(body: string)
      modifies tenants
      ensures Value() == Apply(old(Value()), local, PollShared(body))
      ensures tenants.shared == Merge([(local, body)]) && tenants.priv == old(tenants.priv)
    {
      tenants.UpdateSharedFromLists([(local, body)]);
    }
  }

  // ---------- one user does not see another ----------

  predicate Concerns(e: Event, uid: Uid) {
    e.PollShared? || e.uid == uid
  }

  /** The events without those of other users' agents. */
  function Erase(events: seq<Event>, uid: Uid): seq<Event> {
    if |events| == 0 then []
    else if Concerns(events[0], uid) then [events[0]] + Erase(events[1..], uid)
    else Erase(events[1..], uid)
  }

  /** Everything the daemon consults when it serves a client of `uid`. */
  ghost predicate SameFor(s: State, t: State, uid: Uid) {
    && s.tenants.shared == t.tenants.shared
    && (uid in s.tenants.priv <==> uid in t.tenants.priv)
    && (uid in s.tenants.priv ==> s.tenants.priv[uid] == t.tenants.priv[uid])
    && (uid in s.agents <==> uid in t.agents)
    && (uid in s.agents ==> s.agents[uid] == t.agents[uid])
  }

  lemma ApplyKeepsSame(s: State, t: State, local: Backend, e: Event, uid: Uid)
    requires SameFor(s, t, uid)
    ensures SameFor(Apply(s, local, e), Apply(t, local, e), uid)
    ensures !Concerns(e, uid) ==> SameFor(Apply(s, local, e), t, uid)
  {
  }

  lemma {:induction false} ErasedRunIsSame(s: State, t: State, local: Backend, events: seq<Event>, uid: Uid)
    requires SameFor(s, t, uid)
    ensures SameFor(Run(s, local, events), Run(t, local, Erase(events, uid)), uid)
    decreases |events|
  {
    if |events| > 0 {
      ApplyKeepsSame(s, t, local, events[0], uid);
      if Concerns(events[0], uid) {
        assert Erase(events, uid)[1..] == Erase(events[1..], uid);
        ErasedRunIsSame(Apply(s, local, events[0]), Apply(t, local, events[0]), local, events[1..], uid);
      } else {
        ErasedRunIsSame(Apply(s, local, events[0]), t, local, events[1..], uid);
      }
    }
  }

  /**
   Two histories that differ only in what other users' agents did show `uid` the
   same devices, route every service alike and open private streams through the
   same connection.
   */
  lemma TenantsAreIndependent(local: Backend, a: seq<Event>, b: seq<Event>, uid: Uid, service: string, shared: Option<Backend>)
    requires Erase(a, uid) == Erase(b, uid)
    ensures var s, t := Run(BOOT, local, a), Run(BOOT, local, b);
            && ViewOf(s.tenants, uid) == ViewOf(t.tenants, uid)
            && RouteFor(s, uid, service, shared) == RouteFor(t, uid, service, shared)
            && (uid in s.agents <==> uid in t.agents)
            && (uid in s.agents ==> s.agents[uid] == t.agents[uid])
  {
    ErasedRunIsSame(BOOT, BOOT, local, a, uid);
    ErasedRunIsSame(BOOT, BOOT, local, b, uid);
  }

  function RouteFor(s: State, uid: Uid, service: string, shared: Option<Backend>): Result<Route, RouteError> {
    var snap := ViewOf(s.tenants, uid);
    RouteMulti(service, snap, DaemonOrder(snap, shared.Some?), shared)
  }

  // ---------- what the lists are ----------

  /** The shared list last polled. */
  function LastPolled(events: seq<Event>): Option<string> {
    if |events| == 0 then None
    else if events[|events| - 1].PollShared? then Some(events[|events| - 1].body)
    else LastPolled(events[..|events| - 1])
  }

  lemma {:induction false} RunConcat(s: State, local: Backend, events: seq<Event>, e: Event)
    ensures Run(s, local, events + [e]) == Apply(Run(s, local, events), local, e)
    decreases |events|
  {
    if |events| == 0 {
      assert [e][1..] == [] && [] + [e] == [e];
      assert Run(s, local, [e]) == Run(Apply(s, local, e), local, []);
    } else {
      var all := events + [e];
      assert all[0] == events[0] && all[1..] == events[1..] + [e];
      RunConcat(Apply(s, local, events[0]), local, events[1..], e);
    }
  }

  lemma SharedAfter(s: State, local: Backend, e: Event)
    ensures Apply(s, local, e).tenants.shared == if e.PollShared? then Merge([(local, e.body)]) else s.tenants.shared
  {
  }

  /** In every history the shared list is the merge of what the local server listed last, and empty before it listed anything. */
  lemma {:induction false} SharedIsLastPolled(local: Backend, events: seq<Event>)
    ensures Run(BOOT, local, events).tenants.shared
         == match LastPolled(events) case None => [] case Some(body) => Merge([(local, body)])
    decreases |events|
  {
    if |events| > 0 {
      var front, e := events[..|events| - 1], events[|events| - 1];
      assert events == front + [e];
      RunConcat(BOOT, local, front, e);
      SharedAfter(Run(BOOT, local, front), local, e);
      SharedIsLastPolled(local, front);
    }
  }

  /** After a publish a user sees the shared devices and then those published, column by column. */
  lemma PublishShows(local: Backend, events: seq<Event>, uid: Uid, conn: Conn, devices: seq<AR.Sanitized>)
    ensures var s := Run(BOOT, local, events + [Publish(uid, conn, devices)]);
            var n := |s.tenants.shared|;
            && s.tenants.shared == Run(BOOT, local, events).tenants.shared
            && |ViewOf(s.tenants, uid)| == n + |devices| && ViewOf(s.tenants, uid)[..n] == s.tenants.shared
            && forall i :: 0 <= i < |devices| ==>
                 var d := ViewOf(s.tenants, uid)[n + i];
                 && d.publicSerial == devices[i].publicSerial && d.upstreamSerial == devices[i].upstreamSerial
                 && d.state == devices[i].state && d.extras == devices[i].extras && d.backendName == devices[i].backendName
                 && d.routeId == Some(devices[i].routeId) && d.pairCode == None
  {
    RunConcat(BOOT, local, events, Publish(uid, conn, devices));
    var s := Run(BOOT, local, events + [Publish(uid, conn, devices)]);
    assert PrivateOf(s.tenants, uid) == AR.ToSnapshot(devices);
  }

  // ---------- what the daemon knows of credentials and routes ----------

  ghost predicate Clean(s: State) {
    && (forall d :: d in s.tenants.shared ==> d.routeId == None && d.pairCode == None)
    && (forall u, d :: u in s.tenants.priv && d in s.tenants.priv[u] ==> d.routeId.Some? && d.pairCode == None)
  }

  lemma ApplyKeepsClean(s: State, local: Backend, e: Event)
    requires Clean(s) && local.pairCode == None
    ensures Clean(Apply(s, local, e))
  {
    match e
    case PollShared(body) =>
      forall d | d in Merge([(local, body)])
        ensures d.routeId == None && d.pairCode == None
      {
        var k := AR.MergedDeviceBackend([(local, body)], d);
      }
    case Publish(u, c, devices) =>
      assert forall d :: d in AR.ToSnapshot(devices) ==> d.routeId.Some? && d.pairCode == None;
    case _ =>
  }

  /** In every history: no pair code in the daemon, no route on a shared device, a route on every private one. */
  lemma {:induction false} HistoryIsClean(s: State, local: Backend, events: seq<Event>)
    requires Clean(s) && local.pairCode == None
    ensures Clean(Run(s, local, events))
    decreases |events|
  {
    if |events| > 0 {
      ApplyKeepsClean(s, local, events[0]);
      HistoryIsClean(Apply(s, local, events[0]), local, events[1..]);
    }
  }

  /** The list an event publishes for a user, if it does. */
  ghost predicate Publishes(e: Event, uid: Uid, d: Device) {
    e.Publish? && e.uid == uid && d in AR.ToSnapshot(e.devices)
  }

  /** A private device is one that some event of its user's agent published. */
  lemma {:induction false} PrivateWasPublished(s: State, local: Backend, events: seq<Event>, uid: Uid, d: Device)
    requires d in PrivateOf(Run(s, local, events).tenants, uid) && d !in PrivateOf(s.tenants, uid)
    ensures exists k :: 0 <= k < |events| && Publishes(events[k], uid, d)
    decreases |events|
  {
    var t := Apply(s, local, events[0]);
    if d in PrivateOf(t.tenants, uid) {
      assert Publishes(events[0], uid, d);
    } else {
      PrivateWasPublished(t, local, events[1..], uid, d);
      var k :| 0 <= k < |events[1..]| && Publishes(events[1..][k], uid, d);
      assert events[k + 1] == events[1..][k];
    }
  }

  /** The device behind a private route. */
  lemma PrivateRouteDevice(s: State, uid: Uid, service: string, shared: Option<Backend>) returns (d: Device)
    requires Clean(s) && RouteFor(s, uid, service, shared).Ok? && RouteFor(s, uid, service, shared).value.Private?
    ensures d in PrivateOf(s.tenants, uid) && d.routeId == Some(RouteFor(s, uid, service, shared).value.routeId)
  {
    var snap := ViewOf(s.tenants, uid);
    RewriteNamesItsDevice(service, snap, DaemonOrder(snap, shared.Some?));
    d := RewriteUpstream(service, snap, DaemonOrder(snap, shared.Some?)).value.value.0;
    assert d in snap;
  }

  /** In every history, a private route handed out for a client of `uid` is in a list that an agent of `uid` published. */
  lemma RoutesAreOwn(local: Backend, events: seq<Event>, uid: Uid, service: string, shared: Option<Backend>)
    requires local.pairCode == None
    ensures var r := RouteFor(Run(BOOT, local, events), uid, service, shared);
            r.Ok? && r.value.Private? ==>
              exists k :: 0 <= k < |events| && events[k].Publish? && events[k].uid == uid
                          && exists j :: 0 <= j < |events[k].devices| && events[k].devices[j].routeId == r.value.routeId
  {
    HistoryIsClean(BOOT, local, events);
    var s := Run(BOOT, local, events);
    var r := RouteFor(s, uid, service, shared);
    if r.Ok? && r.value.Private? {
      var d := PrivateRouteDevice(s, uid, service, shared);
      PrivateWasPublished(BOOT, local, events, uid, d);
      var k :| 0 <= k < |events| && Publishes(events[k], uid, d);
      var j :| 0 <= j < |events[k].devices| && AR.ToSnapshot(events[k].devices)[j] == d;
      assert events[k].devices[j].routeId == r.value.routeId;
    }
  }

  /** A serial that is neither shared nor the caller's own is reported as not found, whoever else has it. */
  lemma ForeignSerialIsNotFound(s: State, uid: Uid, serial: string, shared: Option<Backend>)
    requires forall d :: d in ViewOf(s.tenants, uid) ==> d.publicSerial != serial
    ensures RouteFor(s, uid, TRANSPORT + serial, shared) == Err(NotFound(serial))
    ensures RouteFor(s, uid, TPORT_SERIAL + serial, shared) == Err(NotFound(serial))
  {
    var snap := ViewOf(s.tenants, uid);
    FindMember(snap, serial);
    TransportRewrites(serial, snap, DaemonOrder(snap, shared.Some?));
    TportRewrites(serial, snap, DaemonOrder(snap, shared.Some?));
  }

  // ---------- agents that come and go ----------

  /** Every connection that registers in the history, and `conn`, chose a token of its own. */
  ghost predicate OwnTokens(events: seq<Event>, conn: Conn) {
    forall i, j :: 0 <= i < |events| && 0 <= j < |events| && events[i].Register? && events[j].Register? ==>
      && (events[i].conn.token == events[j].conn.token ==> events[i].conn == events[j].conn)
      && (events[i].conn.token == conn.token ==> events[i].conn == conn)
  }

  /** The agent of a user is a connection that registered. */
  lemma {:induction false} AgentRegistered(s: State, local: Backend, events: seq<Event>, uid: Uid) returns (i: nat)
    requires uid in Run(s, local, events).agents
    requires uid in s.agents ==> Run(s, local, events).agents[uid] != s.agents[uid]
    ensures i < |events| && events[i].Register? && events[i].conn == Run(s, local, events).agents[uid]
    decreases |events|
  {
    var t := Apply(s, local, events[0]);
    if uid in t.agents && Run(s, local, events).agents[uid] == t.agents[uid] {
      i := 0;
    } else {
      var k := AgentRegistered(t, local, events[1..], uid);
      i := k + 1;
    }
  }

  lemma TokensTellApart(local: Backend, events: seq<Event>, uid: Uid, conn: Conn)
    requires OwnTokens(events, conn)
    ensures IsCurrent(Run(BOOT, local, events), uid, conn) ==> Run(BOOT, local, events).agents[uid] == conn
  {
    if uid in Run(BOOT, local, events).agents {
      var i := AgentRegistered(BOOT, local, events, uid);
    }
  }

  /** Exactly one user's agent, list and tunnels are gone; nobody else sees a difference. */
  ghost predicate OnlyGone(s: State, t: State, uid: Uid) {
    && t.agents == s.agents - {uid} && t.tenants.priv == s.tenants.priv - {uid} && t.tenants.shared == s.tenants.shared
    && t.tunnels == WithoutOwner(s.tunnels, uid)
    && forall u :: u != uid ==> ViewOf(t.tenants, u) == ViewOf(s.tenants, u)
  }

  /** A disconnect of the user's current connection takes away exactly that user; of any other connection, nothing at all. */
  ghost predicate DisconnectIsExact(s: State, local: Backend, uid: Uid, conn: Conn) {
    var t := Apply(s, local, Disconnect(uid, conn));
    if uid in s.agents && s.agents[uid] == conn then OnlyGone(s, t, uid) else t == s
  }

  /** It is the token that decides. */
  lemma DisconnectByToken(s: State, local: Backend, uid: Uid, conn: Conn)
    ensures var t := Apply(s, local, Disconnect(uid, conn));
            if uid in s.agents && s.agents[uid].token == conn.token then OnlyGone(s, t, uid) else t == s
  {
  }

  /** So it is in every history in which tokens tell connections apart. */
  lemma DisconnectRemovesOnlyItsUser(local: Backend, events: seq<Event>, uid: Uid, conn: Conn)
    requires OwnTokens(events, conn)
    ensures DisconnectIsExact(Run(BOOT, local, events), local, uid, conn)
  {
    TokensTellApart(local, events, uid, conn);
    DisconnectByToken(Run(BOOT, local, events), local, uid, conn);
  }

  /** Every private list belongs to a user with an agent. */
  ghost predicate Covered(s: State) {
    s.tenants.priv.Keys <= s.agents.Keys
  }

  ghost predicate CoveredThroughout(s: State, local: Backend, events: seq<Event>)
    decreases |events|
  {
    Covered(s) && (|events| == 0 || CoveredThroughout(Apply(s, local, events[0]), local, events[1..]))
  }

  /** No list is published for a user who has no registered agent at that moment. */
  predicate NoOrphanPublish(s: State, local: Backend, events: seq<Event>)
    decreases |events|
  {
    |events| == 0
    || ((events[0].Publish? ==> events[0].uid in s.agents) && NoOrphanPublish(Apply(s, local, events[0]), local, events[1..]))
  }

  /** Private lists stay covered by agents, in a whole run, if and only if no publish arrives while its user has no agent. */
  lemma {:induction false} CoveredExactly(s: State, local: Backend, events: seq<Event>)
    requires Covered(s)
    ensures CoveredThroughout(s, local, events) <==> NoOrphanPublish(s, local, events)
    decreases |events|
  {
    if |events| > 0 {
      var t := Apply(s, local, events[0]);
      if Covered(t) {
        CoveredExactly(t, local, events[1..]);
        if events[0].Publish? { assert events[0].uid in t.tenants.priv.Keys; }
      } else {
        assert events[0].Publish? && events[0].uid !in s.agents;
      }
    }
  }

  /** Only current connections publish. */
  predicate OnlyCurrentPublish(s: State, local: Backend, events: seq<Event>)
    decreases |events|
  {
    |events| == 0
    || ((events[0].Publish? ==> IsCurrent(s, events[0].uid, events[0].conn)) && OnlyCurrentPublish(Apply(s, local, events[0]), local, events[1..]))
  }

  lemma {:induction false} QuietReplacedAgentsAreCovered(s: State, local: Backend, events: seq<Event>)
    requires Covered(s) && OnlyCurrentPublish(s, local, events)
    ensures CoveredThroughout(s, local, events)
    decreases |events|
  {
    if |events| > 0 {
      QuietReplacedAgentsAreCovered(Apply(s, local, events[0]), local, events[1..]);
    }
  }

  /**
   A replaced connection that publishes after its successor has gone leaves a
   private list nobody removes: not its own disconnect either.
   */
  lemma ReplacedAgentCanLeaveDevices(local: Backend, uid: Uid, devices: seq<AR.Sanitized>, first: Conn, second: Conn)
    requires first.token != second.token
    ensures var events := [Register(uid, first), Register(uid, second), Disconnect(uid, second), Publish(uid, first, devices), Disconnect(uid, first)];
            var s := Run(BOOT, local, events);
            s.agents == map[] && s.tenants.priv == map[uid := AR.ToSnapshot(devices)]
  {
    var e := [Register(uid, first), Register(uid, second), Disconnect(uid, second), Publish(uid, first, devices), Disconnect(uid, first)];
    var s1 := Apply(BOOT, local, e[0]);
    var s2 := Apply(s1, local, e[1]);
    var s3 := Apply(s2, local, e[2]);
    var s4 := Apply(s3, local, e[3]);
    assert e[1..][1..][1..][1..][1..] == [];
    assert e[1..][1..][1..][1..][0] == e[4] && e[1..][1..][1..][0] == e[3] && e[1..][1..][0] == e[2];
    assert Run(s4, local, e[1..][1..][1..][1..]) == Apply(s4, local, e[4]);
    assert Run(s3, local, e[1..][1..][1..]) == Run(s4, local, e[1..][1..][1..][1..]);
    assert Run(s2, local, e[1..][1..]) == Run(s3, local, e[1..][1..][1..]);
    assert Run(s1, local, e[1..]) == Run(s2, local, e[1..][1..]);
  }
}
