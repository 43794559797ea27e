/**
 The agent's route table and the device list it publishes, and the way back: an
 open the daemon sends for a listed private device meets the route of that device.
 */
module AgentRoutes {
  import opened Wrappers
  import opened Text
  import opened Registry
  import opened MergeNames
  import opened Policy
  import opened Session
  import opened Routing

  datatype RouteEntry = RouteEntry(addr: SocketAddr, pairCode: Option<string>, upstreamSerial: string)

  datatype Sanitized = Sanitized(
    publicSerial: string, upstreamSerial: string, state: string, extras: string, backendName: string, routeId: string)

  function RouteId(d: Device): string {
    d.backendName + ":" + d.upstreamSerial
  }

  function EntryOf(d: Device): RouteEntry {
    RouteEntry(d.backendAddr, d.pairCode, d.upstreamSerial)
  }

  function Sanitize(d: Device): Sanitized {
    Sanitized(d.publicSerial, d.upstreamSerial, d.state, d.extras, d.backendName, RouteId(d))
  }

  function SanitizeAll(snap: Snapshot): seq<Sanitized> {
    seq(|snap|, i requires 0 <= i < |snap| => Sanitize(snap[i]))
  }

  /** Later devices overwrite earlier ones of the same id. */
  function Routes(snap: Snapshot): map<string, RouteEntry> {
    if |snap| == 0 then map[]
    else Routes(snap[..|snap| - 1])[RouteId(snap[|snap| - 1]) := EntryOf(snap[|snap| - 1])]
  }

  /** The agent's table, replaced on every refresh, and its counter of published lists. */
  class RouteTable {
    var routes: map<string, RouteEntry>
    var generation: nat

    constructor ()
      ensures routes == map[] && generation == 0
    {
      routes, generation := map[], 0;
    }

    /** The part of `refresh_and_publish` after the lists were merged and filtered. */
    method Publish(snap: Snapshot) returns (message: seq<Sanitized>)
      modifies this
      ensures routes == Routes(snap)
      ensures generation == old(generation) + 1
      ensures message == SanitizeAll(snap)
    {
      var newRoutes: map<string, RouteEntry> := map[];
      message := [];
      for i := 0 to |snap|
        invariant newRoutes == Routes(snap[..i])
        invariant message == SanitizeAll(snap)[..i]
      {
        assert snap[..i + 1][..i] == snap[..i];
        newRoutes := newRoutes[RouteId(snap[i]) := EntryOf(snap[i])];
        message := message + [Sanitize(snap[i])];
      }
      assert snap[..|snap|] == snap;
      routes := newRoutes;
      generation := generation + 1;
    }
  }

  /** `sanitized_to_snapshot`: what the daemon keeps of a published list. */
  function ToDaemon(s: Sanitized): Device {
    Device(s.publicSerial, s.upstreamSerial, s.state, s.extras, s.backendName,
           SocketAddr("127.0.0.1", 0), None, Some(s.routeId))
  }

  function ToSnapshot(devices: seq<Sanitized>): Snapshot {
    seq(|devices|, i requires 0 <= i < |devices| => ToDaemon(devices[i]))
  }

  // ---------- the table resolves what was published ----------

  ghost predicate Resolves(snap: Snapshot) {
    forall i :: 0 <= i < |snap| ==> RouteId(snap[i]) in Routes(snap) && Routes(snap)[RouteId(snap[i])] == EntryOf(snap[i])
  }

  /** Devices that share an id share backend and serial. */
  ghost predicate IdsIdentify(snap: Snapshot) {
    forall i, j :: 0 <= i < j < |snap| && RouteId(snap[i]) == RouteId(snap[j]) ==> EntryOf(snap[i]) == EntryOf(snap[j])
  }

  /** The entry kept for an id is that of the last device with it. */
  lemma {:induction false} RouteComesFrom(snap: Snapshot, id: string) returns (i: nat)
    requires id in Routes(snap)
    ensures i < |snap| && RouteId(snap[i]) == id && Routes(snap)[id] == EntryOf(snap[i])
    ensures forall k :: i < k < |snap| ==> RouteId(snap[k]) != id
    decreases |snap|
  {
    var last := |snap| - 1;
    if RouteId(snap[last]) == id {
      i := last;
    } else {
      i := RouteComesFrom(snap[..last], id);
    }
  }

  lemma {:induction false} RouteExists(snap: Snapshot, i: nat)
    requires i < |snap|
    ensures RouteId(snap[i]) in Routes(snap)
    decreases |snap|
  {
    if i < |snap| - 1 { RouteExists(snap[..|snap| - 1], i); }
  }

  /** Every published id leads to the address, pair code and serial of its device, if and only if ids identify devices. */
  lemma ResolvesExactly(snap: Snapshot)
    ensures Resolves(snap) <==> IdsIdentify(snap)
  {
    forall i: nat | i < |snap|
      ensures RouteId(snap[i]) in Routes(snap)
      ensures IdsIdentify(snap) ==> Routes(snap)[RouteId(snap[i])] == EntryOf(snap[i])
    {
      RouteExists(snap, i);
      var j := RouteComesFrom(snap, RouteId(snap[i]));
    }
  }

  /** Configured backends with distinct, colon-free names. */
  ghost predicate WellNamed(lists: seq<(Backend, string)>) {
    && (forall i, j :: 0 <= i < j < |lists| ==> lists[i].0.name != lists[j].0.name)
    && (forall i :: 0 <= i < |lists| ==> ':' !in lists[i].0.name)
  }

  /** A device of the merged list carries its backend's address and pair code. */
  lemma MergedDeviceBackend(lists: seq<(Backend, string)>, d: Device) returns (k: nat)
    requires d in Merge(lists)
    ensures k < |lists|
    ensures d.backendName == lists[k].0.name && d.backendAddr == lists[k].0.addr && d.pairCode == lists[k].0.pairCode
    ensures d.routeId == None
  {
    var i: nat :| i < |Merge(lists)| && Merge(lists)[i] == d;
    MergeKeepsRows(lists, i);
    k := RowBackend(lists, i);
  }

  lemma WellNamedIdentifies(lists: seq<(Backend, string)>, p: HubPolicy)
    requires WellNamed(lists)
    ensures Resolves(FilterSnapshot(p, Merge(lists)))
  {
    var snap := FilterSnapshot(p, Merge(lists));
    FilterMembers(p, Merge(lists));
    forall i, j | 0 <= i < j < |snap| && RouteId(snap[i]) == RouteId(snap[j])
      ensures EntryOf(snap[i]) == EntryOf(snap[j])
    {
      assert snap[i] in snap && snap[j] in snap;
      var k := MergedDeviceBackend(lists, snap[i]);
      var l := MergedDeviceBackend(lists, snap[j]);
      SplitAtColon(snap[i].backendName, snap[i].upstreamSerial, snap[j].backendName, snap[j].upstreamSerial);
      assert k == l by { if k < l {} else if l < k {} }
    }
    ResolvesExactly(snap);
  }

  /** Publishing keeps every column of a device, hides its code and adds its route. */
  lemma PublishedColumns(d: Device)
    ensures var x := ToDaemon(Sanitize(d));
            && x.publicSerial == d.publicSerial && x.upstreamSerial == d.upstreamSerial && x.state == d.state
            && x.extras == d.extras && x.backendName == d.backendName
            && x.routeId == Some(d.backendName + ":" + d.upstreamSerial) && x.pairCode == None
            && x.backendAddr == SocketAddr("127.0.0.1", 0)
  {
  }

  /** What the daemon prints of a published list is what the agent would print. */
  lemma {:induction false} PublishedPrintsAlike(snap: Snapshot, long: bool)
    ensures Format(ToSnapshot(SanitizeAll(snap)), long) == Format(snap, long)
  {
    if |snap| > 0 {
      PublishedColumns(snap[0]);
      PublishedPrintsAlike(snap[1..], long);
      assert ToSnapshot(SanitizeAll(snap))[1..] == ToSnapshot(SanitizeAll(snap[1..]));
    }
  }

  // ---------- through the daemon and back ----------

  lemma {:induction false} FindConcat(a: Snapshot, b: Snapshot, serial: string)
    ensures Find(a + b, serial) == if Find(a, serial).Some? then Find(a, serial) else Find(b, serial)
  {
    if |a| == 0 {
      assert a + b == b;
    } else {
      FindConcat(a[1..], b, serial);
      assert (a + b)[1..] == a[1..] + b;
    }
  }

  lemma {:induction false} FindPublished(snap: Snapshot, serial: string)
    ensures Find(ToSnapshot(SanitizeAll(snap)), serial)
         == match Find(snap, serial) case Some(d) => Some(ToDaemon(Sanitize(d))) case None => None
  {
    var pub := ToSnapshot(SanitizeAll(snap));
    if |snap| > 0 {
      FindPublished(snap[1..], serial);
      assert pub[1..] == ToSnapshot(SanitizeAll(snap[1..]));
    }
  }

  /** In the view of a user a private device is found under its name exactly when no shared one is. */
  lemma FoundInView(shared: Snapshot, mine: Snapshot, d: Device)
    requires Find(mine, d.publicSerial) == Some(d)
    requires forall x :: x in shared ==> x.routeId == None
    ensures var found := Find(shared + ToSnapshot(SanitizeAll(mine)), d.publicSerial);
            && found.Some?
            && (Find(shared, d.publicSerial) == None ==> found.value == ToDaemon(Sanitize(d)))
            && (Find(shared, d.publicSerial) != None ==> found.value.routeId == None)
  {
    FindPublished(mine, d.publicSerial);
    FindConcat(shared, ToSnapshot(SanitizeAll(mine)), d.publicSerial);
    FindMember(shared, d.publicSerial);
  }

  /** A listed private device: found under its name, online, and its id leads to the backend that listed it. */
  lemma ListedPrivate(lists: seq<(Backend, string)>, p: HubPolicy, i: nat)
    requires WellNamed(lists) && FallbacksFree(Rows(lists))
    requires i < |Rows(lists)| == |Merge(lists)|
    requires Admits(p, Merge(lists)[i])
    ensures var row, d, mine := Rows(lists)[i], Merge(lists)[i], FilterSnapshot(p, Merge(lists));
            && Find(mine, d.publicSerial) == Some(d) && d.upstreamSerial == row.dev.serial && d.state == row.dev.state
            && RouteId(d) in Routes(mine)
            && Routes(mine)[RouteId(d)] == RouteEntry(row.backend.addr, row.backend.pairCode, row.dev.serial)
  {
    var d, mine := Merge(lists)[i], FilterSnapshot(p, Merge(lists));
    MergeKeepsRows(lists, i);
    MergeDistinctExactly(lists);
    assert d in Merge(lists);
    FilterMembers(p, Merge(lists));
    FindListed(Merge(lists), p, d);
    WellNamedIdentifies(lists, p);
    var j: nat :| j < |mine| && mine[j] == d;
    assert Routes(mine)[RouteId(mine[j])] == EntryOf(mine[j]);
  }

  /** Naming a device that is found takes its route if it has one, else its address. */
  lemma RouteOfNamed(name: string, view: Snapshot, backendOrder: seq<string>, local: Option<Backend>)
    requires Find(view, name).Some? && Online(Find(view, name).value)
    ensures var d := Find(view, name).value;
            && RouteMulti(TRANSPORT + name, view, backendOrder, local)
               == Ok(if d.routeId.Some? then Private(d.routeId.value, TRANSPORT + d.upstreamSerial) else Shared(d.backendAddr, TRANSPORT + d.upstreamSerial))
            && RouteMulti(TPORT_SERIAL + name, view, backendOrder, local)
               == Ok(if d.routeId.Some? then Private(d.routeId.value, TPORT_SERIAL + d.upstreamSerial) else Shared(d.backendAddr, TPORT_SERIAL + d.upstreamSerial))
  {
    TransportRewrites(name, view, backendOrder);
    TportRewrites(name, view, backendOrder);
  }

  lemma OfflineHasNoRoute(name: string, view: Snapshot, backendOrder: seq<string>, local: Option<Backend>)
    requires Find(view, name).Some? && !Online(Find(view, name).value)
    ensures RouteMulti(TRANSPORT + name, view, backendOrder, local).Err? && RouteMulti(TPORT_SERIAL + name, view, backendOrder, local).Err?
  {
    TransportRewrites(name, view, backendOrder);
    TportRewrites(name, view, backendOrder);
  }

  /**
   A private device the user sees online is opened through the route its own agent
   published, and the agent's table turns that route into the backend that listed
   the device - if and only if no shared device has the same public serial.
   */
  lemma PrivateSerialRoutesHomeExactly(
    lists: seq<(Backend, string)>, p: HubPolicy, i: nat, shared: Snapshot, backendOrder: seq<string>, local: Option<Backend>)
    requires WellNamed(lists) && FallbacksFree(Rows(lists))
    requires i < |Rows(lists)| == |Merge(lists)|
    requires Admits(p, Merge(lists)[i]) && Rows(lists)[i].dev.state == "device"
    requires forall d :: d in shared ==> d.routeId == None
    ensures var row, d, mine := Rows(lists)[i], Merge(lists)[i], FilterSnapshot(p, Merge(lists));
            var view := shared + ToSnapshot(SanitizeAll(mine));
            && RouteId(d) in Routes(mine)
            && Routes(mine)[RouteId(d)] == RouteEntry(row.backend.addr, row.backend.pairCode, row.dev.serial)
            && (RouteMulti(TRANSPORT + d.publicSerial, view, backendOrder, local)
                  == Ok(Private(RouteId(d), TRANSPORT + row.dev.serial))
                <==> Find(shared, d.publicSerial) == None)
            && (RouteMulti(TPORT_SERIAL + d.publicSerial, view, backendOrder, local)
                  == Ok(Private(RouteId(d), TPORT_SERIAL + row.dev.serial))
                <==> Find(shared, d.publicSerial) == None)
  {
    var d, mine := Merge(lists)[i], FilterSnapshot(p, Merge(lists));
    var view := shared + ToSnapshot(SanitizeAll(mine));
    ListedPrivate(lists, p, i);
    FoundInView(shared, mine, d);
    if Online(Find(view, d.publicSerial).value) {
      RouteOfNamed(d.publicSerial, view, backendOrder, local);
    } else {
      OfflineHasNoRoute(d.publicSerial, view, backendOrder, local);
    }
  }

  /** A shared device is reached at the shared server under its own serial, whatever the caller's private list holds. */
  lemma SharedSerialRoutesHome(
    local: Backend, body: string, i: nat, priv: Snapshot, backendOrder: seq<string>, server: Option<Backend>)
    requires FallbacksFree(Rows([(local, body)]))
    requires i < |Rows([(local, body)])| == |Merge([(local, body)])|
    requires Rows([(local, body)])[i].dev.state == "device"
    ensures var row, d, shared := Rows([(local, body)])[i], Merge([(local, body)])[i], Merge([(local, body)]);
            && RouteMulti(TRANSPORT + d.publicSerial, shared + priv, backendOrder, server)
               == Ok(Shared(local.addr, TRANSPORT + row.dev.serial))
            && RouteMulti(TPORT_SERIAL + d.publicSerial, shared + priv, backendOrder, server)
               == Ok(Shared(local.addr, TPORT_SERIAL + row.dev.serial))
  {
    var lists := [(local, body)];
    var d, shared := Merge(lists)[i], Merge(lists);
    MergeKeepsRows(lists, i);
    MergeDistinctExactly(lists);
    var k := RowBackend(lists, i);
    FindAt(shared, i);
    FindConcat(shared, priv, d.publicSerial);
    TransportRewrites(d.publicSerial, shared + priv, backendOrder);
    TportRewrites(d.publicSerial, shared + priv, backendOrder);
  }
}
