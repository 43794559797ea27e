/**
 Routing one adb service: which device a service without a serial means, and how
 services that name a device are rewritten for the backend that has it.
 */
module Session {
  import opened Wrappers
  import opened Text
  import opened Registry
  import opened Selections

  datatype RouteError =
    | NotFound(serial: string)
    | NotOnline(serial: string, state: string)
    | InvalidHostSerial
    | MoreThanOne(backend: string)
    | NoDevices
    | NoSharedLocal

  const LOCAL := "local"

  // ---------- the preferred device ----------

  /** Online devices of one backend, in order. */
  function OnlineOn(snap: Snapshot, name: string): Snapshot {
    if |snap| == 0 then []
    else if snap[0].backendName == name && Online(snap[0]) then [snap[0]] + OnlineOn(snap[1..], name)
    else OnlineOn(snap[1..], name)
  }

  lemma {:induction false} OnlineOnMembers(snap: Snapshot, name: string)
    ensures forall d :: d in OnlineOn(snap, name) <==> d in snap && d.backendName == name && Online(d)
  {
    if |snap| > 0 { OnlineOnMembers(snap[1..], name); }
  }

  /** The devices of the backend whose state reads `device`: all of them, in order. */
  lemma OnlineOnIs(snap: Snapshot, name: string)
    ensures IsSelection(snap, (d: Device) => d.backendName == name && d.state == "device", OnlineOn(snap, name))
  {
    OnlineOnChosen(snap, name);
    ChosenIs(snap, (d: Device) => d.backendName == name && d.state == "device");
  }

  lemma {:induction false} OnlineOnChosen(snap: Snapshot, name: string)
    ensures OnlineOn(snap, name) == Chosen(snap, (d: Device) => d.backendName == name && d.state == "device")
  {
    if |snap| > 0 { OnlineOnChosen(snap[1..], name); }
  }

  function BackendNames(snap: Snapshot): (names: seq<string>)
    ensures |names| == |snap| && forall i :: 0 <= i < |snap| ==> names[i] == snap[i].backendName
  {
    seq(|snap|, i requires 0 <= i < |snap| => snap[i].backendName)
  }

  /** The first name of the list that has an online device. */
  function FirstLive(snap: Snapshot, names: seq<string>): Option<string> {
    if |names| == 0 then None
    else if OnlineOn(snap, names[0]) != [] then Some(names[0])
    else FirstLive(snap, names[1..])
  }

  /** The only online device of the first live backend. */
  function PickFrom(snap: Snapshot, names: seq<string>): Result<Device, RouteError> {
    match FirstLive(snap, names)
    case None => Err(NoDevices)
    case Some(name) =>
      var online := OnlineOn(snap, name);
      if |online| == 1 then Ok(online[0]) else Err(MoreThanOne(name))
  }

  /** Local first, then the configured order, then the order of the list itself. */
  function Candidates(snap: Snapshot, backendOrder: seq<string>): seq<string> {
    [LOCAL] + backendOrder + BackendNames(snap)
  }

  function Pick(snap: Snapshot, backendOrder: seq<string>): Result<Device, RouteError> {
    PickFrom(snap, Candidates(snap, backendOrder))
  }

  lemma {:induction false} FirstLiveConcat(snap: Snapshot, a: seq<string>, b: seq<string>)
    ensures FirstLive(snap, a + b) == if FirstLive(snap, a).Some? then FirstLive(snap, a) else FirstLive(snap, b)
  {
    if a == [] {
      assert a + b == b;
    } else {
      FirstLiveConcat(snap, a[1..], b);
      assert (a + b)[1..] == a[1..] + b;
    }
  }

  lemma {:induction false} NoneLive(snap: Snapshot, names: seq<string>)
    ensures FirstLive(snap, names).None? ==> forall n :: n in names ==> OnlineOn(snap, n) == []
    ensures FirstLive(snap, names).Some? ==>
              FirstLive(snap, names).value in names && OnlineOn(snap, FirstLive(snap, names).value) != []
  {
    if names != [] { NoneLive(snap, names[1..]); }
  }

  /** Same first live name, and nothing live of `seen` is missing from `order`. */
  ghost predicate StandsFor(snap: Snapshot, order: seq<string>, seen: seq<string>) {
    && FirstLive(snap, order) == FirstLive(snap, seen)
    && forall n :: n in seen ==> n in order || OnlineOn(snap, n) == []
  }

  lemma SkipName(snap: Snapshot, order: seq<string>, seen: seq<string>, n: string)
    requires StandsFor(snap, order, seen)
    requires n in order || OnlineOn(snap, n) == []
    ensures StandsFor(snap, order, seen + [n])
  {
    FirstLiveConcat(snap, seen, [n]);
    NoneLive(snap, order);
  }

  lemma PushName(snap: Snapshot, order: seq<string>, seen: seq<string>, n: string)
    requires StandsFor(snap, order, seen)
    ensures StandsFor(snap, order + [n], seen + [n])
  {
    FirstLiveConcat(snap, seen, [n]);
    FirstLiveConcat(snap, order, [n]);
  }

  method PickOneOnBackend(snap: Snapshot, name: string) returns (online: Snapshot)
    ensures online == OnlineOn(snap, name)
  {
    online := [];
    for i := 0 to |snap|
      invariant online + OnlineOn(snap[i..], name) == OnlineOn(snap, name)
    {
      assert snap[i..][1..] == snap[i + 1..];
      if snap[i].backendName == name && Online(snap[i]) {
        Assoc(online, [snap[i]], OnlineOn(snap[i + 1..], name));
        online := online + [snap[i]];
      }
    }
  }

  lemma {:induction false} NothingOnUnlisted(snap: Snapshot, name: string)
    requires forall d :: d in snap ==> d.backendName != name
    ensures OnlineOn(snap, name) == []
  {
    if snap != [] {
      assert snap[0] in snap;
      NothingOnUnlisted(snap[1..], name);
    }
  }

  lemma OneMore(seen0: seq<string>, names: seq<string>, i: nat)
    requires i < |names|
    ensures seen0 + names[..i] + [names[i]] == seen0 + names[..i + 1]
  {
  }

  /** The configured names, each once, local left out. */
  method PushConfigured(snap: Snapshot, names: seq<string>, order0: seq<string>) returns (order: seq<string>)
    requires StandsFor(snap, order0, [LOCAL])
    ensures StandsFor(snap, order, [LOCAL] + names)
  {
    order := order0;
    assert [LOCAL] + names[..0] == [LOCAL];
    for i := 0 to |names|
      invariant StandsFor(snap, order, [LOCAL] + names[..i])
    {
      var name := names[i];
      OneMore([LOCAL], names, i);
      if name != LOCAL && name !in order {
        PushName(snap, order, [LOCAL] + names[..i], name);
        order := order + [name];
      } else {
        assert LOCAL in [LOCAL] + names[..i];
        SkipName(snap, order, [LOCAL] + names[..i], name);
      }
    }
    assert names[..|names|] == names;
  }

  /** The names of the list itself, each once. */
  method PushListed(snap: Snapshot, names: seq<string>, order0: seq<string>, ghost seen: seq<string>) returns (order: seq<string>)
    requires StandsFor(snap, order0, seen)
    ensures StandsFor(snap, order, seen + names)
  {
    order := order0;
    assert seen + names[..0] == seen;
    for i := 0 to |names|
      invariant StandsFor(snap, order, seen + names[..i])
    {
      var name := names[i];
      OneMore(seen, names, i);
      if name !in order {
        PushName(snap, order, seen + names[..i], name);
        order := order + [name];
      } else {
        SkipName(snap, order, seen + names[..i], name);
      }
    }
    assert names[..|names|] == names;
  }

  /** The search order: local first when anything speaks for it, then the other names, each once. */
  method SearchOrder(snap: Snapshot, backendOrder: seq<string>) returns (order: seq<string>)
    ensures StandsFor(snap, order, Candidates(snap, backendOrder))
  {
    order := [];
    if LOCAL in backendOrder || LOCAL in BackendNames(snap) {
      order := [LOCAL];
    } else {
      assert forall d :: d in snap ==> d.backendName in BackendNames(snap);
      NothingOnUnlisted(snap, LOCAL);
    }
    order := PushConfigured(snap, backendOrder, order);
    order := PushListed(snap, BackendNames(snap), order, [LOCAL] + backendOrder);
  }

  /** `pick_preferred`: the loops compute the specification above. */
  method PickPreferred(snap: Snapshot, backendOrder: seq<string>) returns (r: Result<Device, RouteError>)
    ensures r == Pick(snap, backendOrder)
  {
    var order := SearchOrder(snap, backendOrder);
    for i := 0 to |order|
      invariant FirstLive(snap, order) == FirstLive(snap, order[i..])
    {
      var online := PickOneOnBackend(snap, order[i]);
      assert order[i..][1..] == order[i + 1..];
      if |online| == 1 {
        return Ok(online[0]);
      } else if |online| > 1 {
        return Err(MoreThanOne(order[i]));
      }
    }
    return Err(NoDevices);
  }

  /** The daemon's order: local when there is a shared server, then the names of the list as they appear. */
  method BackendOrder(snap: Snapshot, hasLocal: bool) returns (order: seq<string>)
    ensures order == DaemonOrder(snap, hasLocal)
  {
    order := [];
    if hasLocal {
      order := order + [LOCAL];
    }
    for i := 0 to |snap|
      invariant order == DaemonOrder(snap[..i], hasLocal)
    {
      assert snap[..i + 1][..i] == snap[..i];
      if snap[i].backendName !in order {
        order := order + [snap[i].backendName];
      }
    }
    assert snap[..|snap|] == snap;
  }

  function DaemonOrder(snap: Snapshot, hasLocal: bool): seq<string> {
    if |snap| == 0 then if hasLocal then [LOCAL] else []
    else
      var before := DaemonOrder(snap[..|snap| - 1], hasLocal);
      var name := snap[|snap| - 1].backendName;
      if name in before then before else before + [name]
  }

  // ---------- rewriting a service ----------

  function LookupDevice(snap: Snapshot, serial: string): Result<Device, RouteError> {
    match Find(snap, serial)
    case Some(d) => Ok(d)
    case None => Err(NotFound(serial))
  }

  function LookupOnline(snap: Snapshot, serial: string): Result<Device, RouteError> {
    match LookupDevice(snap, serial)
    case Ok(d) => if Online(d) then Ok(d) else Err(NotOnline(serial, d.state))
    case Err(e) => Err(e)
  }

  const TPORT_ANY := "host:tport:any"
  const TPORT_USB := "host:tport:usb"
  const TPORT_LOCAL := "host:tport:local"
  const TRANSPORT_ANY := "host:transport-any"
  const TRANSPORT_USB := "host:transport-usb"
  const TRANSPORT_LOCAL := "host:transport-local"
  const TPORT := "host:tport:"
  const TPORT_SERIAL := "host:tport:serial:"
  const TRANSPORT := "host:transport:"
  const HOST_SERIAL := "host-serial:"
  const HOST_USB := "host-usb:"
  const HOST_LOCAL := "host-local:"
  const HOST := "host:"

  type Rewritten = Result<Option<(Device, string)>, RouteError>

  function With(r: Result<Device, RouteError>, upstream: Device -> string): Rewritten {
    match r
    case Ok(d) => Ok(Some((d, upstream(d))))
    case Err(e) => Err(e)
  }

  predicate IsSelector(service: string) {
    service == TPORT_ANY || service == TPORT_USB || service == TPORT_LOCAL
    || service == TRANSPORT_ANY || service == TRANSPORT_USB || service == TRANSPORT_LOCAL
  }

  predicate IsDeviceQuery(request: string) {
    request == "get-state" || request == "get-serialno" || request == "get-devpath" || request == "get-connection-state"
  }

  function RewriteHostSerial(rest: string, snap: Snapshot): Rewritten {
    var i := FindChar(rest, ':');
    if i == |rest| then Err(InvalidHostSerial)
    else With(LookupDevice(snap, rest[..i]), (d: Device) => HOST_SERIAL + d.upstreamSerial + ":" + rest[i + 1..])
  }

  function RewritePreferred(request: string, snap: Snapshot, backendOrder: seq<string>): Rewritten {
    With(Pick(snap, backendOrder), (d: Device) => HOST_SERIAL + d.upstreamSerial + ":" + request)
  }

  function RewriteHostQuery(service: string, snap: Snapshot, backendOrder: seq<string>): Rewritten {
    if (service == "host:features" || service == "host:host-features") && Pick(snap, backendOrder).Ok? then
      Ok(Some((Pick(snap, backendOrder).value, service)))
    else if HOST <= service && IsDeviceQuery(service[|HOST|..]) then
      RewritePreferred(service[|HOST|..], snap, backendOrder)
    else Ok(None)
  }

  /** `rewrite_upstream_service`, test by test. */
  function RewriteUpstream(service: string, snap: Snapshot, backendOrder: seq<string>): Rewritten {
    if IsSelector(service) then
      With(Pick(snap, backendOrder),
           (d: Device) => (if TPORT <= service then TPORT_SERIAL else TRANSPORT) + d.upstreamSerial)
    else if TPORT_SERIAL <= service then
      With(LookupOnline(snap, service[|TPORT_SERIAL|..]), (d: Device) => TPORT_SERIAL + d.upstreamSerial)
    else if TRANSPORT <= service then
      With(LookupOnline(snap, service[|TRANSPORT|..]), (d: Device) => TRANSPORT + d.upstreamSerial)
    else if HOST_SERIAL <= service then RewriteHostSerial(service[|HOST_SERIAL|..], snap)
    else if HOST_USB <= service then RewritePreferred(service[|HOST_USB|..], snap, backendOrder)
    else if HOST_LOCAL <= service then RewritePreferred(service[|HOST_LOCAL|..], snap, backendOrder)
    else RewriteHostQuery(service, snap, backendOrder)
  }

  /** The single-user hub: address, pair code and service to use. */
  function RouteService(
    service: string, snap: Snapshot, defaultAddr: SocketAddr, defaultCode: Option<string>, backendOrder: seq<string>
  ): Result<(SocketAddr, Option<string>, string), RouteError> {
    match RewriteUpstream(service, snap, backendOrder)
    case Err(e) => Err(e)
    case Ok(Some((d, upstream))) => Ok((d.backendAddr, d.pairCode, upstream))
    case Ok(None) => Ok((defaultAddr, defaultCode, service))
  }

  datatype Route = Shared(addr: SocketAddr, upstream: string) | Private(routeId: string, upstream: string)

  /** The multi-user daemon: a shared address or a route of the caller's agent. */
  function RouteMulti(service: string, snap: Snapshot, backendOrder: seq<string>, local: Option<Backend>): Result<Route, RouteError> {
    match RewriteUpstream(service, snap, backendOrder)
    case Err(e) => Err(e)
    case Ok(Some((d, upstream))) =>
      if d.routeId.Some? then Ok(Private(d.routeId.value, upstream)) else Ok(Shared(d.backendAddr, upstream))
    case Ok(None) =>
      if local.Some? then Ok(Shared(local.value.addr, service)) else Err(NoSharedLocal)
  }
}
