/**
 What every service text means, case by case: which services name a device, which
 mean the preferred one, which are passed on as they are, and where each is sent.
 */
module Services {
  import opened Wrappers
  import opened Text
  import opened Registry
  import opened Session
  import opened Routing

  // ---------- the preferred device ----------

  /** The choice falls on this backend: its device if it has one online, an error if it has several. */
  ghost predicate ChoosesBackend(snap: Snapshot, backendOrder: seq<string>, name: string) {
    && OnlineOn(snap, name) != []
    && Pick(snap, backendOrder)
       == if |OnlineOn(snap, name)| == 1 then Ok(OnlineOn(snap, name)[0]) else Err(MoreThanOne(name))
  }

  lemma PickBy(snap: Snapshot, backendOrder: seq<string>, name: string)
    requires FirstLive(snap, Candidates(snap, backendOrder)) == Some(name)
    ensures ChoosesBackend(snap, backendOrder, name)
  {
    NoneLive(snap, Candidates(snap, backendOrder));
  }

  lemma {:induction false} FirstLiveAt(snap: Snapshot, names: seq<string>, k: nat)
    requires k < |names| && OnlineOn(snap, names[k]) != [] && forall j :: 0 <= j < k ==> OnlineOn(snap, names[j]) == []
    ensures FirstLive(snap, names) == Some(names[k])
  {
    if k > 0 { FirstLiveAt(snap, names[1..], k - 1); }
  }

  lemma {:induction false} FirstLiveNone(snap: Snapshot, names: seq<string>)
    requires forall j :: 0 <= j < |names| ==> OnlineOn(snap, names[j]) == []
    ensures FirstLive(snap, names) == None
  {
    if |names| > 0 { FirstLiveNone(snap, names[1..]); }
  }

  lemma FirstLiveAfter(snap: Snapshot, dead: seq<string>, names: seq<string>, i: nat)
    requires forall j :: 0 <= j < |dead| ==> OnlineOn(snap, dead[j]) == []
    requires i < |names| && OnlineOn(snap, names[i]) != [] && forall j :: 0 <= j < i ==> OnlineOn(snap, names[j]) == []
    ensures FirstLive(snap, dead + names) == Some(names[i])
  {
    FirstLiveNone(snap, dead);
    FirstLiveConcat(snap, dead, names);
    FirstLiveAt(snap, names, i);
  }

  lemma DeadWithLocal(snap: Snapshot, names: seq<string>)
    requires OnlineOn(snap, "local") == [] && forall j :: 0 <= j < |names| ==> OnlineOn(snap, names[j]) == []
    ensures var all := [LOCAL] + names; forall j :: 0 <= j < |all| ==> OnlineOn(snap, all[j]) == []
  {
    var all := [LOCAL] + names;
    forall j | 0 <= j < |all|
      ensures OnlineOn(snap, all[j]) == []
    {
      if j > 0 { assert all[j] == names[j - 1]; }
    }
  }

  /** The local server comes first, wherever it is configured or listed. */
  lemma LocalFirst(snap: Snapshot, backendOrder: seq<string>)
    requires OnlineOn(snap, "local") != []
    ensures ChoosesBackend(snap, backendOrder, "local")
  {
    FirstLiveAt(snap, Candidates(snap, backendOrder), 0);
    PickBy(snap, backendOrder, "local");
  }

  /** Then the configured backends, in order. */
  lemma ConfiguredNext(snap: Snapshot, backendOrder: seq<string>, k: nat)
    requires OnlineOn(snap, "local") == []
    requires k < |backendOrder| && OnlineOn(snap, backendOrder[k]) != []
    requires forall j :: 0 <= j < k ==> OnlineOn(snap, backendOrder[j]) == []
    ensures ChoosesBackend(snap, backendOrder, backendOrder[k])
  {
    var c := Candidates(snap, backendOrder);
    assert c[k + 1] == backendOrder[k] && forall j :: 0 < j <= k ==> c[j] == backendOrder[j - 1];
    FirstLiveAt(snap, c, k + 1);
    PickBy(snap, backendOrder, backendOrder[k]);
  }

  /** Then the others, as the list has them. */
  lemma ListedLast(snap: Snapshot, backendOrder: seq<string>, i: nat)
    requires OnlineOn(snap, "local") == [] && forall j :: 0 <= j < |backendOrder| ==> OnlineOn(snap, backendOrder[j]) == []
    requires i < |snap| && OnlineOn(snap, snap[i].backendName) != []
    requires forall j :: 0 <= j < i ==> OnlineOn(snap, snap[j].backendName) == []
    ensures ChoosesBackend(snap, backendOrder, snap[i].backendName)
  {
    DeadWithLocal(snap, backendOrder);
    FirstLiveAfter(snap, [LOCAL] + backendOrder, BackendNames(snap), i);
    PickBy(snap, backendOrder, snap[i].backendName);
  }

  // ---------- services by their text ----------

  /** Services that mean one device, named or not. */
  predicate DeviceScoped(service: string) {
    || service in {"host:tport:any", "host:tport:usb", "host:tport:local",
                   "host:transport-any", "host:transport-usb", "host:transport-local"}
    || "host:tport:serial:" <= service || "host:transport:" <= service
    || "host-serial:" <= service || "host-usb:" <= service || "host-local:" <= service
    || service in {"host:get-state", "host:get-serialno", "host:get-devpath", "host:get-connection-state"}
  }

  predicate AsksFeatures(service: string) {
    service == "host:features" || service == "host:host-features"
  }

  /** The bare queries, written out. */
  lemma QueryTexts(service: string)
    ensures HOST <= service && IsDeviceQuery(service[|HOST|..]) <==>
              service in {"host:get-state", "host:get-serialno", "host:get-devpath", "host:get-connection-state"}
  {
    if HOST <= service {
      assert service == HOST + service[|HOST|..];
    }
    assert HOST + "get-state" == "host:get-state" && HOST + "get-serialno" == "host:get-serialno";
    assert HOST + "get-devpath" == "host:get-devpath" && HOST + "get-connection-state" == "host:get-connection-state";
  }

  lemma FeatureTexts(service: string)
    requires AsksFeatures(service)
    ensures !DeviceScoped(service)
  {
    assert service[5] == 'f' || service[5] == 'h';
    assert service[4] == ':';
    assert "host:tport:serial:"[5] == 't' && "host:transport:"[5] == 't';
    assert "host-serial:"[4] == '-' && "host-usb:"[4] == '-' && "host-local:"[4] == '-';
    assert "host:tport:any"[5] == 't' && "host:tport:usb"[5] == 't' && "host:tport:local"[5] == 't';
    assert "host:transport-any"[5] == 't' && "host:transport-usb"[5] == 't' && "host:transport-local"[5] == 't';
    assert "host:get-state"[5] == 'g' && "host:get-serialno"[5] == 'g' && "host:get-devpath"[5] == 'g' && "host:get-connection-state"[5] == 'g';
  }

  /** Exactly the services that mean no device are passed on, and a features query while no device is preferred. */
  lemma PassedOnExactly(service: string, snap: Snapshot, backendOrder: seq<string>)
    ensures RewriteUpstream(service, snap, backendOrder) == Ok(None) <==>
              !DeviceScoped(service) && !(AsksFeatures(service) && Pick(snap, backendOrder).Ok?)
  {
    QueryTexts(service);
  }

  /** What is passed on goes to the default backend as it is; on the multi-user daemon to the shared server, if there is one. */
  lemma PassedOnGoesToDefault(
    service: string, snap: Snapshot, defaultAddr: SocketAddr, defaultCode: Option<string>, backendOrder: seq<string>, local: Option<Backend>)
    requires !DeviceScoped(service) && !(AsksFeatures(service) && Pick(snap, backendOrder).Ok?)
    ensures RouteService(service, snap, defaultAddr, defaultCode, backendOrder) == Ok((defaultAddr, defaultCode, service))
    ensures RouteMulti(service, snap, backendOrder, local)
         == if local.Some? then Ok(Shared(local.value.addr, service)) else Err(NoSharedLocal)
  {
    PassedOnExactly(service, snap, backendOrder);
  }

  /** A features query goes, unchanged, to the backend of the preferred device. */
  lemma FeaturesFollowPreferred(
    service: string, snap: Snapshot, defaultAddr: SocketAddr, defaultCode: Option<string>, backendOrder: seq<string>, local: Option<Backend>)
    requires AsksFeatures(service)
    ensures Pick(snap, backendOrder).Ok? ==>
              var d := Pick(snap, backendOrder).value;
              && RouteService(service, snap, defaultAddr, defaultCode, backendOrder) == Ok((d.backendAddr, d.pairCode, service))
              && RouteMulti(service, snap, backendOrder, local)
                 == Ok(if d.routeId.Some? then Private(d.routeId.value, service) else Shared(d.backendAddr, service))
    ensures Pick(snap, backendOrder).Err? ==>
              && RouteService(service, snap, defaultAddr, defaultCode, backendOrder) == Ok((defaultAddr, defaultCode, service))
              && RouteMulti(service, snap, backendOrder, local)
                 == if local.Some? then Ok(Shared(local.value.addr, service)) else Err(NoSharedLocal)
  {
    FeatureTexts(service);
    if Pick(snap, backendOrder).Ok? {
      FeaturesRewrite(service, snap, backendOrder);
    } else {
      PassedOnGoesToDefault(service, snap, defaultAddr, defaultCode, backendOrder, local);
    }
  }

  lemma FeaturesRewrite(service: string, snap: Snapshot, backendOrder: seq<string>)
    requires AsksFeatures(service) && Pick(snap, backendOrder).Ok?
    ensures RewriteUpstream(service, snap, backendOrder) == Ok(Some((Pick(snap, backendOrder).value, service)))
  {
    FeatureTexts(service);
  }

  /** A service that means a device never goes to the default: it fails, or goes where that device is, rewritten. */
  lemma ScopedGoesToDevice(
    service: string, snap: Snapshot, defaultAddr: SocketAddr, defaultCode: Option<string>, backendOrder: seq<string>, local: Option<Backend>)
    requires DeviceScoped(service)
    ensures var r := RewriteUpstream(service, snap, backendOrder);
            && (r.Err? ==>
                  && RouteService(service, snap, defaultAddr, defaultCode, backendOrder) == Err(r.error)
                  && RouteMulti(service, snap, backendOrder, local) == Err(r.error))
            && (r.Ok? ==>
                  && r.value.Some? && r.value.value.0 in snap
                  && var (d, up) := r.value.value;
                  && RouteService(service, snap, defaultAddr, defaultCode, backendOrder) == Ok((d.backendAddr, d.pairCode, up))
                  && RouteMulti(service, snap, backendOrder, local)
                     == Ok(if d.routeId.Some? then Private(d.routeId.value, up) else Shared(d.backendAddr, up)))
  {
    PassedOnExactly(service, snap, backendOrder);
    RewriteNamesItsDevice(service, snap, backendOrder);
  }

  /** Naming a device: unknown, offline, or rewritten to the serial its backend uses. */
  lemma NamedByCase(p: string, snap: Snapshot, backendOrder: seq<string>)
    ensures Find(snap, p) == None ==>
              && RewriteUpstream("host:transport:" + p, snap, backendOrder) == Err(NotFound(p))
              && RewriteUpstream("host:tport:serial:" + p, snap, backendOrder) == Err(NotFound(p))
    ensures Find(snap, p).Some? ==>
              var d := Find(snap, p).value;
              if d.state == "device" then
                && RewriteUpstream("host:transport:" + p, snap, backendOrder) == Ok(Some((d, "host:transport:" + d.upstreamSerial)))
                && RewriteUpstream("host:tport:serial:" + p, snap, backendOrder) == Ok(Some((d, "host:tport:serial:" + d.upstreamSerial)))
              else
                && RewriteUpstream("host:transport:" + p, snap, backendOrder) == Err(NotOnline(p, d.state))
                && RewriteUpstream("host:tport:serial:" + p, snap, backendOrder) == Err(NotOnline(p, d.state))
  {
    TransportRewrites(p, snap, backendOrder);
    TportRewrites(p, snap, backendOrder);
  }

  lemma FirstColon(p: string, request: string)
    requires ':' !in p
    ensures FindChar(p, ':') == |p|
    ensures var rest := p + ":" + request;
            FindChar(rest, ':') == |p| && |rest| > |p| && rest[..|p|] == p && rest[|p| + 1..] == request
  {
    var rest := p + ":" + request;
    assert forall k :: 0 <= k < |p| ==> rest[k] == p[k];
    assert rest[|p|] == ':';
  }

  /** `host-serial:` by case; it does not ask whether the device is online. */
  lemma HostSerialByCase(p: string, request: string, snap: Snapshot, backendOrder: seq<string>)
    requires ':' !in p
    ensures RewriteUpstream("host-serial:" + p, snap, backendOrder) == Err(InvalidHostSerial)
    ensures Find(snap, p) == None ==>
              RewriteUpstream("host-serial:" + (p + ":" + request), snap, backendOrder) == Err(NotFound(p))
    ensures Find(snap, p).Some? ==>
              var d := Find(snap, p).value;
              RewriteUpstream("host-serial:" + (p + ":" + request), snap, backendOrder)
              == Ok(Some((d, "host-serial:" + d.upstreamSerial + ":" + request)))
  {
    HostSerialRewrites(p, snap, backendOrder);
    HostSerialRewrites(p + ":" + request, snap, backendOrder);
    FirstColon(p, request);
  }

  /** Services without a serial: the choice's error, or its device under the serial its backend uses. */
  lemma UnnamedByCase(request: string, snap: Snapshot, backendOrder: seq<string>)
    ensures var r := Pick(snap, backendOrder);
            var asked := match r case Err(e) => Err(e) case Ok(d) => Ok(Some((d, "host-serial:" + d.upstreamSerial + ":" + request)));
            && RewriteUpstream("host-usb:" + request, snap, backendOrder) == asked
            && RewriteUpstream("host-local:" + request, snap, backendOrder) == asked
            && (request in {"get-state", "get-serialno", "get-devpath", "get-connection-state"} ==>
                  RewriteUpstream("host:" + request, snap, backendOrder) == asked)
  {
    LegacyRewrites(request, snap, backendOrder);
    if IsDeviceQuery(request) { QueryRewrites(request, snap, backendOrder); }
  }

  lemma SelectorByCase(which: string, snap: Snapshot, backendOrder: seq<string>)
    requires which in {"any", "usb", "local"}
    ensures var r := Pick(snap, backendOrder);
            && RewriteUpstream("host:transport-" + which, snap, backendOrder)
               == (match r case Err(e) => Err(e) case Ok(d) => Ok(Some((d, "host:transport:" + d.upstreamSerial))))
            && RewriteUpstream("host:tport:" + which, snap, backendOrder)
               == (match r case Err(e) => Err(e) case Ok(d) => Ok(Some((d, "host:tport:serial:" + d.upstreamSerial))))
  {
    assert "host:transport-" + "any" == TRANSPORT_ANY && "host:transport-" + "usb" == TRANSPORT_USB && "host:transport-" + "local" == TRANSPORT_LOCAL;
    assert "host:tport:" + "any" == TPORT_ANY && "host:tport:" + "usb" == TPORT_USB && "host:tport:" + "local" == TPORT_LOCAL;
    assert TRANSPORT_ANY[6] == 'r' && TRANSPORT_USB[6] == 'r' && TRANSPORT_LOCAL[6] == 'r';
    assert TPORT_ANY[6] == 'p' && TPORT_USB[6] == 'p' && TPORT_LOCAL[6] == 'p';
    SelectorRewrites("host:transport-" + which, snap, backendOrder);
    SelectorRewrites("host:tport:" + which, snap, backendOrder);
  }
}
