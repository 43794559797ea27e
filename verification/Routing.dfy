/** What a client can rely on when it picks or names a device of the merged list. */
module Routing {
  import opened Wrappers
  import opened Text
  import opened Registry
  import opened MergeNames
  import opened Policy
  import opened Session

  // ---------- the preferred device ----------

  lemma {:induction false} OnlineOnOnlineOnly(snap: Snapshot, name: string)
    ensures OnlineOn(OnlineOnly(snap), name) == OnlineOn(snap, name)
  {
    if snap != [] {
      OnlineOnOnlineOnly(snap[1..], name);
      if Online(snap[0]) { assert OnlineOnly(snap)[1..] == OnlineOnly(snap[1..]); }
    }
  }

  lemma {:induction false} FirstLiveOnlineOnly(snap: Snapshot, names: seq<string>)
    ensures FirstLive(OnlineOnly(snap), names) == FirstLive(snap, names)
  {
    if names != [] {
      OnlineOnOnlineOnly(snap, names[0]);
      FirstLiveOnlineOnly(snap, names[1..]);
    }
  }

  lemma OnlineIsLive(snap: Snapshot, d: Device)
    requires d in OnlineOnly(snap)
    ensures d in OnlineOn(snap, d.backendName)
    ensures OnlineOn(snap, d.backendName) != []
    ensures d.backendName in BackendNames(snap)
  {
    OnlineOnlyMembers(snap);
    OnlineOnMembers(snap, d.backendName);
    var i :| 0 <= i < |snap| && snap[i] == d;
    assert BackendNames(snap)[i] == d.backendName;
  }

  /** The pick means: the only online device of the first backend, in search order, that has any. */
  lemma PickMeans(snap: Snapshot, backendOrder: seq<string>)
    ensures var c, r := Candidates(snap, backendOrder), Pick(snap, backendOrder);
            && (r == Err(NoDevices) <==> OnlineCount(snap) == 0)
            && (r.Ok? ==>
                  && r.value in snap && Online(r.value)
                  && OnlineOn(snap, r.value.backendName) == [r.value]
                  && FirstLive(snap, c) == Some(r.value.backendName))
            && (r.Err? && !r.error.NoDevices? ==>
                  r.error.MoreThanOne? && FirstLive(snap, c) == Some(r.error.backend) && |OnlineOn(snap, r.error.backend)| > 1)
  {
    var c := Candidates(snap, backendOrder);
    NoneLive(snap, c);
    if OnlineCount(snap) > 0 {
      var d := OnlineOnly(snap)[0];
      OnlineIsLive(snap, d);
      assert d.backendName in c;
    }
    if FirstLive(snap, c).Some? {
      var online := OnlineOn(snap, FirstLive(snap, c).value);
      OnlineOnMembers(snap, FirstLive(snap, c).value);
      OnlineOnlyMembers(snap);
      assert online[0] in online;
      assert online[0] in OnlineOnly(snap);
    }
  }

  /** Backends before the chosen one in the search order have nothing online. */
  lemma {:induction false} NothingLiveBefore(snap: Snapshot, names: seq<string>) returns (k: nat)
    requires FirstLive(snap, names).Some?
    ensures k < |names| && names[k] == FirstLive(snap, names).value
    ensures forall j :: 0 <= j < k ==> OnlineOn(snap, names[j]) == []
  {
    if OnlineOn(snap, names[0]) != [] {
      k := 0;
    } else {
      var n := NothingLiveBefore(snap, names[1..]);
      k := n + 1;
    }
  }

  lemma PickNamesItsBackend(snap: Snapshot, names: seq<string>)
    requires FirstLive(snap, names).Some?
    ensures var r := PickFrom(snap, names);
            (r.Ok? && r.value.backendName == FirstLive(snap, names).value)
            || r == Err(MoreThanOne(FirstLive(snap, names).value))
  {
    NoneLive(snap, names);
    var online := OnlineOn(snap, FirstLive(snap, names).value);
    OnlineOnMembers(snap, FirstLive(snap, names).value);
    assert online[0] in online;
  }

  lemma FirstOnlineBackend(snap: Snapshot)
    requires OnlineOnly(snap) != []
    ensures FirstLive(snap, BackendNames(OnlineOnly(snap))) == Some(OnlineOnly(snap)[0].backendName)
  {
    var on := OnlineOnly(snap);
    assert on[0] in on;
    OnlineIsLive(snap, on[0]);
    assert BackendNames(on)[0] == on[0].backendName;
  }

  /**
   Offline entries matter exactly when no listed backend is live and the list
   mentions another live backend before the one of its first online device.
   */
  ghost predicate OfflineIrrelevant(snap: Snapshot, backendOrder: seq<string>) {
    || OnlineOnly(snap) == []
    || FirstLive(snap, [LOCAL] + backendOrder).Some?
    || FirstLive(snap, BackendNames(snap)) == Some(OnlineOnly(snap)[0].backendName)
  }

  lemma OfflineIrrelevantExactly(snap: Snapshot, backendOrder: seq<string>)
    ensures Pick(snap, backendOrder) == Pick(OnlineOnly(snap), backendOrder) <==> OfflineIrrelevant(snap, backendOrder)
  {
    var on := OnlineOnly(snap);
    var listed := [LOCAL] + backendOrder;
    FirstLiveConcat(snap, listed, BackendNames(snap));
    FirstLiveConcat(snap, listed, BackendNames(on));
    FirstLiveOnlineOnly(snap, Candidates(on, backendOrder));
    NoneLive(snap, BackendNames(snap));
    PickMeans(snap, backendOrder);
    if on == [] {
      OnlineOnlyAgain(snap);
      PickMeans(on, backendOrder);
    } else {
      FirstOnlineBackend(snap);
      OnlineIsLive(snap, on[0]);
      var a := FirstLive(snap, Candidates(snap, backendOrder));
      var b := FirstLive(on, Candidates(on, backendOrder));
      PickNamesItsBackend(snap, Candidates(snap, backendOrder));
      PickNamesItsBackend(on, Candidates(on, backendOrder));
      if a == b { OnlineOnOnlineOnly(snap, a.value); }
    }
  }

  lemma {:induction false} OnlineOnlyAgain(snap: Snapshot)
    ensures OnlineOnly(OnlineOnly(snap)) == OnlineOnly(snap)
  {
    if snap != [] {
      OnlineOnlyAgain(snap[1..]);
      if Online(snap[0]) { assert OnlineOnly(snap)[1..] == OnlineOnly(snap[1..]); }
    }
  }

  /** The hub lists every configured backend, so there offline entries never change the choice. */
  lemma ConfiguredOrderIgnoresOffline(snap: Snapshot, backendOrder: seq<string>)
    requires forall d :: d in snap ==> d.backendName in backendOrder
    ensures Pick(snap, backendOrder) == Pick(OnlineOnly(snap), backendOrder)
  {
    OfflineIrrelevantExactly(snap, backendOrder);
    if OnlineOnly(snap) != [] {
      assert OnlineOnly(snap)[0] in OnlineOnly(snap);
      OnlineOnlyMembers(snap);
      OnlineIsLive(snap, OnlineOnly(snap)[0]);
      NoneLive(snap, [LOCAL] + backendOrder);
    }
  }

  // ---------- the daemon's order ----------

  lemma {:induction false} DaemonOrderStandsFor(snap: Snapshot, whole: Snapshot, hasLocal: bool)
    ensures StandsFor(whole, DaemonOrder(snap, hasLocal), (if hasLocal then [LOCAL] else []) + BackendNames(snap))
    decreases |snap|
  {
    var start := if hasLocal then [LOCAL] else [];
    if |snap| == 0 {
      assert start + BackendNames(snap) == start;
    } else {
      var front := snap[..|snap| - 1];
      DaemonOrderStandsFor(front, whole, hasLocal);
      var before, name := DaemonOrder(front, hasLocal), snap[|snap| - 1].backendName;
      var seen := start + BackendNames(front);
      if name in before { SkipName(whole, before, seen, name); } else { PushName(whole, before, seen, name); }
      assert seen + [name] == start + BackendNames(snap);
    }
  }

  /** In the daemon the order is read off the list, so the choice is the list's own. */
  lemma DaemonPick(snap: Snapshot, hasLocal: bool)
    ensures Pick(snap, DaemonOrder(snap, hasLocal)) == Pick(snap, [])
  {
    var order := DaemonOrder(snap, hasLocal);
    var start := if hasLocal then [LOCAL] else [];
    var names := BackendNames(snap);
    DaemonOrderStandsFor(snap, snap, hasLocal);
    assert Candidates(snap, order) == [LOCAL] + (order + names);
    assert Candidates(snap, []) == [LOCAL] + names;
    FirstLiveConcat(snap, [LOCAL], order + names);
    FirstLiveConcat(snap, order, names);
    FirstLiveConcat(snap, [LOCAL], names);
    FirstLiveConcat(snap, start, names);
  }

  /** For the daemon, offline entries change the choice exactly when this fails. */
  lemma DaemonOfflineIrrelevantExactly(snap: Snapshot, hasLocal: bool)
    ensures var on := OnlineOnly(snap);
            Pick(snap, DaemonOrder(snap, hasLocal)) == Pick(on, DaemonOrder(on, hasLocal)) <==> OfflineIrrelevant(snap, [])
  {
    DaemonPick(snap, hasLocal);
    DaemonPick(OnlineOnly(snap), hasLocal);
    OfflineIrrelevantExactly(snap, []);
  }

  /** An offline entry of `b` moves the daemon's choice from the device of `a` to the device of `b`. */
  lemma DaemonOfflineEntryMatters(off: Device, x: Device, y: Device)
    requires off.backendName == "b" && !Online(off)
    requires x.backendName == "a" && Online(x)
    requires y.backendName == "b" && Online(y)
    ensures Pick([off, x, y], DaemonOrder([off, x, y], false)) == Ok(y)
    ensures Pick([x, y], DaemonOrder([x, y], false)) == Ok(x)
  {
    DaemonPick([off, x, y], false);
    DaemonPick([x, y], false);
    ThreeEntries(off, x, y);
    TwoEntries(x, y);
  }

  lemma SecondIsLive(snap: Snapshot, c: seq<string>, name: string)
    requires |c| >= 2 && OnlineOn(snap, c[0]) == [] && c[1] == name && OnlineOn(snap, name) != []
    ensures FirstLive(snap, c) == Some(name)
  {
    assert c[1..][0] == name;
  }

  lemma TwoEntries(x: Device, y: Device)
    requires x.backendName == "a" && Online(x)
    requires y.backendName == "b" && Online(y)
    ensures OnlineOn([x, y], "a") == [x] && OnlineOn([x, y], "b") == [y] && OnlineOn([x, y], LOCAL) == []
    ensures Pick([x, y], []) == Ok(x)
  {
    var t := [x, y];
    assert t[1..] == [y] && [y][1..] == [];
    assert OnlineOn([y], "b") == [y] && OnlineOn([y], "a") == [] && OnlineOn([y], LOCAL) == [];
    SecondIsLive(t, Candidates(t, []), "a");
  }

  lemma ThreeEntries(off: Device, x: Device, y: Device)
    requires off.backendName == "b" && !Online(off)
    requires x.backendName == "a" && Online(x)
    requires y.backendName == "b" && Online(y)
    ensures Pick([off, x, y], []) == Ok(y)
  {
    var s := [off, x, y];
    assert s[1..] == [x, y];
    TwoEntries(x, y);
    assert OnlineOn(s, "b") == [y] && OnlineOn(s, LOCAL) == [];
    SecondIsLive(s, Candidates(s, []), "b");
  }

  // ---------- services that name a device ----------

  /** `host:transport:p` is never mistaken for a selector or a tport service. */
  lemma TransportRewrites(p: string, snap: Snapshot, backendOrder: seq<string>)
    ensures RewriteUpstream(TRANSPORT + p, snap, backendOrder)
         == With(LookupOnline(snap, p), (d: Device) => TRANSPORT + d.upstreamSerial)
  {
    var s := TRANSPORT + p;
    assert s[6] == 'r' && s[14] == ':';
    assert TPORT_ANY[6] == 'p' && TPORT_USB[6] == 'p' && TPORT_LOCAL[6] == 'p' && TPORT_SERIAL[6] == 'p';
    assert TRANSPORT_ANY[14] == '-' && TRANSPORT_USB[14] == '-' && TRANSPORT_LOCAL[14] == '-';
    assert s[|TRANSPORT|..] == p;
  }

  lemma TportRewrites(p: string, snap: Snapshot, backendOrder: seq<string>)
    ensures RewriteUpstream(TPORT_SERIAL + p, snap, backendOrder)
         == With(LookupOnline(snap, p), (d: Device) => TPORT_SERIAL + d.upstreamSerial)
  {
    var s := TPORT_SERIAL + p;
    assert s[6] == 'p' && s[11] == 's';
    assert TPORT_ANY[11] == 'a' && TPORT_USB[11] == 'u' && TPORT_LOCAL[11] == 'l';
    assert TRANSPORT_ANY[6] == 'r' && TRANSPORT_USB[6] == 'r' && TRANSPORT_LOCAL[6] == 'r';
    assert s[|TPORT_SERIAL|..] == p;
  }

  lemma HostSerialRewrites(rest: string, snap: Snapshot, backendOrder: seq<string>)
    ensures RewriteUpstream(HOST_SERIAL + rest, snap, backendOrder) == RewriteHostSerial(rest, snap)
  {
    var s := HOST_SERIAL + rest;
    assert s[4] == '-';
    assert TPORT_ANY[4] == ':' && TPORT_USB[4] == ':' && TPORT_LOCAL[4] == ':' && TPORT_SERIAL[4] == ':';
    assert TRANSPORT_ANY[4] == ':' && TRANSPORT_USB[4] == ':' && TRANSPORT_LOCAL[4] == ':' && TRANSPORT[4] == ':';
    assert s[|HOST_SERIAL|..] == rest;
  }

  /**
   `host-serial:p:request` looks its device up by the part of `p` before the first
   colon: that is `p` itself if and only if `p` has no colon.
   */
  lemma HostSerialLooksUp(p: string, request: string, snap: Snapshot)
    ensures var key, r := p[..FindChar(p, ':')], RewriteHostSerial(p + ":" + request, snap);
            && (key == p <==> ':' !in p)
            && (r.Err? <==> Find(snap, key).None?)
            && (r.Ok? ==> r.value.Some? && Find(snap, key) == Some(r.value.value.0))
            && (r.Ok? && ':' !in p ==> r.value.value.1 == HOST_SERIAL + r.value.value.0.upstreamSerial + ":" + request)
  {
    var rest := p + ":" + request;
    var i := FindChar(p, ':');
    assert forall k :: 0 <= k < |p| ==> rest[k] == p[k];
    assert rest[|p|] == ':';
    assert FindChar(rest, ':') == i;
    assert rest[..i] == p[..i];
    if i == |p| { assert rest[i + 1..] == request; }
  }

  /** What a selector asks for, when a device is chosen. */
  lemma SelectorRewrites(selector: string, snap: Snapshot, backendOrder: seq<string>)
    requires IsSelector(selector)
    ensures RewriteUpstream(selector, snap, backendOrder)
         == With(Pick(snap, backendOrder),
                 (d: Device) => (if selector in {TPORT_ANY, TPORT_USB, TPORT_LOCAL} then TPORT_SERIAL else TRANSPORT) + d.upstreamSerial)
  {
    assert TRANSPORT_ANY[6] == 'r' && TRANSPORT_USB[6] == 'r' && TRANSPORT_LOCAL[6] == 'r' && TPORT[6] == 'p';
    assert TPORT <= TPORT_ANY && TPORT <= TPORT_USB && TPORT <= TPORT_LOCAL;
  }

  /** Asking for the serial and then naming it is asking for any device, exactly when the name finds that device. */
  lemma SerialThenTransportExactly(snap: Snapshot, backendOrder: seq<string>, selector: string)
    requires Pick(snap, backendOrder).Ok? && IsSelector(selector)
    ensures var d := Pick(snap, backendOrder).value;
            var named := (if selector in {TPORT_ANY, TPORT_USB, TPORT_LOCAL} then TPORT_SERIAL else TRANSPORT) + d.publicSerial;
            RewriteUpstream(named, snap, backendOrder) == RewriteUpstream(selector, snap, backendOrder)
            <==> Find(snap, d.publicSerial) == Some(d)
  {
    var d := Pick(snap, backendOrder).value;
    PickMeans(snap, backendOrder);
    SelectorRewrites(selector, snap, backendOrder);
    TransportRewrites(d.publicSerial, snap, backendOrder);
    TportRewrites(d.publicSerial, snap, backendOrder);
  }

  lemma LegacyRewrites(request: string, snap: Snapshot, backendOrder: seq<string>)
    ensures RewriteUpstream(HOST_USB + request, snap, backendOrder) == RewritePreferred(request, snap, backendOrder)
    ensures RewriteUpstream(HOST_LOCAL + request, snap, backendOrder) == RewritePreferred(request, snap, backendOrder)
  {
    var usb, loc := HOST_USB + request, HOST_LOCAL + request;
    assert usb[4] == '-' && loc[4] == '-' && usb[5] == 'u' && loc[5] == 'l' && HOST_SERIAL[5] == 's' && HOST_USB[5] == 'u';
    assert TPORT_ANY[4] == ':' && TPORT_USB[4] == ':' && TPORT_LOCAL[4] == ':' && TPORT_SERIAL[4] == ':';
    assert TRANSPORT_ANY[4] == ':' && TRANSPORT_USB[4] == ':' && TRANSPORT_LOCAL[4] == ':' && TRANSPORT[4] == ':';
    assert usb[|HOST_USB|..] == request && loc[|HOST_LOCAL|..] == request;
  }

  lemma QueryRewrites(request: string, snap: Snapshot, backendOrder: seq<string>)
    requires IsDeviceQuery(request)
    ensures RewriteUpstream(HOST + request, snap, backendOrder) == RewritePreferred(request, snap, backendOrder)
  {
    var s := HOST + request;
    assert s[4] == ':' && s[5] == 'g' && s[|HOST|..] == request;
    assert HOST_SERIAL[4] == '-' && HOST_USB[4] == '-' && HOST_LOCAL[4] == '-';
    assert TPORT_ANY[5] == 't' && TPORT_USB[5] == 't' && TPORT_LOCAL[5] == 't' && TPORT_SERIAL[5] == 't';
    assert TRANSPORT_ANY[5] == 't' && TRANSPORT_USB[5] == 't' && TRANSPORT_LOCAL[5] == 't' && TRANSPORT[5] == 't';
    assert "host:features"[5] == 'f' && "host:host-features"[5] == 'h';
  }

  /** A request for no particular device is the same request for the preferred one by name, exactly when a colon-free name finds it. */
  lemma UnnamedIsPreferredExactly(request: string, snap: Snapshot, backendOrder: seq<string>)
    requires Pick(snap, backendOrder).Ok? && ':' !in Pick(snap, backendOrder).value.publicSerial
    ensures var d := Pick(snap, backendOrder).value;
            var named := RewriteUpstream(HOST_SERIAL + (d.publicSerial + ":" + request), snap, backendOrder);
            && (named == RewriteUpstream(HOST_USB + request, snap, backendOrder) <==> Find(snap, d.publicSerial) == Some(d))
            && (named == RewriteUpstream(HOST_LOCAL + request, snap, backendOrder) <==> Find(snap, d.publicSerial) == Some(d))
            && (IsDeviceQuery(request) ==>
                  (named == RewriteUpstream(HOST + request, snap, backendOrder) <==> Find(snap, d.publicSerial) == Some(d)))
  {
    var d := Pick(snap, backendOrder).value;
    LegacyRewrites(request, snap, backendOrder);
    if IsDeviceQuery(request) { QueryRewrites(request, snap, backendOrder); }
    HostSerialRewrites(d.publicSerial + ":" + request, snap, backendOrder);
    HostSerialLooksUp(d.publicSerial, request, snap);
  }

  lemma {:induction false} FindMember(snap: Snapshot, serial: string)
    ensures Find(snap, serial).Some? ==> Find(snap, serial).value in snap && Find(snap, serial).value.publicSerial == serial
    ensures Find(snap, serial).None? ==> forall d :: d in snap ==> d.publicSerial != serial
  {
    if |snap| > 0 { FindMember(snap[1..], serial); }
  }

  lemma PickIsOnline(snap: Snapshot, backendOrder: seq<string>)
    ensures var r := Pick(snap, backendOrder); r.Ok? ==> r.value in snap && Online(r.value)
  {
    PickMeans(snap, backendOrder);
  }

  /**
   Whatever the service, a rewrite that succeeds names a device of the caller's
   list by that device's own serial (or passes a features query through), and a
   service without a serial goes to the preferred, online device.
   */
  lemma RewriteNamesItsDevice(service: string, snap: Snapshot, backendOrder: seq<string>)
    ensures var r := RewriteUpstream(service, snap, backendOrder);
            r.Ok? && r.value.Some? ==>
              var (d, up) := r.value.value;
              && d in snap
              && (TPORT_SERIAL + d.upstreamSerial == up || TRANSPORT + d.upstreamSerial == up
                  || HOST_SERIAL + d.upstreamSerial + ":" <= up || up == service)
              && (!(TPORT_SERIAL <= service) && !(TRANSPORT <= service) && !(HOST_SERIAL <= service) ==>
                    Online(d) && Pick(snap, backendOrder) == Ok(d))
  {
    PickIsOnline(snap, backendOrder);
    if TPORT_SERIAL <= service { FindMember(snap, service[|TPORT_SERIAL|..]); }
    if TRANSPORT <= service { FindMember(snap, service[|TRANSPORT|..]); }
    if HOST_SERIAL <= service {
      var rest := service[|HOST_SERIAL|..];
      FindMember(snap, rest[..FindChar(rest, ':')]);
    }
  }

  // ---------- from the list back to the backend ----------

  lemma FindListed(snap: Snapshot, p: HubPolicy, d: Device)
    requires DistinctNames(snap) && d in FilterSnapshot(p, snap)
    ensures Find(FilterSnapshot(p, snap), d.publicSerial) == Some(d)
  {
    FilterKeepsDistinct(p, snap);
    var r := FilterSnapshot(p, snap);
    var i: nat :| i < |r| && r[i] == d;
    FindAt(r, i);
  }

  /**
   Naming a listed, online device by its public serial reaches the backend that
   listed it, with that backend's pair code and the serial it uses itself.
   */
  lemma ListedSerialRoutesHome(
    lists: seq<(Backend, string)>, p: HubPolicy, i: nat, defaultAddr: SocketAddr, defaultCode: Option<string>, backendOrder: seq<string>)
    requires FallbacksFree(Rows(lists))
    requires i < |Rows(lists)| == |Merge(lists)|
    requires Admits(p, Merge(lists)[i]) && Rows(lists)[i].dev.state == "device"
    ensures var row, name, snap := Rows(lists)[i], Merge(lists)[i].publicSerial, FilterSnapshot(p, Merge(lists));
            && RouteService(TRANSPORT + name, snap, defaultAddr, defaultCode, backendOrder)
               == Ok((row.backend.addr, row.backend.pairCode, TRANSPORT + row.dev.serial))
            && RouteService(TPORT_SERIAL + name, snap, defaultAddr, defaultCode, backendOrder)
               == Ok((row.backend.addr, row.backend.pairCode, TPORT_SERIAL + row.dev.serial))
  {
    MergeKeepsRows(lists, i);
    MergeDistinctExactly(lists);
    var d, snap := Merge(lists)[i], FilterSnapshot(p, Merge(lists));
    assert d in Merge(lists);
    FilterMembers(p, Merge(lists));
    FindListed(Merge(lists), p, d);
    TransportRewrites(d.publicSerial, snap, backendOrder);
    TportRewrites(d.publicSerial, snap, backendOrder);
  }
}
