/**
 The configured backends: pairing inserts or updates one, and a backend without a
 name is named after its address. The proofs about merging and about the watchers
 take pairwise distinct, colon-free names; here is where they come from.
 */
module Config {
  import opened Wrappers
  import opened Text
  import opened Registry

  // ---------- pairing ----------

  /** The first backend that satisfies a test, or the length. */
  function FirstWhere(bs: seq<Backend>, test: Backend -> bool): (i: nat)
    ensures i <= |bs| && (i < |bs| ==> test(bs[i]))
    ensures forall k :: 0 <= k < i ==> !test(bs[k])
  {
    if |bs| == 0 || test(bs[0]) then 0 else 1 + FirstWhere(bs[1..], test)
  }

  function FirstNamed(bs: seq<Backend>, name: string): (i: nat)
    ensures i <= |bs| && (i < |bs| ==> bs[i].name == name)
    ensures forall k :: 0 <= k < i ==> bs[k].name != name
  {
    FirstWhere(bs, (b: Backend) => b.name == name)
  }

  function FirstAt(bs: seq<Backend>, addr: SocketAddr): (i: nat)
    ensures i <= |bs| && (i < |bs| ==> bs[i].addr == addr)
    ensures forall k :: 0 <= k < i ==> bs[k].addr != addr
  {
    FirstWhere(bs, (b: Backend) => b.addr == addr)
  }

  /** A backend of that name gets the address and code; else one at that address the name and code; else it is added. */
  function Upserted(bs: seq<Backend>, b: Backend): seq<Backend> {
    var i := FirstNamed(bs, b.name);
    if i < |bs| then bs[i := bs[i].(addr := b.addr, pairCode := b.pairCode)]
    else
      var j := FirstAt(bs, b.addr);
      if j < |bs| then bs[j := bs[j].(name := b.name, pairCode := b.pairCode)] else bs + [b]
  }

  class HubConfig {
    var backends: seq<Backend>

    constructor ()
      ensures backends == []
    {
      backends := [];
    }

    method UpsertBackend(b: Backend)
      modifies this
      ensures backends == Upserted(old(backends), b)
    {
      for i := 0 to |backends|
        invariant backends == old(backends)
        invariant i <= FirstNamed(backends, b.name)
      {
        if backends[i].name == b.name {
          backends := backends[i := backends[i].(addr := b.addr, pairCode := b.pairCode)];
          return;
        }
      }
      for j := 0 to |backends|
        invariant backends == old(backends) && FirstNamed(backends, b.name) == |backends|
        invariant j <= FirstAt(backends, b.addr)
      {
        if backends[j].addr == b.addr {
          backends := backends[j := backends[j].(name := b.name, pairCode := b.pairCode)];
          return;
        }
      }
      backends := backends + [b];
    }

    /** False when no backend has the name. */
    method SetBackendEnabled(name: string, enabled: bool) returns (found: bool)
      modifies this
      ensures found <==> exists k :: 0 <= k < |old(backends)| && old(backends)[k].name == name
      ensures var i := FirstNamed(old(backends), name);
              backends == if found then old(backends)[i := old(backends)[i].(enabled := enabled)] else old(backends)
    {
      for i := 0 to |backends|
        invariant backends == old(backends)
        invariant i <= FirstNamed(backends, name)
      {
        if backends[i].name == name {
          backends := backends[i := backends[i].(enabled := enabled)];
          return true;
        }
      }
      return false;
    }
  }

  ghost predicate DistinctBackends(bs: seq<Backend>) {
    forall i, j :: 0 <= i < j < |bs| ==> bs[i].name != bs[j].name
  }

  ghost predicate DistinctAddrs(bs: seq<Backend>) {
    forall i, j :: 0 <= i < j < |bs| ==> bs[i].addr != bs[j].addr
  }

  /** Pairing again changes nothing, and the paired name now leads to its address and code. */
  lemma UpsertTakesEffect(bs: seq<Backend>, b: Backend)
    ensures var r := Upserted(bs, b); var i := FirstNamed(r, b.name);
            && i < |r| && r[i].addr == b.addr && r[i].pairCode == b.pairCode
            && Upserted(r, b) == r
            && (if forall k :: 0 <= k < |bs| ==> bs[k].name != b.name && bs[k].addr != b.addr then r == bs + [b] else |r| == |bs|)
  {
    var r := Upserted(bs, b);
    var i, j := FirstNamed(bs, b.name), FirstAt(bs, b.addr);
    var at := if i < |bs| then i else j;
    assert r[at].name == b.name && forall k :: 0 <= k < at ==> r[k] == bs[k];
    assert FirstNamed(r, b.name) == at;
    assert r[at := r[at]] == r;
  }

  /** Names stay distinct, whatever is paired; no other backend and no switch changes. */
  lemma UpsertKeepsNames(bs: seq<Backend>, b: Backend)
    ensures DistinctBackends(bs) ==> DistinctBackends(Upserted(bs, b))
    ensures forall k :: 0 <= k < |bs| ==>
              var r := Upserted(bs, b);
              k < |r| && r[k].enabled == bs[k].enabled && (r[k] == bs[k] || k == FirstNamed(r, b.name))
  {
    UpsertTakesEffect(bs, b);
    var r := Upserted(bs, b);
    var at := FirstNamed(r, b.name);
    forall k | 0 <= k < |bs|
      ensures k < |r| && r[k].enabled == bs[k].enabled && (r[k] == bs[k] || k == at)
    {
      if k < at { assert r[k].name != b.name; }
    }
  }

  function AllUpserted(bs: seq<Backend>, paired: seq<Backend>): seq<Backend>
    decreases |paired|
  {
    if |paired| == 0 then bs else AllUpserted(Upserted(bs, paired[0]), paired[1..])
  }

  /** A configuration built by pairing alone never has two backends of one name. */
  lemma {:induction false} PairingKeepsNames(bs: seq<Backend>, paired: seq<Backend>)
    requires DistinctBackends(bs)
    ensures DistinctBackends(AllUpserted(bs, paired))
    decreases |paired|
  {
    if |paired| > 0 {
      UpsertKeepsNames(bs, paired[0]);
      PairingKeepsNames(Upserted(bs, paired[0]), paired[1..]);
    }
  }

  /** Addresses stay distinct exactly unless a known name moves to the address of another backend. */
  lemma UpsertKeepsAddrsExactly(bs: seq<Backend>, b: Backend)
    requires DistinctAddrs(bs)
    ensures DistinctAddrs(Upserted(bs, b)) <==>
              var i, j := FirstNamed(bs, b.name), FirstAt(bs, b.addr); !(i < |bs| && j < |bs| && i != j)
  {
    var r := Upserted(bs, b);
    var i, j := FirstNamed(bs, b.name), FirstAt(bs, b.addr);
    if i < |bs| && j < |bs| && i != j {
      assert r[i].addr == r[j].addr;
    } else {
      forall x, y | 0 <= x < y < |r|
        ensures r[x].addr != r[y].addr
      {
        assert x < |bs| && (y < |bs| ==> bs[x].addr != bs[y].addr);
        assert forall k :: 0 <= k < |bs| && bs[k].addr == b.addr ==> k == j;
      }
    }
  }

  // ---------- default names ----------

  /** An IPv4 address, or the text of an IPv6 one (its own notation is left to the standard library). */
  datatype IpAddr = V4(a: nat, b: nat, c: nat, d: nat) | V6(text: string)

  /** IPv6 notation has colons and no underscores. */
  predicate IsIp(ip: IpAddr) {
    ip.V6? ==> ':' in ip.text && '_' !in ip.text
  }

  function IpText(ip: IpAddr): string {
    match ip
    case V4(a, b, c, d) => Decimal(a) + "." + Decimal(b) + "." + Decimal(c) + "." + Decimal(d)
    case V6(text) => text
  }

  function Replaced(s: string, from: char, to: char): (r: string)
    ensures |r| == |s| && forall i :: 0 <= i < |s| ==> r[i] == if s[i] == from then to else s[i]
  {
    if s == "" then "" else [if s[0] == from then to else s[0]] + Replaced(s[1..], from, to)
  }

  /** `default_backend_name`. */
  function DefaultName(ip: IpAddr, port: nat): string {
    var text := IpText(ip) + "_" + Decimal(port);
    if ip.V4? then text else Replaced(text, ':', '_')
  }

  lemma SplitLast(x: string, y: string, x': string, y': string, sep: char)
    requires sep !in y && sep !in y' && x + [sep] + y == x' + [sep] + y'
    ensures x == x' && y == y'
  {
    var s := x + [sep] + y;
    assert s[|x|] == sep && s[|x'|] == sep;
    assert forall k :: |x| < k < |s| ==> s[k] == y[k - |x| - 1];
    assert forall k :: |x'| < k < |s| ==> s[k] == y'[k - |x'| - 1];
    assert |x| == |x'|;
    assert x == s[..|x|] && y == s[|x| + 1..];
  }

  lemma DigitsOnly(n: nat)
    ensures '.' !in Decimal(n) && '_' !in Decimal(n) && ':' !in Decimal(n)
  {
    DecimalIsDigits(n);
  }

  lemma DottedIsPlain(ip: IpAddr)
    requires ip.V4?
    ensures '_' !in IpText(ip) && ':' !in IpText(ip)
  {
    DigitsOnly(ip.a);
    DigitsOnly(ip.b);
    DigitsOnly(ip.c);
    DigitsOnly(ip.d);
  }

  lemma DottedInjective(ip: IpAddr, ip': IpAddr)
    requires ip.V4? && ip'.V4? && IpText(ip) == IpText(ip')
    ensures ip == ip'
  {
    var a, b, c, d := Decimal(ip.a), Decimal(ip.b), Decimal(ip.c), Decimal(ip.d);
    var a', b', c', d' := Decimal(ip'.a), Decimal(ip'.b), Decimal(ip'.c), Decimal(ip'.d);
    DigitsOnly(ip.b);
    DigitsOnly(ip.c);
    DigitsOnly(ip.d);
    DigitsOnly(ip'.b);
    DigitsOnly(ip'.c);
    DigitsOnly(ip'.d);
    SplitLast(a + "." + b + "." + c, d, a' + "." + b' + "." + c', d', '.');
    SplitLast(a + "." + b, c, a' + "." + b', c', '.');
    SplitLast(a, b, a', b', '.');
    DecimalInjective(ip.a, ip'.a);
    DecimalInjective(ip.b, ip'.b);
    DecimalInjective(ip.c, ip'.c);
    DecimalInjective(ip.d, ip'.d);
  }

  lemma ReplacedInjective(s: string, t: string)
    requires '_' !in s && '_' !in t && Replaced(s, ':', '_') == Replaced(t, ':', '_')
    ensures s == t
  {
    forall i | 0 <= i < |s|
      ensures s[i] == t[i]
    {
      assert Replaced(s, ':', '_')[i] == Replaced(t, ':', '_')[i];
    }
  }

  lemma NothingReplaced(s: string)
    requires ':' !in s
    ensures Replaced(s, ':', '_') == s
  {
  }

  lemma ReplacedInParts(host: string, digits: string)
    requires ':' !in digits
    ensures Replaced(host + "_" + digits, ':', '_') == Replaced(host, ':', '_') + "_" + digits
  {
  }

  /** The name with its address part, where no colon is left, and its port. */
  lemma NameParts(ip: IpAddr, port: nat)
    ensures DefaultName(ip, port) == Replaced(IpText(ip), ':', '_') + "_" + Decimal(port)
    ensures ip.V4? ==> Replaced(IpText(ip), ':', '_') == IpText(ip)
  {
    DigitsOnly(port);
    ReplacedInParts(IpText(ip), Decimal(port));
    if ip.V4? {
      DottedIsPlain(ip);
      NothingReplaced(IpText(ip));
    }
  }

  lemma FamilyShows(ip: IpAddr)
    requires IsIp(ip)
    ensures ip.V6? <==> '_' in Replaced(IpText(ip), ':', '_')
    ensures ip.V4? ==> Replaced(IpText(ip), ':', '_') == IpText(ip)
  {
    if ip.V4? {
      DottedIsPlain(ip);
      NameParts(ip, 0);
    } else {
      var k :| 0 <= k < |ip.text| && ip.text[k] == ':';
      assert Replaced(ip.text, ':', '_')[k] == '_';
    }
  }

  /** A default name has no colon, so devices of such a backend keep their names and routes. */
  lemma DefaultNameIsColonFree(ip: IpAddr, port: nat)
    ensures ':' !in DefaultName(ip, port)
  {
    NameParts(ip, port);
    DigitsOnly(port);
  }

  /** Two backends get the same default name exactly when they have the same address. */
  lemma DefaultNamesDifferExactly(ip: IpAddr, port: nat, ip': IpAddr, port': nat)
    requires IsIp(ip) && IsIp(ip')
    ensures DefaultName(ip, port) == DefaultName(ip', port') <==> ip == ip' && port == port'
  {
    if DefaultName(ip, port) == DefaultName(ip', port') {
      NameParts(ip, port);
      NameParts(ip', port');
      DigitsOnly(port);
      DigitsOnly(port');
      var host, host' := Replaced(IpText(ip), ':', '_'), Replaced(IpText(ip'), ':', '_');
      SplitLast(host, Decimal(port), host', Decimal(port'), '_');
      DecimalInjective(port, port');
      FamilyShows(ip);
      FamilyShows(ip');
      if ip.V4? {
        DottedInjective(ip, ip');
      } else {
        ReplacedInjective(ip.text, ip'.text);
      }
    }
  }
}
