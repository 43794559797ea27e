/**
 The device registry: parsing the lists of the backends, merging them into one
 list with public serials, printing it for the adb client.
 */
module Registry {
  import opened Wrappers
  import opened Text
  import opened Selections

  datatype SocketAddr = SocketAddr(host: string, port: nat)

  datatype Backend = Backend(name: string, addr: SocketAddr, pairCode: Option<string>, enabled: bool)

  datatype Device = Device(
    publicSerial: string, upstreamSerial: string, state: string, extras: string,
    backendName: string, backendAddr: SocketAddr, pairCode: Option<string>, routeId: Option<string>)

  type Snapshot = seq<Device>

  // ---------- parsing ----------

  datatype Parsed = Parsed(serial: string, state: string, extras: string)

  /** A line of the list that names no device, by its trimmed text. */
  predicate IsNotice(trimmed: string) {
    (trimmed != [] && trimmed[0] == '*') || "List of" <= trimmed
  }

  function ParseDeviceLine(line: string): Option<Parsed> {
    var t := Trim(line);
    if t == [] || IsNotice(t) then None
    else
      var f := Fields(t);
      if |f| < 2 then None else Some(Parsed(f[0], f[1], Join(f[2..], " ")))
  }

  function ParseLines(lines: seq<string>): seq<Parsed> {
    if |lines| == 0 then []
    else
      var p := ParseDeviceLine(lines[0]);
      (if p.Some? then [p.value] else []) + ParseLines(lines[1..])
  }

  function ParseBody(body: string): seq<Parsed> {
    ParseLines(Lines(body))
  }

  // ---------- printing ----------

  function FormatDevice(d: Device, long: bool): string {
    if long && d.extras != [] then d.publicSerial + "\t" + (d.state + " " + d.extras)
    else d.publicSerial + "\t" + d.state
  }

  function Format(snap: Snapshot, long: bool): string {
    if |snap| == 0 then "" else FormatDevice(snap[0], long) + "\n" + Format(snap[1..], long)
  }

  method FormatDevices(snap: Snapshot, long: bool) returns (out: string)
    ensures out == Format(snap, long)
  {
    out := "";
    for i := 0 to |snap|
      invariant out + Format(snap[i..], long) == Format(snap, long)
    {
      var d := snap[i];
      var line;
      if long {
        if d.extras == [] {
          line := d.publicSerial + "\t" + d.state + "\n";
        } else {
          line := d.publicSerial + "\t" + d.state + " " + d.extras + "\n";
        }
      } else {
        line := d.publicSerial + "\t" + d.state + "\n";
      }
      assert line == FormatDevice(d, long) + "\n";
      assert snap[i..][1..] == snap[i + 1..];
      Assoc(out, line, Format(snap[i + 1..], long));
      out := out + line;
    }
  }

  // ---------- merging ----------

  /** One parsed line and the backend it came from. */
  datatype Row = Row(backend: Backend, dev: Parsed)

  function RowsOf(b: Backend, ps: seq<Parsed>): seq<Row> {
    if |ps| == 0 then [] else [Row(b, ps[0])] + RowsOf(b, ps[1..])
  }

  function Rows(lists: seq<(Backend, string)>): seq<Row> {
    if |lists| == 0 then []
    else RowsOf(lists[0].0, ParseBody(lists[0].1)) + Rows(lists[1..])
  }

  function Count(rows: seq<Row>, serial: string): nat {
    if |rows| == 0 then 0
    else Count(rows[..|rows| - 1], serial) + (if rows[|rows| - 1].dev.serial == serial then 1 else 0)
  }

  /** The first choice of public serial: qualified by the backend when another line has the same serial. */
  function BaseName(rows: seq<Row>, i: nat): string
    requires i < |rows|
  {
    var r := rows[i];
    if Count(rows, r.dev.serial) > 1 then r.backend.name + ":" + r.dev.serial else r.dev.serial
  }

  /** The second choice, when the first is taken; it is not looked up again. */
  function Fallback(rows: seq<Row>, i: nat): string
    requires i < |rows|
  {
    rows[i].backend.name + ":" + rows[i].dev.serial + ":" + Decimal(i)
  }

  /** The public serials of the first `k` rows. */
  function Names(rows: seq<Row>, k: nat): (names: seq<string>)
    requires k <= |rows|
    ensures |names| == k
  {
    if k == 0 then []
    else
      var used := Names(rows, k - 1);
      used + [if BaseName(rows, k - 1) in used then Fallback(rows, k - 1) else BaseName(rows, k - 1)]
  }

  function ToDevice(r: Row, publicSerial: string): Device {
    Device(publicSerial, r.dev.serial, r.dev.state, r.dev.extras,
           r.backend.name, r.backend.addr, r.backend.pairCode, None)
  }

  /** The merged entries of the first `k` rows. */
  function Devices(rows: seq<Row>, k: nat): (snap: Snapshot)
    requires k <= |rows|
    ensures |snap| == k
  {
    if k == 0 then [] else Devices(rows, k - 1) + [ToDevice(rows[k - 1], Names(rows, k)[k - 1])]
  }

  function Merge(lists: seq<(Backend, string)>): Snapshot {
    var rows := Rows(lists); Devices(rows, |rows|)
  }

  /** One entry per parsed line, in order, under the name given to that line. */
  lemma {:induction false} DevicesAt(rows: seq<Row>, k: nat, i: nat)
    requires i < k <= |rows|
    ensures Names(rows, k)[i] == Names(rows, i + 1)[i]
    ensures Devices(rows, k)[i] == ToDevice(rows[i], Names(rows, i + 1)[i])
    decreases k
  {
    if i < k - 1 { DevicesAt(rows, k - 1, i); }
  }

  function Lookup(counts: map<string, nat>, serial: string): nat {
    if serial in counts then counts[serial] else 0
  }

  ghost predicate Counts(counts: map<string, nat>, rows: seq<Row>) {
    forall s :: Lookup(counts, s) == Count(rows, s)
  }

  lemma CountsStep(counts: map<string, nat>, rows: seq<Row>, row: Row)
    requires Counts(counts, rows)
    ensures Counts(counts[row.dev.serial := Lookup(counts, row.dev.serial) + 1], rows + [row])
  {
    assert (rows + [row])[..|rows|] == rows;
    var counts' := counts[row.dev.serial := Lookup(counts, row.dev.serial) + 1];
    forall s
      ensures Lookup(counts', s) == Count(rows + [row], s)
    {
      assert Lookup(counts, s) == Count(rows, s);
    }
  }

  lemma Assoc<T>(a: seq<T>, b: seq<T>, c: seq<T>)
    ensures a + (b + c) == a + b + c
  {
  }

  lemma RowsOfCons(b: Backend, p: Parsed, ps: seq<Parsed>)
    ensures RowsOf(b, [p] + ps) == [Row(b, p)] + RowsOf(b, ps)
  {
    assert ([p] + ps)[1..] == ps;
  }

  /** First pass over one backend's list. */
  method CollectLines(backend: Backend, body: string, counts0: map<string, nat>, parsed0: seq<Row>)
    returns (counts: map<string, nat>, parsed: seq<Row>)
    requires Counts(counts0, parsed0)
    ensures parsed == parsed0 + RowsOf(backend, ParseBody(body))
    ensures Counts(counts, parsed)
  {
    counts, parsed := counts0, parsed0;
    var lines := Lines(body);
    for j := 0 to |lines|
      invariant parsed + RowsOf(backend, ParseLines(lines[j..])) == parsed0 + RowsOf(backend, ParseBody(body))
      invariant Counts(counts, parsed)
    {
      ghost var rest := ParseLines(lines[j + 1..]);
      assert lines[j..][1..] == lines[j + 1..];
      var p := ParseDeviceLine(lines[j]);
      if p.Some? {
        var row := Row(backend, p.value);
        CountsStep(counts, parsed, row);
        RowsOfCons(backend, p.value, rest);
        Assoc(parsed, [row], RowsOf(backend, rest));
        counts := counts[p.value.serial := Lookup(counts, p.value.serial) + 1];
        parsed := parsed + [row];
      } else {
        assert [] + rest == rest;
      }
    }
  }

  /** First pass: how often each serial occurs, and every parsed line with its backend. */
  method CountSerials(lists: seq<(Backend, string)>) returns (counts: map<string, nat>, parsed: seq<Row>)
    ensures parsed == Rows(lists)
    ensures Counts(counts, parsed)
  {
    counts, parsed := map[], [];
    for i := 0 to |lists|
      invariant parsed + Rows(lists[i..]) == Rows(lists)
      invariant Counts(counts, parsed)
    {
      var (backend, body) := lists[i];
      assert lists[i..][1..] == lists[i + 1..];
      Assoc(parsed, RowsOf(backend, ParseBody(body)), Rows(lists[i + 1..]));
      counts, parsed := CollectLines(backend, body, counts, parsed);
    }
  }

  /** The loops of `merge_device_lists`: a count map, the set of names in use and the output vector. */
  method MergeDeviceLists(lists: seq<(Backend, string)>) returns (devices: seq<Device>)
    ensures devices == Merge(lists)
  {
    var counts, parsed := CountSerials(lists);
    var used: set<string> := {};
    devices := [];
    for i := 0 to |parsed|
      invariant devices == Devices(parsed, i)
      invariant forall x :: x in used <==> x in Names(parsed, i)
    {
      var row := parsed[i];
      assert Lookup(counts, row.dev.serial) == Count(parsed, row.dev.serial);
      var conflict := Lookup(counts, row.dev.serial) > 1;
      var name := if conflict then row.backend.name + ":" + row.dev.serial else row.dev.serial;
      assert name == BaseName(parsed, i);
      if name in used {
        name := row.backend.name + ":" + row.dev.serial + ":" + Decimal(|devices|);
      }
      used := used + {name};
      assert Names(parsed, i + 1) == Names(parsed, i) + [name];
      devices := devices + [ToDevice(row, name)];
    }
  }

  lemma {:induction false} RowsOfAt(b: Backend, ps: seq<Parsed>)
    ensures |RowsOf(b, ps)| == |ps|
    ensures forall i :: 0 <= i < |ps| ==> RowsOf(b, ps)[i] == Row(b, ps[i])
  {
    if |ps| > 0 { RowsOfAt(b, ps[1..]); }
  }

  /** The backend of a row is the one whose list the row was read from. */
  lemma {:induction false} RowBackend(lists: seq<(Backend, string)>, i: nat) returns (k: nat)
    requires i < |Rows(lists)|
    ensures k < |lists| && Rows(lists)[i].backend == lists[k].0
  {
    var ps := ParseBody(lists[0].1);
    RowsOfAt(lists[0].0, ps);
    if i < |ps| {
      k := 0;
    } else {
      k := RowBackend(lists[1..], i - |ps|);
      k := k + 1;
    }
  }

  function Flat<T>(blocks: seq<seq<T>>): seq<T> {
    if |blocks| == 0 then [] else blocks[0] + Flat(blocks[1..])
  }

  /** The length of all blocks before block `k`. */
  function Before<T>(blocks: seq<seq<T>>, k: nat): nat
    requires k <= |blocks|
  {
    if k == 0 then 0 else |blocks[0]| + Before(blocks[1..], k - 1)
  }

  lemma {:induction false} FlatAt<T>(blocks: seq<seq<T>>, k: nat, j: nat)
    requires k < |blocks| && j < |blocks[k]|
    ensures Before(blocks, k) + j < |Flat(blocks)| && Flat(blocks)[Before(blocks, k) + j] == blocks[k][j]
    decreases k
  {
    var rest := Flat(blocks[1..]);
    assert Flat(blocks) == blocks[0] + rest;
    if k > 0 {
      var i := Before(blocks[1..], k - 1) + j;
      FlatAt(blocks[1..], k - 1, j);
      assert (blocks[0] + rest)[|blocks[0]| + i] == rest[i];
    }
  }

  lemma {:induction false} FlatLength<T>(blocks: seq<seq<T>>)
    ensures |Flat(blocks)| == Before(blocks, |blocks|)
  {
    if |blocks| > 0 { FlatLength(blocks[1..]); }
  }

  /** The lines of each list with its backend. */
  function Blocks(lists: seq<(Backend, string)>): seq<seq<Row>> {
    seq(|lists|, k requires 0 <= k < |lists| => RowsOf(lists[k].0, ParseBody(lists[k].1)))
  }

  lemma {:induction false} RowsAreBlocks(lists: seq<(Backend, string)>)
    ensures Rows(lists) == Flat(Blocks(lists))
  {
    if |lists| > 0 {
      RowsAreBlocks(lists[1..]);
      assert Blocks(lists)[1..] == Blocks(lists[1..]);
    }
  }

  /** The rows are the parsed lines of the first list, then those of the second, and so on, each with its own backend. */
  lemma RowAt(lists: seq<(Backend, string)>, k: nat, j: nat)
    requires k < |lists| && j < |ParseBody(lists[k].1)|
    ensures |Rows(lists)| == Before(Blocks(lists), |lists|) && Before(Blocks(lists), k) + j < |Rows(lists)|
    ensures Rows(lists)[Before(Blocks(lists), k) + j] == Row(lists[k].0, ParseBody(lists[k].1)[j])
  {
    RowsOfAt(lists[k].0, ParseBody(lists[k].1));
    RowsAreBlocks(lists);
    FlatLength(Blocks(lists));
    FlatAt(Blocks(lists), k, j);
  }

  // ---------- lookup ----------

  predicate Online(d: Device) {
    d.state == "device"
  }

  function Find(snap: Snapshot, publicSerial: string): Option<Device> {
    if |snap| == 0 then None
    else if snap[0].publicSerial == publicSerial then Some(snap[0])
    else Find(snap[1..], publicSerial)
  }

  function OnlineOnly(snap: Snapshot): Snapshot {
    if |snap| == 0 then []
    else if Online(snap[0]) then [snap[0]] + OnlineOnly(snap[1..])
    else OnlineOnly(snap[1..])
  }

  lemma {:induction false} OnlineOnlyMembers(snap: Snapshot)
    ensures forall d :: d in OnlineOnly(snap) <==> d in snap && Online(d)
  {
    if |snap| > 0 { OnlineOnlyMembers(snap[1..]); }
  }

  /** The online devices are those whose state reads `device`, in order. */
  lemma OnlineOnlyIs(snap: Snapshot)
    ensures IsSelection(snap, (d: Device) => d.state == "device", OnlineOnly(snap))
  {
    OnlineOnlyChosen(snap);
    ChosenIs(snap, (d: Device) => d.state == "device");
  }

  lemma {:induction false} OnlineOnlyChosen(snap: Snapshot)
    ensures OnlineOnly(snap) == Chosen(snap, (d: Device) => d.state == "device")
  {
    if |snap| > 0 { OnlineOnlyChosen(snap[1..]); }
  }

  /** A lookup gives the first device of that name, or there is none. */
  lemma {:induction false} FindIsFirst(snap: Snapshot, name: string)
    ensures Find(snap, name) == None <==> forall i :: 0 <= i < |snap| ==> snap[i].publicSerial != name
    ensures Find(snap, name).Some? ==>
              exists i :: 0 <= i < |snap| && snap[i].publicSerial == name && Find(snap, name) == Some(snap[i])
                          && forall j :: 0 <= j < i ==> snap[j].publicSerial != name
  {
    if |snap| > 0 && snap[0].publicSerial != name {
      var rest := snap[1..];
      FindIsFirst(rest, name);
      assert forall i :: 0 < i < |snap| ==> snap[i] == rest[i - 1];
      if Find(rest, name).Some? {
        var i :| 0 <= i < |rest| && rest[i].publicSerial == name && Find(rest, name) == Some(rest[i])
          && forall j :: 0 <= j < i ==> rest[j].publicSerial != name;
        assert snap[i + 1] == rest[i];
      }
    }
  }

  function OnlineCount(snap: Snapshot): nat {
    |OnlineOnly(snap)|
  }

  ghost predicate DistinctNames(snap: Snapshot) {
    forall i, j :: 0 <= i < j < |snap| ==> snap[i].publicSerial != snap[j].publicSerial
  }

  lemma {:induction false} FindAt(snap: Snapshot, i: nat)
    requires i < |snap| && DistinctNames(snap)
    ensures Find(snap, snap[i].publicSerial) == Some(snap[i])
  {
    if i > 0 {
      assert snap[0].publicSerial != snap[i].publicSerial;
      assert DistinctNames(snap[1..]) by {
        forall a, b | 0 <= a < b < |snap[1..]|
          ensures snap[1..][a].publicSerial != snap[1..][b].publicSerial
        {
          assert snap[a + 1].publicSerial != snap[b + 1].publicSerial;
        }
      }
      FindAt(snap[1..], i - 1);
    }
  }

  /** The registry of the single-user hub: the current list and a broadcast channel. */
  class DeviceRegistry {
    var devices: Snapshot
    var sent: nat // notifications sent so far

    constructor ()
      ensures devices == [] && sent == 0
    {
      devices, sent := [], 0;
    }

    /** Replace the list; notify exactly when it changed. */
    method UpdateFromBackendLists(lists: seq<(Backend, string)>)
      modifies this
      ensures devices == Merge(lists)
      ensures sent == old(sent) + (if old(devices) != Merge(lists) then 1 else 0)
    {
      var merged := MergeDeviceLists(lists);
      var changed := devices != merged;
      devices := merged;
      if changed {
        sent := sent + 1;
      }
    }
  }
}
