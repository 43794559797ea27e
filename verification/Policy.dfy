/** Device and backend switches: the tables, and the two filters that apply them. */
module Policy {
  import opened Wrappers
  import opened Text
  import opened Registry
  import opened Selections

  datatype PolicyEntry = PolicyEntry(serial: string, enabled: bool)

  /** Explicit entries; an absent serial is enabled. */
  type PolicyTable = map<string, bool>

  predicate IsEnabled(t: PolicyTable, key: string) {
    key in t ==> t[key]
  }

  /** Later entries win. */
  method FromEntries(entries: seq<PolicyEntry>) returns (t: PolicyTable)
    ensures forall s :: s in t <==> exists i :: 0 <= i < |entries| && entries[i].serial == s
    ensures forall i :: 0 <= i < |entries| && (forall j :: i < j < |entries| ==> entries[j].serial != entries[i].serial) ==>
              entries[i].serial in t && t[entries[i].serial] == entries[i].enabled
    ensures forall i :: 0 <= i < |entries| && (forall j :: i < j < |entries| ==> entries[j].serial != entries[i].serial) ==>
              (IsEnabled(t, entries[i].serial) <==> entries[i].enabled)
    ensures forall s: string :: (forall i :: 0 <= i < |entries| ==> entries[i].serial != s) ==> IsEnabled(t, s)
  {
    t := map[];
    for i := 0 to |entries|
      invariant forall s :: s in t <==> exists k :: 0 <= k < i && entries[k].serial == s
      invariant forall k :: 0 <= k < i && (forall j :: k < j < i ==> entries[j].serial != entries[k].serial) ==>
                  entries[k].serial in t && t[entries[k].serial] == entries[k].enabled
    {
      t := t[entries[i].serial := entries[i].enabled];
    }
  }

  datatype HubPolicy = HubPolicy(devices: PolicyTable, backends: map<string, bool>)

  predicate Admits(p: HubPolicy, d: Device) {
    IsEnabled(p.backends, d.backendName) && IsEnabled(p.devices, d.publicSerial)
  }

  /** `filter_snapshot`: the admitted devices, in order. */
  function FilterSnapshot(p: HubPolicy, snap: Snapshot): Snapshot {
    if |snap| == 0 then []
    else if Admits(p, snap[0]) then [snap[0]] + FilterSnapshot(p, snap[1..])
    else FilterSnapshot(p, snap[1..])
  }

  lemma {:induction false} FilterMembers(p: HubPolicy, snap: Snapshot)
    ensures forall d :: d in FilterSnapshot(p, snap) <==> d in snap && Admits(p, d)
    ensures forall d :: Admits(p, d) <==>
              && (d.backendName in p.backends ==> p.backends[d.backendName])
              && (d.publicSerial in p.devices ==> p.devices[d.publicSerial])
  {
    if |snap| > 0 { FilterMembers(p, snap[1..]); }
  }

  lemma {:induction false} FilterChosen(p: HubPolicy, snap: Snapshot)
    ensures FilterSnapshot(p, snap) == Chosen(snap, d => Admits(p, d))
  {
    if |snap| > 0 { FilterChosen(p, snap[1..]); }
  }

  /** The filtered list is the admitted devices: each occurrence, in the order of the list. */
  lemma FilterSnapshotIs(p: HubPolicy, snap: Snapshot)
    ensures IsSelection(snap, d => Admits(p, d), FilterSnapshot(p, snap))
  {
    FilterChosen(p, snap);
    ChosenIs(snap, d => Admits(p, d));
  }

  lemma {:induction false} FilterKeepsDistinct(p: HubPolicy, snap: Snapshot)
    requires DistinctNames(snap)
    ensures DistinctNames(FilterSnapshot(p, snap))
  {
    if |snap| > 0 {
      var rest := snap[1..];
      assert DistinctNames(rest) by {
        forall i, j | 0 <= i < j < |rest|
          ensures rest[i].publicSerial != rest[j].publicSerial
        {
          assert snap[i + 1].publicSerial != snap[j + 1].publicSerial;
        }
      }
      FilterKeepsDistinct(p, rest);
      FilterMembers(p, rest);
      var r := FilterSnapshot(p, rest);
      forall j | 0 <= j < |r|
        ensures r[j].publicSerial != snap[0].publicSerial
      {
        assert r[j] in rest;
        var k :| 0 <= k < |rest| && rest[k] == r[j];
        assert snap[0].publicSerial != snap[k + 1].publicSerial;
      }
    }
  }

  // ---------- filtering the text of a device list ----------

  /** What the filter does with one line. */
  predicate KeepsLine(line: string, isEnabled: string -> bool) {
    var t := Trim(line);
    t != [] && (IsNotice(t) || (var f := Fields(t); f != [] && isEnabled(f[0])))
  }

  function FilterLines(lines: seq<string>, isEnabled: string -> bool): string {
    if |lines| == 0 then ""
    else (if KeepsLine(lines[0], isEnabled) then lines[0] + "\n" else "") + FilterLines(lines[1..], isEnabled)
  }

  method FilterDevicesBody(raw: string, isEnabled: string -> bool) returns (out: string)
    ensures out == FilterLines(Lines(raw), isEnabled)
  {
    out := "";
    var lines := Lines(raw);
    var i := 0;
    while i < |lines|
      invariant 0 <= i <= |lines|
      invariant out + FilterLines(lines[i..], isEnabled) == FilterLines(lines, isEnabled)
    {
      var line := lines[i];
      ghost var rest := FilterLines(lines[i + 1..], isEnabled);
      assert lines[i..][1..] == lines[i + 1..];
      i := i + 1;
      var trimmed := Trim(line);
      if trimmed == [] {
        assert "" + rest == rest;
        continue;
      }
      if trimmed[0] == '*' || "List of" <= trimmed {
        Assoc(out, line + "\n", rest);
        Assoc(out, line, "\n");
        out := out + line;
        out := out + "\n";
        continue;
      }
      var fields := Fields(trimmed);
      var serial := if fields == [] then "" else fields[0];
      FieldsAreWords(trimmed);
      if serial == [] || !isEnabled(serial) {
        assert "" + rest == rest;
        continue;
      }
      Assoc(out, line + "\n", rest);
      Assoc(out, line, "\n");
      out := out + line;
      out := out + "\n";
    }
  }

  // ---------- the filtered text ----------

  /** Blank lines go, notices stay, a device line stays if its first word is enabled. */
  predicate Stays(line: string, isEnabled: string -> bool) {
    && Trim(line) != ""
    && ("*" <= Trim(line) || "List of" <= Trim(line) || (Fields(Trim(line)) != [] && isEnabled(Fields(Trim(line))[0])))
  }

  lemma StaysIs(line: string, isEnabled: string -> bool)
    ensures KeepsLine(line, isEnabled) <==> Stays(line, isEnabled)
  {
    if Trim(line) != "" { assert "*" <= Trim(line) <==> Trim(line)[0] == '*'; }
  }

  /** The kept lines, each less one carriage return. */
  function Stripped(lines: seq<string>): seq<string> {
    seq(|lines|, i requires 0 <= i < |lines| => StripCr(lines[i]))
  }

  lemma StrippedCons(line: string, kept: seq<string>)
    ensures Stripped([line] + kept) == [StripCr(line)] + Stripped(kept)
  {
  }

  lemma LineInText(line: string, rest: string, kept: seq<string>, keeps: bool)
    requires '\n' !in line && Lines(rest) == Stripped(kept)
    ensures Lines((if keeps then line + "\n" else "") + rest) == Stripped((if keeps then [line] else []) + kept)
  {
    if keeps {
      LinesCons(line, rest);
      StrippedCons(line, kept);
    } else {
      assert "" + rest == rest && [] + kept == kept;
    }
  }

  lemma {:induction false} FilterLinesText(lines: seq<string>, isEnabled: string -> bool)
    requires forall k :: 0 <= k < |lines| ==> '\n' !in lines[k]
    ensures Lines(FilterLines(lines, isEnabled)) == Stripped(Chosen(lines, l => Stays(l, isEnabled)))
  {
    if |lines| > 0 {
      var line, rest := lines[0], lines[1..];
      FilterLinesText(rest, isEnabled);
      StaysIs(line, isEnabled);
      LineInText(line, FilterLines(rest, isEnabled), Chosen(rest, l => Stays(l, isEnabled)), Stays(line, isEnabled));
    }
  }

  /** The lines of the filtered text are the lines of the raw text that stay, in order. */
  lemma FilteredTextExactly(raw: string, isEnabled: string -> bool)
    ensures exists kept :: IsSelection(Lines(raw), l => Stays(l, isEnabled), kept)
                        && Lines(FilterLines(Lines(raw), isEnabled)) == Stripped(kept)
  {
    LinesHaveNoFeed(raw);
    FilterLinesText(Lines(raw), isEnabled);
    ChosenIs(Lines(raw), l => Stays(l, isEnabled));
  }

  function KeepParsed(ps: seq<Parsed>, isEnabled: string -> bool): seq<Parsed> {
    if |ps| == 0 then []
    else (if isEnabled(ps[0].serial) then [ps[0]] else []) + KeepParsed(ps[1..], isEnabled)
  }

  lemma KeepParsedCons(p: Parsed, ps: seq<Parsed>, isEnabled: string -> bool)
    ensures KeepParsed([p] + ps, isEnabled) == (if isEnabled(p.serial) then [p] else []) + KeepParsed(ps, isEnabled)
  {
    assert ([p] + ps)[1..] == ps;
  }

  /** A stray carriage return at the end of a line never changes what the line says. */
  lemma ParseIgnoresCr(line: string)
    ensures ParseDeviceLine(StripCr(line)) == ParseDeviceLine(line)
  {
    TrimStripCr(line);
  }

  function AsSeq(p: Option<Parsed>): seq<Parsed> {
    if p.Some? then [p.value] else []
  }

  /** A text that starts with a complete line parses as that line, then the rest. */
  lemma ParseBodyCons(line: string, rest: string)
    requires '\n' !in line
    ensures ParseBody(line + "\n" + rest) == AsSeq(ParseDeviceLine(line)) + ParseBody(rest)
  {
    LinesCons(line, rest);
    ParseIgnoresCr(line);
    assert ([StripCr(line)] + Lines(rest))[1..] == Lines(rest);
  }

  /** The filter decides on the serial the parser would read. */
  lemma KeepsLineBySerial(line: string, isEnabled: string -> bool)
    requires ParseDeviceLine(line).Some?
    ensures KeepsLine(line, isEnabled) <==> isEnabled(ParseDeviceLine(line).value.serial)
  {
  }

  lemma {:induction false} FilterLinesParse(lines: seq<string>, isEnabled: string -> bool)
    requires forall k :: 0 <= k < |lines| ==> '\n' !in lines[k]
    ensures ParseBody(FilterLines(lines, isEnabled)) == KeepParsed(ParseLines(lines), isEnabled)
  {
    if |lines| > 0 {
      var line, p := lines[0], ParseDeviceLine(lines[0]);
      var rest := FilterLines(lines[1..], isEnabled);
      FilterLinesParse(lines[1..], isEnabled);
      if p.Some? {
        KeepsLineBySerial(line, isEnabled);
        KeepParsedCons(p.value, ParseLines(lines[1..]), isEnabled);
      } else {
        assert [] + ParseLines(lines[1..]) == ParseLines(lines[1..]);
      }
      if KeepsLine(line, isEnabled) {
        ParseBodyCons(line, rest);
      } else {
        assert "" + rest == rest;
      }
    }
  }

  /** Filtering the text and parsing it is parsing it and filtering the devices. */
  lemma FilterCommutesWithParse(raw: string, isEnabled: string -> bool)
    ensures ParseBody(FilterLines(Lines(raw), isEnabled)) == KeepParsed(ParseBody(raw), isEnabled)
  {
    LinesHaveNoFeed(raw);
    FilterLinesParse(Lines(raw), isEnabled);
  }
}
