/** The printed device list is read back as what was printed, and exactly when. */
module ListText {
  import opened Wrappers
  import opened Text
  import opened Registry
  import opened MergeNames
  import opened Policy

  /** A public serial the client can read back from the list. */
  predicate PlainName(s: string) {
    IsWord(s) && s[0] != '*'
  }

  ghost predicate PlainNames(snap: Snapshot) {
    forall i :: 0 <= i < |snap| ==> PlainName(snap[i].publicSerial)
  }

  ghost predicate FromParser(state: string, extras: string) {
    IsWord(state) && exists parts :: AllWords(parts) && extras == Join(parts, " ")
  }

  /** State and extras as the parser produces them. */
  ghost predicate ParsedColumns(snap: Snapshot) {
    forall i :: 0 <= i < |snap| ==> FromParser(snap[i].state, snap[i].extras)
  }

  function Shown(d: Device, long: bool): Parsed {
    Parsed(d.publicSerial, d.state, if long then d.extras else "")
  }

  function ShownAll(snap: Snapshot, long: bool): seq<Parsed> {
    seq(|snap|, i requires 0 <= i < |snap| => Shown(snap[i], long))
  }

  // ---------- parsing yields words ----------

  lemma ParsedIsPlain(line: string)
    requires ParseDeviceLine(line).Some?
    ensures var p := ParseDeviceLine(line).value; PlainName(p.serial) && FromParser(p.state, p.extras)
  {
    var t := Trim(line);
    var f := Fields(t);
    FieldsAreWords(t);
    assert AllWords(f[2..]);
    TrimHasNoLeadingSpace(line);
    assert t[0] == f[0][0] by { assert TrimStart(t) == t; FirstWordHead(t); }
  }

  lemma TrimHasNoLeadingSpace(s: string)
    ensures Trim(s) != [] ==> !IsSpace(Trim(s)[0])
  {
    TrimStartShorter(TrimEnd(s));
  }

  lemma FirstWordHead(s: string)
    requires s != [] && !IsSpace(s[0])
    ensures FirstWord(s) != [] && FirstWord(s)[0] == s[0]
  {
  }

  lemma {:induction false} ParsedLinesArePlain(lines: seq<string>)
    ensures forall i :: 0 <= i < |ParseLines(lines)| ==>
              PlainName(ParseLines(lines)[i].serial) && FromParser(ParseLines(lines)[i].state, ParseLines(lines)[i].extras)
  {
    if |lines| > 0 {
      ParsedLinesArePlain(lines[1..]);
      if ParseDeviceLine(lines[0]).Some? { ParsedIsPlain(lines[0]); }
    }
  }

  lemma {:induction false} RowsArePlain(lists: seq<(Backend, string)>)
    ensures forall i :: 0 <= i < |Rows(lists)| ==>
              PlainName(Rows(lists)[i].dev.serial) && FromParser(Rows(lists)[i].dev.state, Rows(lists)[i].dev.extras)
  {
    if |lists| > 0 {
      ParsedLinesArePlain(Lines(lists[0].1));
      RowsOfAt(lists[0].0, ParseBody(lists[0].1));
      RowsArePlain(lists[1..]);
    }
  }

  lemma MergedColumns(lists: seq<(Backend, string)>)
    ensures ParsedColumns(Merge(lists))
  {
    RowsArePlain(lists);
    forall i | 0 <= i < |Merge(lists)|
      ensures FromParser(Merge(lists)[i].state, Merge(lists)[i].extras)
    {
      MergeKeepsRows(lists, i);
    }
  }

  // ---------- one line ----------

  lemma NameIsNoNotice(name: string, rest: string)
    requires PlainName(name)
    ensures !IsNotice(name + "\t" + rest)
  {
    var line := name + "\t" + rest;
    assert line[0] == name[0];
    assert line[|name|] == '\t';
    assert 4 < |name| ==> line[4] == name[4] && !IsSpace(name[4]);
    assert "List of"[4] == ' ';
    assert forall k :: 0 <= k < 4 ==> "List of"[k] != '\t';
  }

  lemma FieldsOfLine(name: string, columns: seq<string>)
    requires PlainName(name) && AllWords(columns) && |columns| > 0
    ensures Fields(name + "\t" + Join(columns, " ")) == [name] + columns
  {
    var rest := Join(columns, " ");
    assert name + "\t" + rest == name + ("\t" + rest);
    FieldsOfWord(name, "\t" + rest);
    FieldsSkipSpace('\t', rest);
    FieldsOfJoin(columns);
  }

  lemma LineIsSolid(name: string, columns: seq<string>)
    requires PlainName(name) && AllWords(columns) && |columns| > 0
    ensures Trim(name + "\t" + Join(columns, " ")) == name + "\t" + Join(columns, " ")
    ensures '\n' !in name + "\t" + Join(columns, " ")
  {
    var rest := Join(columns, " ");
    var line := name + "\t" + rest;
    JoinIsSolid(columns);
    assert line[0] == name[0] && line[|line| - 1] == rest[|rest| - 1];
    TrimSolid(line);
  }

  lemma SolidLineParses(line: string, f: seq<string>)
    requires line != [] && Trim(line) == line && !IsNotice(line) && Fields(line) == f && |f| >= 2
    ensures ParseDeviceLine(line) == Some(Parsed(f[0], f[1], Join(f[2..], " ")))
  {
  }

  lemma ColumnsOf(name: string, columns: seq<string>)
    requires |columns| > 0
    ensures var f := [name] + columns; |f| >= 2 && f[0] == name && f[1] == columns[0] && f[2..] == columns[1..]
  {
  }

  lemma LineOf(name: string, columns: seq<string>)
    requires PlainName(name) && AllWords(columns) && |columns| > 0
    ensures ParseDeviceLine(name + "\t" + Join(columns, " ")) == Some(Parsed(name, columns[0], Join(columns[1..], " ")))
  {
    LineIsSolid(name, columns);
    NameIsNoNotice(name, Join(columns, " "));
    FieldsOfLine(name, columns);
    ColumnsOf(name, columns);
    SolidLineParses(name + "\t" + Join(columns, " "), [name] + columns);
  }

  lemma DeviceLine(d: Device, long: bool)
    requires PlainName(d.publicSerial) && FromParser(d.state, d.extras)
    ensures ParseDeviceLine(FormatDevice(d, long)) == Some(Shown(d, long))
    ensures '\n' !in FormatDevice(d, long)
  {
    var parts :| AllWords(parts) && d.extras == Join(parts, " ");
    if long && d.extras != [] {
      var columns := [d.state] + parts;
      assert columns[1..] == parts;
      assert Join(columns, " ") == d.state + " " + d.extras;
      LineIsSolid(d.publicSerial, columns);
      LineOf(d.publicSerial, columns);
    } else {
      var columns := [d.state];
      assert columns[1..] == [];
      LineIsSolid(d.publicSerial, columns);
      LineOf(d.publicSerial, columns);
    }
  }

  // ---------- the whole list ----------

  lemma ShownAllCons(snap: Snapshot, long: bool)
    requires |snap| > 0
    ensures ShownAll(snap, long) == [Shown(snap[0], long)] + ShownAll(snap[1..], long)
  {
  }

  lemma {:induction false} PrintedListParses(snap: Snapshot, long: bool)
    requires PlainNames(snap) && ParsedColumns(snap)
    ensures ParseBody(Format(snap, long)) == ShownAll(snap, long)
  {
    if |snap| > 0 {
      PrintedListParses(snap[1..], long);
      DeviceLine(snap[0], long);
      ParseBodyCons(FormatDevice(snap[0], long), Format(snap[1..], long));
      ShownAllCons(snap, long);
    }
  }

  /** The list an adb client reads is the merged list, if and only if every public serial is a plain word. */
  lemma ListReadsBackExactly(lists: seq<(Backend, string)>, long: bool)
    ensures ParseBody(Format(Merge(lists), long)) == ShownAll(Merge(lists), long) <==> PlainNames(Merge(lists))
  {
    var snap := Merge(lists);
    MergedColumns(lists);
    if PlainNames(snap) { PrintedListParses(snap, long); }
    if ParseBody(Format(snap, long)) == ShownAll(snap, long) {
      ParsedLinesArePlain(Lines(Format(snap, long)));
      forall i | 0 <= i < |snap|
        ensures PlainName(snap[i].publicSerial)
      {
        assert ShownAll(snap, long)[i].serial == snap[i].publicSerial;
      }
    }
  }

  // ---------- the text itself ----------

  /** One line of the list, character by character. */
  function LineText(d: Device, long: bool): string {
    d.publicSerial + "\t" + d.state + (if long && d.extras != "" then " " + d.extras else "")
  }

  lemma LineTextIs(d: Device, long: bool)
    requires PlainName(d.publicSerial) && FromParser(d.state, d.extras)
    ensures FormatDevice(d, long) == LineText(d, long)
    ensures '\n' !in LineText(d, long) && LineText(d, long)[|LineText(d, long)| - 1] != '\r'
  {
    var parts :| AllWords(parts) && d.extras == Join(parts, " ");
    var columns := if long && d.extras != [] then [d.state] + parts else [d.state];
    if long && d.extras != [] {
      assert columns[1..] == parts;
      assert Join(columns, " ") == d.state + " " + d.extras;
    }
    JoinIsSolid(columns);
    LineIsSolid(d.publicSerial, columns);
    assert FormatDevice(d, long) == d.publicSerial + "\t" + Join(columns, " ");
    FormatIsText(d, long);
  }

  lemma FormatIsText(d: Device, long: bool)
    ensures FormatDevice(d, long) == LineText(d, long)
  {
    var head := d.publicSerial + "\t";
    assert head + (d.state + " " + d.extras) == head + d.state + (" " + d.extras);
    assert head + d.state + "" == head + d.state;
  }

  /** The lines of the printed list, in order. */
  lemma {:induction false} PrintedLines(snap: Snapshot, long: bool)
    requires PlainNames(snap) && ParsedColumns(snap)
    ensures |Lines(Format(snap, long))| == |snap|
    ensures forall i :: 0 <= i < |snap| ==> Lines(Format(snap, long))[i] == LineText(snap[i], long)
  {
    if |snap| > 0 {
      PrintedLines(snap[1..], long);
      LineTextIs(snap[0], long);
      LineEndings(LineText(snap[0], long), Format(snap[1..], long));
      assert forall i :: 0 < i < |snap| ==> snap[i] == snap[1..][i - 1];
    }
  }

  /** Notices of the adb server and lines without two columns are no devices, wherever they stand. */
  lemma NoticesAreIgnored(line: string, rest: string)
    requires '\n' !in line
    requires "*" <= Trim(line) || "List of" <= Trim(line) || |Fields(Trim(line))| < 2
    ensures ParseBody(line + "\n" + rest) == ParseBody(rest)
  {
    ParseBodyCons(line, rest);
    assert "*" <= Trim(line) ==> Trim(line)[0] == '*';
    assert [] + ParseBody(rest) == ParseBody(rest);
  }

  /** Backend names that keep every public serial plain. */
  ghost predicate PlainBackends(lists: seq<(Backend, string)>) {
    forall k :: 0 <= k < |lists| ==>
      (lists[k].0.name == [] || lists[k].0.name[0] != '*') && forall c :: c in lists[k].0.name ==> !IsSpace(c)
  }

  lemma PlainBackendsReadBack(lists: seq<(Backend, string)>, long: bool)
    requires PlainBackends(lists)
    ensures ParseBody(Format(Merge(lists), long)) == ShownAll(Merge(lists), long)
  {
    forall i: nat | i < |Merge(lists)|
      ensures PlainName(Merge(lists)[i].publicSerial)
    {
      MergedNameIsPlain(lists, i);
    }
    ListReadsBackExactly(lists, long);
  }

  lemma MergedNameIsPlain(lists: seq<(Backend, string)>, i: nat)
    requires PlainBackends(lists) && i < |Merge(lists)|
    ensures PlainName(Merge(lists)[i].publicSerial)
  {
    var row := Rows(lists)[i];
    RowsArePlain(lists);
    MergeKeepsRows(lists, i);
    var k := RowBackend(lists, i);
    DecimalIsDigits(i);
    QualifiedIsPlain(row.backend.name, row.dev.serial, Decimal(i));
  }

  /** What a client reads of entry `i` are the columns of the line it came from. */
  lemma ListedColumns(lists: seq<(Backend, string)>, i: nat)
    requires PlainBackends(lists) && i < |Rows(lists)|
    ensures var long, short := ParseBody(Format(Merge(lists), true)), ParseBody(Format(Merge(lists), false));
            && |long| == |short| == |Rows(lists)|
            && long[i] == Parsed(Names(Rows(lists), |Rows(lists)|)[i], Rows(lists)[i].dev.state, Rows(lists)[i].dev.extras)
            && short[i] == Parsed(Names(Rows(lists), |Rows(lists)|)[i], Rows(lists)[i].dev.state, "")
  {
    PlainBackendsReadBack(lists, true);
    PlainBackendsReadBack(lists, false);
    MergeKeepsRows(lists, i);
    NamesAre(Rows(lists), |Rows(lists)|);
  }

  lemma QualifiedIsPlain(name: string, serial: string, number: string)
    requires (name == [] || name[0] != '*') && forall c :: c in name ==> !IsSpace(c)
    requires PlainName(serial)
    ensures PlainName(name + ":" + serial)
    ensures (forall c :: c in number ==> '0' <= c <= '9') ==> PlainName(name + ":" + serial + ":" + number)
  {
    var q := name + ":" + serial;
    assert q[0] == (if name == [] then ':' else name[0]);
    assert forall i :: 0 <= i < |q| ==> q[i] in name || q[i] == ':' || q[i] in serial;
    var f := q + ":" + number;
    assert f[0] == q[0];
    assert forall i :: 0 <= i < |f| ==> f[i] in q || f[i] == ':' || f[i] in number;
  }

  // ---------- a hub behind a hub ----------

  ghost predicate KeepsNames(snap: Snapshot, rows: seq<Row>)
    requires |rows| == |snap|
  {
    forall i: nat :: i < |snap| ==> NameAt(rows, i) == snap[i].publicSerial
  }

  /** Merging the printed list as the only backend keeps every name if and only if the names were distinct. */
  lemma RemergeKeepsNamesExactly(snap: Snapshot, b: Backend)
    requires PlainNames(snap) && ParsedColumns(snap)
    ensures var again := Merge([(b, Format(snap, true))]);
            && |again| == |snap|
            && (forall i :: 0 <= i < |snap| ==> again[i].upstreamSerial == snap[i].publicSerial)
            && ((forall i :: 0 <= i < |snap| ==> again[i].publicSerial == snap[i].publicSerial) <==> DistinctNames(snap))
  {
    var lists := [(b, Format(snap, true))];
    var rows := Rows(lists);
    SingleListRows(snap, b);
    SingleBackendNames(snap, rows);
    forall i: nat | i < |snap|
      ensures Merge(lists)[i].publicSerial == NameAt(rows, i) && Merge(lists)[i].upstreamSerial == rows[i].dev.serial
    {
      MergeKeepsRows(lists, i);
    }
  }

  lemma SingleBackendNames(snap: Snapshot, rows: seq<Row>)
    requires |rows| == |snap| && forall i :: 0 <= i < |snap| ==> rows[i].dev.serial == snap[i].publicSerial
    ensures KeepsNames(snap, rows) <==> DistinctNames(snap)
  {
    if DistinctNames(snap) {
      forall i: nat | i < |snap|
        ensures NameAt(rows, i) == snap[i].publicSerial
      {
        DistinctRowsKeepSerial(rows, i);
      }
    } else {
      var i, j :| 0 <= i < j < |snap| && snap[i].publicSerial == snap[j].publicSerial;
      CountTwo(rows, i, j);
      assert |NameAt(rows, j)| > |snap[j].publicSerial|;
    }
  }

  lemma SingleListRows(snap: Snapshot, b: Backend)
    requires PlainNames(snap) && ParsedColumns(snap)
    ensures var rows := Rows([(b, Format(snap, true))]);
            && |rows| == |snap|
            && forall i :: 0 <= i < |snap| ==> rows[i] == Row(b, Shown(snap[i], true))
  {
    PrintedListParses(snap, true);
    RowsOfAt(b, ShownAll(snap, true));
    var lists := [(b, Format(snap, true))];
    assert lists[1..] == [];
    assert Rows(lists) == RowsOf(b, ShownAll(snap, true)) + [];
  }

  lemma {:induction false} CountAtMostOne(rows: seq<Row>, serial: string)
    requires forall i, j :: 0 <= i < j < |rows| ==> rows[i].dev.serial != rows[j].dev.serial
    ensures Count(rows, serial) <= 1
    ensures Count(rows, serial) == 1 ==> exists i :: 0 <= i < |rows| && rows[i].dev.serial == serial
    decreases |rows|
  {
    if |rows| > 0 { CountAtMostOne(rows[..|rows| - 1], serial); }
  }

  lemma {:induction false} DistinctRowsKeepSerial(rows: seq<Row>, i: nat)
    requires i < |rows|
    requires forall i, j :: 0 <= i < j < |rows| ==> rows[i].dev.serial != rows[j].dev.serial
    ensures NameAt(rows, i) == rows[i].dev.serial
    ensures !FallsBack(rows, i)
    decreases i
  {
    CountAtMostOne(rows, rows[i].dev.serial);
    forall j: nat | j < i
      ensures BaseName(rows, j) != BaseName(rows, i) && !FallsBack(rows, j)
    {
      DistinctRowsKeepSerial(rows, j);
      CountAtMostOne(rows, rows[j].dev.serial);
      assert rows[j].dev.serial != rows[i].dev.serial;
    }
    assert !FallsBack(rows, i);
  }

  // ---------- the merge can repeat a name ----------

  function Plain(serial: string): Device {
    Device(serial, serial, "device", "", "", SocketAddr("", 0), None, None)
  }

  lemma CountThree(rows: seq<Row>, serial: string)
    requires |rows| == 3
    ensures Count(rows, serial) == (if rows[0].dev.serial == serial then 1 else 0)
                                 + (if rows[1].dev.serial == serial then 1 else 0)
                                 + (if rows[2].dev.serial == serial then 1 else 0)
  {
    var two := rows[..2];
    var one := two[..1];
    assert one[..0] == [] && Count(one[..0], serial) == 0;
    assert Count(one, serial) == if rows[0].dev.serial == serial then 1 else 0;
    assert Count(two, serial) == Count(one, serial) + if rows[1].dev.serial == serial then 1 else 0;
  }

  lemma RepeatedName(rows: seq<Row>)
    requires |rows| == 3 && forall i :: 0 <= i < 3 ==> rows[i].backend.name == "a"
    requires rows[0].dev.serial == "a:x:2" && rows[1].dev.serial == "x" && rows[2].dev.serial == "x"
    ensures NameAt(rows, 0) == "a:x:2" == NameAt(rows, 2)
  {
    assert "a:x:2" != "x" by { assert |"a:x:2"| != |"x"|; }
    CountThree(rows, "a:x:2");
    CountThree(rows, "x");
    assert BaseName(rows, 1) == BaseName(rows, 2);
    assert FallsBack(rows, 2);
  }

  /**
   One backend called `a` that lists `a:x:2` and twice `x`: the second `x` falls
   back to `a:x:2`, which is in use.
   */
  lemma MergeCanRepeatNames(b: Backend)
    requires b.name == "a"
    ensures var lists := [(b, Format([Plain("a:x:2"), Plain("x"), Plain("x")], true))];
            && |Merge(lists)| == 3
            && Merge(lists)[0].publicSerial == "a:x:2" == Merge(lists)[2].publicSerial
  {
    var snap := [Plain("a:x:2"), Plain("x"), Plain("x")];
    var lists := [(b, Format(snap, true))];
    assert FromParser("device", "") by { assert AllWords([]) && Join([], " ") == ""; }
    assert PlainName("a:x:2") && PlainName("x");
    assert PlainNames(snap);
    SingleListRows(snap, b);
    RepeatedName(Rows(lists));
    MergeKeepsRows(lists, 0);
    MergeKeepsRows(lists, 2);
  }
}
