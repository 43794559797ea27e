/**
 When the public serials of a merged list are pairwise distinct. The code tries to
 keep them unique but does not look its second choice up again, so uniqueness can
 fail; `NamesDistinctExactly` says exactly when, in terms of the input rows.
 */
module MergeNames {
  import opened Wrappers
  import opened Text
  import opened Registry

  /** Row `i` finds its first choice taken, by the first or the second choice of an earlier row. */
  ghost predicate FallsBack(rows: seq<Row>, i: nat)
    requires i < |rows|
    decreases i
  {
    exists j: nat :: j < i &&
      (BaseName(rows, j) == BaseName(rows, i) || (FallsBack(rows, j) && Fallback(rows, j) == BaseName(rows, i)))
  }

  /** No row that needs its second choice meets it as the first choice of an earlier row. */
  ghost predicate FallbacksFree(rows: seq<Row>) {
    forall i: nat, j: nat :: j < i < |rows| && FallsBack(rows, i) ==> BaseName(rows, j) != Fallback(rows, i)
  }

  ghost predicate Distinct(names: seq<string>) {
    forall i, j :: 0 <= i < j < |names| ==> names[i] != names[j]
  }

  // ---------- strings with colons ----------

  function Colons(s: string): nat {
    if s == [] then 0 else (if s[0] == ':' then 1 else 0) + Colons(s[1..])
  }

  lemma {:induction false} ColonsConcat(a: string, b: string)
    ensures Colons(a + b) == Colons(a) + Colons(b)
  {
    if a == [] {
      assert a + b == b;
    } else {
      ColonsConcat(a[1..], b);
      assert (a + b)[1..] == a[1..] + b;
    }
  }

  lemma {:induction false} NoColons(s: string)
    requires ':' !in s
    ensures Colons(s) == 0
  {
    if s != [] { NoColons(s[1..]); }
  }

  /** A colon-free head and the tail after the first colon are determined by the whole. */
  lemma SplitAtColon(a: string, b: string, c: string, d: string)
    requires ':' !in a && ':' !in c
    requires a + ":" + b == c + ":" + d
    ensures a == c && b == d
  {
    var s := a + ":" + b;
    assert s[|a|] == ':' && s[|c|] == ':';
    assert forall k :: 0 <= k < |a| ==> s[k] == a[k];
    assert forall k :: 0 <= k < |c| ==> s[k] == c[k];
    assert |a| == |c|;
    assert s[..|a|] == a && s[..|c|] == c;
    assert s[|a| + 1..] == b && s[|c| + 1..] == d;
  }

  /** Colon-free tails after the last colon are determined by the whole. */
  lemma SplitAtLastColon(a: string, b: string, c: string, d: string)
    requires ':' !in b && ':' !in d
    requires a + ":" + b == c + ":" + d
    ensures b == d
  {
    var s := a + ":" + b;
    assert s[|a|] == ':' && s[|c|] == ':';
    assert forall k :: |a| < k < |s| ==> s[k] == b[k - |a| - 1];
    assert forall k :: |c| < k < |s| ==> s[k] == d[k - |c| - 1];
    assert |a| == |c|;
    assert s[|a| + 1..] == b && s[|c| + 1..] == d;
  }

  /** Second choices never collide with each other: they end in the row's own number. */
  lemma FallbacksDiffer(rows: seq<Row>, i: nat, j: nat)
    requires i < |rows| && j < |rows| && i != j
    ensures Fallback(rows, i) != Fallback(rows, j)
  {
    DecimalIsDigits(i);
    DecimalIsDigits(j);
    if Fallback(rows, i) == Fallback(rows, j) {
      SplitAtLastColon(rows[i].backend.name + ":" + rows[i].dev.serial, Decimal(i),
                       rows[j].backend.name + ":" + rows[j].dev.serial, Decimal(j));
      DecimalInjective(i, j);
    }
  }

  // ---------- the recursion over names in use, read off the input ----------

  /** The name row `i` gets. */
  ghost function NameAt(rows: seq<Row>, i: nat): string
    requires i < |rows|
  {
    if FallsBack(rows, i) then Fallback(rows, i) else BaseName(rows, i)
  }

  lemma {:induction false} NamesAre(rows: seq<Row>, k: nat)
    requires k <= |rows|
    ensures forall i: nat :: i < k ==> Names(rows, k)[i] == NameAt(rows, i)
  {
    if k > 0 {
      NamesAre(rows, k - 1);
      TakenExactly(rows, k - 1);
    }
  }

  /** The name in use that the set lookup finds is one `FallsBack` speaks of. */
  lemma {:induction false} TakenExactly(rows: seq<Row>, i: nat)
    requires i < |rows|
    requires forall j: nat :: j < i ==> Names(rows, i)[j] == NameAt(rows, j)
    ensures BaseName(rows, i) in Names(rows, i) <==> FallsBack(rows, i)
  {
    if BaseName(rows, i) in Names(rows, i) {
      var j: nat :| j < i && Names(rows, i)[j] == BaseName(rows, i);
      assert NameAt(rows, j) == BaseName(rows, i);
    }
    if FallsBack(rows, i) {
      var j: nat :| j < i &&
        (BaseName(rows, j) == BaseName(rows, i) || (FallsBack(rows, j) && Fallback(rows, j) == BaseName(rows, i)));
      var k := FirstUse(rows, j, BaseName(rows, i));
      assert Names(rows, i)[k] == BaseName(rows, i);
    }
  }

  /** A first choice that occurs up to row `j`, or the second choice used at `j`, is the name of some row up to `j`. */
  lemma {:induction false} FirstUse(rows: seq<Row>, j: nat, name: string) returns (k: nat)
    requires j < |rows|
    requires BaseName(rows, j) == name || (FallsBack(rows, j) && Fallback(rows, j) == name)
    ensures k <= j && NameAt(rows, k) == name
    decreases j
  {
    if FallsBack(rows, j) && Fallback(rows, j) != name {
      var i: nat :| i < j &&
        (BaseName(rows, i) == BaseName(rows, j) || (FallsBack(rows, i) && Fallback(rows, i) == BaseName(rows, j)));
      k := FirstUse(rows, i, name);
    } else {
      k := j;
    }
  }

  // ---------- which name a line gets ----------

  /** Some other line has the same serial. */
  ghost predicate Contested(rows: seq<Row>, i: nat)
    requires i < |rows|
  {
    exists j: nat :: j < |rows| && j != i && rows[j].dev.serial == rows[i].dev.serial
  }

  /** The serial alone while no other line has it, else qualified by the backend. */
  ghost function FirstChoice(rows: seq<Row>, i: nat): string
    requires i < |rows|
  {
    if Contested(rows, i) then rows[i].backend.name + ":" + rows[i].dev.serial else rows[i].dev.serial
  }

  lemma {:induction false} CountNone(rows: seq<Row>, serial: string)
    requires forall j: nat :: j < |rows| ==> rows[j].dev.serial != serial
    ensures Count(rows, serial) == 0
    decreases |rows|
  {
    if |rows| > 0 { CountNone(rows[..|rows| - 1], serial); }
  }

  lemma {:induction false} CountAlone(rows: seq<Row>, i: nat)
    requires i < |rows| && !Contested(rows, i)
    ensures Count(rows, rows[i].dev.serial) == 1
    decreases |rows|
  {
    var front, last := rows[..|rows| - 1], |rows| - 1;
    if i == last {
      CountNone(front, rows[i].dev.serial);
    } else {
      assert front[i] == rows[i];
      CountAlone(front, i);
    }
  }

  lemma FirstChoiceIs(rows: seq<Row>, i: nat)
    requires i < |rows|
    ensures BaseName(rows, i) == FirstChoice(rows, i)
  {
    if j: nat :| j < |rows| && j != i && rows[j].dev.serial == rows[i].dev.serial {
      if j < i { CountTwo(rows, j, i); } else { CountTwo(rows, i, j); }
    } else {
      CountAlone(rows, i);
    }
  }

  lemma {:induction false} NamesExtend(rows: seq<Row>, i: nat, k: nat)
    requires i <= k <= |rows|
    ensures Names(rows, k)[..i] == Names(rows, i)
    decreases k
  {
    if i < k {
      NamesExtend(rows, i, k - 1);
      assert Names(rows, k)[..k - 1] == Names(rows, k - 1);
      assert Names(rows, k)[..i] == Names(rows, k)[..k - 1][..i];
    }
  }

  /** Each line gets its first choice, unless an earlier line has that name; then the choice with its own number. */
  lemma NameMeans(rows: seq<Row>, i: nat)
    requires i < |rows|
    ensures var names, first := Names(rows, |rows|), FirstChoice(rows, i);
            names[i] == if first in names[..i] then rows[i].backend.name + ":" + rows[i].dev.serial + ":" + Decimal(i) else first
  {
    FirstChoiceIs(rows, i);
    NamesExtend(rows, i, |rows|);
    NamesExtend(rows, i + 1, |rows|);
    assert Names(rows, |rows|)[i] == Names(rows, |rows|)[..i + 1][i];
  }

  // ---------- the exact condition ----------

  /** Public serials are pairwise distinct if and only if no second choice in use is an earlier row's first choice. */
  lemma NamesDistinctExactly(rows: seq<Row>)
    ensures Distinct(Names(rows, |rows|)) <==> FallbacksFree(rows)
  {
    NamesAre(rows, |rows|);
    if FallbacksFree(rows) {
      forall i, j | 0 <= i < j < |rows|
        ensures Names(rows, |rows|)[i] != Names(rows, |rows|)[j]
      {
        FreeImpliesDistinct(rows, i, j);
      }
    }
    if Distinct(Names(rows, |rows|)) {
      forall i: nat, j: nat | j < i < |rows| && FallsBack(rows, i)
        ensures BaseName(rows, j) != Fallback(rows, i)
      {
        if BaseName(rows, j) == Fallback(rows, i) {
          var k := FirstUse(rows, j, Fallback(rows, i));
          assert Names(rows, |rows|)[k] == Names(rows, |rows|)[i];
        }
      }
    }
  }

  lemma FreeImpliesDistinct(rows: seq<Row>, j: nat, i: nat)
    requires FallbacksFree(rows) && j < i < |rows|
    ensures NameAt(rows, j) != NameAt(rows, i)
  {
    FallbacksDiffer(rows, i, j);
  }

  // ---------- two conditions an operator can check ----------

  ghost predicate ColonFree(rows: seq<Row>) {
    forall i :: 0 <= i < |rows| ==> ':' !in rows[i].backend.name && ':' !in rows[i].dev.serial
  }

  /** Without colons in names and serials the merge never repeats a name, however often lines repeat. */
  lemma ColonFreeIsEnough(rows: seq<Row>)
    requires ColonFree(rows)
    ensures Distinct(Names(rows, |rows|))
  {
    forall i: nat, j: nat | j < i < |rows| && FallsBack(rows, i)
      ensures BaseName(rows, j) != Fallback(rows, i)
    {
      ColonCount(rows, i);
      ColonCount(rows, j);
    }
    NamesDistinctExactly(rows);
  }

  lemma ColonCount(rows: seq<Row>, i: nat)
    requires ColonFree(rows) && i < |rows|
    ensures Colons(BaseName(rows, i)) <= 1
    ensures Colons(Fallback(rows, i)) == 2
  {
    var n, s := rows[i].backend.name, rows[i].dev.serial;
    NoColons(n);
    NoColons(s);
    DecimalIsDigits(i);
    NoColons(Decimal(i));
    ColonsConcat(n, ":");
    ColonsConcat(n + ":", s);
    ColonsConcat(n + ":" + s, ":");
    ColonsConcat(n + ":" + s + ":", Decimal(i));
  }

  /** Serials with colons (devices on the network) are fine as long as none looks like a qualified name. */
  ghost predicate Qualified(rows: seq<Row>) {
    && (forall i, j :: 0 <= i < j < |rows| ==>
          rows[i].backend.name != rows[j].backend.name || rows[i].dev.serial != rows[j].dev.serial)
    && (forall i :: 0 <= i < |rows| ==> ':' !in rows[i].backend.name)
    && (forall i, j :: 0 <= i < |rows| && 0 <= j < |rows| ==> !(rows[i].backend.name + ":" <= rows[j].dev.serial))
  }

  lemma QualifiedIsEnough(rows: seq<Row>)
    requires Qualified(rows)
    ensures Distinct(Names(rows, |rows|))
    ensures forall i: nat :: i < |rows| ==> Names(rows, |rows|)[i] == FirstChoice(rows, i)
  {
    forall i: nat | i < |rows|
      ensures !FallsBack(rows, i)
    {
      QualifiedNeverFallsBack(rows, i);
    }
    forall i: nat | i < |rows|
      ensures BaseName(rows, i) == FirstChoice(rows, i)
    {
      FirstChoiceIs(rows, i);
    }
    NamesAre(rows, |rows|);
    NamesDistinctExactly(rows);
  }

  lemma {:induction false} QualifiedNeverFallsBack(rows: seq<Row>, i: nat)
    requires Qualified(rows) && i < |rows|
    ensures !FallsBack(rows, i)
    decreases i
  {
    forall j: nat | j < i
      ensures BaseName(rows, j) != BaseName(rows, i) && !FallsBack(rows, j)
    {
      QualifiedNeverFallsBack(rows, j);
      QualifiedBasesDiffer(rows, j, i);
    }
  }

  lemma QualifiedBasesDiffer(rows: seq<Row>, j: nat, i: nat)
    requires Qualified(rows) && j < i < |rows|
    ensures BaseName(rows, j) != BaseName(rows, i)
  {
    var (m, s) := (rows[j].backend.name, rows[j].dev.serial);
    var (n, t) := (rows[i].backend.name, rows[i].dev.serial);
    if BaseName(rows, j) == BaseName(rows, i) {
      if s == t { CountTwo(rows, j, i); }
      assert m + ":" <= m + ":" + s && n + ":" <= n + ":" + t;
      if m + ":" + s == n + ":" + t { SplitAtColon(m, s, n, t); }
    }
  }

  lemma {:induction false} CountTwo(rows: seq<Row>, j: nat, i: nat)
    requires j < i < |rows| && rows[j].dev.serial == rows[i].dev.serial
    ensures Count(rows, rows[i].dev.serial) > 1
    decreases |rows|
  {
    var front := rows[..|rows| - 1];
    if i < |rows| - 1 {
      CountTwo(front, j, i);
    } else {
      CountOne(front, j);
    }
  }

  lemma {:induction false} CountOne(rows: seq<Row>, j: nat)
    requires j < |rows|
    ensures Count(rows, rows[j].dev.serial) > 0
    decreases |rows|
  {
    if j < |rows| - 1 { CountOne(rows[..|rows| - 1], j); }
  }

  // ---------- the merged list ----------

  /**
   The merge keeps every parsed line, in order: its serial, state and extras, and the
   name, address and code of the backend that listed it. Only the public serial is
   its own, and there is no route.
   */
  lemma MergeKeepsRows(lists: seq<(Backend, string)>, i: nat)
    requires i < |Rows(lists)|
    ensures |Merge(lists)| == |Rows(lists)|
    ensures var row, d := Rows(lists)[i], Merge(lists)[i];
            && d.upstreamSerial == row.dev.serial && d.state == row.dev.state && d.extras == row.dev.extras
            && d.backendName == row.backend.name && d.backendAddr == row.backend.addr && d.pairCode == row.backend.pairCode
            && d.routeId == None && d.publicSerial == NameAt(Rows(lists), i)
  {
    var rows := Rows(lists);
    DevicesAt(rows, |rows|, i);
    NamesAre(rows, |rows|);
    NamesAre(rows, i + 1);
  }

  lemma MergeDistinctExactly(lists: seq<(Backend, string)>)
    ensures DistinctNames(Merge(lists)) <==> FallbacksFree(Rows(lists))
  {
    var rows := Rows(lists);
    NamesDistinctExactly(rows);
    NamesAre(rows, |rows|);
    forall i: nat | i < |rows|
      ensures Merge(lists)[i].publicSerial == Names(rows, |rows|)[i]
    {
      MergeKeepsRows(lists, i);
    }
  }
}
