/** The string operations the device lists go through: lines, trimming, fields, decimal numbers. */
module Text {

  /** `char::is_whitespace`: the Unicode White_Space property. */
  predicate IsSpace(c: char) {
    var n := c as int;
    || 0x09 <= n <= 0x0D || n == 0x20 || n == 0x85 || n == 0xA0 || n == 0x1680
    || 0x2000 <= n <= 0x200A || n == 0x2028 || n == 0x2029 || n == 0x202F || n == 0x205F || n == 0x3000
  }

  /** The 25 code points with the Unicode property White_Space. */
  lemma WhiteSpace(c: char)
    ensures IsSpace(c) <==> c as int in {
              0x09, 0x0A, 0x0B, 0x0C, 0x0D, 0x20, 0x85, 0xA0, 0x1680, 0x2000, 0x2001, 0x2002, 0x2003, 0x2004, 0x2005,
              0x2006, 0x2007, 0x2008, 0x2009, 0x200A, 0x2028, 0x2029, 0x202F, 0x205F, 0x3000}
  {
  }


  /** A non-empty string without white space. */
  predicate IsWord(s: string) {
    s != [] && forall i :: 0 <= i < |s| ==> !IsSpace(s[i])
  }

  function TrimStart(s: string): string {
    if s != [] && IsSpace(s[0]) then TrimStart(s[1..]) else s
  }

  function TrimEnd(s: string): string {
    if s != [] && IsSpace(s[|s| - 1]) then TrimEnd(s[..|s| - 1]) else s
  }

  function Trim(s: string): string {
    TrimStart(TrimEnd(s))
  }

  /** The longest prefix without white space. */
  function FirstWord(s: string): (w: string)
    ensures |w| <= |s|
    ensures s != [] && !IsSpace(s[0]) ==> |w| > 0
  {
    if s == [] || IsSpace(s[0]) then [] else [s[0]] + FirstWord(s[1..])
  }

  lemma TrimStartShorter(s: string)
    ensures |TrimStart(s)| <= |s|
    ensures TrimStart(s) != [] ==> !IsSpace(TrimStart(s)[0])
  {
  }

  /** `split_whitespace`. */
  function Fields(s: string): seq<string>
    decreases |s|
  {
    TrimStartShorter(s);
    var t := TrimStart(s);
    if t == [] then [] else [FirstWord(t)] + Fields(t[|FirstWord(t)|..])
  }

  function Join(parts: seq<string>, sep: string): string {
    if |parts| == 0 then ""
    else if |parts| == 1 then parts[0]
    else parts[0] + sep + Join(parts[1..], sep)
  }

  function FindChar(s: string, c: char): (i: nat)
    ensures i <= |s|
    ensures forall k :: 0 <= k < i ==> s[k] != c
    ensures i < |s| ==> s[i] == c
  {
    if s == [] || s[0] == c then 0 else 1 + FindChar(s[1..], c)
  }

  /** One carriage return before a line feed belongs to the line ending. */
  function StripCr(s: string): string {
    if s != [] && s[|s| - 1] == '\r' then s[..|s| - 1] else s
  }

  /** `str::lines`. */
  function Lines(s: string): seq<string>
    decreases |s|
  {
    var i := FindChar(s, '\n');
    if s == [] then []
    else if i == |s| then [s]
    else [StripCr(s[..i])] + Lines(s[i + 1..])
  }

  /** `format!("{}", n)`. */
  function Decimal(n: nat): string {
    if n < 10 then ["0123456789"[n]] else Decimal(n / 10) + ["0123456789"[n % 10]]
  }

  // ---------- trimming ----------

  lemma TrimSolid(s: string)
    requires s != [] && !IsSpace(s[0]) && !IsSpace(s[|s| - 1])
    ensures Trim(s) == s
  {
  }

  /** A carriage return left at the end of a line does not matter once the line is trimmed. */
  lemma TrimStripCr(s: string)
    ensures Trim(StripCr(s)) == Trim(s)
  {
  }

  // ---------- fields ----------

  lemma {:induction false} FirstWordOf(w: string, rest: string)
    requires forall i :: 0 <= i < |w| ==> !IsSpace(w[i])
    requires rest == [] || IsSpace(rest[0])
    ensures FirstWord(w + rest) == w
    decreases |w|
  {
    if w == [] {
      assert w + rest == rest;
    } else {
      FirstWordOf(w[1..], rest);
      assert (w + rest)[1..] == w[1..] + rest;
    }
  }

  /** A leading word is the first field, whatever follows the white space after it. */
  lemma FieldsOfWord(w: string, rest: string)
    requires IsWord(w)
    requires rest == [] || IsSpace(rest[0])
    ensures Fields(w + rest) == [w] + Fields(rest)
  {
    FirstWordOf(w, rest);
    assert (w + rest)[0] == w[0];
    assert TrimStart(w + rest) == w + rest;
    assert (w + rest)[|w|..] == rest;
  }

  lemma FieldsSkipSpace(c: char, rest: string)
    requires IsSpace(c)
    ensures Fields([c] + rest) == Fields(rest)
  {
    assert ([c] + rest)[1..] == rest;
    assert TrimStart([c] + rest) == TrimStart(rest);
  }

  lemma {:induction false} FirstWordIsWord(s: string)
    ensures forall i :: 0 <= i < |FirstWord(s)| ==> !IsSpace(FirstWord(s)[i])
  {
    if s != [] && !IsSpace(s[0]) {
      FirstWordIsWord(s[1..]);
    }
  }

  lemma {:induction false} FieldsAreWords(s: string)
    ensures forall i :: 0 <= i < |Fields(s)| ==> IsWord(Fields(s)[i])
    decreases |s|
  {
    TrimStartShorter(s);
    var t := TrimStart(s);
    if t != [] {
      FirstWordIsWord(t);
      FieldsAreWords(t[|FirstWord(t)|..]);
    }
  }

  ghost predicate AllWords(parts: seq<string>) {
    forall i :: 0 <= i < |parts| ==> IsWord(parts[i])
  }

  /** Joining words with spaces and splitting again is the identity. */
  lemma {:induction false} FieldsOfJoin(parts: seq<string>)
    requires AllWords(parts)
    ensures Fields(Join(parts, " ")) == parts
  {
    if |parts| == 0 {
    } else if |parts| == 1 {
      FieldsOfWord(parts[0], "");
      assert parts[0] + "" == parts[0];
    } else {
      var tail := Join(parts[1..], " ");
      FieldsOfJoin(parts[1..]);
      FieldsOfWord(parts[0], " " + tail);
      FieldsSkipSpace(' ', tail);
      assert parts[0] + " " + tail == parts[0] + (" " + tail);
    }
  }

  /** Joined words are a single solid line. */
  lemma {:induction false} JoinIsSolid(parts: seq<string>)
    requires AllWords(parts) && |parts| > 0
    ensures var j := Join(parts, " ");
            j != [] && !IsSpace(j[0]) && !IsSpace(j[|j| - 1]) && '\n' !in j
  {
    if |parts| == 1 {
      assert IsWord(parts[0]);
    } else {
      assert IsWord(parts[0]);
      JoinIsSolid(parts[1..]);
    }
  }

  // ---------- lines ----------

  /** A text that starts with a complete line. */
  lemma LinesCons(a: string, rest: string)
    requires '\n' !in a
    ensures Lines(a + "\n" + rest) == [StripCr(a)] + Lines(rest)
  {
    var s := a + "\n" + rest;
    assert s[|a|] == '\n';
    assert forall k :: 0 <= k < |a| ==> s[k] == a[k];
    assert s[..|a|] == a && s[|a| + 1..] == rest;
  }

  /** Lines contain no line feed. */
  /** Either line ending is cut off; a last line need not have one, and then keeps everything. */
  lemma LineEndings(a: string, rest: string)
    requires '\n' !in a
    ensures Lines(a + "\r\n" + rest) == [a] + Lines(rest)
    ensures (a == "" || a[|a| - 1] != '\r') ==> Lines(a + "\n" + rest) == [a] + Lines(rest)
    ensures a != "" ==> Lines(a) == [a]
    ensures Lines("") == []
  {
    LinesCons(a, rest);
    LinesCons(a + "\r", rest);
    assert a + "\r\n" + rest == (a + "\r") + "\n" + rest;
    assert StripCr(a + "\r") == a;
  }

  lemma {:induction false} LinesHaveNoFeed(s: string)
    ensures forall k :: 0 <= k < |Lines(s)| ==> '\n' !in Lines(s)[k]
    decreases |s|
  {
    var i := FindChar(s, '\n');
    if s != [] && i < |s| {
      LinesHaveNoFeed(s[i + 1..]);
    }
  }

  // ---------- numbers ----------

  lemma {:induction false} DecimalInjective(m: nat, n: nat)
    requires Decimal(m) == Decimal(n)
    ensures m == n
    decreases m
  {
    DecimalNonEmpty(m / 10);
    DecimalNonEmpty(n / 10);
    if m < 10 || n < 10 {
      assert m < 10 && n < 10;
      DigitsDiffer(m, n);
    } else {
      var dm, dn := Decimal(m), Decimal(n);
      assert dm[..|dm| - 1] == Decimal(m / 10) && dn[..|dn| - 1] == Decimal(n / 10);
      DecimalInjective(m / 10, n / 10);
      assert dm[|dm| - 1] == dn[|dn| - 1];
      DigitsDiffer(m % 10, n % 10);
    }
  }

  function NumberOf(digits: string): nat
    requires forall i :: 0 <= i < |digits| ==> '0' <= digits[i] <= '9'
  {
    if |digits| == 0 then 0 else 10 * NumberOf(digits[..|digits| - 1]) + (digits[|digits| - 1] as nat - '0' as nat)
  }

  /** The digits are those of the number, with no zero in front. */
  lemma {:induction false} DecimalReadsBack(n: nat)
    ensures forall i :: 0 <= i < |Decimal(n)| ==> '0' <= Decimal(n)[i] <= '9'
    ensures NumberOf(Decimal(n)) == n && |Decimal(n)| > 0 && (n > 0 ==> Decimal(n)[0] != '0')
  {
    DecimalIsDigits(n);
    if n >= 10 {
      DecimalReadsBack(n / 10);
      assert Decimal(n)[..|Decimal(n)| - 1] == Decimal(n / 10);
    } else {
      assert Decimal(n)[..0] == [];
    }
  }

  lemma DigitsDiffer(a: nat, b: nat)
    requires a < 10 && b < 10 && "0123456789"[a] == "0123456789"[b]
    ensures a == b
  {
  }

  lemma DecimalNonEmpty(n: nat)
    ensures |Decimal(n)| > 0
  {
  }

  lemma {:induction false} DecimalIsDigits(n: nat)
    ensures forall i :: 0 <= i < |Decimal(n)| ==> '0' <= Decimal(n)[i] <= '9'
    ensures ':' !in Decimal(n)
  {
    if n >= 10 { DecimalIsDigits(n / 10); }
  }
}
