/** What it means to keep some elements of a list, in order. */
module Selections {
  /** How many of the first `i` elements pass the test. */
  function Rank<T>(s: seq<T>, keep: T -> bool, i: nat): nat
    requires i <= |s|
  {
    if i == 0 then 0 else Rank(s, keep, i - 1) + (if keep(s[i - 1]) then 1 else 0)
  }

  /** `r` is the elements of `s` that pass the test, each at the place its rank says: all of them, in order, and no others. */
  ghost predicate IsSelection<T>(s: seq<T>, keep: T -> bool, r: seq<T>) {
    && |r| == Rank(s, keep, |s|)
    && forall i :: 0 <= i < |s| && keep(s[i]) ==> Rank(s, keep, i) < |r| && r[Rank(s, keep, i)] == s[i]
  }

  function Chosen<T>(s: seq<T>, keep: T -> bool): seq<T> {
    if |s| == 0 then [] else (if keep(s[0]) then [s[0]] else []) + Chosen(s[1..], keep)
  }

  lemma {:induction false} RankPrefix<T>(s: seq<T>, keep: T -> bool, n: nat, i: nat)
    requires i <= n <= |s|
    ensures Rank(s[..n], keep, i) == Rank(s, keep, i)
  {
    if i > 0 { RankPrefix(s, keep, n, i - 1); }
  }

  lemma {:induction false} RankShift<T>(s: seq<T>, keep: T -> bool, i: nat)
    requires 0 < i <= |s|
    ensures Rank(s, keep, i) == (if keep(s[0]) then 1 else 0) + Rank(s[1..], keep, i - 1)
  {
    if i > 1 {
      RankShift(s, keep, i - 1);
      assert s[1..][i - 2] == s[i - 1];
    }
  }

  lemma {:induction false} ChosenIs<T>(s: seq<T>, keep: T -> bool)
    ensures IsSelection(s, keep, Chosen(s, keep))
  {
    if |s| > 0 {
      var rest, r := Chosen(s[1..], keep), Chosen(s, keep);
      ChosenIs(s[1..], keep);
      RankShift(s, keep, |s|);
      forall i | 0 <= i < |s| && keep(s[i])
        ensures Rank(s, keep, i) < |r| && r[Rank(s, keep, i)] == s[i]
      {
        if i > 0 {
          RankShift(s, keep, i);
          assert s[1..][i - 1] == s[i];
        }
      }
    }
  }
}
