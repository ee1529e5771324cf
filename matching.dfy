/**
  Longest-keyword selection, the search shared by the device-fee lookup of
  the pricing engine and the shipping-rate lookup of the offer views: scan
  the candidates in order and replace the current choice only by a strictly
  longer eligible keyword, so the earliest of the longest keywords wins.
*/
module Matching {
  import opened Wrappers
  import opened Text

  /**
    Candidate `i` is eligible when its keyword occurs in `hay`; with
    `skipEmpty` an empty keyword is never eligible.
  */
  predicate Eligible(keys: seq<string>, hay: string, skipEmpty: bool, i: nat)
    requires i < |keys|
  {
    (!skipEmpty || keys[i] != "") && Contains(hay, keys[i])
  }

  /** The choice after scanning the first `n` candidates, as the loops compute it. */
  function LongestFirst(keys: seq<string>, hay: string, skipEmpty: bool, n: nat): (r: Option<nat>)
    requires n <= |keys|
    ensures r.Some? ==> r.value < n
  {
    if n == 0 then None
    else
      var best := LongestFirst(keys, hay, skipEmpty, n - 1);
      if Eligible(keys, hay, skipEmpty, n - 1) && (best.None? || |keys[n - 1]| > |keys[best.value]|) then
        Some(n - 1)
      else
        best
  }

  /**
    `i` is the earliest among the longest eligible keywords of the first
    `n` candidates: it is eligible, no eligible keyword is longer, and every
    eligible keyword before it is strictly shorter.
  */
  ghost predicate IsLongestFirst(keys: seq<string>, hay: string, skipEmpty: bool, n: nat, i: nat)
    requires n <= |keys|
  {
    && i < n
    && Eligible(keys, hay, skipEmpty, i)
    && (forall j :: 0 <= j < n && Eligible(keys, hay, skipEmpty, j) ==> |keys[j]| <= |keys[i]|)
    && (forall j :: 0 <= j < i && Eligible(keys, hay, skipEmpty, j) ==> |keys[j]| < |keys[i]|)
  }

  /**
    The scan finds nothing exactly when no candidate is eligible, and
    otherwise finds the earliest of the longest eligible keywords.
  */
  lemma {:induction false} LongestFirstIsLongest(keys: seq<string>, hay: string, skipEmpty: bool, n: nat)
    requires n <= |keys|
    ensures LongestFirst(keys, hay, skipEmpty, n).None? <==>
      (forall j :: 0 <= j < n ==> !Eligible(keys, hay, skipEmpty, j))
    ensures LongestFirst(keys, hay, skipEmpty, n).Some? ==>
      IsLongestFirst(keys, hay, skipEmpty, n, LongestFirst(keys, hay, skipEmpty, n).value)
  {
    if n > 0 {
      LongestFirstIsLongest(keys, hay, skipEmpty, n - 1);
    }
  }

  /** There is at most one earliest-longest candidate, so the choice is determined. */
  lemma LongestFirstUnique(keys: seq<string>, hay: string, skipEmpty: bool, n: nat, i: nat, k: nat)
    requires n <= |keys|
    requires IsLongestFirst(keys, hay, skipEmpty, n, i) && IsLongestFirst(keys, hay, skipEmpty, n, k)
    ensures i == k
  {
  }
}
