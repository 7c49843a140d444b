/** Minimum, maximum and sum of integer sequences, the references the array scans are proved against. */
module Sequences {

  /** The smallest element of a non-empty sequence. */
  function Min(s: seq<int>): (m: int)
    requires s != []
    ensures m in s
    ensures forall i :: 0 <= i < |s| ==> m <= s[i]
    decreases |s|
  {
    if |s| == 1 then s[0]
    else
      var m' := Min(s[..|s| - 1]);
      if s[|s| - 1] < m' then s[|s| - 1] else m'
  }

  /** The largest element of a non-empty sequence. */
  function Max(s: seq<int>): (m: int)
    requires s != []
    ensures m in s
    ensures forall i :: 0 <= i < |s| ==> s[i] <= m
    decreases |s|
  {
    if |s| == 1 then s[0]
    else
      var m' := Max(s[..|s| - 1]);
      if s[|s| - 1] > m' then s[|s| - 1] else m'
  }

  /** The sum of a sequence, added up from the left. */
  function Sum(s: seq<int>): (total: int)
    decreases |s|
  {
    if s == [] then 0 else Sum(s[..|s| - 1]) + s[|s| - 1]
  }

  /** A lower bound of `s` that occurs in it is its minimum. */
  lemma MinUnique(s: seq<int>, m: int)
    requires s != [] && m in s
    requires forall i :: 0 <= i < |s| ==> m <= s[i]
    ensures m == Min(s)
  {
  }

  /** An upper bound of `s` that occurs in it is its maximum. */
  lemma MaxUnique(s: seq<int>, m: int)
    requires s != [] && m in s
    requires forall i :: 0 <= i < |s| ==> s[i] <= m
    ensures m == Max(s)
  {
  }
}
