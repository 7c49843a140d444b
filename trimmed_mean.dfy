/**
 * answer_question_1_with_c_language.h: the average of a list after every
 * occurrence of its smallest and of its largest value has been removed.
 * The division and its two-decimal printing are left to the caller: the
 * model stops at the integer sum and count that are divided.
 */
module TrimmedMean {
  import opened Sequences

  const IntMin: int := -0x8000_0000
  const IntMax: int := 0x7fff_ffff

  /** Every element fits in a C `int`. */
  predicate IsIntArray(s: seq<int>) {
    forall i :: 0 <= i < |s| ==> IntMin <= s[i] <= IntMax
  }

  /** What the program prints: an average of `sum / count`, or the error message. */
  datatype Report = Average(sum: int, count: nat) | NoNumbersLeft

  /** The elements of `s`, in order, that equal neither `lo` nor `hi`. */
  function Kept(s: seq<int>, lo: int, hi: int): (k: seq<int>)
    ensures |k| <= |s|
    ensures forall i :: 0 <= i < |k| ==> k[i] != lo && k[i] != hi
    decreases |s|
  {
    if s == [] then []
    else
      var k := Kept(s[..|s| - 1], lo, hi);
      var x := s[|s| - 1];
      if x != lo && x != hi then k + [x] else k
  }

  /** The list with all its smallest and largest values removed. */
  function Trimmed(s: seq<int>): (t: seq<int>)
    requires s != []
  {
    Kept(s, Min(s), Max(s))
  }

  /**
   * The first loop (lines 17-21): from `INT_MAX` and `INT_MIN` down and up to
   * the extremes of the list.
   */
  method MinMax(a: array<int>) returns (lo: int, hi: int)
    requires IsIntArray(a[..])
    ensures a.Length == 0 ==> lo == IntMax && hi == IntMin
    ensures a.Length > 0 ==> lo == Min(a[..]) && hi == Max(a[..])
    ensures forall i :: 0 <= i < a.Length ==> lo <= a[i] <= hi
  {
    lo, hi := IntMax, IntMin;
    for i := 0 to a.Length
      invariant i == 0 ==> lo == IntMax && hi == IntMin
      invariant i > 0 ==> lo in a[..i] && hi in a[..i]
      invariant forall k :: 0 <= k < i ==> lo <= a[k] <= hi
    {
      if a[i] < lo {
        lo := a[i];
      }
      if a[i] > hi {
        hi := a[i];
      }
      assert a[..i + 1] == a[..i] + [a[i]];
    }
    if a.Length > 0 {
      assert a[..a.Length] == a[..];
      MinUnique(a[..], lo);
      MaxUnique(a[..], hi);
    }
  }

  /** The second loop (lines 24-30): sum and count of the elements equal to neither bound. */
  method SumExcluding(a: array<int>, lo: int, hi: int) returns (sum: int, count: nat)
    ensures count == |Kept(a[..], lo, hi)| && sum == Sum(Kept(a[..], lo, hi))
  {
    sum, count := 0, 0;
    for i := 0 to a.Length
      invariant count == |Kept(a[..i], lo, hi)| && sum == Sum(Kept(a[..i], lo, hi))
    {
      assert a[..i + 1][..i] == a[..i];
      if a[i] != lo && a[i] != hi {
        sum := sum + a[i];
        count := count + 1;
      }
    }
    assert a[..a.Length] == a[..];
  }

  /** The body of the program's input loop, from the filled array to what it prints. */
  method TrimmedAverage(a: array<int>) returns (r: Report)
    requires IsIntArray(a[..])
    ensures a.Length == 0 ==> r == NoNumbersLeft
    ensures a.Length > 0 ==> (r.NoNumbersLeft? <==> Trimmed(a[..]) == [])
    ensures r.Average? ==> a.Length > 0 && r.sum == Sum(Trimmed(a[..])) && r.count == |Trimmed(a[..])|
  {
    var lo, hi := MinMax(a);
    var sum, count := SumExcluding(a, lo, hi);
    if count > 0 {
      r := Average(sum, count);
    } else {
      r := NoNumbersLeft;
    }
  }

  // ---------------------------------------------------------------------
  // Properties of the trimmed list

  /** How often `x` occurs in what is kept: never for a bound, as often as in `s` otherwise. */
  lemma {:induction false} KeptOccurrences(s: seq<int>, lo: int, hi: int, x: int)
    ensures multiset(Kept(s, lo, hi))[x] == if x == lo || x == hi then 0 else multiset(s)[x]
    decreases |s|
  {
    if s != [] {
      var init, last := s[..|s| - 1], s[|s| - 1];
      assert s == init + [last];
      KeptOccurrences(init, lo, hi, x);
    }
  }

  /** Nothing is left exactly when every element is one of the two bounds. */
  lemma {:induction false} KeptEmptyIff(s: seq<int>, lo: int, hi: int)
    ensures Kept(s, lo, hi) == [] <==> forall i :: 0 <= i < |s| ==> s[i] == lo || s[i] == hi
    decreases |s|
  {
    if s != [] {
      var init := s[..|s| - 1];
      KeptEmptyIff(init, lo, hi);
      assert forall i :: 0 <= i < |init| ==> init[i] == s[i];
    }
  }

  /** Each removed occurrence of a bound is one element fewer. */
  lemma {:induction false} KeptLength(s: seq<int>, lo: int, hi: int)
    requires lo != hi
    ensures |Kept(s, lo, hi)| + multiset(s)[lo] + multiset(s)[hi] == |s|
    decreases |s|
  {
    if s != [] {
      var init, last := s[..|s| - 1], s[|s| - 1];
      assert s == init + [last];
      KeptLength(init, lo, hi);
    }
  }

  /** With two distinct extremes, at least two elements are removed. */
  lemma TrimmedBound(s: seq<int>)
    requires s != [] && Min(s) != Max(s)
    ensures |Trimmed(s)| <= |s| - 2
  {
    KeptLength(s, Min(s), Max(s));
  }

  /** A list whose elements are all equal leaves nothing, so the error is reported. */
  lemma AllEqualLeavesNothing(s: seq<int>)
    requires s != []
    requires forall i :: 0 <= i < |s| ==> s[i] == s[0]
    ensures Trimmed(s) == []
  {
    KeptEmptyIff(s, Min(s), Max(s));
  }

  /** The error is reported exactly when every element is the minimum or the maximum. */
  lemma NothingLeftIff(s: seq<int>)
    requires s != []
    ensures Trimmed(s) == [] <==> forall i :: 0 <= i < |s| ==> s[i] == Min(s) || s[i] == Max(s)
  {
    KeptEmptyIff(s, Min(s), Max(s));
  }
}
