/** `quantileNearestRank` (src/statistics/quantile.ts:43-59), the exact quantile of a list of numbers. */
module NearestRank {
  import opened Basics
  import opened LatencyHistogram

  predicate Sorted(s: seq<real>) {
    forall i, j :: 0 <= i < j < |s| ==> s[i] <= s[j]
  }

  function Insert(x: real, s: seq<real>): (r: seq<real>)
    requires Sorted(s)
    ensures Sorted(r) && multiset(r) == multiset(s) + multiset{x}
  {
    if s == [] then [x]
    else if x <= s[0] then [x] + s
    else
      var tail := Insert(x, s[1..]);
      HeadFirst(x, s, tail);
      [s[0]] + tail
  }

  lemma HeadFirst(x: real, s: seq<real>, tail: seq<real>)
    requires Sorted(s) && s != [] && s[0] < x
    requires Sorted(tail) && multiset(tail) == multiset(s[1..]) + multiset{x}
    ensures Sorted([s[0]] + tail) && multiset([s[0]] + tail) == multiset(s) + multiset{x}
  {
    assert s == [s[0]] + s[1..];
    forall j | 0 <= j < |tail|
      ensures s[0] <= tail[j]
    {
      assert tail[j] in multiset(tail);
      assert tail[j] == x || tail[j] in s[1..];
    }
  }

  function ToSorted(s: seq<real>): (r: seq<real>)
    ensures Sorted(r) && multiset(r) == multiset(s) && |r| == |s|
  {
    if s == [] then []
    else
      assert s == [s[0]] + s[1..];
      var r := Insert(s[0], ToSorted(s[1..]));
      assert |r| == |multiset(r)| == |multiset(s)|;
      r
  }

  /** The index of the nearest rank, kept inside the list. */
  function NearestIndex(length: nat, quantile: real): (index: nat)
    requires length > 0
    ensures index < length
  {
    var ceiling := Ceiling(length as real * quantile) - 1;
    var index := if ceiling < 0 then 0 else ceiling;
    if index < length - 1 then index else length - 1
  }

  /** A fraction outside the unit interval throws; no observations give null. */
  function QuantileNearestRank(values: seq<real>, quantile: real): Result<Option<real>, ()> {
    if !(0.0 <= quantile <= 1.0) then Err(())
    else if values == [] then Ok(None)
    else
      Ok(Some(ToSorted(values)[NearestIndex(|values|, quantile)]))
  }
}
