/** `median` of pallet-chainlink-feed/src/utils.rs and what it promises consumers. */
module Medians {
  import opened Types

  ghost predicate Sorted(s: seq<Value>) {
    forall i, j :: 0 <= i < j < |s| ==> s[i] <= s[j]
  }

  function Insert(x: Value, s: seq<Value>): (r: seq<Value>)
    ensures multiset(r) == multiset(s) + multiset{x}
    ensures |r| == |s| + 1
  {
    if s == [] then [x]
    else if x <= s[0] then [x] + s
    else
      assert s == [s[0]] + s[1..];
      [s[0]] + Insert(x, s[1..])
  }

  function Sort(s: seq<Value>): (r: seq<Value>)
    ensures multiset(r) == multiset(s)
    ensures |r| == |s|
  {
    if s == [] then []
    else
      assert s == [s[0]] + s[1..];
      Insert(s[0], Sort(s[1..]))
  }

  /** The middle element, or half the saturating sum of the two middle ones. */
  function MiddleOf(s: seq<Value>, valueMax: Value): Value
    requires s != []
  {
    var mid := |s| / 2;
    if |s| % 2 == 0 then SaturatingAdd(s[mid - 1], s[mid], valueMax) / 2 else s[mid]
  }

  function Median(s: seq<Value>, valueMax: Value): Value
    requires s != []
  {
    MiddleOf(Sort(s), valueMax)
  }

  lemma {:induction false} InsertAtLeast(x: Value, s: seq<Value>, low: Value)
    requires low <= x && forall y :: y in s ==> low <= y
    ensures forall y :: y in Insert(x, s) ==> low <= y
  {
    if s != [] && x > s[0] {
      assert forall y :: y in s[1..] ==> y in s;
      InsertAtLeast(x, s[1..], low);
      assert s[0] in s;
    }
  }

  lemma {:induction false} InsertSorts(x: Value, s: seq<Value>)
    requires Sorted(s)
    ensures Sorted(Insert(x, s))
  {
    if s != [] && x > s[0] {
      InsertSorts(x, s[1..]);
      assert forall y :: y in s[1..] ==> y in s && s[0] <= y;
      InsertAtLeast(x, s[1..], s[0]);
      var r := Insert(x, s[1..]);
      forall j | 0 <= j < |r| ensures s[0] <= r[j] {
        assert r[j] in r;
      }
    }
  }

  lemma {:induction false} SortSorts(s: seq<Value>)
    ensures Sorted(Sort(s))
  {
    if s != [] {
      SortSorts(s[1..]);
      InsertSorts(s[0], Sort(s[1..]));
    }
  }

  lemma HeadIsLeast(a: seq<Value>, x: Value)
    requires Sorted(a) && x in multiset(a)
    ensures a != [] && a[0] <= x
  {
  }

  lemma TailOf(a: seq<Value>)
    requires a != []
    ensures a == [a[0]] + a[1..] && multiset(a[1..]) == multiset(a) - multiset{a[0]}
  {
  }

  lemma SameHead(a: seq<Value>, b: seq<Value>)
    requires Sorted(a) && Sorted(b) && multiset(a) == multiset(b) && a != []
    ensures b != [] && a[0] == b[0] && multiset(a[1..]) == multiset(b[1..])
  {
    assert a[0] in multiset(a);
    HeadIsLeast(b, a[0]);
    assert b[0] in multiset(b);
    HeadIsLeast(a, b[0]);
    TailOf(a);
    TailOf(b);
  }

  /** A sorted arrangement of a multiset is unique, so any sorting algorithm gives `Sort`. */
  lemma {:induction false} SortedUnique(a: seq<Value>, b: seq<Value>)
    requires Sorted(a) && Sorted(b) && multiset(a) == multiset(b)
    ensures a == b
  {
    if a == [] {
      assert |b| == |multiset(b)| == 0;
    } else {
      SameHead(a, b);
      SortedUnique(a[1..], b[1..]);
      TailOf(a);
      TailOf(b);
    }
  }

  lemma MedianIgnoresOrder(a: seq<Value>, b: seq<Value>, valueMax: Value)
    requires a != [] && multiset(a) == multiset(b)
    ensures b != [] && Sort(a) == Sort(b) && Median(a, valueMax) == Median(b, valueMax)
  {
    assert |b| == |multiset(b)| == |multiset(a)| == |a|;
    SortSorts(a);
    SortSorts(b);
    SortedUnique(Sort(a), Sort(b));
  }

  /** How many elements of `s` lie in `[lo, hi]`. */
  function CountWithin(s: seq<Value>, lo: Value, hi: Value): nat {
    if s == [] then 0
    else (if lo <= s[0] <= hi then 1 else 0) + CountWithin(s[1..], lo, hi)
  }

  lemma {:induction false} CountInsert(x: Value, s: seq<Value>, lo: Value, hi: Value)
    ensures CountWithin(Insert(x, s), lo, hi) == CountWithin([x] + s, lo, hi)
  {
    assert ([x] + s)[1..] == s;
    if s != [] && x > s[0] {
      CountInsert(x, s[1..], lo, hi);
      assert ([s[0]] + Insert(x, s[1..]))[1..] == Insert(x, s[1..]);
      assert ([x] + s[1..])[1..] == s[1..];
    }
  }

  lemma {:induction false} CountSort(s: seq<Value>, lo: Value, hi: Value)
    ensures CountWithin(Sort(s), lo, hi) == CountWithin(s, lo, hi)
  {
    if s != [] {
      CountSort(s[1..], lo, hi);
      CountInsert(s[0], Sort(s[1..]), lo, hi);
      assert ([s[0]] + Sort(s[1..]))[1..] == Sort(s[1..]);
    }
  }

  lemma {:induction false} CountSplit(s: seq<Value>, k: nat, lo: Value, hi: Value)
    requires k <= |s|
    ensures CountWithin(s, lo, hi) == CountWithin(s[..k], lo, hi) + CountWithin(s[k..], lo, hi)
  {
    if k == 0 {
      assert s[..0] == [] && s[0..] == s;
    } else {
      CountSplit(s[1..], k - 1, lo, hi);
      assert s[..k][1..] == s[1..][..k - 1];
      assert s[k..] == s[1..][k - 1..];
    }
  }

  lemma {:induction false} CountBound(s: seq<Value>, lo: Value, hi: Value)
    ensures CountWithin(s, lo, hi) <= |s|
    ensures (forall x :: x in s ==> x < lo || x > hi) ==> CountWithin(s, lo, hi) == 0
    ensures (forall x :: x in s ==> lo <= x <= hi) ==> CountWithin(s, lo, hi) == |s|
  {
    if s != [] {
      CountBound(s[1..], lo, hi);
      assert forall x :: x in s[1..] ==> x in s;
      assert s[0] in s;
    }
  }

  /** A strict majority of `s` lies in `[lo, hi]`. */
  ghost predicate MajorityWithin(s: seq<Value>, lo: Value, hi: Value) {
    2 * CountWithin(s, lo, hi) > |s|
  }

  lemma MiddleAtLeast(s: seq<Value>, lo: Value, hi: Value, i: nat)
    requires Sorted(s) && MajorityWithin(s, lo, hi) && i < |s| <= 2 * i + 2
    ensures lo <= s[i]
  {
    CountSplit(s, i + 1, lo, hi);
    CountBound(s[..i + 1], lo, hi);
    CountBound(s[i + 1..], lo, hi);
  }

  lemma MiddleAtMost(s: seq<Value>, lo: Value, hi: Value, i: nat)
    requires Sorted(s) && MajorityWithin(s, lo, hi) && i < |s| && 2 * i <= |s|
    ensures s[i] <= hi
  {
    CountSplit(s, i, lo, hi);
    CountBound(s[..i], lo, hi);
    CountBound(s[i..], lo, hi);
  }

  lemma MajoritySorted(s: seq<Value>, lo: Value, hi: Value)
    requires MajorityWithin(s, lo, hi)
    ensures s != [] && Sorted(Sort(s)) && MajorityWithin(Sort(s), lo, hi)
  {
    CountBound(s, lo, hi);
    SortSorts(s);
    CountSort(s, lo, hi);
  }

  lemma MajorityBoundsMedian(s: seq<Value>, lo: Value, hi: Value, valueMax: Value)
    requires MajorityWithin(s, lo, hi)
    requires 2 * lo <= valueMax
    ensures s != [] && lo <= Median(s, valueMax) <= hi
  {
    hide MajorityWithin, Sorted, Sort;
    MajoritySorted(s, lo, hi);
    var t := Sort(s);
    var mid := |t| / 2;
    MiddleAtLeast(t, lo, hi, mid);
    MiddleAtMost(t, lo, hi, mid);
    if |t| % 2 == 0 {
      MiddleAtLeast(t, lo, hi, mid - 1);
      MiddleAtMost(t, lo, hi, mid - 1);
    }
  }

  /** Twice `lo` fits below the saturation point exactly when majorities in `[lo, hi]` always decide. */
  lemma MedianRobustIff(lo: Value, hi: Value, valueMax: Value)
    requires lo <= hi
    ensures (forall s: seq<Value> :: MajorityWithin(s, lo, hi) ==> s != [] && lo <= Median(s, valueMax) <= hi)
            <==> 2 * lo <= valueMax
  {
    if 2 * lo <= valueMax {
      forall s: seq<Value> | MajorityWithin(s, lo, hi)
        ensures s != [] && lo <= Median(s, valueMax) <= hi
      {
        MajorityBoundsMedian(s, lo, hi, valueMax);
      }
    } else {
      var s: seq<Value> := [lo, lo];
      CountBound(s, lo, hi);
      assert MajorityWithin(s, lo, hi);
      assert Sort(s[1..]) == [lo];
      assert Sort(s) == [lo, lo];
      assert Median(s, valueMax) < lo;
    }
  }

  /** The median of values within bounds leaves them only by saturating, on an even count above half the value range. */
  lemma MedianInBoundsIff(s: seq<Value>, lo: Value, hi: Value, valueMax: Value)
    requires s != [] && forall x :: x in s ==> lo <= x <= hi
    ensures lo <= Median(s, valueMax) <= hi <==> |s| % 2 == 1 || 2 * lo <= valueMax
  {
    var t := Sort(s);
    assert multiset(t) == multiset(s) && |t| == |s|;
    hide Sort;
    forall i | 0 <= i < |t| ensures lo <= t[i] <= hi {
      assert t[i] in multiset(s);
      assert t[i] in s;
    }
  }

  // --- the median by ranks ---

  function Below(s: seq<Value>, v: Value): nat {
    if v == 0 then 0 else CountWithin(s, 0, v - 1)
  }

  function AtMost(s: seq<Value>, v: Value): nat {
    CountWithin(s, 0, v)
  }

  /** `v` is the value of rank `k`, counting from 0: at most `k` values are smaller, and more than `k` are not larger. */
  ghost predicate Ranked(s: seq<Value>, k: nat, v: Value) {
    Below(s, v) <= k < AtMost(s, v)
  }

  lemma {:induction false} CountGrows(s: seq<Value>, a: Value, b: Value)
    requires a <= b
    ensures CountWithin(s, 0, a) <= CountWithin(s, 0, b)
  {
    if s != [] {
      CountGrows(s[1..], a, b);
    }
  }

  lemma RankIsUnique(s: seq<Value>, k: nat, v: Value, w: Value)
    requires Ranked(s, k, v) && Ranked(s, k, w)
    ensures v == w
  {
    if v < w {
      CountGrows(s, v, w - 1);
    } else if w < v {
      CountGrows(s, w, v - 1);
    }
  }

  lemma BelowInSorted(t: seq<Value>, k: nat)
    requires Sorted(t) && k < |t|
    ensures Below(t, t[k]) <= k
  {
    var v := t[k];
    if v > 0 {
      CountSplit(t, k, 0, v - 1);
      CountBound(t[..k], 0, v - 1);
      assert forall x :: x in t[k..] ==> x > v - 1;
      CountBound(t[k..], 0, v - 1);
    }
  }

  lemma AtMostInSorted(t: seq<Value>, k: nat)
    requires Sorted(t) && k < |t|
    ensures k < AtMost(t, t[k])
  {
    var v := t[k];
    CountSplit(t, k + 1, 0, v);
    var front := t[..k + 1];
    assert forall x :: x in front ==> 0 <= x <= v;
    CountBound(front, 0, v);
  }

  lemma RankInSorted(s: seq<Value>, k: nat)
    requires k < |Sort(s)|
    ensures Ranked(s, k, Sort(s)[k])
  {
    hide Sort, CountWithin, Sorted;
    var t := Sort(s);
    SortSorts(s);
    BelowInSorted(t, k);
    AtMostInSorted(t, k);
    CountSort(s, 0, t[k]);
    if t[k] > 0 {
      CountSort(s, 0, t[k] - 1);
    }
  }

  /** The values of the two middle ranks, which are the same rank for an odd number of values. */
  ghost predicate MiddlePair(s: seq<Value>, a: Value, b: Value)
    requires s != []
  {
    Ranked(s, (|s| - 1) / 2, a) && Ranked(s, |s| / 2, b)
  }

  /** `m` is half of `total`, rounded down. */
  ghost predicate HalfOf(m: Value, total: nat) {
    2 * m <= total <= 2 * m + 1
  }

  lemma MiddleOfSorted(s: seq<Value>)
    requires s != []
    ensures |Sort(s)| == |s| && MiddlePair(s, Sort(s)[(|s| - 1) / 2], Sort(s)[|s| / 2])
  {
    hide Sort, Ranked;
    RankInSorted(s, (|s| - 1) / 2);
    RankInSorted(s, |s| / 2);
  }

  /**
   What the median is, told from the submissions alone: the value of middle rank or, for an even number of them,
   half the sum of the two values of middle rank, where the sum stops at the largest value.
   */
  lemma MedianByRanks(s: seq<Value>, valueMax: Value)
    requires s != []
    ensures exists a: Value, b: Value :: MiddlePair(s, a, b)
    ensures forall a: Value, b: Value :: MiddlePair(s, a, b) ==>
              if |s| % 2 == 1 then a == b == Median(s, valueMax)
              else HalfOf(Median(s, valueMax), if a + b <= valueMax then a + b else valueMax)
  {
    hide Sort, Ranked;
    var low, high := (|s| - 1) / 2, |s| / 2;
    MiddleOfSorted(s);
    forall a: Value, b: Value | MiddlePair(s, a, b) ensures a == Sort(s)[low] && b == Sort(s)[high] {
      RankIsUnique(s, low, a, Sort(s)[low]);
      RankIsUnique(s, high, b, Sort(s)[high]);
    }
  }

  // --- the in-place algorithm ---

  method SmallestFrom(a: array<Value>, from: nat) returns (k: nat)
    requires from < a.Length
    ensures from <= k < a.Length
    ensures forall j :: from <= j < a.Length ==> a[k] <= a[j]
  {
    k := from;
    for i := from + 1 to a.Length
      invariant from <= k < a.Length
      invariant forall j :: from <= j < i ==> a[k] <= a[j]
    {
      if a[i] < a[k] {
        k := i;
      }
    }
  }

  lemma SwapPermutes(s: seq<Value>, i: nat, k: nat)
    requires i <= k < |s|
    ensures multiset(s[i := s[k]][k := s[i]]) == multiset(s)
  {
  }

  /** Everything before `i` is in its final place. */
  ghost predicate SettledUpTo(s: seq<Value>, i: nat) {
    forall j, k :: 0 <= j < i && j < k < |s| ==> s[j] <= s[k]
  }

  method SwapIn(a: array<Value>, i: nat, k: nat)
    requires i <= k < a.Length && SettledUpTo(a[..], i)
    requires forall j :: i <= j < a.Length ==> a[k] <= a[j]
    modifies a
    ensures multiset(a[..]) == multiset(old(a[..])) && SettledUpTo(a[..], i + 1)
  {
    ghost var s := a[..];
    a[i], a[k] := a[k], a[i];
    assert a[..] == s[i := s[k]][k := s[i]];
    SwapPermutes(s, i, k);
  }

  method SortInPlace(a: array<Value>)
    modifies a
    ensures a[..] == Sort(old(a[..]))
  {
    for i := 0 to a.Length
      invariant multiset(a[..]) == multiset(old(a[..])) && SettledUpTo(a[..], i)
    {
      var k := SmallestFrom(a, i);
      SwapIn(a, i, k);
    }
    SortSorts(old(a[..]));
    SortedUnique(a[..], Sort(old(a[..])));
  }

  /** Sorts the caller's buffer and returns its median; panics on an empty one. */
  method MedianInPlace(numbers: array<Value>, valueMax: Value) returns (m: Value)
    requires numbers.Length > 0
    modifies numbers
    ensures numbers[..] == Sort(old(numbers[..]))
    ensures m == Median(old(numbers[..]), valueMax)
  {
    SortInPlace(numbers);
    var mid := numbers.Length / 2;
    if numbers.Length % 2 == 0 {
      m := SaturatingAdd(numbers[mid - 1], numbers[mid], valueMax) / 2;
    } else {
      m := numbers[mid];
    }
  }
}
