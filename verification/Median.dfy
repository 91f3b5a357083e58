/** The composite oracle's insertion sort and median, in place, and what a median guarantees. */
module Median {
  import opened Util

  ghost predicate Sorted(s: seq<int>) {
    forall i, j | 0 <= i < j < |s| :: s[i] <= s[j]
  }

  ghost predicate Below(s: seq<int>, t: seq<int>) {
    |s| == |t| && forall i | 0 <= i < |s| :: s[i] <= t[i]
  }

  /** Placing a key from the right, past everything larger. */
  function Insert(s: seq<int>, key: int): seq<int> {
    if s != [] && s[|s| - 1] > key then Insert(s[..|s| - 1], key) + [s[|s| - 1]] else s + [key]
  }

  function Sort(values: seq<int>): seq<int> {
    if values == [] then [] else Insert(Sort(values[..|values| - 1]), values[|values| - 1])
  }

  /** The middle of a sorted list; for an even count the midpoint, floored whatever its sign. */
  function Middle(s: seq<int>): int
    requires |s| > 0
  {
    if |s| % 2 == 1 then s[|s| / 2]
    else
      var sum := s[|s| / 2 - 1] + s[|s| / 2];
      TruncDiv(if sum >= 0 then sum else sum - 1, 2)
  }

  function MedianOf(values: seq<int>): int
    requires |values| > 0
  {
    SortPermutes(values);
    Middle(Sort(values))
  }

  // ---- sorting ------------------------------------------------------------------------

  lemma {:induction false} InsertPermutes(s: seq<int>, key: int)
    ensures multiset(Insert(s, key)) == multiset(s + [key])
    ensures |Insert(s, key)| == |s| + 1
  {
    if s != [] && s[|s| - 1] > key {
      InsertPermutes(s[..|s| - 1], key);
      assert s == s[..|s| - 1] + [s[|s| - 1]];
    }
  }

  lemma {:induction false} InsertBounded(s: seq<int>, key: int, bound: int)
    requires key <= bound && forall i | 0 <= i < |s| :: s[i] <= bound
    ensures forall i | 0 <= i < |Insert(s, key)| :: Insert(s, key)[i] <= bound
  {
    if s != [] && s[|s| - 1] > key {
      InsertBounded(s[..|s| - 1], key, bound);
    }
  }

  lemma {:induction false} InsertKeepsSorted(s: seq<int>, key: int)
    requires Sorted(s)
    ensures Sorted(Insert(s, key))
  {
    if s != [] && s[|s| - 1] > key {
      InsertKeepsSorted(s[..|s| - 1], key);
      InsertBounded(s[..|s| - 1], key, s[|s| - 1]);
    }
  }

  /** Sorting orders the values and keeps every one of them. */
  lemma {:induction false} SortSorts(values: seq<int>)
    ensures Sorted(Sort(values)) && multiset(Sort(values)) == multiset(values)
  {
    if values != [] {
      var front := values[..|values| - 1];
      SortSorts(front);
      InsertKeepsSorted(Sort(front), values[|values| - 1]);
      InsertPermutes(Sort(front), values[|values| - 1]);
      assert values == front + [values[|values| - 1]];
    }
  }

  lemma SortPermutes(values: seq<int>)
    ensures |Sort(values)| == |values|
  {
    SortSorts(values);
    assert |multiset(Sort(values))| == |multiset(values)|;
  }

  lemma SameLast(s: seq<int>, t: seq<int>)
    requires s != [] && t != [] && Sorted(s) && Sorted(t) && multiset(s) == multiset(t)
    ensures s[|s| - 1] == t[|t| - 1]
  {
    assert s[|s| - 1] in multiset(t) && t[|t| - 1] in multiset(s);
  }

  lemma PopLast(s: seq<int>)
    requires s != []
    ensures multiset(s[..|s| - 1]) == multiset(s) - multiset{s[|s| - 1]}
  {
    assert s == s[..|s| - 1] + [s[|s| - 1]];
  }

  lemma {:induction false} SortedIsUnique(s: seq<int>, t: seq<int>)
    requires Sorted(s) && Sorted(t) && multiset(s) == multiset(t)
    ensures s == t
  {
    assert |multiset(s)| == |multiset(t)|;
    if s != [] {
      SameLast(s, t);
      PopLast(s);
      PopLast(t);
      SortedIsUnique(s[..|s| - 1], t[..|t| - 1]);
    }
  }

  /** The median does not depend on the order the sources are listed in. */
  lemma MedianIgnoresOrder(values: seq<int>, shuffled: seq<int>)
    requires |values| > 0 && multiset(values) == multiset(shuffled)
    ensures |shuffled| > 0 && MedianOf(values) == MedianOf(shuffled)
  {
    assert |multiset(values)| == |multiset(shuffled)|;
    SortSorts(values);
    SortSorts(shuffled);
    SortedIsUnique(Sort(values), Sort(shuffled));
  }

  // ---- position -----------------------------------------------------------------------

  lemma MidpointIsFloored(a: int, b: int)
    ensures var sum := a + b;
      var m := TruncDiv(if sum >= 0 then sum else sum - 1, 2);
      2 * m <= sum < 2 * m + 2
  {
  }

  /** With an odd count the median is a source with at least half the sources on either side; with an
      even count it is the floored midpoint of the two that split them in half. */
  lemma MedianIsMiddle(values: seq<int>, sorted: seq<int>)
    requires |values| > 0 && Sorted(sorted) && multiset(sorted) == multiset(values)
    ensures |sorted| == |values|
    ensures |values| % 2 == 1 ==> MedianOf(values) == sorted[|values| / 2]
    ensures |values| % 2 == 0 ==>
      2 * MedianOf(values) <= sorted[|values| / 2 - 1] + sorted[|values| / 2] < 2 * MedianOf(values) + 2
  {
    SortSorts(values);
    SortPermutes(values);
    SortedIsUnique(sorted, Sort(values));
    if |values| % 2 == 0 {
      MidpointIsFloored(sorted[|values| / 2 - 1], sorted[|values| / 2]);
    }
  }

  lemma MiddleBetween(s: seq<int>, low: int, high: int)
    requires |s| > 0 && Sorted(s) && forall i | 0 <= i < |s| :: low <= s[i] <= high
    ensures low <= Middle(s) <= high
  {
    if |s| % 2 == 0 {
      MidpointIsFloored(s[|s| / 2 - 1], s[|s| / 2]);
    }
  }

  /** Bounds on every source are bounds on the median. */
  lemma MedianBetween(values: seq<int>, low: int, high: int)
    requires |values| > 0 && forall i | 0 <= i < |values| :: low <= values[i] <= high
    ensures low <= MedianOf(values) <= high
  {
    SortSorts(values);
    SortPermutes(values);
    forall i | 0 <= i < |values|
      ensures low <= Sort(values)[i] <= high
    {
      assert Sort(values)[i] in multiset(values);
    }
    MiddleBetween(Sort(values), low, high);
  }

  /** With two sources neither is further from the median than half their spread, rounded up. */
  lemma MedianOfTwo(values: seq<int>, spread: nat)
    requires |values| == 2 && values[0] - values[1] <= spread && values[1] - values[0] <= spread
    ensures forall i | 0 <= i < 2 :: values[i] - (spread + 1) / 2 <= MedianOf(values) <= values[i] + (spread + 1) / 2
  {
    var a, b := values[0], values[1];
    var sorted := if a <= b then [a, b] else [b, a];
    assert values == [a, b];
    assert multiset(sorted) == multiset{a, b};
    MedianIsMiddle(values, sorted);
  }

  // ---- monotonicity -------------------------------------------------------------------

  lemma {:induction false} InsertMonotone(s: seq<int>, t: seq<int>, x: int, y: int)
    requires Sorted(s) && Sorted(t) && Below(s, t) && x <= y
    ensures Below(Insert(s, x), Insert(t, y))
    decreases |s|
  {
    if s != [] {
      var n := |s| - 1;
      var s0, t0 := s[..n], t[..n];
      if s[n] > x && t[n] > y {
        InsertMonotone(s0, t0, x, y);
      } else if s[n] > x {
        InsertLast(s);
        InsertMonotone(s0, s0, x, s[n]);
      } else if t[n] > y {
        InsertLast(s);
        InsertMonotone(s0, t0, s[n], y);
      }
    }
  }

  lemma InsertLast(s: seq<int>)
    requires Sorted(s) && s != []
    ensures Insert(s[..|s| - 1], s[|s| - 1]) == s
  {
    assert s == s[..|s| - 1] + [s[|s| - 1]];
  }

  lemma {:induction false} SortMonotone(values: seq<int>, raised: seq<int>)
    requires Below(values, raised)
    ensures Below(Sort(values), Sort(raised))
  {
    if values != [] {
      var n := |values| - 1;
      SortMonotone(values[..n], raised[..n]);
      SortSorts(values[..n]);
      SortSorts(raised[..n]);
      InsertMonotone(Sort(values[..n]), Sort(raised[..n]), values[n], raised[n]);
    }
  }

  lemma HalvesOrdered(a: int, b: int, m: int, n: int)
    requires a <= b && 2 * m <= a && b < 2 * n + 2
    ensures m <= n
  {
  }

  /** Raising any source never lowers the median. */
  lemma MedianMonotone(values: seq<int>, raised: seq<int>)
    requires |values| > 0 && Below(values, raised)
    ensures MedianOf(values) <= MedianOf(raised)
  {
    SortMonotone(values, raised);
    SortPermutes(values);
    SortPermutes(raised);
    var s, t, h := Sort(values), Sort(raised), |values| / 2;
    if |values| % 2 == 0 {
      MidpointIsFloored(s[h - 1], s[h]);
      MidpointIsFloored(t[h - 1], t[h]);
      HalvesOrdered(s[h - 1] + s[h], t[h - 1] + t[h], Middle(s), Middle(t));
    }
  }

  // ---- the in-place algorithm ---------------------------------------------------------

  /** One shift to the right: the suffix grows by the element moved. */
  lemma Shifted(s: seq<int>, key: int, j: nat)
    requires 0 < j <= |s| && s[j - 1] > key
    ensures Insert(s[..j], key) + s[j..] == Insert(s[..j - 1], key) + s[j - 1..]
  {
    assert s[..j][..j - 1] == s[..j - 1];
    assert [s[j - 1]] + s[j..] == s[j - 1..];
  }

  /** One insertion: the key at position i goes where it belongs among the sorted values before it. */
  method InsertAt(values: array<int>, i: nat)
    requires 0 < i < values.Length
    modifies values
    ensures values[..i + 1] == Insert(old(values[..i]), old(values[i]))
    ensures values[i + 1..] == old(values[i + 1..])
  {
    ghost var s := values[..i];
    var key := values[i];
    var j := i;
    assert s[..i] == s && s[i..] == [];
    while j > 0 && values[j - 1] > key
      invariant 0 <= j <= i
      invariant forall k | 0 <= k < j :: values[k] == s[k]
      invariant forall k | j < k <= i :: values[k] == s[k - 1]
      invariant Insert(s, key) == Insert(s[..j], key) + s[j..]
      invariant forall k | i < k < values.Length :: values[k] == old(values[k])
    {
      Shifted(s, key, j);
      values[j] := values[j - 1];
      j := j - 1;
    }
    values[j] := key;
    assert Insert(s, key) == s[..j] + [key] + s[j..];
  }

  method Median(values: array<int>) returns (median: int)
    requires values.Length > 0
    modifies values
    ensures values[..] == Sort(old(values[..]))
    ensures median == MedianOf(old(values[..]))
  {
    ghost var was := values[..];
    var n := values.Length;
    var i := 1;
    assert values[..1] == Sort(was[..1]);
    while i < n
      invariant 1 <= i <= n
      invariant values[..i] == Sort(was[..i]) && values[i..] == was[i..]
    {
      assert values[i] == was[i] && was[..i + 1][..i] == was[..i];
      InsertAt(values, i);
      i := i + 1;
    }
    assert values[..n] == values[..] && was[..n] == was;
    SortPermutes(was);
    if n % 2 == 1 { return values[n / 2]; }
    var a, b := values[n / 2 - 1], values[n / 2];
    var sum := a + b;
    return if sum >= 0 then TruncDiv(sum, 2) else TruncDiv(sum - 1, 2);
  }
}
