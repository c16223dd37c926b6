/**
  The column-wide steps of `engineer_features`: sums, the "above the mean"
  flags, and the 6-bin codes `LabelEncoder().fit_transform(pd.cut(col, 6))`.

  `pd.cut(col, k)` splits `[min, max]` into `k` equal-width intervals, closed on
  the right (the first one also takes `min`). `LabelEncoder` then numbers the
  intervals that actually occur, in the order of their left edges, from 0: a
  row's code is the number of occupied intervals to the left of its own. All
  of this is done here with exact integer arithmetic.
*/
module Binning {

  /** `sum()` of a row or a column: its values added from the first to the last. */
  function Sum(s: seq<int>): int
    decreases |s|
  {
    if s == [] then 0 else Sum(s[..|s| - 1]) + s[|s| - 1]
  }

  /** The mean of a non-empty column, as pandas' `Series.mean()` would give it without rounding. */
  function Mean(s: seq<int>): real
    requires |s| > 0
  {
    Sum(s) as real / |s| as real
  }

  /** `col > col.mean()`, decided with integers: `x * n > total`. */
  function AboveMean(s: seq<int>): (r: seq<bool>)
    requires |s| > 0
    ensures |r| == |s|
    ensures forall k :: 0 <= k < |s| ==> (r[k] <==> s[k] as real > Mean(s))
  {
    var n := |s|;
    forall k | 0 <= k < n ensures s[k] * n > Sum(s) <==> s[k] as real > Mean(s) {
      ScaledComparison(s[k], Sum(s), n);
    }
    seq(n, k requires 0 <= k < n => s[k] * n > Sum(s))
  }

  lemma ScaledComparison(x: int, total: int, n: nat)
    requires n > 0
    ensures x * n > total <==> x as real > total as real / n as real
  {
    var q := total as real / n as real;
    assert q * n as real == total as real;
    assert (x * n) as real == x as real * n as real;
    if x as real > q {
      assert x as real * n as real > q * n as real;
    }
    if x * n > total {
      assert x as real * n as real > q * n as real;
    }
  }

  /** Summing after raising every entry above a bound gives more than the bound summed. */
  lemma {:induction false} SumAbove(s: seq<int>, bound: int)
    requires |s| > 0
    requires forall k :: 0 <= k < |s| ==> s[k] > bound
    ensures Sum(s) > |s| * bound
    decreases |s|
  {
    if |s| > 1 {
      SumAbove(s[..|s| - 1], bound);
    }
  }

  /** Not every row can lie above the mean: some row of a non-empty column is at most the mean. */
  lemma NotAllAboveMean(s: seq<int>)
    requires |s| > 0
    ensures exists k :: 0 <= k < |s| && !AboveMean(s)[k]
  {
    var r := AboveMean(s);
    if forall k :: 0 <= k < |s| ==> r[k] {
      var n := |s|;
      var scaled := seq(n, k requires 0 <= k < n => s[k] * n);
      assert forall k :: 0 <= k < n ==> scaled[k] > Sum(s);
      SumAbove(scaled, Sum(s));
      SumScaled(s, n);
      assert false;
    }
  }

  lemma {:induction false} SumScaled(s: seq<int>, n: int)
    ensures Sum(seq(|s|, k requires 0 <= k < |s| => s[k] * n)) == Sum(s) * n
    decreases |s|
  {
    if s != [] {
      var init := s[..|s| - 1];
      SumScaled(init, n);
      var scaled := seq(|s|, k requires 0 <= k < |s| => s[k] * n);
      assert scaled[..|s| - 1] == seq(|init|, k requires 0 <= k < |init| => init[k] * n);
      assert Sum(s) * n == Sum(init) * n + s[|s| - 1] * n;
    }
  }

  /** The smallest value of a non-empty column, the lower end of the range `pd.cut` divides. */
  function Min(s: seq<int>): int
    requires |s| > 0
    decreases |s|
  {
    if |s| == 1 then s[0]
    else
      var rest := Min(s[..|s| - 1]);
      if s[|s| - 1] < rest then s[|s| - 1] else rest
  }

  /** The largest value of a non-empty column, the upper end of that range. */
  function Max(s: seq<int>): int
    requires |s| > 0
    decreases |s|
  {
    if |s| == 1 then s[0]
    else
      var rest := Max(s[..|s| - 1]);
      if s[|s| - 1] > rest then s[|s| - 1] else rest
  }

  /** `Min` and `Max` bound every value of the column, and both occur in it. */
  lemma {:induction false} MinMaxBounds(s: seq<int>)
    requires |s| > 0
    ensures forall k :: 0 <= k < |s| ==> Min(s) <= s[k] <= Max(s)
    ensures (exists k :: 0 <= k < |s| && s[k] == Min(s)) && (exists k :: 0 <= k < |s| && s[k] == Max(s))
    decreases |s|
  {
    if |s| > 1 {
      var init := s[..|s| - 1];
      MinMaxBounds(init);
      assert forall k :: 0 <= k < |init| ==> s[k] == init[k];
      var i :| 0 <= i < |init| && init[i] == Min(init);
      var j :| 0 <= j < |init| && init[j] == Max(init);
      assert s[i] == Min(init) && s[j] == Max(init);
    }
  }

  /**
    The interval of `pd.cut` that holds `x`, for `k` equal-width intervals over
    `[lo, hi]`: pandas finds it with `searchsorted` on the edges, that is, it
    counts the inner edges `lo + j * (hi - lo) / k` (`0 < j < k`) that lie
    strictly below `x`. When `lo == hi` no edge is below, so every value gets
    interval 0; the encoded code of such a column is 0 whatever interval
    pandas picks, since only one occurs.
  */
  function BinIndex(x: int, lo: int, hi: int, k: nat): (b: nat)
    requires 0 < k && lo <= x <= hi
    ensures b < k
  {
    EdgesBelowBound(x, lo, hi, k, k - 1);
    EdgesBelow(x, lo, hi, k, k - 1)
  }

  /** How many of the edges `1..j` lie strictly below `x` (edge `i` is `lo + i * (hi - lo) / k`, scaled by `k`). */
  function EdgesBelow(x: int, lo: int, hi: int, k: nat, j: nat): nat
    decreases j
  {
    if j == 0 then 0
    else EdgesBelow(x, lo, hi, k, j - 1) + (if k * lo + j * (hi - lo) < k * x then 1 else 0)
  }

  lemma {:induction false} EdgesBelowBound(x: int, lo: int, hi: int, k: nat, j: nat)
    ensures EdgesBelow(x, lo, hi, k, j) <= j
    decreases j
  {
    if j > 0 {
      EdgesBelowBound(x, lo, hi, k, j - 1);
    }
  }

  /**
    The edges are increasing, so those below `x` are the first `c` of them:
    edge `c` is below `x` and, unless all `j` are, edge `c + 1` is not.
  */
  lemma {:induction false} EdgesBelowArePrefix(x: int, lo: int, hi: int, k: nat, j: nat)
    requires lo < hi
    ensures var c := EdgesBelow(x, lo, hi, k, j);
      && c <= j
      && (c == 0 || k * lo + c * (hi - lo) < k * x)
      && (c == j || k * x <= k * lo + (c + 1) * (hi - lo))
    decreases j
  {
    if j > 0 {
      EdgesBelowArePrefix(x, lo, hi, k, j - 1);
      var c := EdgesBelow(x, lo, hi, k, j - 1);
      MulMonotone(c + 1, j, hi - lo);
    }
  }

  lemma MulMonotone(a: int, b: int, k: nat)
    requires a <= b
    ensures k * a <= k * b
  {
  }

  /** Cancelling a positive factor keeps a strict comparison. */
  lemma LessMul(x: int, y: int, d: int)
    requires 0 < d && x * d < y * d
    ensures x < y
  {
    assert (y - x) * d == y * d - x * d;
  }

  /**
    `x` lies in interval `b`: `lo + b * w < x <= lo + (b + 1) * w` with `w = (hi - lo) / k`,
    all scaled by `k`; interval 0 also holds `lo` itself.
  */
  ghost predicate InInterval(x: int, lo: int, hi: int, k: nat, b: nat) {
    && (b == 0 || k * lo + b * (hi - lo) < k * x)
    && k * x <= k * lo + (b + 1) * (hi - lo)
  }

  /** The interval found is the one whose right-closed bounds hold `x`. */
  lemma BinIndexInInterval(x: int, lo: int, hi: int, k: nat)
    requires 0 < k && lo < hi && lo <= x <= hi
    ensures InInterval(x, lo, hi, k, BinIndex(x, lo, hi, k))
  {
    EdgesBelowArePrefix(x, lo, hi, k, k - 1);
    MulMonotone(x, hi, k);
    assert k * lo + k * (hi - lo) == k * hi;
  }

  /** The intervals do not overlap: `x` lies in at most one of them. */
  lemma IntervalsDisjoint(x: int, lo: int, hi: int, k: nat, b: nat, c: nat)
    requires lo < hi && InInterval(x, lo, hi, k, b) && InInterval(x, lo, hi, k, c)
    ensures b == c
  {
    var d := hi - lo;
    if c > 0 {
      assert c * d < (b + 1) * d;
      LessMul(c, b + 1, d);
    }
    if b > 0 {
      assert b * d < (c + 1) * d;
      LessMul(b, c + 1, d);
    }
  }

  /** No other interval holds `x`. */
  lemma BinIndexUnique(x: int, lo: int, hi: int, k: nat, b: nat)
    requires 0 < k && lo < hi && lo <= x <= hi
    requires InInterval(x, lo, hi, k, b)
    ensures b == BinIndex(x, lo, hi, k)
  {
    BinIndexInInterval(x, lo, hi, k);
    IntervalsDisjoint(x, lo, hi, k, b, BinIndex(x, lo, hi, k));
  }

  /** The same interval in closed form: `ceil(k * (x - lo) / (hi - lo)) - 1`, and 0 for `lo` itself. */
  function BinByDivision(x: int, lo: int, hi: int, k: nat): nat
    requires 0 < k && lo < hi && lo < x <= hi
  {
    MulMonotone(1, x - lo, k);
    var n: nat := k * (x - lo) - 1;
    n / (hi - lo)
  }

  /** Counting the edges below `x` and dividing give the same interval. */
  lemma BinIndexByDivision(x: int, lo: int, hi: int, k: nat)
    requires 0 < k && lo < hi && lo < x <= hi
    ensures BinIndex(x, lo, hi, k) == BinByDivision(x, lo, hi, k)
  {
    var b, d, t := BinByDivision(x, lo, hi, k), hi - lo, k * (x - lo);
    assert b * d <= t - 1 < (b + 1) * d;
    assert k * x == k * lo + t;
    BinIndexUnique(x, lo, hi, k, b);
  }

  /** When all values are equal no edge lies below them: interval 0. */
  lemma {:induction false} NoEdgesBelowWhenFlat(x: int, k: nat, j: nat)
    ensures EdgesBelow(x, x, x, k, j) == 0
    decreases j
  {
    if j > 0 {
      NoEdgesBelowWhenFlat(x, k, j - 1);
    }
  }

  lemma {:induction false} EdgesBelowMonotone(x: int, y: int, lo: int, hi: int, k: nat, j: nat)
    requires x <= y
    ensures EdgesBelow(x, lo, hi, k, j) <= EdgesBelow(y, lo, hi, k, j)
    decreases j
  {
    if j > 0 {
      EdgesBelowMonotone(x, y, lo, hi, k, j - 1);
      MulMonotone(x, y, k);
    }
  }

  /** A larger value never falls in an earlier interval. */
  lemma BinIndexMonotone(x: int, y: int, lo: int, hi: int, k: nat)
    requires 0 < k && lo <= x <= y <= hi
    ensures BinIndex(x, lo, hi, k) <= BinIndex(y, lo, hi, k)
  {
    EdgesBelowMonotone(x, y, lo, hi, k, k - 1);
  }

  /** The interval of every row of a non-empty column. */
  function Bins(s: seq<int>, k: nat): (bins: seq<nat>)
    requires |s| > 0 && k > 0
    ensures |bins| == |s| && forall i :: 0 <= i < |s| ==> bins[i] < k
  {
    MinMaxBounds(s);
    BinsWithin(s, Min(s), Max(s), k)
  }

  /** The interval of every value of `xs`, for the cut over `[lo, hi]`. */
  function BinsWithin(xs: seq<int>, lo: int, hi: int, k: nat): (bins: seq<nat>)
    requires k > 0 && forall i :: 0 <= i < |xs| ==> lo <= xs[i] <= hi
    ensures |bins| == |xs| && forall i :: 0 <= i < |xs| ==> bins[i] < k
    decreases |xs|
  {
    if xs == [] then []
    else BinsWithin(xs[..|xs| - 1], lo, hi, k) + [BinIndex(xs[|xs| - 1], lo, hi, k)]
  }

  lemma {:induction false} BinsWithinAt(xs: seq<int>, lo: int, hi: int, k: nat, i: nat)
    requires k > 0 && forall j :: 0 <= j < |xs| ==> lo <= xs[j] <= hi
    requires i < |xs|
    ensures BinsWithin(xs, lo, hi, k)[i] == BinIndex(xs[i], lo, hi, k)
    decreases |xs|
  {
    if i < |xs| - 1 {
      BinsWithinAt(xs[..|xs| - 1], lo, hi, k, i);
    }
  }

  /** Row `i` falls in the interval that `BinIndex` gives for its value. */
  lemma BinAt(s: seq<int>, k: nat, i: nat)
    requires |s| > 0 && k > 0 && i < |s|
    ensures Min(s) <= s[i] <= Max(s)
    ensures Bins(s, k)[i] == BinIndex(s[i], Min(s), Max(s), k)
  {
    MinMaxBounds(s);
    BinsWithinAt(s, Min(s), Max(s), k, i);
  }

  /** The intervals that some row falls in. */
  function Occupied(bins: seq<nat>): set<nat> {
    set i | 0 <= i < |bins| :: bins[i]
  }

  /** The occupied intervals to the left of interval `b`. */
  function Before(b: nat, occupied: set<nat>): set<nat> {
    set x | x in occupied && x < b
  }

  /** `LabelEncoder().fit_transform(pd.cut(s, k))`: each row's rank among the occupied intervals. */
  function Codes(s: seq<int>, k: nat): (codes: seq<nat>)
    requires |s| > 0 && k > 0
    ensures |codes| == |s|
  {
    var bins := Bins(s, k);
    Ranks(bins, Occupied(bins))
  }

  /** The rank of each interval number of `bins` among `occupied`. */
  function Ranks(bins: seq<nat>, occupied: set<nat>): (codes: seq<nat>)
    ensures |codes| == |bins|
    decreases |bins|
  {
    if bins == [] then [] else Ranks(bins[..|bins| - 1], occupied) + [|Before(bins[|bins| - 1], occupied)|]
  }

  lemma {:induction false} RanksAt(bins: seq<nat>, occupied: set<nat>, i: nat)
    requires i < |bins|
    ensures Ranks(bins, occupied)[i] == |Before(bins[i], occupied)|
    decreases |bins|
  {
    if i < |bins| - 1 {
      RanksAt(bins[..|bins| - 1], occupied, i);
    }
  }

  /** Row `i`'s code is the number of occupied intervals to the left of its own. */
  lemma CodeAt(s: seq<int>, k: nat, i: nat)
    requires |s| > 0 && k > 0 && i < |s|
    ensures Codes(s, k)[i] == |Before(Bins(s, k)[i], Occupied(Bins(s, k)))|
  {
    RanksAt(Bins(s, k), Occupied(Bins(s, k)), i);
  }

  lemma {:induction false} BoundedSetSize(s: set<nat>, n: nat)
    requires forall x :: x in s ==> x < n
    ensures |s| <= n
    decreases n
  {
    if n > 0 {
      BoundedSetSize(s - {n - 1}, n - 1);
    } else {
      assert s == {};
    }
  }

  lemma SubsetSize(a: set<nat>, b: set<nat>)
    requires a <= b
    ensures |a| <= |b|
    ensures a < b ==> |a| < |b|
  {
    assert b == a + (b - a);
    assert a * (b - a) == {};
    if a < b {
      var x :| x in b && x !in a;
      assert x in b - a;
    }
  }

  /** Every code lies in `[0, k - 1]` and is never beyond the row's own interval number. */
  lemma CodesInRange(s: seq<int>, k: nat, i: nat)
    requires |s| > 0 && k > 0 && i < |s|
    ensures Codes(s, k)[i] <= Bins(s, k)[i] < k
  {
    CodeAt(s, k, i);
    var bins := Bins(s, k);
    BoundedSetSize(Before(bins[i], Occupied(bins)), bins[i]);
  }

  /** Codes follow the values: a row with a value no larger never gets a larger code. */
  lemma CodesMonotone(s: seq<int>, k: nat, i: nat, j: nat)
    requires |s| > 0 && k > 0 && i < |s| && j < |s|
    requires s[i] <= s[j]
    ensures Codes(s, k)[i] <= Codes(s, k)[j]
  {
    CodeAt(s, k, i);
    CodeAt(s, k, j);
    BinAt(s, k, i);
    BinAt(s, k, j);
    var bins := Bins(s, k);
    BinIndexMonotone(s[i], s[j], Min(s), Max(s), k);
    var occupied := Occupied(bins);
    SubsetSize(Before(bins[i], occupied), Before(bins[j], occupied));
  }

  /** Rows in different intervals get different codes, in the intervals' order. */
  lemma CodesSeparateIntervals(s: seq<int>, k: nat, i: nat, j: nat)
    requires |s| > 0 && k > 0 && i < |s| && j < |s|
    requires Bins(s, k)[i] < Bins(s, k)[j]
    ensures Codes(s, k)[i] < Codes(s, k)[j]
  {
    CodeAt(s, k, i);
    CodeAt(s, k, j);
    var bins := Bins(s, k);
    var occupied := Occupied(bins);
    assert bins[i] in occupied;
    assert bins[i] in Before(bins[j], occupied) && bins[i] !in Before(bins[i], occupied);
    SubsetSize(Before(bins[i], occupied), Before(bins[j], occupied));
  }

  /** The codes are dense: each is below the number of occupied intervals. */
  lemma CodesBelowOccupied(s: seq<int>, k: nat, i: nat)
    requires |s| > 0 && k > 0 && i < |s|
    ensures Codes(s, k)[i] < |Occupied(Bins(s, k))|
  {
    CodeAt(s, k, i);
    var bins := Bins(s, k);
    var occupied := Occupied(bins);
    assert bins[i] in occupied && bins[i] !in Before(bins[i], occupied);
    SubsetSize(Before(bins[i], occupied), occupied);
  }

  /** A column whose values are all equal is encoded as all zeros. */
  lemma ConstantColumnCodesZero(s: seq<int>, k: nat, i: nat)
    requires |s| > 0 && k > 0 && i < |s|
    requires forall j :: 0 <= j < |s| ==> s[j] == s[0]
    ensures Codes(s, k)[i] == 0
  {
    CodeAt(s, k, i);
    BinAt(s, k, i);
    MinMaxBounds(s);
    var bins := Bins(s, k);
    assert Min(s) == Max(s) == s[i];
    NoEdgesBelowWhenFlat(s[i], k, k - 1);
    assert Before(bins[i], Occupied(bins)) == {};
  }

  /**
    A row added inside the range of the rows already there leaves their
    intervals as they were (their codes may still change, when the new row
    occupies an interval that was empty).
  */
  lemma AppendWithinRangeKeepsBins(s: seq<int>, x: int, k: nat, i: nat)
    requires |s| > 0 && k > 0 && i < |s|
    requires Min(s) <= x <= Max(s)
    ensures Bins(s + [x], k)[i] == Bins(s, k)[i]
  {
    var t := s + [x];
    assert t[..|t| - 1] == s;
    assert Min(t) == Min(s) && Max(t) == Max(s);
    MinMaxBounds(s);
    BinAt(t, k, i);
    BinAt(s, k, i);
  }

  /** The two cases of an equal-width 6-bin cut over `[0, 60]`: 10 is in interval 0, 55 in interval 5. */
  lemma CutExamples()
    ensures BinIndex(10, 0, 60, 6) == 0
    ensures BinIndex(55, 0, 60, 6) == 5
    ensures BinIndex(60, 0, 60, 6) == 5
  {
  }
}
