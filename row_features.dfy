/**
  What the per-row feature functions of `FeatureEngineering` compute, stated
  declaratively. A row is a pandas Series: a sequence of (label, value) cells in
  column order. When the row comes from the slice `YYYY`..`N5`, the main numbers
  are the cells whose label contains the letter `N`; `YYYY` is skipped.
*/
module RowFeatures {
  import opened Sequences

  datatype Cell = Cell(tag: string, value: int)

  type Series = seq<Cell>

  /** The numerology "lucky" numbers of src/dataEng.py:146. */
  const LUCKY_NUMBERS: seq<int> := [1, 3, 7, 9, 13, 15, 21, 25, 31, 33, 37, 43, 49]

  /** The numbers ending in 7 of src/dataEng.py:174. */
  const SEVENS_PATTERN: seq<int> := [7, 17, 27, 37, 47]

  /** The value the date scans read as the "20" of a year 20YY. */
  const CENTURY := 20

  /** `c.values`: every value of the row, labels ignored. */
  function Values(c: Series): seq<int>
  {
    seq(|c|, k requires 0 <= k < |c| => c[k].value)
  }

  /** `'N' in lab`. */
  predicate IsMainLabel(tag: string) {
    'N' in tag
  }

  /** The values of the cells whose label contains `N`, in column order. */
  function Mains(c: Series): seq<int>
    decreases |c|
  {
    if c == [] then []
    else Mains(c[..|c| - 1]) + (if IsMainLabel(c[|c| - 1].tag) then [c[|c| - 1].value] else [])
  }

  /** The main numbers of a prefix of a row are a prefix of the row's main numbers. */
  lemma {:induction false} MainsOfPrefix(c: Series, k: nat)
    requires k <= |c|
    ensures Mains(c[..k]) <= Mains(c)
    decreases |c| - k
  {
    if k < |c| {
      MainsOfPrefix(c, k + 1);
      assert c[..k + 1][..k] == c[..k];
    } else {
      assert c[..k] == c;
    }
  }

  /** Reading cell `k` adds its value to the main numbers exactly when its label marks a main number. */
  lemma StepMains(c: Series, k: nat)
    requires k < |c|
    ensures IsMainLabel(c[k].tag) ==> Mains(c[..k + 1]) == Mains(c[..k]) + [c[k].value]
    ensures !IsMainLabel(c[k].tag) ==> Mains(c[..k + 1]) == Mains(c[..k])
  {
    assert c[..k + 1][..k] == c[..k];
    assert Mains(c[..k]) + [] == Mains(c[..k]);
  }

  /** A date found in a prefix of the row is a date of the row; the whole row is its own prefix. */
  lemma DateLikeOfPrefix(c: Series, k: nat)
    requires k <= |c|
    ensures DateLike(Mains(c[..k])) ==> DateLike(Mains(c))
    ensures k == |c| ==> Mains(c[..k]) == Mains(c)
  {
    MainsOfPrefix(c, k);
    var m := Mains(c[..k]);
    if DateLike(m) {
      var i, j :| 0 <= i < j < |m| && m[i] <= 12 && m[j] <= 31;
      assert Mains(c)[i] == m[i] && Mains(c)[j] == m[j];
    }
    if k == |c| {
      assert c[..k] == c;
    }
  }

  predicate HasLabel(c: Series, tag: string) {
    exists k :: 0 <= k < |c| && c[k].tag == tag
  }

  /** `c[label]` for a row whose labels are distinct: the value of the first cell with that label. */
  function Lookup(c: Series, tag: string): (v: int)
    requires HasLabel(c, tag)
    ensures exists k :: 0 <= k < |c| && c[k].tag == tag && c[k].value == v && forall j :: 0 <= j < k ==> c[j].tag != tag
  {
    if c[0].tag == tag then c[0].value
    else
      assert HasLabel(c[1..], tag) by {
        var k :| 0 <= k < |c| && c[k].tag == tag;
        assert c[1..][k - 1] == c[k];
      }
      var v := Lookup(c[1..], tag);
      var k :| 0 <= k < |c[1..]| && c[1..][k].tag == tag && c[1..][k].value == v && forall j :: 0 <= j < k ==> c[1..][j].tag != tag;
      assert c[k + 1] == c[1..][k];
      assert forall j :: 1 <= j < k + 1 ==> c[j] == c[1..][j - 1];
      v
  }

  /** Some main number can be a month (at most 12). */
  predicate HasMonth(m: seq<int>) {
    exists i :: 0 <= i < |m| && m[i] <= 12
  }

  /** Some main number at most 12 is followed, later in the row, by a main number at most 31. */
  predicate DateLike(m: seq<int>) {
    exists i, j :: 0 <= i < j < |m| && m[i] <= 12 && m[j] <= 31
  }

  predicate HasCentury(m: seq<int>) {
    exists i :: 0 <= i < |m| && m[i] == CENTURY
  }

  /** Some main number other than 20 is the two-digit year `second`. */
  predicate HasYear(m: seq<int>, second: int) {
    exists i :: 0 <= i < |m| && m[i] != CENTURY && m[i] == second
  }

  /** Some main number other than 20 is at most the two-digit year `second`. */
  predicate HasYearUpTo(m: seq<int>, second: int) {
    exists i :: 0 <= i < |m| && m[i] != CENTURY && m[i] <= second
  }

  /** The row holds 20 and, as another main number, the two-digit year `second`. */
  predicate ThisYear(m: seq<int>, second: int) {
    HasCentury(m) && HasYear(m, second)
  }

  /** The row holds 20 and, as another main number, a two-digit year no later than `second`. */
  predicate Post2000(m: seq<int>, second: int) {
    HasCentury(m) && HasYearUpTo(m, second)
  }

  /** How each row predicate changes when one more main number is read. */
  lemma ExtendMains(m: seq<int>, x: int, second: int)
    ensures HasMonth(m + [x]) <==> HasMonth(m) || x <= 12
    ensures DateLike(m + [x]) <==> DateLike(m) || (HasMonth(m) && x <= 31)
    ensures HasCentury(m + [x]) <==> HasCentury(m) || x == CENTURY
    ensures HasYear(m + [x], second) <==> HasYear(m, second) || (x != CENTURY && x == second)
    ensures HasYearUpTo(m + [x], second) <==> HasYearUpTo(m, second) || (x != CENTURY && x <= second)
  {
    var n := m + [x];
    assert forall i :: 0 <= i < |m| ==> n[i] == m[i];
    assert n[|m|] == x;
    if DateLike(n) {
      var i, j :| 0 <= i < j < |n| && n[i] <= 12 && n[j] <= 31;
      if j < |m| {
        assert DateLike(m);
      } else {
        assert HasMonth(m);
      }
    }
    if HasMonth(m) && x <= 31 {
      var i :| 0 <= i < |m| && m[i] <= 12;
      assert n[i] <= 12 && n[|m|] <= 31;
    }
    if DateLike(m) {
      var i, j :| 0 <= i < j < |m| && m[i] <= 12 && m[j] <= 31;
      assert n[i] <= 12 && n[j] <= 31;
    }
  }

  /** How many members of `p` occur somewhere in `v`, each member counted once per occurrence in `p`. */
  function CountPresent(p: seq<int>, v: seq<int>): nat
    decreases |p|
  {
    if p == [] then 0
    else CountPresent(p[..|p| - 1], v) + (if p[|p| - 1] in v then 1 else 0)
  }

  // ------------------------------------------------------------------
  // Properties of the row rules

  /** For ascending main numbers the date test reduces to `N1 <= 12 && N2 <= 31`. */
  lemma DateLikeWhenSorted(m: seq<int>)
    requires Ascending(m) && |m| >= 2
    ensures DateLike(m) <==> m[0] <= 12 && m[1] <= 31
  {
    if DateLike(m) {
      var i, j :| 0 <= i < j < |m| && m[i] <= 12 && m[j] <= 31;
      assert m[0] <= m[i];
      assert m[1] <= m[j];
    }
    if m[0] <= 12 && m[1] <= 31 {
      assert 0 < 1 < |m|;
    }
  }

  /** The `elif` means a 20 never serves as the year, so a 2020 row never counts as "this year". */
  lemma NeverThisYearIn2020(m: seq<int>)
    ensures !ThisYear(m, 2020 - 2000)
  {
  }

  /** Holding 20 and this year's two digits implies holding 20 and a year since 2000. */
  lemma ThisYearIsPost2000(m: seq<int>, second: int)
    ensures ThisYear(m, second) ==> Post2000(m, second)
  {
  }

  /** The count never exceeds the length of the pattern. */
  lemma {:induction false} CountPresentBound(p: seq<int>, v: seq<int>)
    ensures CountPresent(p, v) <= |p|
    decreases |p|
  {
    if p != [] {
      CountPresentBound(p[..|p| - 1], v);
    }
  }

  /** In a pattern without repeats, the count is the number of distinct pattern members in the row. */
  lemma {:induction false} CountPresentIsSetSize(p: seq<int>, v: seq<int>)
    requires Distinct(p)
    ensures CountPresent(p, v) == |Common(p, v)|
    decreases |p|
  {
    if p == [] {
      assert Common(p, v) == {};
    } else {
      var init, last := p[..|p| - 1], p[|p| - 1];
      DistinctSplit(p);
      CountPresentIsSetSize(init, v);
      CommonSnoc(init, last, v);
      assert p == init + [last];
    }
  }

  /** The members of `p` that also occur in `v`. */
  function Common(p: seq<int>, v: seq<int>): set<int> {
    set x | x in p && x in v
  }

  lemma CommonSnoc(init: seq<int>, last: int, v: seq<int>)
    requires last !in init
    ensures |Common(init + [last], v)| == |Common(init, v)| + (if last in v then 1 else 0)
  {
    var p := init + [last];
    assert forall x :: x in p <==> x in init || x == last;
    if last in v {
      assert Common(p, v) == Common(init, v) + {last};
    } else {
      assert Common(p, v) == Common(init, v);
    }
  }

  /** A sequence without repeats splits into a shorter one without repeats and a new last element. */
  lemma DistinctSplit(p: seq<int>)
    requires Distinct(p) && |p| > 0
    ensures Distinct(p[..|p| - 1]) && p[|p| - 1] !in p[..|p| - 1]
  {
  }

  /** Only the pattern members decide the count: two rows sharing them give the same count. */
  lemma {:induction false} CountPresentOnlyPatternMatters(p: seq<int>, v: seq<int>, w: seq<int>)
    requires forall x :: x in p ==> (x in v <==> x in w)
    ensures CountPresent(p, v) == CountPresent(p, w)
    decreases |p|
  {
    if p != [] {
      var init, last := p[..|p| - 1], p[|p| - 1];
      assert forall x :: x in init ==> x in p;
      assert last in p;
      assert last in v <==> last in w;
      CountPresentOnlyPatternMatters(init, v, w);
      assert CountPresent(p, v) == CountPresent(init, v) + (if last in v then 1 else 0);
      assert CountPresent(p, w) == CountPresent(init, w) + (if last in w then 1 else 0);
    }
  }

  /** A value outside the pattern (a year such as 2023 for the lucky numbers) never adds to the count. */
  lemma YearNeverCounts(p: seq<int>, year: int, v: seq<int>)
    requires forall x :: x in p ==> x < year
    ensures CountPresent(p, [year] + v) == CountPresent(p, v)
  {
    CountPresentOnlyPatternMatters(p, [year] + v, v);
  }

  /** The number of entries of `v` that belong to the pattern. */
  function EntriesIn(v: seq<int>, p: seq<int>): nat
    decreases |v|
  {
    if v == [] then 0 else EntriesIn(v[..|v| - 1], p) + (if v[|v| - 1] in p then 1 else 0)
  }

  /** For distinct row values the count of the pattern equals the number of row entries in the pattern. */
  lemma {:induction false} CountPresentIsEntries(p: seq<int>, v: seq<int>)
    requires Distinct(p) && Distinct(v)
    ensures CountPresent(p, v) == EntriesIn(v, p)
  {
    CountPresentIsSetSize(p, v);
    EntriesAreSetSize(v, p);
    assert Common(p, v) == Common(v, p);
  }

  lemma {:induction false} EntriesAreSetSize(v: seq<int>, p: seq<int>)
    requires Distinct(v)
    ensures EntriesIn(v, p) == |Common(v, p)|
    decreases |v|
  {
    if v == [] {
      assert Common(v, p) == {};
    } else {
      var init, last := v[..|v| - 1], v[|v| - 1];
      DistinctSplit(v);
      EntriesAreSetSize(init, p);
      CommonSnoc(init, last, p);
      assert v == init + [last];
    }
  }

  /** The lucky-number count is between 0 and 13, and the sevens count between 0 and 5. */
  lemma PatternCountBounds(v: seq<int>)
    ensures CountPresent(LUCKY_NUMBERS, v) <= 13
    ensures CountPresent(SEVENS_PATTERN, v) <= 5
  {
    CountPresentBound(LUCKY_NUMBERS, v);
    CountPresentBound(SEVENS_PATTERN, v);
  }

  /** Among two values there are at most two lucky numbers: the count for the two stars of a draw is 0, 1 or 2. */
  lemma StarCountBound(v: seq<int>)
    requires |v| == 2
    ensures CountPresent(LUCKY_NUMBERS, v) <= 2
  {
    assert Distinct(LUCKY_NUMBERS);
    CountPresentIsSetSize(LUCKY_NUMBERS, v);
    assert Common(LUCKY_NUMBERS, v) <= {v[0], v[1]};
    SetSizeAtMostTwo(Common(LUCKY_NUMBERS, v), v[0], v[1]);
  }

  lemma SetSizeAtMostTwo(s: set<int>, a: int, b: int)
    requires s <= {a, b}
    ensures |s| <= 2
  {
    if a in s {
      var rest := s - {a};
      assert rest <= {b};
      if b in rest {
        assert rest == {b};
      } else {
        assert rest == {};
      }
      assert s == rest + {a};
    } else {
      if b in s {
        assert s == {b};
      } else {
        assert s == {};
      }
    }
  }

  /** The sevens count of the all-sevens ticket is 5; that of 1..5 is 0; that of 1, 7, 17, 27, 37 is 4. */
  lemma SevensExamples()
    ensures CountPresent(SEVENS_PATTERN, [7, 17, 27, 37, 47]) == 5
    ensures CountPresent(SEVENS_PATTERN, [1, 2, 3, 4, 5]) == 0
    ensures CountPresent(SEVENS_PATTERN, [1, 7, 17, 27, 37]) == 4
  {
    SevensPrefixes();
    SevensOfAll();
    SevensOfNone();
    SevensOfFour();
  }

  lemma SevensPrefixes()
    ensures var p := SEVENS_PATTERN;
      && p[..0] == [] && p[..1][..0] == [] && p[..2][..1] == p[..1] && p[..3][..2] == p[..2]
      && p[..4][..3] == p[..3] && p[..5][..4] == p[..4] && p[..5] == p
  {
  }

  lemma SevensOfAll()
    ensures CountPresent(SEVENS_PATTERN, [7, 17, 27, 37, 47]) == 5
  {
    var p, v := SEVENS_PATTERN, [7, 17, 27, 37, 47];
    SevensPrefixes();
    assert CountPresent(p[..1], v) == 1;
    assert CountPresent(p[..2], v) == 2;
    assert CountPresent(p[..3], v) == 3;
    assert CountPresent(p[..4], v) == 4;
  }

  lemma SevensOfNone()
    ensures CountPresent(SEVENS_PATTERN, [1, 2, 3, 4, 5]) == 0
  {
    var p, v := SEVENS_PATTERN, [1, 2, 3, 4, 5];
    SevensPrefixes();
    assert CountPresent(p[..1], v) == 0;
    assert CountPresent(p[..2], v) == 0;
    assert CountPresent(p[..3], v) == 0;
    assert CountPresent(p[..4], v) == 0;
  }

  lemma SevensOfFour()
    ensures CountPresent(SEVENS_PATTERN, [1, 7, 17, 27, 37]) == 4
  {
    var p, v := SEVENS_PATTERN, [1, 7, 17, 27, 37];
    SevensPrefixes();
    assert CountPresent(p[..1], v) == 1;
    assert CountPresent(p[..2], v) == 2;
    assert CountPresent(p[..3], v) == 3;
    assert CountPresent(p[..4], v) == 4;
  }
}
