/**
  `FeatureEngineering` of src/dataEng.py: per-row scans for date-like numbers,
  the year 20YY and "lucky" numbers, and `engineer_features`, which adds the
  feature columns to the frame it holds, in place, and then drops the date
  and winnings columns.
*/
module DataEng {
  import opened Sequences
  import opened Frame
  import opened RowFeatures
  import opened Binning

  /** The columns `YYYY`..`N5` form the slice of main numbers (with the year in front). */
  const NUMBERS_FIRST := "YYYY"
  const NUMBERS_LAST := "N5"
  /** `N sum` adds the slice from `N1` on. */
  const SUM_FIRST := "N1"
  /** The two lucky stars of a draw. */
  const STAR_1 := "L1"
  const STAR_2 := "L2"
  const LUCKY_COLUMNS: seq<string> := [STAR_1, STAR_2]
  /** The columns removed at the end of `engineer_features`, in the order they are tried. */
  const UNWANTED: seq<string> := ["Day", "DD", "MMM", "YYYY", "Wins"]
  /** `pd.cut(..., 6)`. */
  const N_BINS := 6

  /** The labels of the columns `engineer_features` adds. */
  const IS_DATE := "is date"
  const IS_POST_2000 := "is post 2000"
  const IS_THIS_YEAR := "is this year"
  const LUCKY := "lucky numbers"
  const LUCKY_LUCKY := "lucky lucky numbers"
  const HAS_LUCKY := "has lucky"
  const HAS_LUCKY_LUCKY := "has lucky lucky"
  const SEVENS := "7 pattern"
  const N_SUM := "N sum"
  const L_SUM := "L sum"
  const N_SUM_BIG := "N sum big"
  const L_SUM_BIG := "L sum big"
  const N_SUM_BIN := "N sum bin"
  const L_SUM_BIN := "L sum bin"
  const NL_SUM := "NL sum"
  const NL_SUM_BIN := "NL sum bin"

  /** The same labels, in the order `engineer_features` adds them. */
  const FEATURES: seq<string> := [
    IS_DATE, IS_POST_2000, IS_THIS_YEAR, LUCKY, LUCKY_LUCKY, HAS_LUCKY, HAS_LUCKY_LUCKY, SEVENS,
    N_SUM, L_SUM, N_SUM_BIG, L_SUM_BIG, N_SUM_BIN, L_SUM_BIN, NL_SUM, NL_SUM_BIN]

  /** `row['YYYY'] - 2000`: the last two digits of the row's year. */
  function YearDigits(c: Series): int
    requires HasLabel(c, NUMBERS_FIRST)
  {
    Lookup(c, NUMBERS_FIRST) - 2000
  }

  /** Where label `c` stands among the columns. */
  function Position(cols: seq<string>, c: string): (p: nat)
    requires c in cols
    ensures p < |cols| && cols[p] == c
  {
    if cols[0] == c then 0 else 1 + Position(cols[1..], c)
  }

  /**
    What `engineer_features` needs of its frame: rows to cut (pandas refuses to
    cut an empty column), the columns it selects by label, `YYYY` before `N1`
    before `N5` so that `loc[:, 'YYYY':'N5']` and then `loc[:, 'N1':]` find
    them, and integers in every column it adds up or scans.
  */
  ghost predicate Engineerable(t: Table) {
    && WellFormed(t) && t.height > 0
    && NUMBERS_FIRST in t.columns && SUM_FIRST in t.columns && NUMBERS_LAST in t.columns
    && Position(t.columns, NUMBERS_FIRST) <= Position(t.columns, SUM_FIRST) <= Position(t.columns, NUMBERS_LAST)
    && (forall c :: c in t.columns[Position(t.columns, NUMBERS_FIRST)..Position(t.columns, NUMBERS_LAST) + 1] ==> IntColumn(t, c))
    && (forall c :: c in LUCKY_COLUMNS ==> c in t.columns && IntColumn(t, c))
  }

  /** `loc[:, 'YYYY':'N5']`: the labels from `YYYY` to `N5`, both kept. */
  function NumberColumns(t: Table): (cols: seq<string>)
    requires Engineerable(t)
    ensures |cols| > 0 && cols[0] == NUMBERS_FIRST
    ensures forall k :: 0 <= k < |cols| ==> IntColumn(t, cols[k])
  {
    t.columns[Position(t.columns, NUMBERS_FIRST)..Position(t.columns, NUMBERS_LAST) + 1]
  }

  /** `loc[:, 'N1':]` of that slice: the labels from `N1` to `N5`. */
  function SumColumns(t: Table): (cols: seq<string>)
    requires Engineerable(t)
    ensures forall k :: 0 <= k < |cols| ==> IntColumn(t, cols[k])
  {
    var lo, first, last := Position(t.columns, NUMBERS_FIRST), Position(t.columns, SUM_FIRST), Position(t.columns, NUMBERS_LAST);
    var cols, numbers := t.columns[first..last + 1], NumberColumns(t);
    assert numbers == t.columns[lo..last + 1];
    forall k | 0 <= k < |cols|
      ensures IntColumn(t, cols[k])
    {
      assert cols[k] == numbers[k + first - lo];
    }
    cols
  }

  /** Row `r` of the integer columns `cols`, as the Series `apply(..., axis=1)` passes on. */
  function RowOf(t: Table, cols: seq<string>, r: nat): Series
    requires WellFormed(t) && r < t.height
    requires forall k :: 0 <= k < |cols| ==> IntColumn(t, cols[k])
  {
    seq(|cols|, k requires 0 <= k < |cols| => Cell(cols[k], IntAt(t, cols[k], r)))
  }

  /** The rows of `N_numbers`. */
  function NumberRows(t: Table): (rows: seq<Series>)
    requires Engineerable(t)
    ensures |rows| == t.height
    ensures forall r :: 0 <= r < t.height ==> rows[r] == RowOf(t, NumberColumns(t), r)
    ensures forall r :: 0 <= r < t.height ==> HasLabel(rows[r], NUMBERS_FIRST)
  {
    var cols := NumberColumns(t);
    var rows := seq(t.height, r requires 0 <= r < t.height => RowOf(t, cols, r));
    forall r | 0 <= r < t.height
      ensures HasLabel(rows[r], NUMBERS_FIRST)
    {
      assert rows[r][0].tag == cols[0];
    }
    rows
  }

  /** The rows of `N_numbers.loc[:, 'N1':]`. */
  function SumRows(t: Table): seq<Series>
    requires Engineerable(t)
  {
    seq(t.height, r requires 0 <= r < t.height => RowOf(t, SumColumns(t), r))
  }

  /** The rows of `L_numbers = loc[:, ['L1', 'L2']]`. */
  function LuckyRows(t: Table): seq<Series>
    requires Engineerable(t)
  {
    seq(t.height, r requires 0 <= r < t.height => RowOf(t, LUCKY_COLUMNS, r))
  }

  // ------------------------------------------------------------------
  // The columns, one function each, over the rows they are computed from

  function DateFlags(rows: seq<Series>): seq<bool>
  {
    seq(|rows|, r requires 0 <= r < |rows| => DateLike(Mains(rows[r])))
  }

  function Post2000Flags(rows: seq<Series>): seq<bool>
    requires forall r :: 0 <= r < |rows| ==> HasLabel(rows[r], NUMBERS_FIRST)
  {
    seq(|rows|, r requires 0 <= r < |rows| => Post2000(Mains(rows[r]), YearDigits(rows[r])))
  }

  function ThisYearFlags(rows: seq<Series>): seq<bool>
    requires forall r :: 0 <= r < |rows| ==> HasLabel(rows[r], NUMBERS_FIRST)
  {
    seq(|rows|, r requires 0 <= r < |rows| => ThisYear(Mains(rows[r]), YearDigits(rows[r])))
  }

  /** `apply(count, axis=1)` for a pattern count: no row counts more than the pattern has members. */
  function PatternCounts(p: seq<int>, rows: seq<Series>): (s: seq<int>)
    ensures forall r :: 0 <= r < |s| ==> 0 <= s[r] <= |p|
  {
    var s := seq(|rows|, r requires 0 <= r < |rows| => CountPresent(p, Values(rows[r])));
    forall r | 0 <= r < |s|
      ensures s[r] <= |p|
    {
      CountPresentBound(p, Values(rows[r]));
    }
    s
  }

  /** `apply(lambda c: c.sum(), axis=1)`. */
  function RowSums(rows: seq<Series>): seq<int>
  {
    seq(|rows|, r requires 0 <= r < |rows| => Sum(Values(rows[r])))
  }

  /** `col > 0`. */
  function Positive(s: seq<int>): seq<bool>
  {
    seq(|s|, r requires 0 <= r < |s| => s[r] > 0)
  }

  /** `a + b`, row by row. */
  function Plus(a: seq<int>, b: seq<int>): (s: seq<int>)
    requires |a| == |b|
    ensures |s| == |a|
    decreases |a|
  {
    if a == [] then [] else Plus(a[..|a| - 1], b[..|b| - 1]) + [a[|a| - 1] + b[|b| - 1]]
  }

  lemma {:induction false} PlusAt(a: seq<int>, b: seq<int>, r: nat)
    requires |a| == |b| && r < |a|
    ensures Plus(a, b)[r] == a[r] + b[r]
    decreases |a|
  {
    if r < |a| - 1 {
      PlusAt(a[..|a| - 1], b[..|b| - 1], r);
    }
  }

  /** A column of integer cells. */
  function Ints(s: seq<int>): (v: seq<Value>)
    ensures |v| == |s|
    decreases |s|
  {
    if s == [] then [] else Ints(s[..|s| - 1]) + [Int(s[|s| - 1])]
  }

  lemma {:induction false} IntsAt(s: seq<int>, r: nat)
    requires r < |s|
    ensures Ints(s)[r] == Int(s[r])
    decreases |s|
  {
    if r < |s| - 1 {
      IntsAt(s[..|s| - 1], r);
    }
  }

  /** A column of boolean cells. */
  function Bools(s: seq<bool>): (v: seq<Value>)
    ensures |v| == |s|
    decreases |s|
  {
    if s == [] then [] else Bools(s[..|s| - 1]) + [Bool(s[|s| - 1])]
  }

  lemma {:induction false} BoolsAt(s: seq<bool>, r: nat)
    requires r < |s|
    ensures Bools(s)[r] == Bool(s[r])
    decreases |s|
  {
    if r < |s| - 1 {
      BoolsAt(s[..|s| - 1], r);
    }
  }

  /** The columns `engineer_features` adds, each under the name of its label. */
  datatype Features = Features(
    isDate: seq<Value>, isPost2000: seq<Value>, isThisYear: seq<Value>,
    luckyNumbers: seq<Value>, luckyLuckyNumbers: seq<Value>, hasLucky: seq<Value>, hasLuckyLucky: seq<Value>,
    sevenPattern: seq<Value>, nSum: seq<Value>, lSum: seq<Value>, nSumBig: seq<Value>, lSumBig: seq<Value>,
    nSumBin: seq<Value>, lSumBin: seq<Value>, nlSum: seq<Value>, nlSumBin: seq<Value>)

  /** The columns in the order they are assigned, one for each label of `FEATURES`. */
  function Columns(f: Features): (cols: seq<seq<Value>>)
    ensures |cols| == |FEATURES|
  {
    [ f.isDate, f.isPost2000, f.isThisYear, f.luckyNumbers, f.luckyLuckyNumbers, f.hasLucky, f.hasLuckyLucky,
      f.sevenPattern, f.nSum, f.lSum, f.nSumBig, f.lSumBig, f.nSumBin, f.lSumBin, f.nlSum, f.nlSumBin ]
  }

  /** Every column has `n` cells. */
  predicate HasHeight(f: Features, n: nat) {
    && |f.isDate| == n && |f.isPost2000| == n && |f.isThisYear| == n
    && |f.luckyNumbers| == n && |f.luckyLuckyNumbers| == n && |f.hasLucky| == n && |f.hasLuckyLucky| == n
    && |f.sevenPattern| == n && |f.nSum| == n && |f.lSum| == n && |f.nSumBig| == n && |f.lSumBig| == n
    && |f.nSumBin| == n && |f.lSumBin| == n && |f.nlSum| == n && |f.nlSumBin| == n
  }

  lemma ColumnsHeight(f: Features, n: nat)
    requires HasHeight(f, n)
    ensures forall i :: 0 <= i < |Columns(f)| ==> |Columns(f)[i]| == n
  {
  }

  /**
    The values `engineer_features` assigns, from the rows of `N_numbers`, of
    `L_numbers` and of the `N1`..`N5` part of `N_numbers`.
  */
  function FeatureValues(ns: seq<Series>, ls: seq<Series>, sr: seq<Series>): (f: Features)
    requires |ns| == |ls| == |sr| > 0
    requires forall r :: 0 <= r < |ns| ==> HasLabel(ns[r], NUMBERS_FIRST)
    ensures HasHeight(f, |ns|)
  {
    var lucky, luckyLucky := PatternCounts(LUCKY_NUMBERS, ns), PatternCounts(LUCKY_NUMBERS, ls);
    var nsum, lsum := RowSums(sr), RowSums(ls);
    var nlsum := Plus(nsum, lsum);
    Features(
      Bools(DateFlags(ns)), Bools(Post2000Flags(ns)), Bools(ThisYearFlags(ns)),
      Ints(lucky), Ints(luckyLucky), Bools(Positive(lucky)), Bools(Positive(luckyLucky)),
      Ints(PatternCounts(SEVENS_PATTERN, ns)),
      Ints(nsum), Ints(lsum), Bools(AboveMean(nsum)), Bools(AboveMean(lsum)),
      Ints(Codes(nsum, N_BINS)), Ints(Codes(lsum, N_BINS)), Ints(nlsum), Ints(Codes(nlsum, N_BINS)))
  }

  /** The feature columns of the frame `t`. */
  function FeatureCells(t: Table): (f: Features)
    requires Engineerable(t)
    ensures HasHeight(f, t.height)
  {
    FeatureValues(NumberRows(t), LuckyRows(t), SumRows(t))
  }

  /** None of the added labels is one of the dropped ones. */
  lemma FeaturesKept()
    ensures forall c :: c in FEATURES ==> c !in UNWANTED
  {
  }

  lemma FeaturesDistinct()
    ensures Distinct(FEATURES)
  {
  }

  /** The frame after `df[FEATURES[0]] = ...`, ..., `df[FEATURES[15]] = ...` with the columns of `f`. */
  function Assigned(t: Table, f: Features): (d: Table)
    requires WellFormed(t) && HasHeight(f, t.height)
    ensures WellFormed(d) && d.height == t.height
  {
    ColumnsHeight(f, t.height);
    WithAllWellFormed(t, FEATURES, Columns(f));
    WithAll(t, FEATURES, Columns(f))
  }

  /** The frame after the column assignments of `engineer_features`, before the drop. */
  function Derived(t: Table): (d: Table)
    requires Engineerable(t)
    ensures WellFormed(d) && d.height == t.height
  {
    Assigned(t, FeatureCells(t))
  }

  /** The frame `engineer_features` leaves behind; it keeps every row and every added column. */
  function Engineered(t: Table): (e: Table)
    requires Engineerable(t)
    ensures WellFormed(e) && e.height == t.height
    ensures forall c :: c in FEATURES ==> c in e.columns && c in e.cells
  {
    WithAllLabels(t, FEATURES, Columns(FeatureCells(t)));
    FeaturesKept();
    DropAll(Derived(t), UNWANTED)
  }

  /** `GetLuckyNumbers` and `GetAll7Numbers` share this loop: for each pattern member, add 1 if it is among the row's values. */
  method CountListed(p: seq<int>, c: Series) returns (total: nat)
    ensures total == CountPresent(p, Values(c))
  {
    total := 0;
    var vals := Values(c);
    for k := 0 to |p|
      invariant total == CountPresent(p[..k], vals)
    {
      assert p[..k + 1][..k] == p[..k];
      total := total + (if p[k] in vals then 1 else 0);
    }
    assert p[..|p|] == p;
  }

  class FeatureEngineering {
    /** The frame the features are added to; the caller's reference sees every change. */
    const data: DataFrame

    constructor(df: DataFrame)
      ensures data == df
    {
      data := df;
    }

    /** Whether the row holds a main number that could be a month followed later by one that could be a day. */
    method IsDate(c: Series) returns (r: bool)
      ensures r == DateLike(Mains(c))
    {
      var day, month := false, false;
      var k := 0;
      while k < |c|
        invariant 0 <= k <= |c|
        invariant month == HasMonth(Mains(c[..k]))
        invariant day == DateLike(Mains(c[..k]))
      {
        var tag, i := c[k].tag, c[k].value;
        ghost var m := Mains(c[..k]);
        StepMains(c, k);
        if !IsMainLabel(tag) {
          k := k + 1;
          continue;
        }
        ExtendMains(m, i, 0);
        if !month {
          if i <= 12 {
            month := true;
          }
        } else if !day {
          if i <= 31 {
            day := true;
          }
        } else {
          break;
        }
        k := k + 1;
      }
      DateLikeOfPrefix(c, k);
      r := day && month;
    }

    /** Whether the row holds 20 and, as another main number, the last two digits of its own year. */
    method IsThisYear(c: Series) returns (r: bool)
      requires HasLabel(c, NUMBERS_FIRST)
      ensures r == ThisYear(Mains(c), YearDigits(c))
    {
      var first := CENTURY;
      var second := YearDigits(c);
      var f, s := false, false;
      for k := 0 to |c|
        invariant f == HasCentury(Mains(c[..k]))
        invariant s == HasYear(Mains(c[..k]), second)
      {
        var tag, i := c[k].tag, c[k].value;
        StepMains(c, k);
        if !IsMainLabel(tag) {
          continue;
        }
        ExtendMains(Mains(c[..k]), i, second);
        if i == first {
          f := true;
        } else if i == second {
          s := true;
        }
      }
      assert c[..|c|] == c;
      r := f && s;
    }

    /** Whether the row holds 20 and, as another main number, a two-digit year no later than its own. */
    method IsPost2000(c: Series) returns (r: bool)
      requires HasLabel(c, NUMBERS_FIRST)
      ensures r == Post2000(Mains(c), YearDigits(c))
    {
      var second := YearDigits(c);
      var f, s := false, false;
      for k := 0 to |c|
        invariant f == HasCentury(Mains(c[..k]))
        invariant s == HasYearUpTo(Mains(c[..k]), second)
      {
        var tag, i := c[k].tag, c[k].value;
        StepMains(c, k);
        if !IsMainLabel(tag) {
          continue;
        }
        ExtendMains(Mains(c[..k]), i, second);
        if i == CENTURY {
          f := true;
        } else if i <= second {
          s := true;
        }
      }
      assert c[..|c|] == c;
      r := f && s;
    }

    /** How many of the numerology lucky numbers occur among the row's values (0 to 13). */
    method GetLuckyNumbers(c: Series) returns (total: nat)
      ensures total == CountPresent(LUCKY_NUMBERS, Values(c))
      ensures total <= 13
    {
      total := CountListed(LUCKY_NUMBERS, c);
      PatternCountBounds(Values(c));
    }

    /** How many of 7, 17, 27, 37, 47 occur among the row's values (0 to 5). */
    method GetAll7Numbers(c: Series) returns (total: nat)
      ensures total == CountPresent(SEVENS_PATTERN, Values(c))
      ensures total <= 5
    {
      total := CountListed(SEVENS_PATTERN, c);
      PatternCountBounds(Values(c));
    }

    /** `N_numbers.apply(self.is_date, axis = 1)`. */
    method ApplyIsDate(rows: seq<Series>) returns (flags: seq<bool>)
      ensures flags == DateFlags(rows)
    {
      flags := [];
      for r := 0 to |rows|
        invariant |flags| == r && forall j :: 0 <= j < r ==> flags[j] == DateLike(Mains(rows[j]))
      {
        var d := IsDate(rows[r]);
        flags := flags + [d];
      }
    }

    /** `N_numbers.apply(self.is_post_2000, axis = 1)`. */
    method ApplyIsPost2000(rows: seq<Series>) returns (flags: seq<bool>)
      requires forall r :: 0 <= r < |rows| ==> HasLabel(rows[r], NUMBERS_FIRST)
      ensures flags == Post2000Flags(rows)
    {
      flags := [];
      for r := 0 to |rows|
        invariant |flags| == r
        invariant forall j :: 0 <= j < r ==> flags[j] == Post2000(Mains(rows[j]), YearDigits(rows[j]))
      {
        var p := IsPost2000(rows[r]);
        flags := flags + [p];
      }
    }

    /** `N_numbers.apply(self.is_this_year, axis = 1)`. */
    method ApplyIsThisYear(rows: seq<Series>) returns (flags: seq<bool>)
      requires forall r :: 0 <= r < |rows| ==> HasLabel(rows[r], NUMBERS_FIRST)
      ensures flags == ThisYearFlags(rows)
    {
      flags := [];
      for r := 0 to |rows|
        invariant |flags| == r
        invariant forall j :: 0 <= j < r ==> flags[j] == ThisYear(Mains(rows[j]), YearDigits(rows[j]))
      {
        var y := IsThisYear(rows[r]);
        flags := flags + [y];
      }
    }

    /** `rows.apply(self.get_lucky_numbers, axis = 1)`, for the main and for the lucky-star rows. */
    method ApplyLucky(rows: seq<Series>) returns (counts: seq<int>)
      ensures counts == PatternCounts(LUCKY_NUMBERS, rows)
    {
      counts := [];
      for r := 0 to |rows|
        invariant |counts| == r && forall j :: 0 <= j < r ==> counts[j] == CountPresent(LUCKY_NUMBERS, Values(rows[j]))
      {
        var l := GetLuckyNumbers(rows[r]);
        counts := counts + [l];
      }
    }

    /** `N_numbers.apply(self.get_all_7_numbers, axis = 1)`. */
    method ApplySevens(rows: seq<Series>) returns (counts: seq<int>)
      ensures counts == PatternCounts(SEVENS_PATTERN, rows)
    {
      counts := [];
      for r := 0 to |rows|
        invariant |counts| == r && forall j :: 0 <= j < r ==> counts[j] == CountPresent(SEVENS_PATTERN, Values(rows[j]))
      {
        var s := GetAll7Numbers(rows[r]);
        counts := counts + [s];
      }
    }

    /** The columns `engineer_features` computes, by the row methods above, in the order it assigns them. */
    method FeatureColumns(ns: seq<Series>, ls: seq<Series>, sr: seq<Series>) returns (f: Features)
      requires |ns| == |ls| == |sr| > 0
      requires forall r :: 0 <= r < |ns| ==> HasLabel(ns[r], NUMBERS_FIRST)
      ensures f == FeatureValues(ns, ls, sr)
    {
      // date-based features
      var isDate := ApplyIsDate(ns);
      var post := ApplyIsPost2000(ns);
      var thisYear := ApplyIsThisYear(ns);
      // lucky-number features and the sevens pattern
      var lucky := ApplyLucky(ns);
      var luckyLucky := ApplyLucky(ls);
      var sevens := ApplySevens(ns);
      // sums, their comparison with the mean, and their bins
      var nsum, lsum := RowSums(sr), RowSums(ls);
      var nlsum := Plus(nsum, lsum);
      f := Features(
        Bools(isDate), Bools(post), Bools(thisYear), Ints(lucky), Ints(luckyLucky),
        Bools(Positive(lucky)), Bools(Positive(luckyLucky)), Ints(sevens),
        Ints(nsum), Ints(lsum), Bools(AboveMean(nsum)), Bools(AboveMean(lsum)),
        Ints(Codes(nsum, N_BINS)), Ints(Codes(lsum, N_BINS)), Ints(nlsum), Ints(Codes(nlsum, N_BINS)));
    }

    /** Adds the feature columns to `data`, then drops the date and winnings columns; returns `data`. */
    method EngineerFeatures() returns (r: DataFrame)
      requires Engineerable(data.Value())
      modifies data
      ensures r == data
      ensures data.Value() == Engineered(old(data.Value()))
    {
      var t := data.Value();
      var ns, ls, sr := NumberRows(t), LuckyRows(t), SumRows(t);
      var f := FeatureColumns(ns, ls, sr);
      ColumnsHeight(f, t.height);
      data.SetColumns(FEATURES, Columns(f));
      assert data.Value() == Derived(t);
      DropUnwanted();
      r := data;
    }

    /** `for col in [...]: if col in columns: drop(columns=[col])`. */
    method DropUnwanted()
      requires WellFormed(data.Value())
      modifies data
      ensures data.Value() == DropAll(old(data.Value()), UNWANTED)
    {
      FilterOutAbsent(data.columns, []);
      assert DropAll(data.Value(), []) == data.Value();
      for k := 0 to |UNWANTED|
        invariant WellFormed(data.Value())
        invariant data.Value() == DropAll(old(data.Value()), UNWANTED[..k])
      {
        assert UNWANTED[..k + 1] == UNWANTED[..k] + [UNWANTED[k]];
        DropAllStep(old(data.Value()), UNWANTED[..k], UNWANTED[k]);
        var col := UNWANTED[k];
        if col in data.columns {
          data.DropColumn(col);
        }
      }
      assert UNWANTED[..|UNWANTED|] == UNWANTED;
    }
  }
}
