/**
  What the frame left behind by `engineer_features` holds: which columns it
  has and in what order, and, row by row, the flags and counts of the row
  scans, the sums, the comparisons with the means and the bin codes.
*/
module DataEngFacts {
  import opened Sequences
  import opened Frame
  import opened RowFeatures
  import opened Binning
  import opened DataEng

  /** `N sum`, row by row: the total of the `N1`..`N5` part of each row. */
  function NSums(t: Table): (s: seq<int>)
    requires Engineerable(t)
    ensures |s| == t.height
  {
    RowSums(SumRows(t))
  }

  /** `L sum`, row by row: the total of the two lucky stars of each row. */
  function LSums(t: Table): (s: seq<int>)
    requires Engineerable(t)
    ensures |s| == t.height
  {
    RowSums(LuckyRows(t))
  }

  /** `NL sum`, row by row. */
  function NLSums(t: Table): (s: seq<int>)
    requires Engineerable(t)
    ensures |s| == t.height
  {
    Plus(NSums(t), LSums(t))
  }

  /** The `i`-th added label, by name. */
  lemma LabelsAt()
    ensures FEATURES[0] == IS_DATE
    ensures FEATURES[1] == IS_POST_2000
    ensures FEATURES[2] == IS_THIS_YEAR
    ensures FEATURES[3] == LUCKY
    ensures FEATURES[4] == LUCKY_LUCKY
    ensures FEATURES[5] == HAS_LUCKY
    ensures FEATURES[6] == HAS_LUCKY_LUCKY
    ensures FEATURES[7] == SEVENS
    ensures FEATURES[8] == N_SUM
    ensures FEATURES[9] == L_SUM
    ensures FEATURES[10] == N_SUM_BIG
    ensures FEATURES[11] == L_SUM_BIG
    ensures FEATURES[12] == N_SUM_BIN
    ensures FEATURES[13] == L_SUM_BIN
    ensures FEATURES[14] == NL_SUM
    ensures FEATURES[15] == NL_SUM_BIN
  {
  }

  /** The `i`-th column of `f`, by name. */
  lemma ColumnsAt(f: Features)
    ensures Columns(f)[0] == f.isDate
    ensures Columns(f)[1] == f.isPost2000
    ensures Columns(f)[2] == f.isThisYear
    ensures Columns(f)[3] == f.luckyNumbers
    ensures Columns(f)[4] == f.luckyLuckyNumbers
    ensures Columns(f)[5] == f.hasLucky
    ensures Columns(f)[6] == f.hasLuckyLucky
    ensures Columns(f)[7] == f.sevenPattern
    ensures Columns(f)[8] == f.nSum
    ensures Columns(f)[9] == f.lSum
    ensures Columns(f)[10] == f.nSumBig
    ensures Columns(f)[11] == f.lSumBig
    ensures Columns(f)[12] == f.nSumBin
    ensures Columns(f)[13] == f.lSumBin
    ensures Columns(f)[14] == f.nlSum
    ensures Columns(f)[15] == f.nlSumBin
  {
  }

  /** Whatever the assigned columns are, each of them survives the drop under its own label. */
  lemma Survives(t: Table, f: Features, i: nat)
    requires WellFormed(t) && HasHeight(f, t.height) && i < |FEATURES|
    ensures FEATURES[i] in DropAll(Assigned(t, f), UNWANTED).cells
    ensures DropAll(Assigned(t, f), UNWANTED).cells[FEATURES[i]] == Columns(f)[i]
  {
    FeaturesDistinct();
    FeaturesKept();
    WithAllAssigned(t, FEATURES, Columns(f), i);
  }

  /**
    The frame keeps every row; its labels are those it had and the added ones,
    except the dropped ones; the columns it had that are neither assigned nor
    dropped keep their cells.
  */
  lemma EngineeredShape(t: Table)
    requires Engineerable(t)
    ensures Engineered(t).height == t.height
    ensures forall c :: c in Engineered(t).columns <==> (c in t.columns || c in FEATURES) && c !in UNWANTED
    ensures forall c :: c in t.columns && c !in FEATURES && c !in UNWANTED ==> Engineered(t).cells[c] == t.cells[c]
  {
    var cols := Columns(FeatureCells(t));
    WithAllLabels(t, FEATURES, cols);
    forall c | c in t.columns && c !in FEATURES && c !in UNWANTED
      ensures Engineered(t).cells[c] == t.cells[c]
    {
      WithAllOthers(t, FEATURES, cols, c);
    }
  }

  /**
    When none of the added labels is in the frame yet, the result has the
    columns it had that are not dropped, in their order, followed by the added
    columns in the order `engineer_features` assigns them.
  */
  lemma EngineeredOrder(t: Table)
    requires Engineerable(t)
    requires forall c :: c in FEATURES ==> c !in t.columns
    ensures Engineered(t).columns == FilterOut(t.columns, UNWANTED) + FEATURES
  {
    FeaturesDistinct();
    FeaturesKept();
    WithAllAppends(t, FEATURES, Columns(FeatureCells(t)));
    FilterOutConcat(t.columns, FEATURES, UNWANTED);
    FilterOutAbsent(FEATURES, UNWANTED);
  }

  /** The rows `FeatureValues` is computed from: as many of each, and a year in every row of the first kind. */
  ghost predicate RowsOf(ns: seq<Series>, ls: seq<Series>, sr: seq<Series>) {
    && |ns| == |ls| == |sr| > 0
    && forall r :: 0 <= r < |ns| ==> HasLabel(ns[r], NUMBERS_FIRST)
  }

  /** The year of row `r`, as the date flags read it. */
  lemma YearAt(t: Table, r: nat)
    requires Engineerable(t) && r < t.height
    ensures YearDigits(NumberRows(t)[r]) == IntAt(t, NUMBERS_FIRST, r) - 2000
  {
    var row := NumberRows(t)[r];
    assert row[0] == Cell(NUMBERS_FIRST, IntAt(t, NUMBERS_FIRST, r));
  }

  /** The date flags are computed row by row from the main numbers and the year of the same row. */
  lemma DateValues(ns: seq<Series>, ls: seq<Series>, sr: seq<Series>, r: nat)
    requires RowsOf(ns, ls, sr) && r < |ns|
    ensures var f, m, year := FeatureValues(ns, ls, sr), Mains(ns[r]), YearDigits(ns[r]);
      && f.isDate[r] == Bool(DateLike(m))
      && f.isPost2000[r] == Bool(Post2000(m, year))
      && f.isThisYear[r] == Bool(ThisYear(m, year))
  {
    BoolsAt(DateFlags(ns), r);
    BoolsAt(Post2000Flags(ns), r);
    BoolsAt(ThisYearFlags(ns), r);
  }

  /** The pattern counts are computed row by row, and the "has" flags from the counts. */
  lemma CountValues(ns: seq<Series>, ls: seq<Series>, sr: seq<Series>, r: nat)
    requires RowsOf(ns, ls, sr) && r < |ns|
    ensures var f := FeatureValues(ns, ls, sr);
      && f.luckyNumbers[r] == Int(CountPresent(LUCKY_NUMBERS, Values(ns[r])))
      && f.luckyLuckyNumbers[r] == Int(CountPresent(LUCKY_NUMBERS, Values(ls[r])))
      && f.hasLucky[r] == Bool(CountPresent(LUCKY_NUMBERS, Values(ns[r])) > 0)
      && f.hasLuckyLucky[r] == Bool(CountPresent(LUCKY_NUMBERS, Values(ls[r])) > 0)
      && f.sevenPattern[r] == Int(CountPresent(SEVENS_PATTERN, Values(ns[r])))
  {
    var lucky, luckyLucky := PatternCounts(LUCKY_NUMBERS, ns), PatternCounts(LUCKY_NUMBERS, ls);
    IntsAt(lucky, r);
    IntsAt(luckyLucky, r);
    BoolsAt(Positive(lucky), r);
    BoolsAt(Positive(luckyLucky), r);
    IntsAt(PatternCounts(SEVENS_PATTERN, ns), r);
  }

  /** The sum columns are the row sums of the `N1`..`N5` rows, of the star rows, and the two added up. */
  lemma SumValues(ns: seq<Series>, ls: seq<Series>, sr: seq<Series>)
    requires RowsOf(ns, ls, sr)
    ensures var f, nsum, lsum := FeatureValues(ns, ls, sr), RowSums(sr), RowSums(ls);
      && f.nSum == Ints(nsum) && f.lSum == Ints(lsum) && f.nlSum == Ints(Plus(nsum, lsum))
  {
  }

  /** The "big" columns compare the two sums with their means. */
  lemma MeanValues(ns: seq<Series>, ls: seq<Series>, sr: seq<Series>)
    requires RowsOf(ns, ls, sr)
    ensures var f, nsum, lsum := FeatureValues(ns, ls, sr), RowSums(sr), RowSums(ls);
      && f.nSumBig == Bools(AboveMean(nsum)) && f.lSumBig == Bools(AboveMean(lsum))
  {
  }

  /** The bin columns encode the three sums cut into six intervals. */
  lemma BinValues(ns: seq<Series>, ls: seq<Series>, sr: seq<Series>)
    requires RowsOf(ns, ls, sr)
    ensures var f, nsum, lsum := FeatureValues(ns, ls, sr), RowSums(sr), RowSums(ls);
      && f.nSumBin == Ints(Codes(nsum, N_BINS)) && f.lSumBin == Ints(Codes(lsum, N_BINS))
      && f.nlSumBin == Ints(Codes(Plus(nsum, lsum), N_BINS))
  {
  }

  /**
    The three date flags of row `r` are the row predicates on the main numbers
    of `YYYY`..`N5`, read with the year in that row's `YYYY` cell.
  */
  lemma DateColumns(t: Table, r: nat)
    requires Engineerable(t) && r < t.height
    ensures var e, m, year := Engineered(t), Mains(NumberRows(t)[r]), IntAt(t, NUMBERS_FIRST, r);
      && e.cells[IS_DATE][r] == Bool(DateLike(m))
      && e.cells[IS_POST_2000][r] == Bool(Post2000(m, year - 2000))
      && e.cells[IS_THIS_YEAR][r] == Bool(ThisYear(m, year - 2000))
  {
    LabelsAt();
    ColumnsAt(FeatureCells(t));
    Survives(t, FeatureCells(t), 0);
    Survives(t, FeatureCells(t), 1);
    Survives(t, FeatureCells(t), 2);
    DateValues(NumberRows(t), LuckyRows(t), SumRows(t), r);
    YearAt(t, r);
  }

  /**
    The lucky-number columns of row `r` count the numerology lucky numbers
    among the row's values and among its two stars, and the "has" flags say
    whether those counts are positive.
  */
  lemma LuckyColumns(t: Table, r: nat)
    requires Engineerable(t) && r < t.height
    ensures var e := Engineered(t);
      var lucky, luckyLucky := CountPresent(LUCKY_NUMBERS, Values(NumberRows(t)[r])), CountPresent(LUCKY_NUMBERS, [IntAt(t, STAR_1, r), IntAt(t, STAR_2, r)]);
      && e.cells[LUCKY][r] == Int(lucky) && e.cells[HAS_LUCKY][r] == Bool(lucky > 0)
      && e.cells[LUCKY_LUCKY][r] == Int(luckyLucky) && e.cells[HAS_LUCKY_LUCKY][r] == Bool(luckyLucky > 0)
      && 0 <= lucky <= 13 && 0 <= luckyLucky <= 2
  {
    LabelsAt();
    ColumnsAt(FeatureCells(t));
    Survives(t, FeatureCells(t), 3);
    Survives(t, FeatureCells(t), 4);
    Survives(t, FeatureCells(t), 5);
    Survives(t, FeatureCells(t), 6);
    CountValues(NumberRows(t), LuckyRows(t), SumRows(t), r);
    StarValues(t, r);
    PatternCountBounds(Values(NumberRows(t)[r]));
    StarCountBound(Values(LuckyRows(t)[r]));
  }

  /** The values of the lucky-star row `r` are the two stars of that row. */
  lemma StarValues(t: Table, r: nat)
    requires Engineerable(t) && r < t.height
    ensures Values(LuckyRows(t)[r]) == [IntAt(t, STAR_1, r), IntAt(t, STAR_2, r)]
  {
    var row := LuckyRows(t)[r];
    assert row == [Cell(STAR_1, IntAt(t, STAR_1, r)), Cell(STAR_2, IntAt(t, STAR_2, r))];
  }

  /** The sevens column of row `r` counts which of 7, 17, 27, 37, 47 occur among the row's values. */
  lemma SevensColumn(t: Table, r: nat)
    requires Engineerable(t) && r < t.height
    ensures Engineered(t).cells[SEVENS][r] == Int(CountPresent(SEVENS_PATTERN, Values(NumberRows(t)[r])))
    ensures 0 <= CountPresent(SEVENS_PATTERN, Values(NumberRows(t)[r])) <= 5
  {
    LabelsAt();
    ColumnsAt(FeatureCells(t));
    Survives(t, FeatureCells(t), 7);
    CountValues(NumberRows(t), LuckyRows(t), SumRows(t), r);
    PatternCountBounds(Values(NumberRows(t)[r]));
  }

  /** The integers of row `r` in the columns `cols`, in that order. */
  function RowInts(t: Table, cols: seq<string>, r: nat): (v: seq<int>)
    requires WellFormed(t) && r < t.height
    requires forall k :: 0 <= k < |cols| ==> IntColumn(t, cols[k])
    ensures |v| == |cols| && forall k :: 0 <= k < |cols| ==> v[k] == IntAt(t, cols[k], r)
  {
    seq(|cols|, k requires 0 <= k < |cols| => IntAt(t, cols[k], r))
  }

  /** The `N sum`, `L sum` and `NL sum` columns of the frame, whole. */
  lemma SumColumnsWhole(t: Table)
    requires Engineerable(t)
    ensures var e := Engineered(t);
      && e.cells[N_SUM] == Ints(NSums(t)) && e.cells[L_SUM] == Ints(LSums(t)) && e.cells[NL_SUM] == Ints(NLSums(t))
  {
    LabelsAt();
    ColumnsAt(FeatureCells(t));
    Survives(t, FeatureCells(t), 8);
    Survives(t, FeatureCells(t), 9);
    Survives(t, FeatureCells(t), 14);
    SumValues(NumberRows(t), LuckyRows(t), SumRows(t));
  }

  /** `N sum` of row `r` adds the row's cells from `N1` to `N5`. */
  lemma NSumAt(t: Table, r: nat)
    requires Engineerable(t) && r < t.height
    ensures NSums(t)[r] == Sum(RowInts(t, SumColumns(t), r))
  {
    assert Values(SumRows(t)[r]) == RowInts(t, SumColumns(t), r);
  }

  /** `L sum` of row `r` adds its two stars. */
  lemma LSumAt(t: Table, r: nat)
    requires Engineerable(t) && r < t.height
    ensures LSums(t)[r] == IntAt(t, STAR_1, r) + IntAt(t, STAR_2, r)
  {
    StarValues(t, r);
    var stars := [IntAt(t, STAR_1, r), IntAt(t, STAR_2, r)];
    assert LSums(t)[r] == Sum(stars);
    assert stars[..1] == [stars[0]];
    assert Sum([stars[0]]) == stars[0] by {
      assert [stars[0]][..0] == [];
    }
  }

  /** `NL sum` of row `r` is `N sum` plus `L sum` of that row. */
  lemma NLSumAt(t: Table, r: nat)
    requires Engineerable(t) && r < t.height
    ensures NLSums(t)[r] == NSums(t)[r] + LSums(t)[r]
  {
    PlusAt(NSums(t), LSums(t), r);
  }

  /** Row `r` of the three sum columns of the frame holds the row's sums (see `NSumAt`, `LSumAt`, `NLSumAt`). */
  lemma SumColumnsAt(t: Table, r: nat)
    requires Engineerable(t) && r < t.height
    ensures var e := Engineered(t);
      && e.cells[N_SUM][r] == Int(NSums(t)[r])
      && e.cells[L_SUM][r] == Int(LSums(t)[r])
      && e.cells[NL_SUM][r] == Int(NLSums(t)[r])
  {
    SumColumnsWhole(t);
    IntsAt(NSums(t), r);
    IntsAt(LSums(t), r);
    IntsAt(NLSums(t), r);
  }

  /**
    `N sum big` and `L sum big` of row `r` say whether the row's sum is above
    the mean of its column; in every frame some row is not above the mean.
  */
  lemma BigColumns(t: Table, r: nat)
    requires Engineerable(t) && r < t.height
    ensures Engineered(t).cells[N_SUM_BIG][r] == Bool(NSums(t)[r] as real > Mean(NSums(t)))
    ensures Engineered(t).cells[L_SUM_BIG][r] == Bool(LSums(t)[r] as real > Mean(LSums(t)))
    ensures exists q :: 0 <= q < t.height && Engineered(t).cells[N_SUM_BIG][q] == Bool(false)
  {
    LabelsAt();
    ColumnsAt(FeatureCells(t));
    Survives(t, FeatureCells(t), 10);
    Survives(t, FeatureCells(t), 11);
    MeanValues(NumberRows(t), LuckyRows(t), SumRows(t));
    BoolsAt(AboveMean(NSums(t)), r);
    BoolsAt(AboveMean(LSums(t)), r);
    NotAllAboveMean(NSums(t));
    var q :| 0 <= q < t.height && !AboveMean(NSums(t))[q];
    BoolsAt(AboveMean(NSums(t)), q);
  }

  /** The three bin cells of row `r` hold that row's codes. */
  lemma BinCells(t: Table, r: nat)
    requires Engineerable(t) && r < t.height
    ensures var e := Engineered(t);
      && e.cells[N_SUM_BIN][r] == Int(Codes(NSums(t), N_BINS)[r])
      && e.cells[L_SUM_BIN][r] == Int(Codes(LSums(t), N_BINS)[r])
      && e.cells[NL_SUM_BIN][r] == Int(Codes(NLSums(t), N_BINS)[r])
  {
    LabelsAt();
    ColumnsAt(FeatureCells(t));
    Survives(t, FeatureCells(t), 12);
    Survives(t, FeatureCells(t), 13);
    Survives(t, FeatureCells(t), 15);
    BinValues(NumberRows(t), LuckyRows(t), SumRows(t));
    IntsAt(Codes(NSums(t), N_BINS), r);
    IntsAt(Codes(LSums(t), N_BINS), r);
    IntsAt(Codes(NLSums(t), N_BINS), r);
  }

  /**
    The bin columns of row `r` hold a code from 0 to 5 for the row's sum, and a
    row whose sum is not larger than that of row `q` gets a code that is not
    larger.
  */
  lemma BinColumns(t: Table, r: nat, q: nat)
    requires Engineerable(t) && r < t.height && q < t.height
    ensures var e, n, l, nl := Engineered(t), Codes(NSums(t), N_BINS), Codes(LSums(t), N_BINS), Codes(NLSums(t), N_BINS);
      && e.cells[N_SUM_BIN][r] == Int(n[r]) && e.cells[L_SUM_BIN][r] == Int(l[r]) && e.cells[NL_SUM_BIN][r] == Int(nl[r])
      && n[r] < N_BINS && l[r] < N_BINS && nl[r] < N_BINS
      && (NSums(t)[r] <= NSums(t)[q] ==> n[r] <= n[q])
      && (LSums(t)[r] <= LSums(t)[q] ==> l[r] <= l[q])
      && (NLSums(t)[r] <= NLSums(t)[q] ==> nl[r] <= nl[q])
  {
    BinCells(t, r);
    CodesInRange(NSums(t), N_BINS, r);
    CodesInRange(LSums(t), N_BINS, r);
    CodesInRange(NLSums(t), N_BINS, r);
    if NSums(t)[r] <= NSums(t)[q] {
      CodesMonotone(NSums(t), N_BINS, r, q);
    }
    if LSums(t)[r] <= LSums(t)[q] {
      CodesMonotone(LSums(t), N_BINS, r, q);
    }
    if NLSums(t)[r] <= NLSums(t)[q] {
      CodesMonotone(NLSums(t), N_BINS, r, q);
    }
  }
}
