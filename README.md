# EuroMillions feature engineering and quick-start, in Dafny

This project models the core of the EuroMillions ticket evaluator: the
feature engineering of `src/dataEng.py` and the ticket handling of
`quick-start.py`. It proves properties of that model.

`FeatureEngineering` holds a pandas frame of past draws. Each draw has the
columns `YYYY`, `N1`..`N5` (the five main numbers) and `L1`, `L2` (the two
lucky stars), plus date and winnings columns. `engineer_features` works on
that frame in place:

- It scans each row for main numbers that look like a date (`is date`), for
  a 20 together with, as another main number, the draw's own two-digit year
  (`is this year`) or any number up to it (`is post 2000`), in either order,
  and for numerology "lucky" numbers and numbers ending in 7.
- It adds the sums of the main numbers, of the stars and of both, and flags a
  sum above its column's mean.
- It cuts each sum into 6 equal-width intervals and encodes each interval by
  its rank.
- It then drops `Day`, `DD`, `MMM`, `YYYY` and `Wins`.

The quick-start script works like this:

- It reads the five main numbers, sorts them and checks them with
  `validate_nums` (count, then uniqueness, then range). Only then does it
  read, sort and check the two stars, so a bad list of main numbers stops it
  before the stars are asked for.
- It builds a one-row frame `YYYY, N1..N5, L1, L2` holding the current year
  and the ticket.
- It appends that frame to the historical draws, restricted to the same
  labels, and runs `engineer_features` on the combined frame.
- It calls `eng.drop_unwanted_values()`, which `FeatureEngineering` does not
  define: as written the script raises `AttributeError` there for every
  accepted ticket (see "## Findings"). `ModelInput` and `PrepareTicket` model
  the script with that call read as the intended second drop of the
  unwanted columns.
- It hands the last row, at the model's feature labels, to the classifier.

Modules:

- `Sequences` holds generic facts: distinctness, filtering, `len(set(s))`.
- `Frame` holds the value `Table` and the mutable `DataFrame` class, with
  column assignment (one column or a sequence of them), `drop`, `loc`,
  `concat` and the drop loop.
- `RowFeatures` holds the row rules as predicates over a row's main numbers,
  plus the pattern counts.
- `Binning` holds the mean flags, the equal-width cut and the
  `LabelEncoder` ranks.
- `DataEng` holds the class `FeatureEngineering`. Its per-row scans are
  loops (a `while` loop with a `break` for `is_date`, `for` loops for the
  others) proved against `RowFeatures`, and `EngineerFeatures` is proved
  against the function `Engineered`.
- `DataEngFacts` says what every cell of the engineered frame holds, row by
  row.
- `QuickStart` holds `validate_nums`, `sorted`, the record, the class
  `InputHelper` and the path from the prompts to the model's input, proved
  against `ModelInput`.

The frame is a class because the script depends on aliasing. `eng.data` and
`user_plus_dataset` are the same object, and `iloc[[-1]]` reads the columns
that `engineer_features` added to it. `PrepareTicket` reads the last row
through the same `DataFrame` reference that the engine changed.

Where versions differ: another version of this logic makes the column drop
a separate method, `drop_unwanted_values`, and cuts the main-number sum into
10 intervals. This model follows `src/dataEng.py` as it stands. The drop is
the last step of `engineer_features`, and every sum is cut into 6 intervals
(`DataEng.N_BINS`).

## Model

| member | source | states |
|---|---|---|
| Sequences.DistinctIffNoShrink | quick-start.py:133-135 | `len(set(nums)) == len(nums)` holds exactly when no number is repeated, and the set is never larger than the list |
| Sequences.PermutationKeepsElements | quick-start.py:85 | reordering a list keeps its length and its set of elements |
| Sequences.FilterOut | src/dataEng.py:220-222 | the kept labels are exactly those of the frame that are not listed; none is added, and distinct labels stay distinct |
| Sequences.FilterOutConcat | src/dataEng.py:220-222 | filtering a concatenation filters each part |
| Frame.IntAt | src/dataEng.py:206 | definition of reading one integer cell; the cells it reads are stated by `DataEngFacts.NSumAt` and `DataEngFacts.YearAt` |
| Frame.With | quick-start.py:96-98 | definition of `df[name] = vals`: the column is replaced where present and appended otherwise; `Frame.AddLabel` and `Frame.WithWellFormed` state its labels and shape |
| Frame.AddLabel | src/dataEng.py:195 | after `df[name] = ...` the labels are the old ones plus `name`, still distinct |
| Frame.WithWellFormed | quick-start.py:96 | assigning a column of the frame's height, or the first column of an empty frame, keeps the frame well formed |
| Frame.Without | src/dataEng.py:222 | `drop(columns=[name])` removes that label and its cells and keeps every row |
| Frame.DropAll | src/dataEng.py:220-222 | after the drop loop, a label remains exactly when it was present and not listed; the kept columns keep their cells; all rows stay |
| Frame.DropAllStep | src/dataEng.py:221-222 | one more turn of the loop drops the label when it is still present and changes nothing otherwise |
| Frame.DropAllIdempotent | src/dataEng.py:220-222 | running the drop loop a second time changes nothing |
| Frame.Select | quick-start.py:168 | `loc[:, cols]` has exactly the listed columns, in that order, with their cells and all rows |
| Frame.Concat | quick-start.py:168 | `pd.concat` of two frames with the same labels has the rows of the first and then those of the second |
| Frame.ConcatRows | quick-start.py:168 | row `r` of the concatenation is row `r` of the first frame, or row `r - h` of the second when `r` is past the first's height `h` |
| Frame.DataFrame.Empty | quick-start.py:95 | `pd.DataFrame()` has no columns and no rows |
| Frame.DataFrame.Of | quick-start.py:168 | a new frame object holds the given table |
| Frame.DataFrame.SetColumn | quick-start.py:96-98 | `df[name] = vals` replaces or appends the column, updates the object in place and keeps it well formed |
| Frame.DataFrame.SetColumns | quick-start.py:97-98 | the assignment loop changes the object to the frame with each column assigned in turn |
| Frame.WithAllStep | quick-start.py:97-98 | each turn of an assignment loop adds one assignment to the ones before |
| Frame.WithAll | src/dataEng.py:195-217 | definition of a run of column assignments in order; `Frame.WithAllLabels`, `Frame.WithAllAssigned`, `Frame.WithAllOthers` and `Frame.WithAllAppends` state its result |
| Frame.WithAllAssigned | src/dataEng.py:195-217 | after the assignments each assigned label holds its column |
| Frame.WithAllOthers | src/dataEng.py:195-217 | labels that are not assigned keep their cells |
| Frame.WithAllAppends | src/dataEng.py:195-217 | fresh labels are appended in assignment order |
| Frame.WithAllLabels | src/dataEng.py:195-217 | the labels after the assignments are the old ones plus the assigned ones |
| Frame.DataFrame.DropColumn | src/dataEng.py:222 | `drop(columns=[name], inplace=True)` changes the object to the frame without that label |
| RowFeatures.Values | src/dataEng.py:149 | definition of `c.values`; `RowFeatures.YearNeverCounts` and `QuickStart.YearThenMains` state what it holds |
| RowFeatures.Lookup | src/dataEng.py:89 | `c['YYYY']` is the value of the first cell labelled `YYYY` |
| RowFeatures.Mains | src/dataEng.py:62 | definition of the values the scans read, those whose label contains `N`, in column order; `QuickStart.MainLabels` and `QuickStart.MainsAfterFirst` state which they are |
| RowFeatures.DateLike | src/dataEng.py:59-70 | definition of the date rule: some main number at most 12 is followed later by one at most 31; `FeatureEngineering.IsDate` is proved against it |
| RowFeatures.ThisYear | src/dataEng.py:91-98 | definition of the this-year rule: the row holds 20 and, as another main number, the two-digit year; `FeatureEngineering.IsThisYear` is proved against it |
| RowFeatures.Post2000 | src/dataEng.py:119-126 | definition of the post-2000 rule: the row holds 20 and another main number up to the two-digit year; `FeatureEngineering.IsPost2000` is proved against it |
| RowFeatures.CountPresent | src/dataEng.py:147-150 | definition of the pattern count, one for each pattern member found among the values; `RowFeatures.CountPresentBound` and `RowFeatures.CountPresentIsSetSize` state its value |
| RowFeatures.ExtendMains | src/dataEng.py:61-69 | reading one more main number updates the month, date, century and year facts exactly as the loops' branches do |
| RowFeatures.DateLikeWhenSorted | src/dataEng.py:59-70 | for ascending main numbers, `is_date` holds exactly when `N1 <= 12` and `N2 <= 31` |
| RowFeatures.NeverThisYearIn2020 | src/dataEng.py:95-96 | because of the `elif`, a draw of 2020 is never "this year": the 20 cannot also serve as the year |
| RowFeatures.ThisYearIsPost2000 | src/dataEng.py:95-124 | a row that holds 20 and its own year also holds 20 and a year no later than its own |
| RowFeatures.CountPresentBound | src/dataEng.py:147-150 | the count never exceeds the length of the pattern |
| RowFeatures.CountPresentIsSetSize | src/dataEng.py:148-149 | for a pattern without repeats, the count is the number of distinct pattern members found in the row |
| RowFeatures.CountPresentOnlyPatternMatters | src/dataEng.py:149 | two rows that agree on which pattern members they hold get the same count |
| RowFeatures.YearNeverCounts | src/dataEng.py:149 | a year larger than every pattern member (as 2023 is for the lucky numbers) never adds to the count, although `c.values` includes it |
| RowFeatures.CountPresentIsEntries | src/dataEng.py:148-149 | for distinct row values, the count equals the number of row entries that belong to the pattern |
| RowFeatures.PatternCountBounds | src/dataEng.py:146-150 | the lucky count lies in 0..13 and the sevens count in 0..5 |
| RowFeatures.StarCountBound | src/dataEng.py:200 | the two stars hold at most two lucky numbers |
| RowFeatures.SevensExamples | src/dataEng.py:174-178 | 7 17 27 37 47 gives 5, 1 2 3 4 5 gives 0, 1 7 17 27 37 gives 4 |
| Binning.AboveMean | src/dataEng.py:208-209 | `col > col.mean()` row by row, decided with integers, equal to the comparison with the exact mean |
| Binning.Sum | src/dataEng.py:206-208 | definition of `sum()` of a row or a column, also the numerator of `mean()`; `DataEngFacts.NSumAt`, `DataEngFacts.LSumAt` and `Binning.AboveMean` state it |
| Binning.NotAllAboveMean | src/dataEng.py:208 | some row of a non-empty column is not above its mean |
| Binning.Mean | src/dataEng.py:208 | definition of `Series.mean()` as the exact quotient of the sum by the length; `Binning.AboveMean` compares with it |
| Binning.MinMaxBounds | src/dataEng.py:214 | the cut's range `[min, max]` holds every value and both ends occur |
| Binning.Min | src/dataEng.py:214 | definition of the lower end of the range `pd.cut` divides; `Binning.MinMaxBounds` states it |
| Binning.Max | src/dataEng.py:214 | definition of the upper end of that range; `Binning.MinMaxBounds` states it |
| Binning.BinIndex | src/dataEng.py:214 | each value falls in one of the `k` intervals |
| Binning.BinIndexInInterval | src/dataEng.py:214 | the interval found is the right-closed equal-width interval that holds the value |
| Binning.IntervalsDisjoint | src/dataEng.py:214 | no value lies in two intervals |
| Binning.BinIndexUnique | src/dataEng.py:214 | any interval holding the value is the one found |
| Binning.BinIndexByDivision | src/dataEng.py:214 | for a value above the minimum, the interval is `ceil(k (x - min) / (max - min)) - 1` |
| Binning.BinIndexMonotone | src/dataEng.py:214 | a larger value never falls in an earlier interval |
| Binning.Bins | src/dataEng.py:214 | every row of a column gets an interval below `k` |
| Binning.BinAt | src/dataEng.py:214 | row `i`'s interval is the one of its value over the column's range |
| Binning.CodeAt | src/dataEng.py:213-214 | `LabelEncoder` gives row `i` the number of occupied intervals left of its own |
| Binning.Codes | src/dataEng.py:213-214 | definition of `LabelEncoder().fit_transform(pd.cut(s, k))`, one code per row; `Binning.CodeAt`, `Binning.CodesInRange` and `Binning.CodesMonotone` state the codes |
| Binning.CodesInRange | src/dataEng.py:213-214 | a code is at most the row's interval number and below `k` |
| Binning.CodesMonotone | src/dataEng.py:213-214 | a row with a value no larger never gets a larger code |
| Binning.CodesSeparateIntervals | src/dataEng.py:213-214 | rows in different intervals get different codes, in the intervals' order |
| Binning.CodesBelowOccupied | src/dataEng.py:213-214 | the codes are dense: each is below the number of occupied intervals |
| Binning.ConstantColumnCodesZero | src/dataEng.py:214 | a column of equal values is encoded as all zeros |
| Binning.AppendWithinRangeKeepsBins | quick-start.py:158-168 | appending a value inside the column's range leaves every earlier row in its interval |
| Binning.CutExamples | src/dataEng.py:214 | over `[0, 60]` in 6 intervals, 10 falls in interval 0 and 55 and 60 in interval 5 |
| DataEng.Position | src/dataEng.py:191 | the position of a present label holds that label |
| DataEng.YearDigits | src/dataEng.py:89 | definition of `c['YYYY'] - 2000`, also at line 117; `DataEngFacts.YearAt` states it |
| DataEng.NumberColumns | src/dataEng.py:191 | `loc[:, 'YYYY':'N5']` starts at `YYYY` and has only integer columns |
| DataEng.SumColumns | src/dataEng.py:206 | `loc[:, 'N1':]` of that slice has only integer columns |
| DataEng.RowOf | src/dataEng.py:191 | definition of one row of a column slice, as `apply(..., axis=1)` passes it; `QuickStart.TicketRowValues` and `DataEngFacts.StarValues` state what it holds |
| DataEng.NumberRows | src/dataEng.py:195 | `N_numbers` has one row per frame row, each holding `YYYY` |
| DataEng.SumRows | src/dataEng.py:206 | definition of the rows of `N_numbers.loc[:, 'N1':]`; `DataEngFacts.NSumAt` states their sums |
| DataEng.LuckyRows | src/dataEng.py:192 | definition of the rows of `loc[:, ['L1', 'L2']]`; `DataEngFacts.StarValues` states what each holds |
| DataEng.DateFlags | src/dataEng.py:195 | definition of the `is date` column; `FeatureEngineering.ApplyIsDate` and `DataEngFacts.DateColumns` are proved against it |
| DataEng.Post2000Flags | src/dataEng.py:196 | definition of the `is post 2000` column; `FeatureEngineering.ApplyIsPost2000` and `DataEngFacts.DateColumns` are proved against it |
| DataEng.ThisYearFlags | src/dataEng.py:197 | definition of the `is this year` column; `FeatureEngineering.ApplyIsThisYear` and `DataEngFacts.DateColumns` are proved against it |
| DataEng.PatternCounts | src/dataEng.py:199-204 | no row's count exceeds the number of pattern members |
| DataEng.RowSums | src/dataEng.py:206-207 | definition of `apply(lambda c: c.sum(), axis=1)`; `DataEngFacts.NSumAt` and `DataEngFacts.LSumAt` state the sums |
| DataEng.Positive | src/dataEng.py:201-202 | definition of `col > 0` row by row; `DataEngFacts.LuckyColumns` states the flags |
| DataEng.PlusAt | src/dataEng.py:216 | `N sum + L sum` row by row |
| DataEng.Plus | src/dataEng.py:216 | definition of `N sum + L sum` as column addition; `DataEng.PlusAt` states it row by row |
| DataEng.FeatureValues | src/dataEng.py:195-217 | definition of the 16 columns `engineer_features` assigns, in assignment order; `FeatureEngineering.FeatureColumns` is proved against it |
| DataEng.Derived | src/dataEng.py:195-217 | definition of the frame after the 16 assignments, before the drop; `DataEngFacts.EngineeredShape` and `DataEngFacts.EngineeredOrder` state its labels and cells |
| DataEng.FeaturesKept | src/dataEng.py:220 | no added feature is among the dropped labels |
| DataEng.FeaturesDistinct | src/dataEng.py:195-217 | the 16 feature labels are distinct |
| DataEng.Engineered | src/dataEng.py:180-224 | the engineered frame is well formed, keeps every row and holds every feature label |
| DataEng.CountListed | src/dataEng.py:147-150 | the counting loop returns the pattern count of the row's values |
| DataEng.FeatureEngineering.constructor | src/dataEng.py:37-38 | the engine holds the very frame object it is given |
| DataEng.FeatureEngineering.IsDate | src/dataEng.py:59-70 | the loop returns whether some main number `<= 12` is followed later by one `<= 31` |
| DataEng.FeatureEngineering.IsThisYear | src/dataEng.py:88-98 | the loop returns whether the row holds 20 and, as another main number, `YYYY - 2000` |
| DataEng.FeatureEngineering.IsPost2000 | src/dataEng.py:116-126 | the loop returns whether the row holds 20 and another main number `<= YYYY - 2000` |
| DataEng.FeatureEngineering.GetLuckyNumbers | src/dataEng.py:146-150 | the loop returns the lucky count of the row's values, at most 13 |
| DataEng.FeatureEngineering.GetAll7Numbers | src/dataEng.py:174-178 | the loop returns the sevens count of the row's values, at most 5 |
| DataEng.FeatureEngineering.ApplyIsDate | src/dataEng.py:195 | `apply(is_date, axis=1)` gives the date flag of every row |
| DataEng.FeatureEngineering.ApplyIsPost2000 | src/dataEng.py:196 | `apply(is_post_2000, axis=1)` gives the post-2000 flag of every row |
| DataEng.FeatureEngineering.ApplyIsThisYear | src/dataEng.py:197 | `apply(is_this_year, axis=1)` gives the this-year flag of every row |
| DataEng.FeatureEngineering.ApplyLucky | src/dataEng.py:199-200 | `apply(get_lucky_numbers, axis=1)` gives the lucky count of every row |
| DataEng.FeatureEngineering.ApplySevens | src/dataEng.py:204 | `apply(get_all_7_numbers, axis=1)` gives the sevens count of every row |
| DataEng.FeatureEngineering.FeatureColumns | src/dataEng.py:191-217 | the row methods compute the 16 feature columns of the specification function |
| DataEng.FeatureEngineering.EngineerFeatures | src/dataEng.py:180-224 | changes the held frame in place to the engineered frame and returns that same object |
| DataEng.FeatureEngineering.DropUnwanted | src/dataEng.py:219-222 | the drop loop changes the held frame to the frame without the listed labels |
| DataEngFacts.NSums | src/dataEng.py:206 | one `N sum` per row |
| DataEngFacts.LSums | src/dataEng.py:207 | one `L sum` per row |
| DataEngFacts.NLSums | src/dataEng.py:216 | one `NL sum` per row |
| DataEngFacts.Survives | src/dataEng.py:195-222 | each feature column reaches the engineered frame unchanged by the drop |
| DataEngFacts.EngineeredShape | src/dataEng.py:180-224 | all rows stay; a label remains exactly when it was present or added and is not dropped; untouched columns keep their cells |
| DataEngFacts.EngineeredOrder | src/dataEng.py:195-222 | over fresh labels, the columns are the undropped old ones in order, followed by the 16 features in assignment order |
| DataEngFacts.YearAt | src/dataEng.py:89 | `c['YYYY'] - 2000` of row `r` is that row's year minus 2000 |
| DataEngFacts.DateColumns | src/dataEng.py:195-197 | row `r`'s `is date`, `is post 2000` and `is this year` cells are the row rules on its main numbers and its year |
| DataEngFacts.LuckyColumns | src/dataEng.py:199-202 | row `r`'s lucky counts of the main row and of the two stars, their `has` flags, and the bounds 13 and 2 |
| DataEngFacts.StarValues | src/dataEng.py:192 | the star row holds `L1` then `L2` |
| DataEngFacts.SevensColumn | src/dataEng.py:204 | row `r`'s `7 pattern` cell is its sevens count, at most 5 |
| DataEngFacts.SumColumnsWhole | src/dataEng.py:206-216 | the three sum columns are the row sums |
| DataEngFacts.NSumAt | src/dataEng.py:206 | row `r`'s `N sum` is the sum of its `N1`..`N5` |
| DataEngFacts.LSumAt | src/dataEng.py:207 | row `r`'s `L sum` is `L1 + L2` |
| DataEngFacts.NLSumAt | src/dataEng.py:216 | `NL sum` is `N sum + L sum` |
| DataEngFacts.SumColumnsAt | src/dataEng.py:206-216 | row `r`'s three sum cells hold those sums |
| DataEngFacts.BigColumns | src/dataEng.py:208-209 | row `r`'s `big` flags compare its sums with the exact column means, and some row's `N sum big` is false |
| DataEngFacts.BinColumns | src/dataEng.py:212-217 | row `r`'s three bin cells are the ranks of its sums' intervals, below 6 and monotone in the sums |
| QuickStart.ValidateNums | quick-start.py:103-143 | each error occurs exactly when its check is the first to fail: count, then repetition, then range; acceptance exactly when all hold |
| QuickStart.ValidationIgnoresOrder | quick-start.py:85-90 | checking the sorted or the typed list gives the same verdict |
| QuickStart.AcceptedAscending | quick-start.py:85-87 | an accepted sorted list is strictly increasing |
| QuickStart.Insert | quick-start.py:85 | inserting keeps a list ascending and adds exactly the one number |
| QuickStart.Sorted | quick-start.py:85 | `sorted` returns the same numbers in ascending order |
| QuickStart.Enter | quick-start.py:85-90 | a ticket is entered exactly when the mains are 5 distinct numbers in 1..50 and the stars 2 distinct in 1..12; otherwise the error is the mains' or, if the mains pass, the stars'; an entered ticket is the typed numbers sorted and strictly increasing |
| QuickStart.TagsDistinct | quick-start.py:94 | the labels `N1`..`N5`, `L1`, `L2` are distinct and differ from `YYYY` |
| QuickStart.YearFrame | quick-start.py:95-96 | definition of `df = pd.DataFrame()` followed by `df['YYYY'] = [self.year]`; `QuickStart.FilledShape` and `QuickStart.Record` state what the record built from it holds |
| QuickStart.FilledShape | quick-start.py:95-98 | the assignments build one row with `YYYY` first and then each value under its label |
| QuickStart.Record | quick-start.py:94-100 | the record is one well-formed row labelled `YYYY, N1..N5, L1, L2`, holding the year and then the ticket's numbers in order |
| QuickStart.InputHelper.constructor | quick-start.py:45-46 | the helper keeps the given current year |
| QuickStart.InputHelper.GetUserInput | quick-start.py:72-100 | refuses exactly as the checks do and builds no frame then; otherwise it returns a new frame holding the record |
| QuickStart.InputHelper.MakeRecord | quick-start.py:94-100 | the new frame holds exactly the record of the helper's year and the ticket |
| QuickStart.Combined | quick-start.py:168 | the draws at the record's labels, then the record: well formed, one row longer |
| QuickStart.CombinedRows | quick-start.py:168 | the rows before the last are the draws, and the last is the record |
| QuickStart.CombinedInts | quick-start.py:168 | every column of the combined frame holds integers |
| QuickStart.CombinedEngineerable | quick-start.py:168-173 | the combined frame is one `engineer_features` can process |
| QuickStart.CombinedLast | quick-start.py:168 | the last row holds the year and each ticket number under its label |
| QuickStart.TicketIsLastRow | quick-start.py:168 | the last row of the combined frame is the ticket's row |
| QuickStart.TagsKept | quick-start.py:94 | the ticket's labels are neither assigned nor dropped, and `YYYY` is dropped |
| QuickStart.MainLabels | src/dataEng.py:62 | `YYYY` is not read as a main number, and `N1`..`N5` are |
| QuickStart.MainsAfterFirst | src/dataEng.py:62 | with a first label that is not a main label and only main labels after it, the main numbers are all values but the first |
| QuickStart.UserPositions | src/dataEng.py:191 | in the record's labels `YYYY`, `N1` and `N5` stand at 0, 1 and 5 |
| QuickStart.UserSlices | src/dataEng.py:191 | the slices are `YYYY, N1..N5` and `N1..N5` |
| QuickStart.YearThenMains | src/dataEng.py:149 | a year-then-mains row has values `[year] + mains` and main numbers `mains` |
| QuickStart.TicketRowValues | src/dataEng.py:191 | the ticket's row, as the row rules read it, is the year and the main numbers |
| QuickStart.TicketRowStars | src/dataEng.py:192 | the ticket's star row is its two stars |
| QuickStart.DateFlagOf | src/dataEng.py:195 | a row's `is date` cell is the date rule of its main numbers |
| QuickStart.Post2000FlagOf | src/dataEng.py:196 | a row's `is post 2000` cell is the post-2000 rule of its main numbers and year digits |
| QuickStart.ThisYearFlagOf | src/dataEng.py:197 | a row's `is this year` cell is the this-year rule of its main numbers and year digits |
| QuickStart.TicketDates | quick-start.py:172-173 | the ticket row's date flags are those of the ticket's main numbers and the current year |
| QuickStart.TicketLuck | quick-start.py:172-173 | the ticket row's lucky and sevens counts come from the year plus the main numbers, and the star count from the stars |
| QuickStart.TicketTotals | quick-start.py:172-173 | the ticket row's `N sum` and `L sum` are the sums of its main numbers and of its stars |
| QuickStart.TicketColumn | quick-start.py:172-173 | each ticket number stays in its row under its label |
| QuickStart.YearDropped | src/dataEng.py:220-222 | `YYYY` never reaches the model |
| QuickStart.CallOnEngine | quick-start.py:174 | definition of a method call on the engine as Python resolves it; `QuickStart.DropCallFails` states the outcome of the call at line 174 |
| QuickStart.DropCallFails | quick-start.py:174 | as written, `eng.drop_unwanted_values()` raises `AttributeError` |
| QuickStart.DropAgainChangesNothing | quick-start.py:174 | dropping the unwanted columns again leaves the engineered frame as it is |
| QuickStart.LastRow | quick-start.py:193 | `iloc[[-1]][model_features]` exists exactly when every feature is a label, and then holds the last row's cell for each feature, in order |
| QuickStart.ModelInput | quick-start.py:150-193 | with line 174 read as the intended second drop: the script stops exactly when the ticket is refused, with that error, and otherwise yields the last row of the engineered frame |
| QuickStart.PreparedIsTicketRow | quick-start.py:168-193 | a prepared input is the last row of the engineered draws-plus-ticket frame, and that row holds the ticket |
| QuickStart.PrepareTicket | quick-start.py:150-193 | with line 174 read as the intended second drop: reading, checking, appending, engineering in place (same object), dropping again and selecting the last row give exactly `ModelInput` |
| QuickStart.NumToWords | quick-start.py:199-204 | label 0 reads "BAD" and every other label "GOOD" |

## Left out

- Terminal I/O is outside the model. The prompts (`input`), their `split()`, the banner (`print_hello`) and the error messages are not modelled. The model receives already-split integers. `exit(1)` becomes the `Refused` result.
- Input that `int()` cannot read (a `ValueError` before `validate_nums`) is not modelled, because parsing is outside the model.
- `datetime.today()` is replaced by a year given to the `InputHelper` constructor, because the clock is outside the model.
- The pickled files are parameters. `saved-dataset.sav` is the `dataset` table and `model-lables.sav` is the `features` list. `QuickStart.DrawsReady` is the one requirement on the dataset: it must hold integer columns under the record's labels, as the script's `loc` and the row scans need.
- The classifier is not modelled: `pickle.load`, `predict_proba` and `np.argmax` are foreign code. The model ends at the row handed to the classifier, and `NumToWords` takes the predicted label as an argument.
- Floating point is replaced by exact arithmetic. `pd.cut` cuts with float edges and widens the lower edge by 0.1%; the model cuts into exact right-closed equal-width intervals over `[min, max]`. `Series.mean()` is compared exactly, not as a float.
- Integer widths are not modelled: pandas columns are `int64`, and the model's integers are unbounded. The sums of lottery numbers stay far from any bound.
- The pandas row index (the duplicated labels after `concat`) and the column dtypes are not modelled. The script reads the last row by position only.
- `DataEng.FeatureEngineering.EngineerFeatures`: pandas raises in `pd.cut` on an empty frame, and the model excludes that case by its precondition `height > 0` instead of modelling the error.
- `QuickStart.LastRow`: on a missing feature label pandas raises a `KeyError` naming the missing labels; the model returns `UnknownFeature` without the names.
- `QuickStart.ModelInput`: has no `AttributeError` outcome. It models the script with the call at quick-start.py:174 read as the intended second drop, since as written every accepted ticket stops there (see "## Findings").
- `QuickStart.ValidateNums`: the error carries the counts and bounds that the message text shows, not the text itself.
- `QuickStart.TicketTotals`: states the `N sum` and `L sum` values of the ticket's row; the cells that hold them, and the `NL sum`, follow from `DataEngFacts.SumColumnsAt` and `DataEngFacts.NLSumAt` at the last row rather than from a lemma of their own.

## Findings

| source | as written | input that shows it | evidently intended | confidence | as-written member | corrected member |
|---|---|---|---|---|---|---|
| quick-start.py:174 | calls `eng.drop_unwanted_values()`, which `FeatureEngineering` in `src/dataEng.py` does not define, so the script raises `AttributeError` before any prediction | any accepted ticket, e.g. mains `1 2 3 4 5` and stars `1 2` | re-run the drop of the unwanted columns, which `engineer_features` already performs (lines 219-222), so the call changes nothing | high (not executed) | QuickStart.DropCallFails | QuickStart.DropAgainChangesNothing |
