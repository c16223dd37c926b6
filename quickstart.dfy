/**
  The quick-start script: it reads a ticket, checks it, turns it into a
  one-row frame, appends that row to the historical draws, engineers the
  features of the whole frame and hands the last row to the model.
*/
module QuickStart {
  import opened Sequences
  import opened Frame
  import opened RowFeatures
  import opened DataEng
  import opened DataEngFacts
  import opened Binning

  // ------------------------------------------------------------------
  // validate_nums
  // ------------------------------------------------------------------

  /** Why `validate_nums` stops the script, one case per check, in the order it checks. */
  datatype InputError = WrongCount(expected: nat, received: nat) | NotUnique | OutOfRange(lo: int, hi: int)

  datatype Checked = Accepted | Rejected(error: InputError)

  /**
    `validate_nums(nums, nnums, nmin, nmax)`: first the count, then the
    uniqueness (`len(set(nums))`), then the range; the first check that fails
    decides the error, and the input is accepted when none fails.
  */
  function ValidateNums(nums: seq<int>, nnums: nat, nmin: int, nmax: int): (r: Checked)
    ensures r == Rejected(WrongCount(nnums, |nums|)) <==> |nums| != nnums
    ensures r == Rejected(NotUnique) <==> |nums| == nnums && !Distinct(nums)
    ensures r == Rejected(OutOfRange(nmin, nmax))
      <==> |nums| == nnums && Distinct(nums) && exists i :: 0 <= i < |nums| && (nums[i] < nmin || nums[i] > nmax)
    ensures r == Accepted
      <==> |nums| == nnums && Distinct(nums) && forall i :: 0 <= i < |nums| ==> nmin <= nums[i] <= nmax
  {
    DistinctIffNoShrink(nums);
    if |nums| != nnums then Rejected(WrongCount(nnums, |nums|))
    else if |Elements(nums)| != nnums then Rejected(NotUnique)
    else if exists i :: 0 <= i < |nums| && (nums[i] < nmin || nums[i] > nmax) then Rejected(OutOfRange(nmin, nmax))
    else Accepted
  }

  /** The checks only look at how many numbers there are and which: the order of the input does not matter. */
  lemma ValidationIgnoresOrder(s: seq<int>, t: seq<int>, nnums: nat, nmin: int, nmax: int)
    requires multiset(s) == multiset(t)
    ensures ValidateNums(s, nnums, nmin, nmax) == ValidateNums(t, nnums, nmin, nmax)
  {
    PermutationKeepsElements(s, t);
    DistinctIffNoShrink(s);
    DistinctIffNoShrink(t);
    var outS := exists i :: 0 <= i < |s| && (s[i] < nmin || s[i] > nmax);
    var outT := exists i :: 0 <= i < |t| && (t[i] < nmin || t[i] > nmax);
    if outS {
      var i :| 0 <= i < |s| && (s[i] < nmin || s[i] > nmax);
      assert s[i] in multiset(t);
      var j :| 0 <= j < |t| && t[j] == s[i];
    }
    if outT {
      var j :| 0 <= j < |t| && (t[j] < nmin || t[j] > nmax);
      assert t[j] in multiset(s);
      var i :| 0 <= i < |s| && s[i] == t[j];
    }
    assert outS == outT;
  }

  /** An accepted ascending list is strictly ascending: no number is repeated. */
  lemma AcceptedAscending(nums: seq<int>, nnums: nat, nmin: int, nmax: int)
    requires Ascending(nums) && ValidateNums(nums, nnums, nmin, nmax) == Accepted
    ensures StrictlyAscending(nums)
  {
    forall i, j | 0 <= i < j < |nums| ensures nums[i] < nums[j] {
      assert nums[i] <= nums[j] && nums[i] != nums[j];
    }
  }

  // ------------------------------------------------------------------
  // sorted(...)
  // ------------------------------------------------------------------

  /** Every element of `s` is at least `lo`. */
  ghost predicate AtLeast(s: seq<int>, lo: int) {
    forall k :: 0 <= k < |s| ==> lo <= s[k]
  }

  lemma AtLeastByMultiset(s: seq<int>, t: seq<int>, lo: int)
    requires AtLeast(t, lo) && multiset(s) <= multiset(t)
    ensures AtLeast(s, lo)
  {
    forall k | 0 <= k < |s| ensures lo <= s[k] {
      assert s[k] in multiset(t);
      var j :| 0 <= j < |t| && t[j] == s[k];
    }
  }

  /** `x` put in its place in the ascending `s`. */
  function Insert(x: int, s: seq<int>): (r: seq<int>)
    requires Ascending(s)
    ensures Ascending(r) && multiset(r) == multiset(s) + multiset{x}
  {
    if s == [] then [x]
    else if x <= s[0] then
      InsertFront(x, s);
      [x] + s
    else
      var rest := Insert(x, s[1..]);
      InsertBehind(x, s, rest);
      [s[0]] + rest
  }

  /** A number no larger than the head of an ascending list can go in front. */
  lemma InsertFront(x: int, s: seq<int>)
    requires Ascending(s) && s != [] && x <= s[0]
    ensures Ascending([x] + s)
  {
  }

  /** A number larger than the head goes behind it, into the rest. */
  lemma InsertBehind(x: int, s: seq<int>, rest: seq<int>)
    requires Ascending(s) && s != [] && s[0] < x
    requires Ascending(rest) && multiset(rest) == multiset(s[1..]) + multiset{x}
    ensures Ascending([s[0]] + rest) && multiset([s[0]] + rest) == multiset(s) + multiset{x}
  {
    assert s == [s[0]] + s[1..];
    assert AtLeast(s[1..] + [x], s[0]);
    assert multiset(rest) == multiset(s[1..] + [x]);
    AtLeastByMultiset(rest, s[1..] + [x], s[0]);
  }

  /** Python's `sorted` on a list of integers: the same numbers, in ascending order. */
  function Sorted(s: seq<int>): (r: seq<int>)
    ensures Ascending(r) && multiset(r) == multiset(s)
  {
    if s == [] then []
    else
      assert s == s[..|s| - 1] + [s[|s| - 1]];
      Insert(s[|s| - 1], Sorted(s[..|s| - 1]))
  }

  // ------------------------------------------------------------------
  // get_user_input
  // ------------------------------------------------------------------

  /** A checked ticket: five main numbers and two lucky stars, both sorted. */
  datatype Ticket = Ticket(mains: seq<int>, stars: seq<int>)

  datatype Entry = Refused(error: InputError) | Entered(ticket: Ticket)

  /** What a player may bet on: five distinct numbers in 1..50 and two distinct stars in 1..12. */
  ghost predicate ValidPick(nums: seq<int>, n: nat, lo: int, hi: int) {
    |nums| == n && Distinct(nums) && forall i :: 0 <= i < |nums| ==> lo <= nums[i] <= hi
  }

  /**
    The prompts of `get_user_input`: the main numbers are sorted and checked,
    and only then are the stars read, sorted and checked.
  */
  function Enter(mainsIn: seq<int>, starsIn: seq<int>): (r: Entry)
    ensures r.Entered? <==> ValidPick(mainsIn, 5, 1, 50) && ValidPick(starsIn, 2, 1, 12)
    ensures !ValidPick(mainsIn, 5, 1, 50) ==> r == Refused(ValidateNums(mainsIn, 5, 1, 50).error)
    ensures ValidPick(mainsIn, 5, 1, 50) && !ValidPick(starsIn, 2, 1, 12) ==> r == Refused(ValidateNums(starsIn, 2, 1, 12).error)
    ensures r.Entered? ==>
      && multiset(r.ticket.mains) == multiset(mainsIn) && StrictlyAscending(r.ticket.mains)
      && multiset(r.ticket.stars) == multiset(starsIn) && StrictlyAscending(r.ticket.stars)
      && ValidPick(r.ticket.mains, 5, 1, 50) && ValidPick(r.ticket.stars, 2, 1, 12)
  {
    var ns := Sorted(mainsIn);
    ValidationIgnoresOrder(ns, mainsIn, 5, 1, 50);
    match ValidateNums(ns, 5, 1, 50)
    case Rejected(e) => Refused(e)
    case Accepted =>
      AcceptedAscending(ns, 5, 1, 50);
      var ls := Sorted(starsIn);
      ValidationIgnoresOrder(ls, starsIn, 2, 1, 12);
      match ValidateNums(ls, 2, 1, 12)
      case Rejected(e) => Refused(e)
      case Accepted =>
        AcceptedAscending(ls, 2, 1, 12);
        Entered(Ticket(ns, ls))
  }

  const MAIN_2 := "N2"
  const MAIN_3 := "N3"
  const MAIN_4 := "N4"

  /** `['N1', ..., 'N5'] + ['L1', 'L2']`: the labels the ticket's numbers go under. */
  const TAGS: seq<string> := [SUM_FIRST, MAIN_2, MAIN_3, MAIN_4, NUMBERS_LAST, STAR_1, STAR_2]

  /** The columns of the frame `get_user_input` returns, in order. */
  const USER_COLUMNS: seq<string> := [NUMBERS_FIRST] + TAGS

  lemma TagsDistinct()
    ensures Distinct(TAGS) && NUMBERS_FIRST !in TAGS
    ensures Distinct(USER_COLUMNS) && |USER_COLUMNS| == 8
  {
    assert forall k :: 1 <= k < |USER_COLUMNS| ==> USER_COLUMNS[k] == TAGS[k - 1];
  }

  /** One single-cell column per value. */
  function Singletons(vals: seq<int>): (cols: seq<seq<Value>>)
    ensures |cols| == |vals|
    ensures forall k :: 0 <= k < |vals| ==> cols[k] == [Int(vals[k])]
  {
    seq(|vals|, k requires 0 <= k < |vals| => [Int(vals[k])])
  }

  /** The numbers of the ticket in the order they are zipped with the labels. */
  function Numbers(t: Ticket): seq<int> {
    t.mains + t.stars
  }

  /** `df = pd.DataFrame()` followed by `df['YYYY'] = [year]`. */
  function YearFrame(year: int): Table {
    With(Table([], map[], 0), NUMBERS_FIRST, [Int(year)])
  }

  /** The assignments of the record fill one row: the year first, then each value under its label. */
  lemma FilledShape(year: int, vals: seq<int>)
    requires |vals| == |TAGS|
    ensures var rec := WithAll(YearFrame(year), TAGS, Singletons(vals));
      && WellFormed(rec) && rec.height == 1 && rec.columns == USER_COLUMNS
      && rec.cells[NUMBERS_FIRST] == [Int(year)]
      && forall k :: 0 <= k < |TAGS| ==> rec.cells[TAGS[k]] == [Int(vals[k])]
  {
    var start := YearFrame(year);
    var cols := Singletons(vals);
    assert start.columns == [NUMBERS_FIRST];
    assert WellFormed(start);
    TagsDistinct();
    WithAllWellFormed(start, TAGS, cols);
    WithAllAppends(start, TAGS, cols);
    WithAllOthers(start, TAGS, cols, NUMBERS_FIRST);
    forall k | 0 <= k < |TAGS| ensures WithAll(start, TAGS, cols).cells[TAGS[k]] == [Int(vals[k])] {
      WithAllAssigned(start, TAGS, cols, k);
    }
  }

  /**
    The frame `get_user_input` returns: one row holding the year under
    `YYYY`, then each number of the ticket under its label, the main numbers
    under `N1` to `N5` and the stars under `L1` and `L2`, and no other column.
  */
  function Record(year: int, t: Ticket): (rec: Table)
    requires |Numbers(t)| == |TAGS|
    ensures WellFormed(rec) && rec.height == 1 && rec.columns == USER_COLUMNS
    ensures rec.cells[NUMBERS_FIRST] == [Int(year)]
    ensures forall k :: 0 <= k < |TAGS| ==> rec.cells[TAGS[k]] == [Int(Numbers(t)[k])]
  {
    FilledShape(year, Numbers(t));
    WithAll(YearFrame(year), TAGS, Singletons(Numbers(t)))
  }

  /** The script's `InputHelper`. */
  class InputHelper {
    /** `int(datetime.today().year)`; the clock is outside the model, so the year is given. */
    const year: int

    constructor(today: int)
      ensures year == today
    {
      year := today;
    }

    /**
      `get_user_input` on the two lines the player typed (already split into
      integers): a refusal where `validate_nums` would stop the script, and
      otherwise a new one-row frame holding the year and the sorted ticket.
    */
    method GetUserInput(mainsIn: seq<int>, starsIn: seq<int>) returns (entry: Entry, df: DataFrame?)
      ensures entry == Enter(mainsIn, starsIn)
      ensures entry.Refused? ==> df == null
      ensures entry.Entered? ==> df != null && fresh(df) && df.Value() == Record(year, entry.ticket)
    {
      entry := Enter(mainsIn, starsIn);
      if entry.Refused? {
        return entry, null;
      }
      df := MakeRecord(entry.ticket);
    }

    /** The frame `get_user_input` builds for a checked ticket: `YYYY`, then one column per tag. */
    method MakeRecord(t: Ticket) returns (df: DataFrame)
      requires |Numbers(t)| == |TAGS|
      ensures fresh(df) && df.Value() == Record(year, t)
    {
      var vals := Numbers(t);
      df := new DataFrame.Empty();
      df.SetColumn(NUMBERS_FIRST, [Int(year)]);
      assert df.Value() == YearFrame(year);
      df.SetColumns(TAGS, Singletons(vals));
    }
  }

  // ------------------------------------------------------------------
  // The ticket appended to the draws
  // ------------------------------------------------------------------

  /** `dataset.loc[:, user_cols]` needs every label of the record; the features need integers there. */
  ghost predicate DrawsReady(d: Table) {
    WellFormed(d) && forall c :: c in USER_COLUMNS ==> c in d.columns && IntColumn(d, c)
  }

  /** `pd.concat([dataset.loc[:, user_cols], user_input])`: the draws at the record's labels, then the record. */
  function Combined(d: Table, year: int, t: Ticket): (c: Table)
    requires DrawsReady(d) && |Numbers(t)| == |TAGS|
    ensures WellFormed(c) && c.columns == USER_COLUMNS && c.height == d.height + 1
  {
    TagsDistinct();
    Concat(Select(d, USER_COLUMNS), Record(year, t))
  }

  /** Row `r` of the combined frame is a draw before the last row, and the last row is the record. */
  lemma CombinedRows(d: Table, year: int, t: Ticket, c: string, r: nat)
    requires DrawsReady(d) && |Numbers(t)| == |TAGS|
    requires c in USER_COLUMNS && r <= d.height
    ensures Combined(d, year, t).cells[c][r] == if r < d.height then d.cells[c][r] else Record(year, t).cells[c][0]
  {
    TagsDistinct();
    ConcatRows(Select(d, USER_COLUMNS), Record(year, t), c, r);
  }

  /** In a list without repetitions, the position of the element at `k` is `k`. */
  lemma {:induction false} PositionOfDistinct(cols: seq<string>, k: nat)
    requires Distinct(cols) && k < |cols|
    ensures Position(cols, cols[k]) == k
  {
    if k > 0 {
      assert cols[0] != cols[k];
      assert cols[1..][k - 1] == cols[k];
      PositionOfDistinct(cols[1..], k - 1);
    }
  }

  /** Every label of the combined frame holds integers: the draws' cells and the record's. */
  lemma CombinedInts(d: Table, year: int, t: Ticket, c: string)
    requires DrawsReady(d) && |Numbers(t)| == |TAGS| && c in USER_COLUMNS
    ensures IntColumn(Combined(d, year, t), c)
  {
    var comb := Combined(d, year, t);
    forall r | 0 <= r < |comb.cells[c]| ensures comb.cells[c][r].Int? {
      CombinedRows(d, year, t, c, r);
      if r == d.height {
        var k :| 0 <= k < |USER_COLUMNS| && USER_COLUMNS[k] == c;
        if k > 0 {
          assert c == TAGS[k - 1];
        }
      }
    }
  }

  /** The combined frame is one that `engineer_features` accepts. */
  lemma CombinedEngineerable(d: Table, year: int, t: Ticket)
    requires DrawsReady(d) && |Numbers(t)| == |TAGS|
    ensures Engineerable(Combined(d, year, t))
  {
    var comb := Combined(d, year, t);
    TagsDistinct();
    PositionOfDistinct(USER_COLUMNS, 0);
    PositionOfDistinct(USER_COLUMNS, 1);
    PositionOfDistinct(USER_COLUMNS, 5);
    assert USER_COLUMNS[0] == NUMBERS_FIRST && USER_COLUMNS[1] == SUM_FIRST && USER_COLUMNS[5] == NUMBERS_LAST;
    assert USER_COLUMNS[6] == STAR_1 && USER_COLUMNS[7] == STAR_2;
    forall c | c in USER_COLUMNS ensures IntColumn(comb, c) {
      CombinedInts(d, year, t, c);
    }
  }

  // ------------------------------------------------------------------
  // What the engineered last row holds
  // ------------------------------------------------------------------

  /** The ticket's labels are neither assigned nor dropped by `engineer_features`; the year is dropped. */
  lemma TagsKept()
    ensures forall c :: c in TAGS ==> c !in FEATURES && c !in UNWANTED
    ensures NUMBERS_FIRST in UNWANTED
  {
    assert forall k :: 0 <= k < |TAGS| ==> |TAGS[k]| == 2;
    assert forall k :: 0 <= k < |FEATURES| ==> |FEATURES[k]| > 2;
    assert UNWANTED[3] == NUMBERS_FIRST;
  }

  /** `YYYY` is not read as a main number; `N1` to `N5` are. */
  lemma MainLabels()
    ensures !IsMainLabel(NUMBERS_FIRST)
    ensures forall k :: 0 <= k < 5 ==> IsMainLabel(TAGS[k])
  {
    assert forall k :: 0 <= k < 5 ==> TAGS[k][0] == 'N';
  }

  /** A row whose first label is not a main label and whose other labels all are: its main numbers are all values but the first. */
  lemma {:induction false} MainsAfterFirst(c: Series)
    requires |c| > 0 && !IsMainLabel(c[0].tag)
    requires forall k :: 1 <= k < |c| ==> IsMainLabel(c[k].tag)
    ensures Mains(c) == Values(c)[1..]
    decreases |c|
  {
    var init := c[..|c| - 1];
    if |c| == 1 {
      assert init == [];
    } else {
      assert init[0] == c[0];
      assert forall k :: 1 <= k < |init| ==> init[k] == c[k];
      MainsAfterFirst(init);
      assert Values(c)[1..] == Values(init)[1..] + [c[|c| - 1].value];
    }
  }

  /** Where `YYYY`, `N1` and `N5` stand in the record's labels. */
  lemma UserPositions()
    ensures Position(USER_COLUMNS, NUMBERS_FIRST) == 0
    ensures Position(USER_COLUMNS, SUM_FIRST) == 1
    ensures Position(USER_COLUMNS, NUMBERS_LAST) == 5
  {
    TagsDistinct();
    PositionOfDistinct(USER_COLUMNS, 0);
    PositionOfDistinct(USER_COLUMNS, 1);
    PositionOfDistinct(USER_COLUMNS, 5);
  }

  /** The slices `engineer_features` takes of a frame labelled like the record: `YYYY` to `N5`, and `N1` to `N5`. */
  lemma UserSlices(c: Table)
    requires Engineerable(c) && c.columns == USER_COLUMNS
    ensures |NumberColumns(c)| == 6 && forall k :: 0 <= k < 6 ==> NumberColumns(c)[k] == USER_COLUMNS[k]
    ensures |SumColumns(c)| == 5 && forall k :: 0 <= k < 5 ==> SumColumns(c)[k] == TAGS[k]
  {
    UserPositions();
    assert forall k :: 1 <= k < |USER_COLUMNS| ==> USER_COLUMNS[k] == TAGS[k - 1];
  }

  /** A row holding the year under `YYYY` and then the main numbers under `N1` to `N5`: its values and its main numbers. */
  lemma YearThenMains(row: Series, year: int, mains: seq<int>)
    requires |row| == 6 && |mains| == 5
    requires row[0] == Cell(NUMBERS_FIRST, year)
    requires forall k :: 1 <= k < 6 ==> row[k] == Cell(TAGS[k - 1], mains[k - 1])
    ensures Values(row) == [year] + mains
    ensures Mains(row) == mains
  {
    MainLabels();
    MainsAfterFirst(row);
    assert Values(row) == [year] + mains;
  }

  /**
    A row of a frame labelled like the record, holding a year and a ticket,
    as the row rules read it: the year and then the main numbers, the main
    numbers alone, and the main numbers as the sum reads them.
  */
  lemma TicketRowValues(c: Table, r: nat, year: int, t: Ticket)
    requires Engineerable(c) && c.columns == USER_COLUMNS && r < c.height
    requires |t.mains| == 5 && |t.stars| == 2
    requires c.cells[NUMBERS_FIRST][r] == Int(year)
    requires forall k :: 0 <= k < |TAGS| ==> c.cells[TAGS[k]][r] == Int(Numbers(t)[k])
    ensures Values(NumberRows(c)[r]) == [year] + t.mains
    ensures Mains(NumberRows(c)[r]) == t.mains
    ensures IntAt(c, NUMBERS_FIRST, r) == year
    ensures RowInts(c, SumColumns(c), r) == t.mains
  {
    UserSlices(c);
    var cols := NumberColumns(c);
    forall k | 1 <= k < 6
      ensures cols[k] == TAGS[k - 1] && c.cells[cols[k]][r] == Int(t.mains[k - 1])
    {
      assert cols[k] == USER_COLUMNS[k] == TAGS[k - 1];
      assert Numbers(t)[k - 1] == t.mains[k - 1];
    }
    TicketNumberRow(c, r, year, t.mains);
    YearThenMains(NumberRows(c)[r], year, t.mains);
    TicketSumRow(c, r, t);
  }

  /** The ticket's row of `loc[:, 'YYYY':'N5']`: the year under `YYYY`, then each main number under its label. */
  lemma TicketNumberRow(c: Table, r: nat, year: int, mains: seq<int>)
    requires Engineerable(c) && r < c.height && |mains| == 5
    requires var cols := NumberColumns(c);
      && |cols| == 6 && c.cells[cols[0]][r] == Int(year)
      && forall k :: 1 <= k < 6 ==> cols[k] == TAGS[k - 1] && c.cells[cols[k]][r] == Int(mains[k - 1])
    ensures var row := NumberRows(c)[r];
      && |row| == 6 && row[0] == Cell(NUMBERS_FIRST, year)
      && forall k :: 1 <= k < 6 ==> row[k] == Cell(TAGS[k - 1], mains[k - 1])
  {
    RowShape(c, NumberColumns(c), r, year, mains);
  }

  /** A row of `YYYY` and five main labels, read from cells holding a year and five numbers. */
  lemma RowShape(c: Table, cols: seq<string>, r: nat, year: int, mains: seq<int>)
    requires WellFormed(c) && r < c.height && |cols| == 6 && |mains| == 5
    requires forall k :: 0 <= k < 6 ==> cols[k] in c.cells && IntColumn(c, cols[k])
    requires cols[0] == NUMBERS_FIRST && c.cells[cols[0]][r] == Int(year)
    requires forall k :: 1 <= k < 6 ==> cols[k] == TAGS[k - 1] && c.cells[cols[k]][r] == Int(mains[k - 1])
    ensures var row := RowOf(c, cols, r);
      && |row| == 6 && row[0] == Cell(NUMBERS_FIRST, year)
      && forall k :: 1 <= k < 6 ==> row[k] == Cell(TAGS[k - 1], mains[k - 1])
  {
  }

  /** The ticket's row of `loc[:, 'N1':]`, as integers: the main numbers. */
  lemma TicketSumRow(c: Table, r: nat, t: Ticket)
    requires Engineerable(c) && c.columns == USER_COLUMNS && r < c.height
    requires |t.mains| == 5 && |t.stars| == 2
    requires forall k :: 0 <= k < |TAGS| ==> c.cells[TAGS[k]][r] == Int(Numbers(t)[k])
    ensures RowInts(c, SumColumns(c), r) == t.mains
  {
    UserSlices(c);
    var cols := SumColumns(c);
    forall k | 0 <= k < 5
      ensures IntAt(c, cols[k], r) == t.mains[k]
    {
      assert cols[k] == TAGS[k];
      assert Numbers(t)[k] == t.mains[k];
    }
  }

  /** The same row, at the stars. */
  lemma TicketRowStars(c: Table, r: nat, t: Ticket)
    requires WellFormed(c) && c.columns == USER_COLUMNS && r < c.height
    requires IntColumn(c, STAR_1) && IntColumn(c, STAR_2)
    requires |t.mains| == 5 && |t.stars| == 2
    requires forall k :: 0 <= k < |TAGS| ==> c.cells[TAGS[k]][r] == Int(Numbers(t)[k])
    ensures [IntAt(c, STAR_1, r), IntAt(c, STAR_2, r)] == t.stars
  {
    assert TAGS[5] == STAR_1 && TAGS[6] == STAR_2;
    assert Numbers(t)[5] == t.stars[0] && Numbers(t)[6] == t.stars[1];
  }

  /** The last row of the combined frame is the record's row. */
  lemma CombinedLast(d: Table, year: int, t: Ticket)
    requires DrawsReady(d) && |Numbers(t)| == |TAGS|
    ensures Combined(d, year, t).cells[NUMBERS_FIRST][d.height] == Int(year)
    ensures forall k :: 0 <= k < |TAGS| ==> Combined(d, year, t).cells[TAGS[k]][d.height] == Int(Numbers(t)[k])
  {
    TagsDistinct();
    CombinedRows(d, year, t, NUMBERS_FIRST, d.height);
    forall k | 0 <= k < |TAGS| ensures Combined(d, year, t).cells[TAGS[k]][d.height] == Int(Numbers(t)[k]) {
      CombinedRows(d, year, t, TAGS[k], d.height);
    }
  }

  /** Row `r` of `c`, a frame labelled like the record, holds the year and the ticket. */
  ghost predicate HoldsTicket(c: Table, r: nat, year: int, t: Ticket) {
    && WellFormed(c) && Engineerable(c) && c.columns == USER_COLUMNS && r < c.height
    && |t.mains| == 5 && |t.stars| == 2
    && NUMBERS_FIRST in c.cells && c.cells[NUMBERS_FIRST][r] == Int(year)
    && forall k :: 0 <= k < |TAGS| ==> TAGS[k] in c.cells && c.cells[TAGS[k]][r] == Int(Numbers(t)[k])
  }

  /** The `is date` flag of row `r`, from its main numbers. */
  lemma DateFlagOf(c: Table, r: nat, mains: seq<int>)
    requires Engineerable(c) && r < c.height
    requires Mains(NumberRows(c)[r]) == mains
    ensures Engineered(c).cells[IS_DATE][r] == Bool(DateLike(mains))
  {
    DateColumns(c, r);
  }

  /** The `is post 2000` flag of row `r`, from its main numbers and the last two digits of its year. */
  lemma Post2000FlagOf(c: Table, r: nat, mains: seq<int>, digits: int)
    requires Engineerable(c) && r < c.height
    requires Mains(NumberRows(c)[r]) == mains && IntAt(c, NUMBERS_FIRST, r) - 2000 == digits
    ensures Engineered(c).cells[IS_POST_2000][r] == Bool(Post2000(mains, digits))
  {
    DateColumns(c, r);
  }

  /** The `is this year` flag of row `r`, from its main numbers and the last two digits of its year. */
  lemma ThisYearFlagOf(c: Table, r: nat, mains: seq<int>, digits: int)
    requires Engineerable(c) && r < c.height
    requires Mains(NumberRows(c)[r]) == mains && IntAt(c, NUMBERS_FIRST, r) - 2000 == digits
    ensures Engineered(c).cells[IS_THIS_YEAR][r] == Bool(ThisYear(mains, digits))
  {
    DateColumns(c, r);
  }

  /** The date flags of a ticket's row are those of its main numbers and the year's last two digits. */
  lemma TicketDates(c: Table, r: nat, year: int, t: Ticket)
    requires HoldsTicket(c, r, year, t)
    ensures Engineered(c).cells[IS_DATE][r] == Bool(DateLike(t.mains))
    ensures Engineered(c).cells[IS_POST_2000][r] == Bool(Post2000(t.mains, year - 2000))
    ensures Engineered(c).cells[IS_THIS_YEAR][r] == Bool(ThisYear(t.mains, year - 2000))
  {
    TicketRowValues(c, r, year, t);
    DateFlagOf(c, r, t.mains);
    Post2000FlagOf(c, r, t.mains, year - 2000);
    ThisYearFlagOf(c, r, t.mains, year - 2000);
  }

  /** The lucky counts of a ticket's row: the year and main numbers for one, the stars for the other. */
  lemma TicketLuck(c: Table, r: nat, year: int, t: Ticket)
    requires HoldsTicket(c, r, year, t)
    ensures var e, lucky, luckyLucky := Engineered(c), CountPresent(LUCKY_NUMBERS, [year] + t.mains), CountPresent(LUCKY_NUMBERS, t.stars);
      && e.cells[LUCKY][r] == Int(lucky) && e.cells[HAS_LUCKY][r] == Bool(lucky > 0)
      && e.cells[LUCKY_LUCKY][r] == Int(luckyLucky) && e.cells[HAS_LUCKY_LUCKY][r] == Bool(luckyLucky > 0)
      && e.cells[SEVENS][r] == Int(CountPresent(SEVENS_PATTERN, [year] + t.mains))
  {
    TicketRowValues(c, r, year, t);
    TicketRowStars(c, r, t);
    LuckyColumns(c, r);
    SevensColumn(c, r);
  }

  /** The sums `engineer_features` computes for a ticket's row: its five main numbers, and its two stars. */
  lemma TicketTotals(c: Table, r: nat, year: int, t: Ticket)
    requires HoldsTicket(c, r, year, t)
    ensures NSums(c)[r] == Sum(t.mains)
    ensures LSums(c)[r] == t.stars[0] + t.stars[1]
  {
    TicketRowValues(c, r, year, t);
    TicketRowStars(c, r, t);
    NSumAt(c, r);
    LSumAt(c, r);
  }

  /** Each number of a ticket stays in its row under its label. */
  lemma TicketColumn(c: Table, r: nat, year: int, t: Ticket, k: nat)
    requires HoldsTicket(c, r, year, t) && k < |TAGS|
    ensures TAGS[k] in Engineered(c).cells
    ensures Engineered(c).cells[TAGS[k]][r] == Int(Numbers(t)[k])
  {
    EngineeredShape(c);
    TagsKept();
    assert TAGS[k] in c.columns;
  }

  /** The year is one of the dropped columns: the model never sees it. */
  lemma YearDropped(c: Table)
    requires Engineerable(c)
    ensures NUMBERS_FIRST !in Engineered(c).columns
  {
    EngineeredShape(c);
    TagsKept();
  }

  /** The last row of the combined frame holds the year and the ticket. */
  lemma TicketIsLastRow(d: Table, year: int, t: Ticket)
    requires DrawsReady(d) && |t.mains| == 5 && |t.stars| == 2
    ensures Combined(d, year, t).height - 1 == d.height
    ensures HoldsTicket(Combined(d, year, t), d.height, year, t)
  {
    CombinedEngineerable(d, year, t);
    CombinedLast(d, year, t);
  }

  // ------------------------------------------------------------------
  // The call after engineer_features, and the row handed to the model
  // ------------------------------------------------------------------

  /** The methods the `FeatureEngineering` class defines, by name. */
  const ENGINE_METHODS: seq<string> := ["is_date", "is_this_year", "is_post_2000", "get_lucky_numbers", "get_all_7_numbers", "engineer_features"]

  /** The method the script calls on the engine right after `engineer_features`. */
  const DROP_CALL := "drop_unwanted_values"

  datatype Call = Called | AttributeError(name: string)

  /** A method call on the engine as Python resolves it: an `AttributeError` when the class defines no such method. */
  function CallOnEngine(name: string): Call
  {
    if name in ENGINE_METHODS then Called else AttributeError(name)
  }

  /** As written, the call after `engineer_features` names no method of the class, so the script stops there. */
  lemma DropCallFails()
    ensures CallOnEngine(DROP_CALL) == AttributeError(DROP_CALL)
  {
    assert forall k :: 0 <= k < |ENGINE_METHODS| ==> |ENGINE_METHODS[k]| != |DROP_CALL|;
  }

  /**
    The call is evidently meant to drop the unwanted columns, which
    `engineer_features` has already done: running that drop once more
    leaves the engineered frame as it is.
  */
  lemma DropAgainChangesNothing(t: Table)
    requires Engineerable(t)
    ensures DropAll(Engineered(t), UNWANTED) == Engineered(t)
  {
    DropAllIdempotent(Derived(t), UNWANTED);
  }

  /** What reaches `predict_proba`, or why nothing does. */
  datatype Evaluation = Stopped(error: InputError) | UnknownFeature | Prepared(row: seq<Value>)

  /**
    `frame.iloc[[-1]][model_features]`: the last row, at the model's features
    in the model's order; pandas raises a `KeyError` for a label the frame lacks.
  */
  function LastRow(e: Table, features: seq<string>): (r: Evaluation)
    requires WellFormed(e) && e.height > 0
    ensures r.Prepared? <==> forall k :: 0 <= k < |features| ==> features[k] in e.columns
    ensures r.Prepared? ==>
      && |r.row| == |features|
      && forall k :: 0 <= k < |features| ==> r.row[k] == e.cells[features[k]][e.height - 1]
    ensures !r.Stopped?
  {
    if forall k :: 0 <= k < |features| ==> features[k] in e.columns then
      Prepared(seq(|features|, k requires 0 <= k < |features| && features[k] in e.cells => e.cells[features[k]][e.height - 1]))
    else UnknownFeature
  }

  /**
    The model input the script prepares for a ticket: the refusal of the
    input checks, or the last row of the engineered draws-plus-ticket frame.
  */
  function ModelInput(year: int, mainsIn: seq<int>, starsIn: seq<int>, d: Table, features: seq<string>): (r: Evaluation)
    requires DrawsReady(d)
    ensures r.Stopped? <==> Enter(mainsIn, starsIn).Refused?
    ensures r.Stopped? ==> r.error == Enter(mainsIn, starsIn).error
  {
    match Enter(mainsIn, starsIn)
    case Refused(e) => Stopped(e)
    case Entered(t) =>
      CombinedEngineerable(d, year, t);
      LastRow(Engineered(Combined(d, year, t)), features)
  }

  /**
    A prepared model input is the last row of the engineered frame built
    from the accepted ticket, and that row holds the year and the ticket, so
    the row lemmas above say what each of its features is.
  */
  lemma PreparedIsTicketRow(year: int, mainsIn: seq<int>, starsIn: seq<int>, d: Table, features: seq<string>)
    requires DrawsReady(d) && ModelInput(year, mainsIn, starsIn, d, features).Prepared?
    ensures Enter(mainsIn, starsIn).Entered?
    ensures var t := Enter(mainsIn, starsIn).ticket;
      && HoldsTicket(Combined(d, year, t), d.height, year, t)
      && ModelInput(year, mainsIn, starsIn, d, features) == LastRow(Engineered(Combined(d, year, t)), features)
      && Engineered(Combined(d, year, t)).height - 1 == d.height
  {
    var t := Enter(mainsIn, starsIn).ticket;
    TicketIsLastRow(d, year, t);
  }

  /**
    The script from the prompts to `formated_input`: the record is appended
    to the draws, the engine adds the features to that frame in place, the
    unwanted columns are dropped once more, and the last row of the same
    frame object is read at the model's features.
  */
  method PrepareTicket(helper: InputHelper, mainsIn: seq<int>, starsIn: seq<int>, dataset: Table, features: seq<string>)
    returns (r: Evaluation)
    requires DrawsReady(dataset)
    ensures r == ModelInput(helper.year, mainsIn, starsIn, dataset, features)
  {
    var entry, user := helper.GetUserInput(mainsIn, starsIn);
    if entry.Refused? {
      return Stopped(entry.error);
    }
    var t := entry.ticket;
    TagsDistinct();
    var userCols := user.columns;
    var combined := new DataFrame.Of(Concat(Select(dataset, userCols), user.Value()));
    assert combined.Value() == Combined(dataset, helper.year, t);
    CombinedEngineerable(dataset, helper.year, t);
    var eng := new FeatureEngineering(combined);
    var engineered := eng.EngineerFeatures();
    eng.DropUnwanted();
    DropAgainChangesNothing(Combined(dataset, helper.year, t));
    r := LastRow(combined.Value(), features);
  }

  /** `num_to_words`: label 0 reads as a bad bet, any other label as a good one. */
  function NumToWords(index: int): (w: string)
    ensures w == "BAD" <==> index == 0
    ensures w == "GOOD" <==> index != 0
  {
    if index == 0 then "BAD" else "GOOD"
  }
}
