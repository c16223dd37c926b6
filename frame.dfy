/**
  The part of a pandas DataFrame that the feature engineering relies on: an
  ordered list of distinct column labels, one sequence of cells per label, and a
  common height (the number of rows). `Table` is the value of a frame;
  `DataFrame` is the mutable object that `FeatureEngineering` holds and that
  the quick-start script keeps referring to after the columns have been added.
*/
module Frame {
  import opened Sequences

  /** A cell: the tables here hold integers, booleans and text (month names). */
  datatype Value = Int(i: int) | Bool(b: bool) | Text(s: string)

  datatype Table = Table(columns: seq<string>, cells: map<string, seq<Value>>, height: nat)

  /** Labels are distinct, every label has a column, and every column has `height` cells. */
  ghost predicate WellFormed(t: Table) {
    && Distinct(t.columns)
    && (forall c :: c in t.cells <==> c in t.columns)
    && (forall c :: c in t.cells ==> |t.cells[c]| == t.height)
  }

  /** Column `c` exists and holds only integers. */
  ghost predicate IntColumn(t: Table, c: string) {
    c in t.cells && forall r :: 0 <= r < |t.cells[c]| ==> t.cells[c][r].Int?
  }

  /** The integer in row `r` of the integer column `c`. */
  function IntAt(t: Table, c: string, r: nat): int
    requires WellFormed(t) && r < t.height && IntColumn(t, c)
  {
    t.cells[c][r].i
  }

  /**
    `df[name] = vals`: replaces the column `name` where it exists and appends it
    as the last column otherwise. The frame takes its height from the new column.
  */
  function With(t: Table, name: string, vals: seq<Value>): Table {
    Table(AddLabel(t.columns, name), t.cells[name := vals], |vals|)
  }

  /** The column labels after assigning `name`: unchanged if present, `name` appended otherwise. */
  function AddLabel(cols: seq<string>, name: string): (r: seq<string>)
    ensures forall c :: c in r <==> c in cols || c == name
    ensures Distinct(cols) ==> Distinct(r)
  {
    if name in cols then cols
    else
      assert forall i :: 0 <= i < |cols| ==> (cols + [name])[i] == cols[i];
      cols + [name]
  }

  /**
    Assigning a column of the frame's height keeps the frame well formed; so
    does the first assignment to a frame without columns and rows.
  */
  lemma WithWellFormed(t: Table, name: string, vals: seq<Value>)
    requires WellFormed(t)
    requires |vals| == t.height || (t.columns == [] && t.height == 0)
    ensures WellFormed(With(t, name, vals))
    ensures name in With(t, name, vals).columns
    ensures forall c :: c in t.columns ==> c in With(t, name, vals).columns
  {
  }

  /** `df.drop(columns=[name])`: every column labelled `name` goes, all rows stay. */
  function Without(t: Table, name: string): (r: Table)
    requires WellFormed(t)
    ensures WellFormed(r) && r.height == t.height
    ensures r.columns == FilterOut(t.columns, [name])
    ensures r.cells == t.cells - {name}
  {
    Table(FilterOut(t.columns, [name]), t.cells - {name}, t.height)
  }

  /**
    The frame after `for col in names: if col in df.columns: df.drop(columns=[col])`:
    the listed labels are gone, the other columns keep their order and their
    cells, and every row stays.
  */
  function DropAll(t: Table, names: seq<string>): (r: Table)
    requires WellFormed(t)
    ensures WellFormed(r) && r.height == t.height
    ensures forall c :: c in r.columns <==> c in t.columns && c !in names
    ensures forall c :: c in r.cells ==> r.cells[c] == t.cells[c]
  {
    Table(FilterOut(t.columns, names), map c | c in t.cells && c !in names :: t.cells[c], t.height)
  }

  /**
    One more turn of the drop loop: dropping `name` after `names` is dropping
    it from the frame left by `names` when it is still there, and changes
    nothing otherwise.
  */
  lemma DropAllStep(t: Table, names: seq<string>, name: string)
    requires WellFormed(t)
    ensures DropAll(t, names + [name])
      == if name in DropAll(t, names).columns then Without(DropAll(t, names), name) else DropAll(t, names)
  {
    var prev := DropAll(t, names);
    DropAllStepColumns(t, names, name);
    DropAllStepCells(t, names, name);
    if name !in prev.columns {
      FilterOutAbsent(prev.columns, [name]);
    }
  }

  lemma DropAllStepColumns(t: Table, names: seq<string>, name: string)
    requires WellFormed(t)
    ensures DropAll(t, names + [name]).columns == FilterOut(DropAll(t, names).columns, [name])
  {
    FilterOutTwice(t.columns, names, [name]);
  }

  lemma DropAllStepCells(t: Table, names: seq<string>, name: string)
    requires WellFormed(t)
    ensures DropAll(t, names + [name]).cells == DropAll(t, names).cells - {name}
  {
  }

  /** Running the drop loop a second time changes nothing. */
  lemma DropAllIdempotent(t: Table, names: seq<string>)
    requires WellFormed(t)
    ensures DropAll(DropAll(t, names), names) == DropAll(t, names)
  {
    var once := DropAll(t, names);
    FilterOutAbsent(once.columns, names);
  }

  /** `df.loc[:, cols]`: the listed columns, in the listed order, all rows. */
  function Select(t: Table, cols: seq<string>): (r: Table)
    requires WellFormed(t) && Distinct(cols)
    requires forall c :: c in cols ==> c in t.columns
    ensures WellFormed(r) && r.height == t.height && r.columns == cols
    ensures forall c :: c in cols ==> r.cells[c] == t.cells[c]
  {
    Table(cols, map c | c in cols :: t.cells[c], t.height)
  }

  /** `pd.concat([a, b])` of two frames with the same columns: the rows of `a`, then those of `b`. */
  function Concat(a: Table, b: Table): (r: Table)
    requires WellFormed(a) && WellFormed(b) && a.columns == b.columns
    ensures WellFormed(r) && r.columns == a.columns && r.height == a.height + b.height
    ensures forall c :: c in r.cells ==> r.cells[c] == a.cells[c] + b.cells[c]
  {
    Table(a.columns, map c | c in a.columns :: a.cells[c] + b.cells[c], a.height + b.height)
  }

  /** Row `r` of the new frame is row `r` of `a` when `r` is before the end of `a`, and row `r - |a|` of `b` otherwise. */
  lemma ConcatRows(a: Table, b: Table, c: string, r: nat)
    requires WellFormed(a) && WellFormed(b) && a.columns == b.columns
    requires c in a.columns && r < a.height + b.height
    ensures Concat(a, b).cells[c][r] == if r < a.height then a.cells[c][r] else b.cells[c][r - a.height]
  {
  }

  /** The assignments `df[names[0]] = cols[0]`, `df[names[1]] = cols[1]`, ..., in that order. */
  function WithAll(t: Table, names: seq<string>, cols: seq<seq<Value>>): Table
    requires |names| == |cols|
    decreases |cols|
  {
    if names == [] then t
    else With(WithAll(t, names[..|names| - 1], cols[..|cols| - 1]), names[|names| - 1], cols[|cols| - 1])
  }

  /** One more assignment of an assignment loop. */
  lemma WithAllStep(t: Table, names: seq<string>, cols: seq<seq<Value>>, k: nat)
    requires |names| == |cols| && k < |names|
    ensures WithAll(t, names[..k + 1], cols[..k + 1]) == With(WithAll(t, names[..k], cols[..k]), names[k], cols[k])
  {
    assert names[..k + 1][..k] == names[..k];
    assert cols[..k + 1][..k] == cols[..k];
  }

  /** Assigning columns of the frame's height keeps it well formed and keeps its height. */
  lemma {:induction false} WithAllWellFormed(t: Table, names: seq<string>, cols: seq<seq<Value>>)
    requires WellFormed(t) && |names| == |cols|
    requires forall i :: 0 <= i < |cols| ==> |cols[i]| == t.height
    ensures WellFormed(WithAll(t, names, cols)) && WithAll(t, names, cols).height == t.height
    decreases |names|
  {
    if names != [] {
      var init, last := names[..|names| - 1], names[|names| - 1];
      var front, col := cols[..|cols| - 1], cols[|cols| - 1];
      var prev := WithAll(t, init, front);
      assert WithAll(t, names, cols) == With(prev, last, col);
      WithAllWellFormed(t, init, front);
      WithWellFormed(prev, last, col);
    }
  }

  /** Afterwards the frame has exactly the labels it had and the assigned ones. */
  lemma {:induction false} WithAllLabels(t: Table, names: seq<string>, cols: seq<seq<Value>>)
    requires |names| == |cols|
    ensures forall c :: c in WithAll(t, names, cols).cells <==> c in t.cells || c in names
    decreases |names|
  {
    if names != [] {
      var init, last := names[..|names| - 1], names[|names| - 1];
      var front, col := cols[..|cols| - 1], cols[|cols| - 1];
      assert WithAll(t, names, cols).cells == WithAll(t, init, front).cells[last := col];
      WithAllLabels(t, init, front);
      assert names == init + [last];
    }
  }

  /** With distinct labels, each assigned label holds the column assigned to it. */
  lemma {:induction false} WithAllAssigned(t: Table, names: seq<string>, cols: seq<seq<Value>>, i: nat)
    requires |names| == |cols| && Distinct(names) && i < |names|
    ensures names[i] in WithAll(t, names, cols).cells
    ensures WithAll(t, names, cols).cells[names[i]] == cols[i]
    decreases |names|
  {
    if i < |names| - 1 {
      var init, front := names[..|names| - 1], cols[..|cols| - 1];
      assert init[i] == names[i] != names[|names| - 1];
      WithAllAssigned(t, init, front, i);
    }
  }

  /** A label that is not assigned keeps its column. */
  lemma {:induction false} WithAllOthers(t: Table, names: seq<string>, cols: seq<seq<Value>>, c: string)
    requires |names| == |cols| && c in t.cells && c !in names
    ensures c in WithAll(t, names, cols).cells
    ensures WithAll(t, names, cols).cells[c] == t.cells[c]
    decreases |names|
  {
    if names != [] {
      var init, front := names[..|names| - 1], cols[..|cols| - 1];
      assert c !in init;
      WithAllOthers(t, init, front, c);
    }
  }

  /** Labels the frame does not have yet are appended after its columns, in the order they are assigned. */
  lemma {:induction false} WithAllAppends(t: Table, names: seq<string>, cols: seq<seq<Value>>)
    requires |names| == |cols| && Distinct(names)
    requires forall c :: c in names ==> c !in t.columns
    ensures WithAll(t, names, cols).columns == t.columns + names
    decreases |names|
  {
    if names != [] {
      var init, last := names[..|names| - 1], names[|names| - 1];
      var front := cols[..|cols| - 1];
      assert forall i :: 0 <= i < |init| ==> init[i] == names[i] && init[i] != last;
      WithAllAppends(t, init, front);
      assert last !in t.columns + init;
      assert names == init + [last];
    }
  }

  /** The mutable frame object. */
  class DataFrame {
    var columns: seq<string>
    var cells: map<string, seq<Value>>
    var height: nat

    function Value(): Table
      reads this
    {
      Table(columns, cells, height)
    }

    /** `pd.DataFrame()`: no columns, no rows. */
    constructor Empty()
      ensures Value() == Table([], map[], 0)
    {
      columns, cells, height := [], map[], 0;
    }

    /** A new frame object holding the table `t` (the result of `pd.concat`, say). */
    constructor Of(t: Table)
      ensures Value() == t
    {
      columns, cells, height := t.columns, t.cells, t.height;
    }

    /** `for name, col in zip(names, cols): df[name] = col`, in that order. */
    method SetColumns(names: seq<string>, cols: seq<seq<Value>>)
      requires WellFormed(Value()) && |names| == |cols|
      requires forall i :: 0 <= i < |cols| ==> |cols[i]| == height
      modifies this
      ensures Value() == WithAll(old(Value()), names, cols)
    {
      ghost var t := Value();
      for k := 0 to |names|
        invariant WellFormed(Value()) && height == t.height
        invariant Value() == WithAll(t, names[..k], cols[..k])
      {
        WithAllStep(t, names, cols, k);
        SetColumn(names[k], cols[k]);
      }
      assert names[..|names|] == names && cols[..|cols|] == cols;
    }

    /** `df[name] = vals`. */
    method SetColumn(name: string, vals: seq<Value>)
      requires WellFormed(Value())
      requires |vals| == height || (columns == [] && height == 0)
      modifies this
      ensures Value() == With(old(Value()), name, vals)
      ensures WellFormed(Value())
    {
      WithWellFormed(Value(), name, vals);
      if name !in columns {
        columns := columns + [name];
      }
      cells := cells[name := vals];
      height := |vals|;
    }

    /** `df.drop(columns=[name], inplace=True)`; pandas raises when the label is absent. */
    method DropColumn(name: string)
      requires WellFormed(Value()) && name in columns
      modifies this
      ensures Value() == Without(old(Value()), name)
    {
      columns := FilterOut(columns, [name]);
      cells := cells - {name};
    }
  }
}
