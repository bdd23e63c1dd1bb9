/** The part of a pandas `DataFrame` the result parser relies on: named columns,
    rows of cells, setting a column to a constant (`df[name] = value`), and
    row-wise concatenation of frames with the same columns. */
module Frame {
  import opened Wrappers
  import opened Seqs

  /** A cell: parsed text, an integer the aggregator attaches, or NaN. */
  datatype Value = Str(s: string) | Int(i: int) | Missing

  datatype Table = Table(columns: seq<string>, rows: seq<seq<Value>>)

  /** Column names are distinct and every row has one cell per column. */
  predicate WellFormed(t: Table)
  {
    && (forall i, j :: 0 <= i < j < |t.columns| ==> t.columns[i] != t.columns[j])
    && (forall k :: 0 <= k < |t.rows| ==> |t.rows[k]| == |t.columns|)
  }

  type DataFrame = t: Table | WellFormed(t) witness Table([], [])

  /** The cell of row `k` in the column called `name`, if there is one. */
  function Cell(t: DataFrame, k: nat, name: string): Option<Value>
    requires k < |t.rows|
  {
    match IndexOf(t.columns, name)
    case Some(j) => Some(t.rows[k][j])
    case None => None
  }

  lemma IndexOfDistinct(cols: seq<string>, j: nat)
    requires forall a, b :: 0 <= a < b < |cols| ==> cols[a] != cols[b]
    requires j < |cols|
    ensures IndexOf(cols, cols[j]) == Some(j)
  {
    assert cols[j] in cols;
  }

  lemma IndexOfAppendOther(cols: seq<string>, name: string, c: string)
    requires c != name
    ensures IndexOf(cols + [name], c) == IndexOf(cols, c)
  {
    var r := IndexOf(cols + [name], c);
    var q := IndexOf(cols, c);
    if r.Some? {
      assert r.value < |cols|;
      assert (cols + [name])[..r.value] == cols[..r.value];
    }
    if q.Some? {
      assert (cols + [name])[..q.value] == cols[..q.value];
    }
  }

  /** Every row with its cell `j` replaced by `v`. */
  function OverwriteColumn(t: DataFrame, j: nat, v: Value): (r: DataFrame)
    requires j < |t.columns|
    ensures r.columns == t.columns && |r.rows| == |t.rows|
    ensures forall k :: 0 <= k < |r.rows| ==> r.rows[k] == t.rows[k][j := v]
  {
    Table(t.columns, seq(|t.rows|, k requires 0 <= k < |t.rows| => t.rows[k][j := v]))
  }

  /** A new last column `name` holding `v` on every row. */
  function AppendColumn(t: DataFrame, name: string, v: Value): (r: DataFrame)
    requires name !in t.columns
    ensures r.columns == t.columns + [name] && |r.rows| == |t.rows|
    ensures forall k :: 0 <= k < |r.rows| ==> r.rows[k] == t.rows[k] + [v]
  {
    var r := Table(t.columns + [name], seq(|t.rows|, k requires 0 <= k < |t.rows| => t.rows[k] + [v]));
    assert WellFormed(r);
    r
  }

  /** Overwriting the column found at `j` sets its cells and keeps the others. */
  lemma OverwriteCells(t: DataFrame, name: string, j: nat, v: Value)
    requires IndexOf(t.columns, name) == Some(j)
    ensures var r := OverwriteColumn(t, j, v);
            && (forall k :: 0 <= k < |r.rows| ==> Cell(r, k, name) == Some(v))
            && (forall k, c :: 0 <= k < |r.rows| && c != name ==> Cell(r, k, c) == Cell(t, k, c))
  {
    var r := OverwriteColumn(t, j, v);
    forall k, c | 0 <= k < |r.rows| && c != name
      ensures Cell(r, k, c) == Cell(t, k, c)
    {
      var q := IndexOf(t.columns, c);
      if q.Some? { assert q.value != j; }
    }
  }

  /** Appending a new column sets its cells and keeps the others. */
  lemma AppendCells(t: DataFrame, name: string, v: Value)
    requires name !in t.columns
    ensures var r := AppendColumn(t, name, v);
            && (forall k :: 0 <= k < |r.rows| ==> Cell(r, k, name) == Some(v))
            && (forall k, c :: 0 <= k < |r.rows| && c != name ==> Cell(r, k, c) == Cell(t, k, c))
  {
    var r := AppendColumn(t, name, v);
    IndexOfDistinct(r.columns, |t.columns|);
    forall k, c | 0 <= k < |r.rows| && c != name
      ensures Cell(r, k, c) == Cell(t, k, c)
    {
      IndexOfAppendOther(t.columns, name, c);
    }
  }

  /** `df[name] = value`: every row gets `value` in column `name`, which is
      appended when it is new; the row count and every other cell stay the same. */
  function SetColumn(t: DataFrame, name: string, v: Value): (r: DataFrame)
    ensures |r.rows| == |t.rows|
    ensures name in t.columns ==> r.columns == t.columns
    ensures name !in t.columns ==> r.columns == t.columns + [name]
    ensures forall k :: 0 <= k < |r.rows| ==> Cell(r, k, name) == Some(v)
    ensures forall k, c :: 0 <= k < |r.rows| && c != name ==> Cell(r, k, c) == Cell(t, k, c)
  {
    match IndexOf(t.columns, name)
    case Some(j) =>
      OverwriteCells(t, name, j, v);
      OverwriteColumn(t, j, v)
    case None =>
      AppendCells(t, name, v);
      AppendColumn(t, name, v)
  }

  /** The column list after setting each of `names` in turn. */
  function ExtendColumns(cols: seq<string>, names: seq<string>): seq<string>
    decreases |names|
  {
    if |names| == 0 then cols
    else ExtendColumns(if names[0] in cols then cols else cols + [names[0]], names[1..])
  }

  function Keys<V>(d: Dict<V>): (ks: seq<string>)
    ensures |ks| == |d|
    ensures forall i :: 0 <= i < |d| ==> ks[i] == d[i].0
  {
    if |d| == 0 then [] else [d[0].0] + Keys(d[1..])
  }

  /** `add_extra_cols`: each listed column set to its constant on every row, in
      dictionary order, overwriting a column of the same name; the row count and
      every unlisted column stay the same. */
  function AddExtraCols(t: DataFrame, extras: Dict<Value>): (r: DataFrame)
    ensures |r.rows| == |t.rows|
    ensures r.columns == ExtendColumns(t.columns, Keys(extras))
    ensures forall k, e :: 0 <= k < |r.rows| && 0 <= e < |extras| ==> Cell(r, k, extras[e].0) == Some(extras[e].1)
    ensures forall k, c :: 0 <= k < |r.rows| && c !in Keys(extras) ==> Cell(r, k, c) == Cell(t, k, c)
    decreases |extras|
  {
    if |extras| == 0 then t
    else
      var t1 := SetColumn(t, extras[0].0, extras[0].1);
      var rest: Dict<Value> := extras[1..];
      var r := AddExtraCols(t1, rest);
      assert Keys(extras) == [extras[0].0] + Keys(rest);
      assert forall e :: 1 <= e < |extras| ==> extras[e] == rest[e - 1];
      assert forall e :: 1 <= e < |extras| ==> extras[e].0 != extras[0].0;
      r
  }

  /** `pd.concat([a, b], ignore_index=True)` for frames with the same columns:
      the rows of `a` followed by the rows of `b`. */
  function ConcatFrames(a: DataFrame, b: DataFrame): (r: DataFrame)
    requires a.columns == b.columns
    ensures r.columns == a.columns
    ensures r.rows == a.rows + b.rows
  {
    Table(a.columns, a.rows + b.rows)
  }

  /** A row of a concatenation comes from the first frame or, past its rows, from the second. */
  lemma CellOfConcat(a: DataFrame, b: DataFrame, k: nat, c: string)
    requires a.columns == b.columns && k < |a.rows| + |b.rows|
    ensures Cell(ConcatFrames(a, b), k, c) == if k < |a.rows| then Cell(a, k, c) else Cell(b, k - |a.rows|, c)
  {
  }

  /** Two frames with the same columns, each given a constant tag column, then
      concatenated: a row carries its frame's tag and its frame's other cells. */
  lemma CellOfTaggedConcat(a: DataFrame, b: DataFrame, col: string, va: Value, vb: Value, k: nat, c: string)
    requires a.columns == b.columns && col !in a.columns
    requires k < |a.rows| + |b.rows|
    ensures var t := ConcatFrames(SetColumn(a, col, va), SetColumn(b, col, vb));
            && k < |t.rows|
            && Cell(t, k, col) == Some(if k < |a.rows| then va else vb)
            && (c != col ==> Cell(t, k, c) == if k < |a.rows| then Cell(a, k, c) else Cell(b, k - |a.rows|, c))
  {
    var a1 := SetColumn(a, col, va);
    var b1 := SetColumn(b, col, vb);
    CellOfConcat(a1, b1, k, col);
    CellOfConcat(a1, b1, k, c);
  }
}
