/** Tables as the engine sees them: an ordered list of column names and, for each
    name, its column. Cell values are kept abstract; only names, order and
    equality of columns matter to the orchestration. */
module Frames {
  import opened Seqs

  /** The storage type of a column. */
  datatype Dtype = Int64 | Float64 | Bool | Datetime64 | Object | Category

  datatype Cell = Num(n: int) | Text(s: string) | Flag(b: bool) | Missing

  datatype Column = Column(dtype: Dtype, cells: seq<Cell>)

  /** A table: its column names in order, and the column stored under each name. */
  datatype Frame = Frame(names: seq<string>, cols: map<string, Column>)

  /** Every listed name has a stored column. */
  predicate Stored(f: Frame)
  {
    forall n :: n in f.names ==> n in f.cols
  }

  /** Names are unique and name exactly the stored columns. */
  predicate Valid(f: Frame)
  {
    Distinct(f.names) && (forall n :: n in f.cols ==> n in f.names) && Stored(f)
  }

  /** The columns stored under `names`, in that order. */
  function Columns(f: Frame, names: seq<string>): (r: seq<Column>)
    requires forall n :: n in names ==> n in f.cols
    ensures |r| == |names|
    ensures forall i :: 0 <= i < |names| ==> r[i] == f.cols[names[i]]
  {
    seq(|names|, i requires 0 <= i < |names| => f.cols[names[i]])
  }

  /** Assigning one column: an existing column is replaced where it stands, a new
      one is appended at the end. */
  function SetColumn(f: Frame, name: string, col: Column): (r: Frame)
    ensures r.cols == f.cols[name := col]
    ensures r.names == if name in f.cols then f.names else f.names + [name]
    ensures Valid(f) ==> Valid(r)
  {
    if name in f.cols then Frame(f.names, f.cols[name := col])
    else
      AppendDistinctIf(f.names, name);
      Frame(f.names + [name], f.cols[name := col])
  }

  /** Assigning the columns `values` under `names`, pairwise, in order. */
  function SetColumns(f: Frame, names: seq<string>, values: seq<Column>): (r: Frame)
    requires |names| == |values|
    ensures forall n :: n in r.cols <==> n in f.cols || n in names
    ensures forall n :: n in f.cols && n !in names ==> r.cols[n] == f.cols[n]
    ensures Valid(f) ==> Valid(r)
    decreases |names|, 1
  {
    if |names| == 0 then f else SetColumnsStep(f, names, values)
  }

  /** The first name assigned, then the rest. */
  function SetColumnsStep(f: Frame, names: seq<string>, values: seq<Column>): (r: Frame)
    requires 0 < |names| == |values|
    ensures forall n :: n in r.cols <==> n in f.cols || n in names
    ensures forall n :: n in f.cols && n !in names ==> r.cols[n] == f.cols[n]
    ensures Valid(f) ==> Valid(r)
    decreases |names|, 0
  {
    assert forall n :: n in names <==> n == names[0] || n in names[1..];
    SetColumns(SetColumn(f, names[0], values[0]), names[1..], values[1..])
  }

  /** With distinct names, every name ends up holding its own value. */
  lemma {:induction false} SetColumnsValues(f: Frame, names: seq<string>, values: seq<Column>)
    requires |names| == |values| && Distinct(names)
    ensures forall i :: 0 <= i < |names| ==> SetColumns(f, names, values).cols[names[i]] == values[i]
    decreases |names|
  {
    if |names| > 0 {
      var f' := SetColumn(f, names[0], values[0]);
      DistinctTail(names);
      SetColumnsValues(f', names[1..], values[1..]);
      forall i | 0 <= i < |names|
        ensures SetColumns(f, names, values).cols[names[i]] == values[i]
      {
        if i > 0 {
          assert names[i] == names[1..][i - 1] && values[i] == values[1..][i - 1];
        }
      }
    }
  }

  /** Assigning only new names appends them, in the order given. */
  lemma {:induction false} SetNewColumnsNames(f: Frame, names: seq<string>, values: seq<Column>)
    requires |names| == |values| && Distinct(names)
    requires forall n :: n in names ==> n !in f.cols
    ensures SetColumns(f, names, values).names == f.names + names
    decreases |names|
  {
    if |names| > 0 {
      var f' := SetColumn(f, names[0], values[0]);
      DistinctTail(names);
      SetNewColumnsNames(f', names[1..], values[1..]);
      AppendHead(f.names, names);
    }
  }

  /** Removing the columns `names`. */
  function Drop(f: Frame, names: seq<string>): (r: Frame)
    ensures forall n :: n in r.cols <==> n in f.cols && n !in names
    ensures forall n :: n in r.cols ==> r.cols[n] == f.cols[n]
    ensures Valid(f) ==> Valid(r)
  {
    WithoutDistinctIf(f.names, set n | n in names);
    Frame(Without(f.names, set n | n in names), f.cols - set n | n in names)
  }

  lemma AppendDistinctIf(s: seq<string>, x: string)
    ensures Distinct(s) && x !in s ==> Distinct(s + [x])
  {
    if Distinct(s) && x !in s {
      DistinctConcat(s, [x]);
    }
  }

  lemma WithoutDistinctIf(s: seq<string>, drop: set<string>)
    ensures Distinct(s) ==> Distinct(Without(s, drop))
  {
    if Distinct(s) {
      WithoutDistinct(s, drop);
    }
  }

  /** The table restricted to `names`, in that order (`reindex` on names that are
      all present). */
  function Select(f: Frame, names: seq<string>): (r: Frame)
    requires forall n :: n in names ==> n in f.cols
    ensures r.names == names
    ensures forall n :: n in r.cols <==> n in names
    ensures forall n :: n in r.cols ==> r.cols[n] == f.cols[n]
    ensures Distinct(names) ==> Valid(r)
  {
    Frame(names, map n | n in names :: f.cols[n])
  }

  /** Two frames with the same names and, under those names, the same columns. */
  lemma SameFrame(a: Frame, b: Frame)
    requires Valid(a) && Valid(b) && a.names == b.names
    requires forall n :: n in a.names ==> a.cols[n] == b.cols[n]
    ensures a == b
  {
    assert a.cols.Keys == b.cols.Keys;
  }

  // ------------------------------------------------------------ sdtypes

  /** The semantic type inferred from a column's storage type. An integer column
      holding missing values is stored as floats and so reads as `float`. */
  function DetectSdtype(dtype: Dtype): (r: string)
    ensures r in {"integer", "float", "boolean", "datetime", "categorical"}
    ensures r == "categorical" <==> dtype == Object || dtype == Category
    ensures r == "integer" <==> dtype == Int64
    ensures r == "float" <==> dtype == Float64
    ensures r == "boolean" <==> dtype == Bool
    ensures r == "datetime" <==> dtype == Datetime64
  {
    match dtype
    case Int64 => "integer"
    case Float64 => "float"
    case Bool => "boolean"
    case Datetime64 => "datetime"
    case Object => "categorical"
    case Category => "categorical"
  }

  /** The sdtype of every column of a table, in column order. */
  function DetectSdtypes(f: Frame): (r: seq<(string, string)>)
    requires Valid(f)
    ensures |r| == |f.names|
    ensures forall i :: 0 <= i < |r| ==> r[i] == (f.names[i], DetectSdtype(f.cols[f.names[i]].dtype))
  {
    seq(|f.names|, i requires 0 <= i < |f.names| => (f.names[i], DetectSdtype(f.cols[f.names[i]].dtype)))
  }
}
