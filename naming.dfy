/** Naming of the output columns of a transformer unit: the names of the input
    column(s) joined by `#`, then `.`, then the declared output suffix. */
module Naming {
  import opened Wrappers
  import opened Strings

  const COLUMN_JOIN: char := '#'
  const SUFFIX_SEP: char := '.'

  /** What `fit` was handed: a table with the column name(s) to use, a named
      series, or an unnamed one- or two-dimensional array. */
  datatype FitInput =
    | Table(columns: seq<string>)
    | NamedSeries(name: string)
    | Array1d
    | Array2d(width: nat)

  /** `str(0)`, ..., `str(n - 1)`: the names pandas gives the columns of an unnamed array. */
  function PositionalNames(n: nat): (r: seq<string>)
    ensures |r| == n
    ensures forall i :: 0 <= i < n ==> r[i] == NatToString(i)
  {
    if n == 0 then [] else PositionalNames(n - 1) + [NatToString(n - 1)]
  }

  /** The column names a transformer records when it is fitted on `input`. */
  function InputColumns(input: FitInput): seq<string>
  {
    match input
    case Table(columns) => columns
    case NamedSeries(name) => [name]
    case Array1d => PositionalNames(1)
    case Array2d(width) => PositionalNames(width)
  }

  /** The prefix shared by every output column of a transformer. */
  function Prefix(columns: seq<string>): string
  {
    Join(columns, COLUMN_JOIN)
  }

  function OutputName(prefix: string, suffix: string): string
  {
    prefix + [SUFFIX_SEP] + suffix
  }

  /** Under one prefix, different suffixes give different output names. */
  lemma OutputNameInjective(prefix: string, a: string, b: string)
    ensures OutputName(prefix, a) == OutputName(prefix, b) ==> a == b
  {
    if OutputName(prefix, a) == OutputName(prefix, b) {
      assert a == OutputName(prefix, a)[|prefix| + 1..];
      assert b == OutputName(prefix, b)[|prefix| + 1..];
    }
  }

  /** The output column names, one per declared suffix, in declaration order. */
  function OutputColumns(columns: seq<string>, suffixes: seq<string>): (r: seq<string>)
    ensures |r| == |suffixes|
    ensures forall i :: 0 <= i < |r| ==> r[i] == OutputName(Prefix(columns), suffixes[i])
  {
    if |suffixes| == 0 then []
    else OutputColumns(columns, suffixes[..|suffixes| - 1]) + [OutputName(Prefix(columns), suffixes[|suffixes| - 1])]
  }

  /** Reads back the input columns and the suffix an output column was named after. */
  function ParseOutputName(name: string): (r: Option<(seq<string>, string)>)
  {
    match RSplitOnce(name, SUFFIX_SEP)
    case None => None
    case Some((prefix, suffix)) => Some((Split(prefix, COLUMN_JOIN), suffix))
  }

  /** Column names and suffixes that keep output names unambiguous. */
  predicate PlainNames(columns: seq<string>, suffixes: seq<string>)
  {
    && |columns| >= 1
    && (forall i :: 0 <= i < |columns| ==> COLUMN_JOIN !in columns[i])
    && (forall i :: 0 <= i < |suffixes| ==> SUFFIX_SEP !in suffixes[i])
  }

  /** Every output column names its input columns and its suffix recoverably:
      this is what lets the reverse transform restore the original column names. */
  lemma ParseOutputColumns(columns: seq<string>, suffixes: seq<string>, i: nat)
    requires PlainNames(columns, suffixes)
    requires i < |suffixes|
    ensures ParseOutputName(OutputColumns(columns, suffixes)[i]) == Some((columns, suffixes[i]))
  {
    RSplitOnceOfConcat(Prefix(columns), SUFFIX_SEP, suffixes[i]);
    SplitJoin(columns, COLUMN_JOIN);
  }

  /** Distinct declared suffixes give distinct output columns. */
  lemma OutputColumnsDistinct(columns: seq<string>, suffixes: seq<string>, i: nat, j: nat)
    requires forall k :: 0 <= k < |suffixes| ==> SUFFIX_SEP !in suffixes[k]
    requires i < |suffixes| && j < |suffixes| && suffixes[i] != suffixes[j]
    ensures OutputColumns(columns, suffixes)[i] != OutputColumns(columns, suffixes)[j]
  {
    RSplitOnceOfConcat(Prefix(columns), SUFFIX_SEP, suffixes[i]);
    RSplitOnceOfConcat(Prefix(columns), SUFFIX_SEP, suffixes[j]);
  }

  /** A single column `bool` with the one output `value` gives `bool.value`. */
  lemma SingleColumnSingleOutput()
    ensures OutputColumns(InputColumns(Table(["bool"])), ["value"]) == ["bool.value"]
  {
    var r := OutputColumns(["bool"], ["value"]);
    assert Prefix(["bool"]) == "bool";
    assert r[0] == "bool.value";
  }

  /** Several outputs come out in declaration order. */
  lemma SingleColumnTwoOutputs()
    ensures OutputColumns(InputColumns(Table(["bool"])), ["value", "null"]) == ["bool.value", "bool.null"]
  {
    var r := OutputColumns(["bool"], ["value", "null"]);
    assert Prefix(["bool"]) == "bool";
    assert r[0] == "bool.value" && r[1] == "bool.null";
  }

  /** Three input columns share the prefix `year#month#day`. */
  lemma MultiColumnPrefix()
    ensures OutputColumns(InputColumns(Table(["year", "month", "day"])), ["value"]) == ["year#month#day.value"]
  {
    var columns := ["year", "month", "day"];
    assert columns[1..] == ["month", "day"] && columns[1..][1..] == ["day"];
    assert Prefix(columns) == "year#month#day";
    assert OutputColumns(columns, ["value"])[0] == "year#month#day.value";
  }

  /** A named series is prefixed with its name. */
  lemma NamedSeriesPrefix()
    ensures OutputColumns(InputColumns(NamedSeries("bool")), ["value"]) == ["bool.value"]
  {
    assert Prefix(["bool"]) == "bool";
    assert OutputColumns(["bool"], ["value"])[0] == "bool.value";
  }

  /** An unnamed one-dimensional array is prefixed with its position `0`. */
  lemma ArrayPrefix()
    ensures OutputColumns(InputColumns(Array1d), ["value"]) == ["0.value"]
  {
    var one := PositionalNames(1);
    assert NatToString(0) == "0";
    assert one == ["0"];
    assert Prefix(one) == "0";
    assert OutputColumns(one, ["value"])[0] == "0.value";
  }

  /** An unnamed array of three columns is prefixed with `0#1#2`. */
  lemma WideArrayPrefix()
    ensures OutputColumns(InputColumns(Array2d(3)), ["value"]) == ["0#1#2.value"]
  {
    assert NatToString(0) == "0" && NatToString(1) == "1" && NatToString(2) == "2";
    var three := PositionalNames(3);
    assert three == ["0", "1", "2"];
    assert three[1..] == ["1", "2"] && three[1..][1..] == ["2"];
    assert Prefix(three) == "0#1#2";
    assert OutputColumns(three, ["value"])[0] == "0#1#2.value";
  }
}
