/** Transformer units as the orchestration engine sees them: what they declare
    (input sdtype, named outputs with their sdtypes, next-transformer hints) and
    how a fitted unit rewrites a table. The numeric encoders themselves are
    abstract: a `Codec` supplies the forward and backward column functions. */
module Transformers {
  import opened Seqs
  import opened Strings
  import opened Naming
  import opened Frames

  /** One declared output: its key (the suffix of the output column) and the
      semantic type of what it holds. */
  datatype OutputSpec = OutputSpec(suffix: string, sdtype: string)

  /** A transformer pre-declared by its upstream unit for one of its outputs. */
  datatype Hint = Hint(suffix: string, next: Transformer)

  /** A transformer: its class name, the sdtype it consumes, its declared outputs
      in declaration order, whether it adds noise, and its next-transformer hints. */
  datatype Transformer = Transformer(
    kind: string,
    inputSdtype: string,
    outputs: seq<OutputSpec>,
    addNoise: bool,
    hints: seq<Hint>)

  function Suffixes(t: Transformer): (r: seq<string>)
    ensures |r| == |t.outputs|
    ensures forall i :: 0 <= i < |r| ==> r[i] == t.outputs[i].suffix
  {
    seq(|t.outputs|, i requires 0 <= i < |t.outputs| => t.outputs[i].suffix)
  }

  /** Output keys are unique, contain no `.` and there is at least one. */
  predicate WellDeclared(t: Transformer)
  {
    |t.outputs| > 0
    && (forall i, j :: 0 <= i < j < |t.outputs| ==> t.outputs[i].suffix != t.outputs[j].suffix)
    && (forall i :: 0 <= i < |t.outputs| ==> SUFFIX_SEP !in t.outputs[i].suffix)
  }

  /** A transformer after `fit`: the columns it consumes and the columns it produces. */
  datatype Stage = Stage(transformer: Transformer, columns: seq<string>, outputColumns: seq<string>)

  /** What `fit` records on a transformer for the given input columns. */
  function FitStage(t: Transformer, columns: seq<string>): (s: Stage)
    ensures s.transformer == t && s.columns == columns
    ensures |s.outputColumns| == |t.outputs|
  {
    Stage(t, columns, OutputColumns(columns, Suffixes(t)))
  }

  /** Output `i` of a fitted transformer is named `<prefix>.<suffix>`. */
  lemma FitStageNames(t: Transformer, columns: seq<string>)
    ensures forall i :: 0 <= i < |t.outputs| ==> FitStage(t, columns).outputColumns[i] == OutputName(Prefix(columns), t.outputs[i].suffix)
  {
  }

  /** Every output name is longer than every input name, so a fitted transformer
      never writes over one of its own inputs. */
  lemma {:induction false} OutputsLongerThanInputs(t: Transformer, columns: seq<string>)
    ensures forall o, c :: o in FitStage(t, columns).outputColumns && c in columns ==> |o| > |c|
  {
    var s := FitStage(t, columns);
    forall o, c | o in s.outputColumns && c in columns
      ensures |o| > |c|
    {
      JoinLongerThanParts(columns, COLUMN_JOIN, c);
    }
  }

  lemma {:induction false} JoinLongerThanParts(parts: seq<string>, sep: char, p: string)
    requires p in parts
    ensures |Join(parts, sep)| >= |p|
  {
    if |parts| > 1 && p != parts[0] {
      JoinLongerThanParts(parts[1..], sep, p);
    }
  }

  /** The outputs of a fitted, well-declared transformer are distinct and differ
      from its inputs. */
  lemma FitStageOutputsFresh(t: Transformer, columns: seq<string>)
    requires WellDeclared(t)
    ensures Distinct(FitStage(t, columns).outputColumns)
    ensures forall o :: o in FitStage(t, columns).outputColumns ==> o !in columns
  {
    var s := FitStage(t, columns);
    forall i, j | 0 <= i < j < |s.outputColumns|
      ensures s.outputColumns[i] != s.outputColumns[j]
    {
      OutputColumnsDistinct(columns, Suffixes(t), i, j);
    }
    OutputsLongerThanInputs(t, columns);
  }

  /** `get_output_sdtypes`: each output column with its sdtype, in declaration order. */
  function OutputSdtypes(s: Stage): (r: seq<(string, string)>)
    requires |s.outputColumns| == |s.transformer.outputs|
    ensures |r| == |s.outputColumns|
    ensures forall i :: 0 <= i < |r| ==> r[i] == (s.outputColumns[i], s.transformer.outputs[i].sdtype)
  {
    seq(|s.outputColumns|, i requires 0 <= i < |s.outputColumns| =>
      (s.outputColumns[i], s.transformer.outputs[i].sdtype))
  }

  /** `get_next_transformers`: the hints keyed by full output column name (a later
      hint for the same key wins). */
  function NextTransformers(s: Stage): (r: map<string, Transformer>)
    ensures forall i :: 0 <= i < |s.transformer.hints| ==>
      OutputName(Prefix(s.columns), s.transformer.hints[i].suffix) in r
  {
    HintMap(Prefix(s.columns), s.transformer.hints)
  }

  /** The keys of `get_next_transformers` are the hinted output names and no
      others, and each maps to the transformer of the last hint naming it. */
  lemma NextTransformersHints(s: Stage)
    ensures forall k :: k in NextTransformers(s) ==>
      exists i :: 0 <= i < |s.transformer.hints| && k == OutputName(Prefix(s.columns), s.transformer.hints[i].suffix)
    ensures forall i :: 0 <= i < |s.transformer.hints| && LastHint(s.transformer.hints, i) ==>
      NextTransformers(s)[OutputName(Prefix(s.columns), s.transformer.hints[i].suffix)] == s.transformer.hints[i].next
  {
    HintMapValues(Prefix(s.columns), s.transformer.hints);
  }

  /** No later hint names the same output suffix as hint `i`. */
  predicate LastHint(hints: seq<Hint>, i: int)
    requires 0 <= i < |hints|
  {
    forall j :: i < j < |hints| ==> hints[j].suffix != hints[i].suffix
  }

  /** Each hinted output name mapped to the transformer of its hint, a later
      hint overwriting an earlier one. */
  function HintMap(prefix: string, hints: seq<Hint>): (r: map<string, Transformer>)
    ensures forall i :: 0 <= i < |hints| ==> OutputName(prefix, hints[i].suffix) in r
    ensures forall k :: k in r ==> exists i :: 0 <= i < |hints| && k == OutputName(prefix, hints[i].suffix)
    ensures |hints| > 0 ==> r[OutputName(prefix, hints[|hints| - 1].suffix)] == hints[|hints| - 1].next
  {
    if |hints| == 0 then map[]
    else
      var init := HintMap(prefix, hints[..|hints| - 1]);
      assert forall i :: 0 <= i < |hints| - 1 ==> hints[..|hints| - 1][i] == hints[i];
      init[OutputName(prefix, hints[|hints| - 1].suffix) := hints[|hints| - 1].next]
  }

  /** Every hint that no later hint overrides is the one its output name maps to. */
  lemma {:induction false} HintMapValues(prefix: string, hints: seq<Hint>)
    ensures forall i :: 0 <= i < |hints| && LastHint(hints, i) ==> HintMap(prefix, hints)[OutputName(prefix, hints[i].suffix)] == hints[i].next
  {
    if |hints| > 0 {
      var n := |hints| - 1;
      HintMapValues(prefix, hints[..n]);
      forall i | 0 <= i < n && LastHint(hints, i)
        ensures HintMap(prefix, hints)[OutputName(prefix, hints[i].suffix)] == hints[i].next
      {
        assert hints[..n][i] == hints[i];
        assert LastHint(hints[..n], i);
        HintMapStep(prefix, hints, i);
      }
    }
  }

  /** One step of `HintMapValues`: an earlier hint that is not overridden keeps
      its value when the last hint is written. */
  lemma HintMapStep(prefix: string, hints: seq<Hint>, i: int)
    requires 0 <= i < |hints| - 1 && LastHint(hints, i)
    requires HintMap(prefix, hints[..|hints| - 1])[OutputName(prefix, hints[..|hints| - 1][i].suffix)] == hints[i].next
    ensures HintMap(prefix, hints)[OutputName(prefix, hints[i].suffix)] == hints[i].next
  {
    var n := |hints| - 1;
    assert hints[..n][i] == hints[i];
    OutputNameInjective(prefix, hints[i].suffix, hints[n].suffix);
  }

  // ------------------------------------------------------------------ codecs

  /** The numeric work of a fitted transformer, abstracted: `enc` maps the values
      of its input columns to the values of its output columns, `dec` goes back. */
  datatype Codec = Codec(enc: (Stage, seq<Column>) -> seq<Column>, dec: (Stage, seq<Column>) -> seq<Column>)

  /** Exactly `n` columns: the given ones, cut or padded with empty columns. */
  function Arity(cols: seq<Column>, n: nat): (r: seq<Column>)
    ensures |r| == n
    ensures |cols| == n ==> r == cols
  {
    seq(n, i requires 0 <= i < n => if i < |cols| then cols[i] else Column(Object, []))
  }

  function Encode(c: Codec, s: Stage, xs: seq<Column>): (r: seq<Column>)
    ensures |r| == |s.outputColumns|
  {
    Arity(c.enc(s, xs), |s.outputColumns|)
  }

  function Decode(c: Codec, s: Stage, ys: seq<Column>): (r: seq<Column>)
    ensures |r| == |s.columns|
  {
    Arity(c.dec(s, ys), |s.columns|)
  }

  /** The fitted transformer's reverse undoes its forward transformation on
      every input of the right width. */
  ghost predicate StageInverse(c: Codec, s: Stage)
  {
    forall xs: seq<Column> :: |xs| == |s.columns| ==> Decode(c, s, Encode(c, s, xs)) == xs
  }

  /** The codec whose forward and reverse pass values through unchanged. */
  function PassThrough(): Codec
  {
    Codec((s: Stage, xs: seq<Column>) => xs, (s: Stage, ys: seq<Column>) => ys)
  }

  /** The inversion hypothesis can be met: passing values through inverts every
      stage with as many output columns as input columns. */
  lemma PassThroughInverse(s: Stage)
    requires |s.outputColumns| == |s.columns|
    ensures StageInverse(PassThrough(), s)
  {
    forall xs: seq<Column> | |xs| == |s.columns|
      ensures Decode(PassThrough(), s, Encode(PassThrough(), s, xs)) == xs
    {
      assert Encode(PassThrough(), s, xs) == xs;
    }
  }

  predicate HasAll(f: Frame, names: seq<string>)
  {
    forall n :: n in names ==> n in f.cols
  }

  /** `transform(data, drop)` of a fitted transformer: when all its input columns
      are present, write its outputs (replacing same-named columns in place,
      appending new ones) and, with `drop`, remove its inputs; otherwise leave the
      table as it is. */
  function StageTransform(s: Stage, c: Codec, f: Frame, drop: bool): (r: Frame)
    ensures !HasAll(f, s.columns) ==> r == f
    ensures HasAll(f, s.columns) ==> forall o :: o in s.outputColumns && (!drop || o !in s.columns) ==> o in r.cols
    ensures !drop ==> forall x :: x in f.cols ==> x in r.cols
    ensures Valid(f) ==> Valid(r)
  {
    if HasAll(f, s.columns) then
      var g := SetColumns(f, s.outputColumns, Encode(c, s, Columns(f, s.columns)));
      if drop then Drop(g, s.columns) else g
    else f
  }

  /** `reverse_transform(data, drop)`: when all its output columns are present,
      write its input columns back from them and, with `drop`, remove the outputs;
      otherwise leave the table as it is. */
  function StageReverse(s: Stage, c: Codec, f: Frame, drop: bool): (r: Frame)
    ensures !HasAll(f, s.outputColumns) ==> r == f
    ensures HasAll(f, s.outputColumns) ==> forall x :: x in s.columns && (!drop || x !in s.outputColumns) ==> x in r.cols
    ensures !drop ==> forall x :: x in f.cols ==> x in r.cols
    ensures Valid(f) ==> Valid(r)
  {
    if HasAll(f, s.outputColumns) then
      var g := SetColumns(f, s.columns, Decode(c, s, Columns(f, s.outputColumns)));
      if drop then Drop(g, s.outputColumns) else g
    else f
  }

  /** Writing new columns `names` into a table that holds exactly `old` and then
      dropping `old` leaves exactly the new columns, in order. */
  lemma {:induction false} Replace(f: Frame, names: seq<string>, values: seq<Column>)
    requires Valid(f) && Distinct(names) && |names| == |values|
    requires forall n :: n in names ==> n !in f.cols
    ensures var r := Drop(SetColumns(f, names, values), f.names);
      r.names == names && Valid(r) && Columns(r, names) == values
  {
    var g := SetColumns(f, names, values);
    SetNewColumnsNames(f, names, values);
    SetColumnsValues(f, names, values);
    var drop := set n | n in f.names;
    WithoutConcat(f.names, names, drop);
    WithoutAll(f.names, drop);
    WithoutNone(names, drop);
  }

  /** Transforming (with `drop`) a table that holds exactly the fitted columns
      leaves exactly the output columns, holding the encoded values. */
  lemma TransformExact(s: Stage, c: Codec, f: Frame)
    requires Valid(f) && f.names == s.columns
    requires Distinct(s.outputColumns)
    requires forall o :: o in s.outputColumns ==> o !in s.columns
    ensures var t := StageTransform(s, c, f, true);
      t.names == s.outputColumns && Valid(t) && Columns(t, s.outputColumns) == Encode(c, s, Columns(f, s.columns))
  {
    Replace(f, s.outputColumns, Encode(c, s, Columns(f, s.columns)));
  }

  /** Reversing (with `drop`) a table that holds exactly the output columns leaves
      exactly the fitted columns, holding the decoded values. */
  lemma ReverseExact(s: Stage, c: Codec, t: Frame)
    requires Valid(t) && t.names == s.outputColumns
    requires Distinct(s.columns)
    requires forall x :: x in s.columns ==> x !in s.outputColumns
    ensures var r := StageReverse(s, c, t, true);
      r.names == s.columns && Valid(r) && Columns(r, s.columns) == Decode(c, s, Columns(t, s.outputColumns))
  {
    Replace(t, s.columns, Decode(c, s, Columns(t, s.outputColumns)));
  }

  /** Transforming exactly the fitted columns and reversing the result gives back
      the same table: same column names, same order, same values. */
  lemma StageRoundTrip(s: Stage, c: Codec, f: Frame)
    requires StageInverse(c, s)
    requires Valid(f) && f.names == s.columns
    requires Distinct(s.outputColumns)
    requires forall o :: o in s.outputColumns ==> o !in s.columns
    ensures StageReverse(s, c, StageTransform(s, c, f, true), true) == f
  {
    var xs := Columns(f, s.columns);
    var t := StageTransform(s, c, f, true);
    TransformExact(s, c, f);
    ReverseExact(s, c, t);
    var r := StageReverse(s, c, t, true);
    assert Decode(c, s, Encode(c, s, xs)) == xs;
    forall n | n in r.names
      ensures r.cols[n] == f.cols[n]
    {
      var i :| 0 <= i < |s.columns| && s.columns[i] == n;
      assert Columns(r, s.columns)[i] == r.cols[n];
    }
    SameFrame(r, f);
  }

  // --------------------------------------------------------- BaseTransformer

  /** A transformer instance: what it declares, and what `fit` records on it. */
  class BaseTransformer {
    const transformer: Transformer
    var columns: seq<string>
    var outputColumns: seq<string>

    constructor(t: Transformer)
      ensures transformer == t && columns == [] && outputColumns == []
    {
      transformer := t;
      columns := [];
      outputColumns := [];
    }

    function AsStage(): Stage
      reads this
    {
      Stage(transformer, columns, outputColumns)
    }

    /** `fit(data, column)`: records the input column names (from the table's
        columns, the Series name, or positions for arrays) and the output column
        names derived from them. */
    method Fit(input: FitInput)
      modifies this
      ensures columns == InputColumns(input)
      ensures outputColumns == OutputColumns(columns, Suffixes(transformer))
      ensures AsStage() == FitStage(transformer, InputColumns(input))
    {
      columns := InputColumns(input);
      outputColumns := OutputColumns(columns, Suffixes(transformer));
    }

    /** `transform(data, drop)` with the recorded columns. */
    method Transform(c: Codec, f: Frame, drop: bool) returns (r: Frame)
      ensures r == StageTransform(AsStage(), c, f, drop)
    {
      r := StageTransform(AsStage(), c, f, drop);
    }

    /** `reverse_transform(data, drop)` with the recorded columns. */
    method ReverseTransform(c: Codec, f: Frame, drop: bool) returns (r: Frame)
      ensures r == StageReverse(AsStage(), c, f, drop)
    {
      r := StageReverse(AsStage(), c, f, drop);
    }
  }

  /** After `fit` on a table holding only its input columns, transforming and
      reversing restores the original column names and values. */
  lemma FitTransformReverseRestores(t: Transformer, c: Codec, f: Frame)
    requires StageInverse(c, FitStage(t, f.names)) && WellDeclared(t)
    requires Valid(f)
    ensures var s := FitStage(t, f.names);
      StageReverse(s, c, StageTransform(s, c, f, true), true) == f
  {
    FitStageOutputsFresh(t, f.names);
    StageRoundTrip(FitStage(t, f.names), c, f);
  }
}
