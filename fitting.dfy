/** What `HyperTransformer.fit` computes, as functions of the configuration
    and of the column names of the data: the recursive fitting of a field's
    transformer and of the transformers of its outputs, the walk from a field
    to the final (leaf) output columns of the transformer tree, and the order
    of the output columns. The class in `hyper_transformer.dfy` performs these
    steps by updating its fields; its methods are proved against these
    functions. */
module Fitting {
  import opened Wrappers
  import opened Seqs
  import opened Naming
  import opened Transformers
  import opened Config
  import opened Frames

  /** A node of the transformer tree: the fitted transformer of a field and its
      output columns. */
  datatype Node = Node(stage: Stage, outputs: seq<string>)

  /** The state `fit` builds: the transformers in the order they were fitted,
      the tree keyed by field, the output columns, and the fitted columns. */
  datatype Fitted = Fitted(sequence: seq<Stage>, tree: map<Field, Node>, outputColumns: seq<string>, fittedFields: set<string>)

  const EMPTY_FITTED := Fitted([], map[], [], {})

  /** What the recursive fit consults and never changes: the configured
      transformers, the library-wide default transformer per sdtype, and the
      multi-column field map. */
  datatype Settings = Settings(fieldTransformers: Dict<Transformer>, registry: map<string, Transformer>, multi: map<string, seq<string>>)

  /** `_field_in_data`: every column of the field is a column of the data. */
  predicate FieldInNames(f: Field, names: seq<string>)
  {
    forall c :: c in FieldColumns(f) ==> c in names
  }

  /** The column names after a fitted transformer's `transform(data)` (which
      drops its inputs): new outputs are appended, inputs removed. When an input
      is missing the data is left as it is. */
  function TransformNames(s: Stage, names: seq<string>): (r: seq<string>)
    ensures (exists c :: c in s.columns && c !in names) ==> r == names
    ensures (forall c :: c in s.columns ==> c in names) ==>
      forall n :: n in r <==> (n in names || n in s.outputColumns) && n !in s.columns
  {
    if forall c :: c in s.columns ==> c in names then
      Without(names + Without(s.outputColumns, set n | n in names), set c | c in s.columns)
    else names
  }

  /** When a transformer's inputs are present and its outputs are new, its
      `transform` removes the inputs and appends the outputs. */
  lemma TransformNamesFresh(s: Stage, names: seq<string>)
    requires forall c :: c in s.columns ==> c in names
    requires forall o :: o in s.outputColumns ==> o !in names && o !in s.columns
    ensures TransformNames(s, names) == Without(names, set c | c in s.columns) + s.outputColumns
  {
    WithoutNone(s.outputColumns, set n | n in names);
    WithoutConcat(names, s.outputColumns, set c | c in s.columns);
    WithoutNone(s.outputColumns, set c | c in s.columns);
  }

  /** The field an output column belongs to: its multi-column tuple, or itself. */
  function FieldOf(multi: map<string, seq<string>>, o: string): (r: Field)
    ensures o in multi ==> r == Multi(multi[o])
    ensures o !in multi ==> r == Single(o)
  {
    if o in multi then Multi(multi[o]) else Single(o)
  }

  /** `_fit_field_transformer(data, field, transformer)`: fit the transformer on
      the field's columns, record the field as fitted, append the transformer to
      the sequence, transform the data, handle each output in declaration order,
      and record the tree node. The transformed names are returned; the names a
      recursive call produces are not. `fuel` bounds the depth of chaining.
      What it records is stated by `FitFieldRecords`. */
  function FitField(cfg: Settings, st: Fitted, names: seq<string>, field: Field, t: Transformer, fuel: nat): (Fitted, seq<string>)
    decreases fuel, 2, 0, 0
  {
    FitStaged(cfg, st, names, field, t, fuel)
  }

  function FitStaged(cfg: Settings, st: Fitted, names: seq<string>, field: Field, t: Transformer, fuel: nat): (Fitted, seq<string>)
    decreases fuel, 1, 0, 0
  {
    var s := FitStage(t, FieldColumns(field));
    var st1 := st.(sequence := st.sequence + [s], fittedFields := AddFieldToSet(field, st.fittedFields));
    var names1 := TransformNames(s, names);
    var st2 := FitOutputs(cfg, st1, names1, s, |s.outputColumns|, fuel);
    (st2.(tree := st2.tree[field := Node(s, s.outputColumns)]), names1)
  }

  /** Nothing `fit` has recorded is lost: the sequence, the output columns and
      the fitted columns only grow, and tree keys stay. */
  predicate Grows(a: Fitted, b: Fitted)
  {
    |a.sequence| <= |b.sequence| && b.sequence[..|a.sequence|] == a.sequence
    && |a.outputColumns| <= |b.outputColumns| && b.outputColumns[..|a.outputColumns|] == a.outputColumns
    && a.fittedFields <= b.fittedFields
    && (forall k :: k in a.tree ==> k in b.tree)
  }

  lemma GrowsTrans(a: Fitted, b: Fitted, c: Fitted)
    requires Grows(a, b) && Grows(b, c)
    ensures Grows(a, c)
  {
    assert c.sequence[..|a.sequence|] == c.sequence[..|b.sequence|][..|a.sequence|];
    assert c.outputColumns[..|a.outputColumns|] == c.outputColumns[..|b.outputColumns|][..|a.outputColumns|];
  }

  /** The first `k` outputs of the fitted transformer `s`, handled in order. */
  function FitOutputs(cfg: Settings, st: Fitted, names: seq<string>, s: Stage, k: nat, fuel: nat): Fitted
    requires k <= |s.outputColumns| == |s.transformer.outputs|
    decreases fuel, 0, k, 1
  {
    if k == 0 then st
    else FitOutput(cfg, FitOutputs(cfg, st, names, s, k - 1, fuel), names, s, k - 1, fuel)
  }

  /** One output of `s`: chain its next transformer when there is one and the
      output's field is present in the data, else record it as an output
      column (once). What it records is stated by `FitOutputEffect`. */
  function FitOutput(cfg: Settings, st: Fitted, names: seq<string>, s: Stage, i: nat, fuel: nat): Fitted
    requires i < |s.outputColumns| == |s.transformer.outputs|
    decreases fuel, 0, i + 1, 0
  {
    var o := s.outputColumns[i];
    var f := FieldOf(cfg.multi, o);
    match NextTransformer(cfg.fieldTransformers, cfg.registry, f, s.transformer.outputs[i].sdtype, NextTransformers(s))
    case Some(t) =>
      if fuel > 0 && FieldInNames(f, names) then FitField(cfg, st, names, f, t, fuel - 1).0 else st
    case None =>
      if o in st.outputColumns then st else st.(outputColumns := st.outputColumns + [o])
  }

  /** Fitting a field appends its transformer to the sequence (what chained
      transformers add comes after it), keys its node in the tree, marks its
      columns fitted, returns the transformed names, and loses nothing recorded
      before. */
  lemma {:induction false} FitFieldRecords(cfg: Settings, st: Fitted, names: seq<string>, field: Field, t: Transformer, fuel: nat)
    ensures var r := FitField(cfg, st, names, field, t, fuel);
      var s := FitStage(t, FieldColumns(field));
      && |r.0.sequence| > |st.sequence|
      && r.0.sequence[..|st.sequence| + 1] == st.sequence + [s]
      && field in r.0.tree && r.0.tree[field] == Node(s, s.outputColumns)
      && r.1 == TransformNames(s, names)
      && Grows(st, r.0)
      && (forall c :: c in FieldColumns(field) ==> c in r.0.fittedFields)
    decreases fuel, 1, 0, 0
  {
    var s := FitStage(t, FieldColumns(field));
    var st1 := st.(sequence := st.sequence + [s], fittedFields := AddFieldToSet(field, st.fittedFields));
    var names1 := TransformNames(s, names);
    assert st1.sequence[..|st.sequence|] == st.sequence;
    assert st1.outputColumns[..|st.outputColumns|] == st.outputColumns;
    FitOutputsGrows(cfg, st1, names1, s, |s.outputColumns|, fuel);
    var st2 := FitOutputs(cfg, st1, names1, s, |s.outputColumns|, fuel);
    assert st2.sequence[..|st.sequence| + 1] == st2.sequence[..|st1.sequence|][..|st.sequence| + 1];
    GrowsTrans(st, st1, st2);
  }

  /** Handling the first `k` outputs loses nothing recorded before. */
  lemma {:induction false} FitOutputsGrows(cfg: Settings, st: Fitted, names: seq<string>, s: Stage, k: nat, fuel: nat)
    requires k <= |s.outputColumns| == |s.transformer.outputs|
    ensures Grows(st, FitOutputs(cfg, st, names, s, k, fuel))
    decreases fuel, 0, k, 1
  {
    if k == 0 {
      assert st.sequence[..|st.sequence|] == st.sequence;
      assert st.outputColumns[..|st.outputColumns|] == st.outputColumns;
    } else {
      var st1 := FitOutputs(cfg, st, names, s, k - 1, fuel);
      FitOutputsGrows(cfg, st, names, s, k - 1, fuel);
      FitOutputEffect(cfg, st1, names, s, k - 1, fuel);
      GrowsTrans(st, st1, FitOutput(cfg, st1, names, s, k - 1, fuel));
    }
  }

  /** One output: with no next transformer it ends up among the output columns
      and the sequence and tree stay; with a next transformer whose field is not
      (yet) in the data nothing changes; otherwise the next transformer is
      fitted right after what was there. Nothing recorded before is lost. */
  lemma {:induction false} FitOutputEffect(cfg: Settings, st: Fitted, names: seq<string>, s: Stage, i: nat, fuel: nat)
    requires i < |s.outputColumns| == |s.transformer.outputs|
    ensures var r := FitOutput(cfg, st, names, s, i, fuel);
      var f := FieldOf(cfg.multi, s.outputColumns[i]);
      var next := NextTransformer(cfg.fieldTransformers, cfg.registry, f, s.transformer.outputs[i].sdtype, NextTransformers(s));
      && Grows(st, r)
      && (next.None? ==> r.sequence == st.sequence && r.tree == st.tree && s.outputColumns[i] in r.outputColumns)
      && (next.Some? && !(fuel > 0 && FieldInNames(f, names)) ==> r == st)
      && (next.Some? && fuel > 0 && FieldInNames(f, names) ==>
            |r.sequence| > |st.sequence| && r.sequence[|st.sequence|] == FitStage(next.value, FieldColumns(f)))
    decreases fuel, 0, i + 1, 0
  {
    var o := s.outputColumns[i];
    var f := FieldOf(cfg.multi, o);
    var r := FitOutput(cfg, st, names, s, i, fuel);
    GrowsRefl(st);
    match NextTransformer(cfg.fieldTransformers, cfg.registry, f, s.transformer.outputs[i].sdtype, NextTransformers(s))
    case Some(t) =>
      if fuel > 0 && FieldInNames(f, names) {
        FitOutputChained(cfg, st, names, s, i, fuel, t);
        FitFieldRecords(cfg, st, names, f, t, fuel - 1);
        assert r.sequence[..|st.sequence| + 1][|st.sequence|] == r.sequence[|st.sequence|];
      } else {
        FitOutputNotReady(cfg, st, names, s, i, fuel);
      }
    case None =>
      if o in st.outputColumns {
        FitOutputKnown(cfg, st, names, s, i, fuel);
      } else {
        FitOutputRecorded(cfg, st, names, s, i, fuel);
        assert (st.outputColumns + [o])[..|st.outputColumns|] == st.outputColumns;
      }
  }

  lemma GrowsRefl(a: Fitted)
    ensures Grows(a, a)
  {
    assert a.sequence[..|a.sequence|] == a.sequence;
    assert a.outputColumns[..|a.outputColumns|] == a.outputColumns;
  }

  // ------------------------------------------------------------ tree walks

  /** The final (leaf) output columns reached from `outs`, depth first in the
      order each node lists its outputs. A visited node is taken out of the
      tree for its own subtree, which bounds the walk. */
  function Leaves(tree: map<Field, Node>, outs: seq<string>): (r: seq<string>)
    ensures forall o :: o in outs && Single(o) !in tree ==> o in r
    ensures forall x :: x in r ==> x in outs || exists k :: k in tree && x in tree[k].outputs
    decreases tree.Keys, |outs|
  {
    if |outs| == 0 then []
    else
      var o := outs[0];
      var here := if Single(o) in tree then Leaves(tree - {Single(o)}, tree[Single(o)].outputs) else [o];
      here + Leaves(tree, outs[1..])
  }

  /** With no output keyed in the tree, the leaves are the outputs themselves. */
  lemma {:induction false} LeavesFlat(tree: map<Field, Node>, outs: seq<string>)
    requires forall o :: o in outs ==> Single(o) !in tree
    ensures Leaves(tree, outs) == outs
    decreases |outs|
  {
    if |outs| > 0 {
      LeavesFlat(tree, outs[1..]);
    }
  }

  /** `get_final_output_columns(field)` once the field is known to be in the tree. */
  function FinalOutputs(tree: map<Field, Node>, field: Field): (r: seq<string>)
    requires field in tree
    ensures forall o :: o in tree[field].outputs && Single(o) !in tree ==> o in r
  {
    Leaves(tree - {field}, tree[field].outputs)
  }

  /** Every output of a column's node is named longer than the column, as
      fitted names are (`Transformers.OutputsLongerThanInputs`), so no walk
      down the tree meets the same node twice. */
  predicate NamesGrow(tree: map<Field, Node>)
  {
    forall k :: k in tree && k.Single? ==> forall o :: o in tree[k].outputs ==> |o| > |k.name|
  }

  /** `x` is one of `outs` or a descendant of one of them, each node walked
      with itself taken out of the tree, as `Leaves` walks it. */
  predicate Below(tree: map<Field, Node>, outs: seq<string>, x: string)
    decreases tree.Keys, |outs|
  {
    && |outs| > 0
    && (|| x == outs[0]
        || (Single(outs[0]) in tree && Below(tree - {Single(outs[0])}, tree[Single(outs[0])].outputs, x))
        || Below(tree, outs[1..], x))
  }

  /** Whatever lies below outputs longer than `n` is longer than `n`. */
  lemma {:induction false} BelowLonger(tree: map<Field, Node>, outs: seq<string>, x: string, n: int)
    requires NamesGrow(tree)
    requires forall o :: o in outs ==> |o| > n
    requires Below(tree, outs, x)
    ensures |x| > n
    decreases tree.Keys, |outs|
  {
    var o := outs[0];
    if x == o {
    } else if Single(o) in tree && Below(tree - {Single(o)}, tree[Single(o)].outputs, x) {
      BelowLonger(tree - {Single(o)}, tree[Single(o)].outputs, x, |o|);
    } else {
      BelowLonger(tree, outs[1..], x, n);
    }
  }

  /** The leaves are exactly what lies below `outs` and has no node of its own. */
  lemma {:induction false} LeavesBelow(tree: map<Field, Node>, outs: seq<string>, x: string)
    requires NamesGrow(tree)
    ensures x in Leaves(tree, outs) <==> Below(tree, outs, x) && Single(x) !in tree
    decreases tree.Keys, |outs|
  {
    if |outs| > 0 {
      var o := outs[0];
      LeavesBelow(tree, outs[1..], x);
      if Single(o) in tree {
        var sub := tree - {Single(o)};
        var os := tree[Single(o)].outputs;
        LeavesBelow(sub, os, x);
        if Below(sub, os, x) {
          BelowLonger(sub, os, x, |o|);
        }
      }
    }
  }

  /** `get_final_output_columns(field)` returns exactly the leaves below the
      field: the columns reachable from its outputs that have no node. */
  lemma {:induction false} FinalOutputsLeaves(tree: map<Field, Node>, field: Field)
    requires field in tree
    requires NamesGrow(tree)
    ensures forall x :: x in FinalOutputs(tree, field) <==> Below(tree - {field}, tree[field].outputs, x) && Single(x) !in tree
  {
    var outs := tree[field].outputs;
    forall x
      ensures x in FinalOutputs(tree, field) <==> Below(tree - {field}, outs, x) && Single(x) !in tree
    {
      LeavesBelow(tree - {field}, outs, x);
      if field.Single? && Below(tree - {field}, outs, x) {
        BelowLonger(tree - {field}, outs, x, |field.name|);
      }
    }
  }

  /** One step of `Leaves` at an output that has a node. */
  lemma LeavesNode(tree: map<Field, Node>, o: string, rest: seq<string>)
    requires Single(o) in tree
    ensures Leaves(tree, [o] + rest) == Leaves(tree - {Single(o)}, tree[Single(o)].outputs) + Leaves(tree, rest)
  {
    assert ([o] + rest)[0] == o && ([o] + rest)[1..] == rest;
  }

  /** One step of `Leaves` at an output that has no node. */
  lemma LeavesLeaf(tree: map<Field, Node>, o: string, rest: seq<string>)
    requires Single(o) !in tree
    ensures Leaves(tree, [o] + rest) == [o] + Leaves(tree, rest)
  {
    assert ([o] + rest)[0] == o && ([o] + rest)[1..] == rest;
  }

  /** The nodes of the `get_final_output_columns` worked case above
      `field1.out2`'s second output `out22`. */
  predicate FinalOutputsCase(tree: map<Field, Node>, out22: string)
  {
    && Single("field1") in tree && tree[Single("field1")].outputs == ["field1.out1", "field1.out2"]
    && Single("field1.out1") in tree && tree[Single("field1.out1")].outputs == ["field1.out1.value"]
    && Single("field1.out2") in tree && tree[Single("field1.out2")].outputs == ["field1.out2.out1", out22]
    && Single("field1.out2.out1") in tree && tree[Single("field1.out2.out1")].outputs == ["field1.out2.out1.value"]
    && Single("field1.out2.out2") in tree && tree[Single("field1.out2.out2")].outputs == ["field1.out2.out2.value"]
    && Single("field1.out1.value") !in tree && Single("field1.out2.out1.value") !in tree
    && Single("field1.out2.out2.value") !in tree
  }

  /** The leaves of `field1`, depth first, up to `out22`. */
  lemma FinalOutputsWalk(tree: map<Field, Node>, out22: string)
    requires FinalOutputsCase(tree, out22)
    ensures FinalOutputs(tree, Single("field1")) == ["field1.out1.value", "field1.out2.out1.value"] + Leaves(tree - {Single("field1")} - {Single("field1.out2")}, [out22])
  {
    var t1 := tree - {Single("field1")};
    var t11 := t1 - {Single("field1.out1")};
    var t2 := t1 - {Single("field1.out2")};
    var t21 := t2 - {Single("field1.out2.out1")};
    assert tree[Single("field1")].outputs == ["field1.out1"] + ["field1.out2"];
    assert t1[Single("field1.out1")].outputs == ["field1.out1.value"] + [];
    assert t1[Single("field1.out2")].outputs == ["field1.out2.out1"] + [out22];
    assert t2[Single("field1.out2.out1")].outputs == ["field1.out2.out1.value"] + [];
    LeavesLeaf(t11, "field1.out1.value", []);
    LeavesLeaf(t21, "field1.out2.out1.value", []);
    LeavesNode(t2, "field1.out2.out1", [out22]);
    LeavesNode(t1, "field1.out2", []);
    LeavesNode(t1, "field1.out1", ["field1.out2"]);
  }

  /** As the worked case lists its tree, `field1.out2` names the output
      `field.out2.out2`, which has no node: it is returned as a leaf in place of
      `field1.out2.out2.value`, so the expected list is not what comes back. */
  lemma FinalOutputsAsWrittenExample(tree: map<Field, Node>)
    requires FinalOutputsCase(tree, "field.out2.out2")
    requires Single("field.out2.out2") !in tree
    ensures FinalOutputs(tree, Single("field1")) == ["field1.out1.value", "field1.out2.out1.value", "field.out2.out2"]
    ensures FinalOutputs(tree, Single("field1")) != ["field1.out1.value", "field1.out2.out1.value", "field1.out2.out2.value"]
  {
    FinalOutputsWalk(tree, "field.out2.out2");
    var t := tree - {Single("field1")} - {Single("field1.out2")};
    LeavesLeaf(t, "field.out2.out2", []);
    assert ["field.out2.out2"] + [] == ["field.out2.out2"];
  }

  /** With the output named `field1.out2.out2`, the leaves of `field1` are its
      three descendants without nodes, depth first. */
  lemma FinalOutputsExample(tree: map<Field, Node>)
    requires FinalOutputsCase(tree, "field1.out2.out2")
    ensures FinalOutputs(tree, Single("field1")) == ["field1.out1.value", "field1.out2.out1.value", "field1.out2.out2.value"]
  {
    FinalOutputsWalk(tree, "field1.out2.out2");
    var t := tree - {Single("field1")} - {Single("field1.out2")};
    assert t[Single("field1.out2.out2")].outputs == ["field1.out2.out2.value"] + [];
    LeavesLeaf(t - {Single("field1.out2.out2")}, "field1.out2.out2.value", []);
    LeavesNode(t, "field1.out2.out2", []);
    assert ["field1.out2.out2"] + [] == ["field1.out2.out2"];
  }

  /** The field `_sort_output_columns` looks up for an input column: a tuple
      field at its first column, nothing at its other columns, else the column. */
  function RootField(multi: map<string, seq<string>>, c: string): (r: Option<Field>)
    ensures c !in multi ==> r == Some(Single(c))
    ensures r.Some? && r.value.Multi? ==> |r.value.names| > 0 && r.value.names[0] == c
  {
    if c !in multi then Some(Single(c))
    else if |multi[c]| > 0 && multi[c][0] == c then Some(Multi(multi[c]))
    else None
  }

  function RootOutputs(tree: map<Field, Node>, multi: map<string, seq<string>>, c: string): seq<string>
  {
    match RootField(multi, c)
    case Some(f) => if f in tree then FinalOutputs(tree, f) else []
    case None => []
  }

  /** `_sort_output_columns`: the final outputs of each input column, in input
      column order. */
  function SortOutputColumns(tree: map<Field, Node>, multi: map<string, seq<string>>, inputs: seq<string>): (r: seq<string>)
    ensures forall x :: x in r <==> exists i :: 0 <= i < |inputs| && x in RootOutputs(tree, multi, inputs[i])
    decreases |inputs|
  {
    if |inputs| == 0 then []
    else
      var rest := SortOutputColumns(tree, multi, inputs[1..]);
      assert forall i :: 1 <= i < |inputs| ==> inputs[1..][i - 1] == inputs[i];
      RootOutputs(tree, multi, inputs[0]) + rest
  }

  /** The three lists of the `_sort_output_columns` worked case concatenate in
      input order. */
  lemma SortOutputColumnsExample(tree: map<Field, Node>, a: string, b: string, c: string, oa: seq<string>, ob: seq<string>, oc: seq<string>)
    requires Single(a) in tree && Single(b) in tree && Single(c) in tree
    requires tree[Single(a)].outputs == oa && tree[Single(b)].outputs == ob && tree[Single(c)].outputs == oc
    requires forall k :: k in tree ==> forall o :: o in tree[k].outputs ==> Single(o) !in tree
    ensures SortOutputColumns(tree, map[], [a, b, c]) == oa + ob + oc
  {
    LeavesFlat(tree - {Single(a)}, oa);
    LeavesFlat(tree - {Single(b)}, ob);
    LeavesFlat(tree - {Single(c)}, oc);
    assert RootOutputs(tree, map[], a) == oa;
    assert RootOutputs(tree, map[], b) == ob;
    assert RootOutputs(tree, map[], c) == oc;
    SortOutputColumnsHead(tree, map[], [c]);
    assert [c][1..] == [];
    assert SortOutputColumns(tree, map[], [c]) == oc;
    SortOutputColumnsHead(tree, map[], [b, c]);
    assert [b, c][1..] == [c];
    SortOutputColumnsHead(tree, map[], [a, b, c]);
    assert [a, b, c][1..] == [b, c];
    AppendAssoc(oa, ob, oc);
  }

  /** The outputs of the first input column come first. */
  lemma SortOutputColumnsHead(tree: map<Field, Node>, multi: map<string, seq<string>>, inputs: seq<string>)
    requires |inputs| > 0
    ensures SortOutputColumns(tree, multi, inputs) == RootOutputs(tree, multi, inputs[0]) + SortOutputColumns(tree, multi, inputs[1..])
  {
  }

  /** Sorting the outputs of two runs of input columns one after the other
      gives the outputs of the first run followed by those of the second. */
  lemma {:induction false} SortOutputColumnsAppend(tree: map<Field, Node>, multi: map<string, seq<string>>, a: seq<string>, b: seq<string>)
    ensures SortOutputColumns(tree, multi, a + b) == SortOutputColumns(tree, multi, a) + SortOutputColumns(tree, multi, b)
    decreases |a|
  {
    if |a| > 0 {
      assert (a + b)[0] == a[0];
      assert (a + b)[1..] == a[1..] + b;
      SortOutputColumnsHead(tree, multi, a + b);
      SortOutputColumnsHead(tree, multi, a);
      SortOutputColumnsAppend(tree, multi, a[1..], b);
      AppendAssoc(RootOutputs(tree, multi, a[0]), SortOutputColumns(tree, multi, a[1..]), SortOutputColumns(tree, multi, b));
    } else {
      assert a + b == b;
    }
  }

  // -------------------------------------------------------------- fit loops

  /** Why `fit` stops: a column configured under two keys, or a field to be
      fitted whose columns are not all in the data. */
  datatype FitError = Duplicated(field: Field) | Absent(field: Field)

  /** `_learn_config` over the columns `names` of the data: a column that is not
      yet a key of `field_sdtypes` is added, in column order, with the sdtype its
      storage type reads as; configured sdtypes are kept. */
  function LearnSdtypes(fs: Dict<string>, cols: map<string, Column>, names: seq<string>): (r: Dict<string>)
    requires forall n :: n in names ==> n in cols
    ensures DictValid(fs) ==> DictValid(r)
    decreases |names|, 1
  {
    if |names| == 0 then fs else LearnSdtypesStep(fs, cols, names)
  }

  /** The last column of `names`, learned after the others. */
  function LearnSdtypesStep(fs: Dict<string>, cols: map<string, Column>, names: seq<string>): (r: Dict<string>)
    requires forall n :: n in names ==> n in cols
    requires |names| > 0
    ensures DictValid(fs) ==> DictValid(r)
    decreases |names|, 0
  {
    var init := names[..|names| - 1];
    var c := names[|names| - 1];
    var r := LearnSdtypes(fs, cols, init);
    if Single(c) in r.vals then r
    else Put(r, Single(c), DetectSdtype(cols[c].dtype))
  }

  /** Learning keeps every configured sdtype and gives every column of the data
      that was not configured the sdtype its storage type reads as. */
  lemma {:induction false} LearnSdtypesEntries(fs: Dict<string>, cols: map<string, Column>, names: seq<string>)
    requires forall n :: n in names ==> n in cols
    ensures var r := LearnSdtypes(fs, cols, names);
      && (forall fld :: fld in r.vals <==> fld in fs.vals || (fld.Single? && fld.name in names))
      && (forall fld :: fld in fs.vals ==> r.vals[fld] == fs.vals[fld])
      && (forall c :: c in names && Single(c) !in fs.vals ==> r.vals[Single(c)] == DetectSdtype(cols[c].dtype))
    decreases |names|
  {
    if |names| > 0 {
      var init := names[..|names| - 1];
      var c := names[|names| - 1];
      assert names == init + [c];
      LearnSdtypesEntries(fs, cols, init);
      var prev := LearnSdtypes(fs, cols, init);
      assert LearnSdtypes(fs, cols, names) == if Single(c) in prev.vals then prev else Put(prev, Single(c), DetectSdtype(cols[c].dtype));
    }
  }

  /** Learning only appends: the configured keys keep their places in front. */
  lemma {:induction false} LearnKeepsOrder(fs: Dict<string>, cols: map<string, Column>, names: seq<string>)
    requires forall n :: n in names ==> n in cols
    ensures var r := LearnSdtypes(fs, cols, names); |fs.keys| <= |r.keys| && r.keys[..|fs.keys|] == fs.keys
    decreases |names|
  {
    if |names| > 0 {
      var init := names[..|names| - 1];
      LearnKeepsOrder(fs, cols, init);
      var r := LearnSdtypes(fs, cols, init);
      var c := names[|names| - 1];
      if Single(c) !in r.vals {
        var r' := Put(r, Single(c), DetectSdtype(cols[c].dtype));
        assert r'.keys[..|fs.keys|] == r.keys[..|fs.keys|];
      }
    }
  }

  /** With no sdtype configured, `_learn_config` lists every column of the data,
      in column order. */
  lemma {:induction false} LearnFromEmpty(fs: Dict<string>, cols: map<string, Column>, names: seq<string>)
    requires forall n :: n in names ==> n in cols
    requires Distinct(names)
    requires fs.keys == [] && fs.vals == map[]
    ensures LearnSdtypes(fs, cols, names).keys == Singles(names)
    decreases |names|
  {
    if |names| > 0 {
      var init := names[..|names| - 1];
      var c := names[|names| - 1];
      assert names == init + [c];
      DistinctBefore(names, |names| - 1);
      LearnFromEmpty(fs, cols, init);
      var r := LearnSdtypes(fs, cols, init);
      assert Single(c) !in r.vals;
      SinglesSnoc(init, c);
    }
  }

  /** Each column as a single-column field. */
  function Singles(names: seq<string>): (r: seq<Field>)
    ensures |r| == |names| && forall i :: 0 <= i < |names| ==> r[i] == Single(names[i])
  {
    seq(|names|, i requires 0 <= i < |names| => Single(names[i]))
  }

  lemma SinglesSnoc(names: seq<string>, c: string)
    ensures Singles(names + [c]) == Singles(names) + [Single(c)]
  {
  }

  /** The first loop of `fit` over the first `k` keys of `field_transformers`:
      each key whose columns are all in the current data is fitted with its
      configured transformer; the other keys are skipped. */
  function FitConfigured(cfg: Settings, st: Fitted, names: seq<string>, k: nat, fuel: nat): (Fitted, seq<string>)
    requires Covered(cfg.fieldTransformers) && k <= |cfg.fieldTransformers.keys|
    decreases k, 1
  {
    if k == 0 then (st, names) else FitConfiguredStep(cfg, st, names, k, fuel)
  }

  /** Key `k - 1` of `field_transformers`, after the keys before it. */
  function FitConfiguredStep(cfg: Settings, st: Fitted, names: seq<string>, k: nat, fuel: nat): (Fitted, seq<string>)
    requires Covered(cfg.fieldTransformers) && 0 < k <= |cfg.fieldTransformers.keys|
    decreases k, 0
  {
      var prev := FitConfigured(cfg, st, names, k - 1, fuel);
      var field := cfg.fieldTransformers.keys[k - 1];
      if FieldInNames(field, prev.1) then FitField(cfg, prev.0, prev.1, field, cfg.fieldTransformers.vals[field], fuel)
      else prev
  }

  /** The first loop loses nothing recorded before it, and every configured
      field it fits ends up with its columns fitted. */
  lemma {:induction false} FitConfiguredGrows(cfg: Settings, st: Fitted, names: seq<string>, k: nat, fuel: nat)
    requires Covered(cfg.fieldTransformers) && k <= |cfg.fieldTransformers.keys|
    ensures Grows(st, FitConfigured(cfg, st, names, k, fuel).0)
    decreases k
  {
    if k == 0 {
      assert st.sequence[..|st.sequence|] == st.sequence;
      assert st.outputColumns[..|st.outputColumns|] == st.outputColumns;
    } else {
      var prev := FitConfigured(cfg, st, names, k - 1, fuel);
      assert FitConfigured(cfg, st, names, k, fuel) == FitConfiguredStep(cfg, st, names, k, fuel);
      FitConfiguredGrows(cfg, st, names, k - 1, fuel);
      var field := cfg.fieldTransformers.keys[k - 1];
      if FieldInNames(field, prev.1) {
        FitFieldRecords(cfg, prev.0, prev.1, field, cfg.fieldTransformers.vals[field], fuel);
        GrowsTrans(st, prev.0, FitConfigured(cfg, st, names, k, fuel).0);
      }
    }
  }

  /** The transformer `fit` uses for a field nothing configures: the
      `default_sdtype_transformers` entry for its sdtype, else the library-wide
      default; none when neither knows the sdtype. */
  function DefaultTransformer(defaults: map<string, Transformer>, registry: map<string, Transformer>, sdtype: string): (r: Option<Transformer>)
    ensures r.None? <==> sdtype !in defaults && sdtype !in registry
    ensures r.Some? ==> r.value == (if sdtype in defaults then defaults[sdtype] else registry[sdtype])
  {
    if sdtype in defaults then Some(defaults[sdtype])
    else if sdtype in registry then Some(registry[sdtype])
    else None
  }

  /** The second loop of `fit` over the first `k` keys of `field_sdtypes`: a field
      whose columns were all fitted already is skipped; any other field with a
      transformer for its sdtype is fitted, and must be in the data. */
  function FitDefaults(cfg: Settings, defaults: map<string, Transformer>, fs: Dict<string>, st: Fitted, names: seq<string>, k: nat, fuel: nat)
    : Result<(Fitted, seq<string>), FitError>
    requires Covered(fs) && k <= |fs.keys|
    decreases k, 1
  {
    if k == 0 then Ok((st, names)) else FitDefaultsStep(cfg, defaults, fs, st, names, k, fuel)
  }

  /** Key `k - 1` of `field_sdtypes`, after the keys before it. */
  function FitDefaultsStep(cfg: Settings, defaults: map<string, Transformer>, fs: Dict<string>, st: Fitted, names: seq<string>, k: nat, fuel: nat)
    : Result<(Fitted, seq<string>), FitError>
    requires Covered(fs) && 0 < k <= |fs.keys|
    decreases k, 0
  {
      var prev :- FitDefaults(cfg, defaults, fs, st, names, k - 1, fuel);
      var field := fs.keys[k - 1];
      DefaultField(cfg, prev, field, DefaultTransformer(defaults, cfg.registry, fs.vals[field]), fuel)
  }

  /** One field of the second loop, given the state and names the fields
      before it left and the default transformer for its sdtype, if any. */
  function DefaultField(cfg: Settings, prev: (Fitted, seq<string>), field: Field, t: Option<Transformer>, fuel: nat)
    : Result<(Fitted, seq<string>), FitError>
  {
    if FieldInSet(field, prev.0.fittedFields) then Ok(prev)
    else
      match t
      case None => Ok(prev)
      case Some(t) =>
        if FieldInNames(field, prev.1) then Ok(FitField(cfg, prev.0, prev.1, field, t, fuel))
        else Err(Absent(field))
  }

  /** The second loop loses nothing recorded before it; when it succeeds, every
      field it went through that has a transformer for its sdtype has its columns
      fitted; when it fails, it names a field of `field_sdtypes` that is not in
      the data. */
  lemma {:induction false} FitDefaultsCovers(cfg: Settings, defaults: map<string, Transformer>, fs: Dict<string>,
                                             st: Fitted, names: seq<string>, k: nat, fuel: nat)
    requires Covered(fs) && k <= |fs.keys|
    ensures var r := FitDefaults(cfg, defaults, fs, st, names, k, fuel);
      && (r.Ok? ==> Grows(st, r.value.0))
      && (r.Ok? ==> forall i :: 0 <= i < k && DefaultTransformer(defaults, cfg.registry, fs.vals[fs.keys[i]]).Some?
                      ==> FieldInSet(fs.keys[i], r.value.0.fittedFields))
      && (r.Err? ==> r.error.Absent? && r.error.field in fs.keys)
    decreases k
  {
    if k == 0 {
      assert st.sequence[..|st.sequence|] == st.sequence;
      assert st.outputColumns[..|st.outputColumns|] == st.outputColumns;
    } else {
      FitDefaultsCovers(cfg, defaults, fs, st, names, k - 1, fuel);
      var r := FitDefaults(cfg, defaults, fs, st, names, k, fuel);
      assert r == FitDefaultsStep(cfg, defaults, fs, st, names, k, fuel);
      var p := FitDefaults(cfg, defaults, fs, st, names, k - 1, fuel);
      if p.Ok? {
        var prev := p.value;
        var field := fs.keys[k - 1];
        if !FieldInSet(field, prev.0.fittedFields) && DefaultTransformer(defaults, cfg.registry, fs.vals[field]).Some?
           && FieldInNames(field, prev.1) {
          FitFieldRecords(cfg, prev.0, prev.1, field, DefaultTransformer(defaults, cfg.registry, fs.vals[field]).value, fuel);
        }
        if r.Ok? {
          GrowsTrans(st, prev.0, r.value.0);
          forall i | 0 <= i < k && DefaultTransformer(defaults, cfg.registry, fs.vals[fs.keys[i]]).Some?
            ensures FieldInSet(fs.keys[i], r.value.0.fittedFields)
          {
            if i < k - 1 {
              assert FieldInSet(fs.keys[i], prev.0.fittedFields);
            }
          }
        }
      }
    }
  }

  /** What a successful `fit` leaves: the fitted state (output columns sorted),
      the learned `field_sdtypes` and the multi-column field map. */
  datatype FitResult = FitResult(fitted: Fitted, sdtypes: Dict<string>, multi: map<string, seq<string>>)

  /** `fit(data)`: validate the configured keys, learn the sdtypes of unknown
      columns, build the multi-column map, run both loops, and sort the output
      columns by input column. */
  function FitAll(ft: Dict<Transformer>, fs: Dict<string>, defaults: map<string, Transformer>,
                  registry: map<string, Transformer>, f: Frame, fuel: nat): (r: Result<FitResult, FitError>)
    requires DictValid(ft) && DictValid(fs) && Stored(f)
    ensures DuplicateField(ft.keys).Some? <==> r.Err? && r.error.Duplicated?
    ensures r.Err? && r.error.Duplicated? ==> r.error.field == DuplicateField(ft.keys).value
    ensures r.Ok? ==> r.value.sdtypes == LearnSdtypes(fs, f.cols, f.names)
                      && r.value.multi == MultiColumnFields(ft.keys + r.value.sdtypes.keys)
  {
    match DuplicateField(ft.keys)
    case Some(d) => Err(Duplicated(d))
    case None => FitFields(ft, fs, defaults, registry, f, fuel)
  }

  /** What `fit` does once the configured keys are free of duplicates: learn
      the sdtypes, build the multi-column map, then fit from nothing. Only a
      missing column can fail it. */
  function FitFields(ft: Dict<Transformer>, fs: Dict<string>, defaults: map<string, Transformer>,
                     registry: map<string, Transformer>, f: Frame, fuel: nat): (r: Result<FitResult, FitError>)
    requires DictValid(ft) && DictValid(fs) && Stored(f)
    ensures r.Err? ==> r.error.Absent?
    ensures r.Ok? ==> r.value.sdtypes == LearnSdtypes(fs, f.cols, f.names)
                      && r.value.multi == MultiColumnFields(ft.keys + r.value.sdtypes.keys)
  {
    var fs1 := LearnSdtypes(fs, f.cols, f.names);
    var multi := MultiColumnFields(ft.keys + fs1.keys);
    var st :- FitLearned(Settings(ft, registry, multi), defaults, fs1, EMPTY_FITTED, f.names, fuel);
    Ok(FitResult(st, fs1, multi))
  }

  /** The fitting part of `fit`, from the state `st`: the configured fields,
      then the remaining ones, then the output columns sorted by the input
      columns `inputs`. It fails only on a field of `fs` missing from the data,
      and it loses nothing `st` recorded. */
  function FitLearned(cfg: Settings, defaults: map<string, Transformer>, fs: Dict<string>, st: Fitted,
                      inputs: seq<string>, fuel: nat): (r: Result<Fitted, FitError>)
    requires Covered(cfg.fieldTransformers) && Covered(fs)
    ensures r.Err? ==> r.error.Absent? && r.error.field in fs.keys
    ensures r.Ok? ==> st.sequence <= r.value.sequence && st.fittedFields <= r.value.fittedFields
  {
    var loop1 := FitConfigured(cfg, st, inputs, |cfg.fieldTransformers.keys|, fuel);
    FitConfiguredGrows(cfg, st, inputs, |cfg.fieldTransformers.keys|, fuel);
    FitDefaultsCovers(cfg, defaults, fs, loop1.0, loop1.1, |fs.keys|, fuel);
    var loop2 :- FitDefaults(cfg, defaults, fs, loop1.0, loop1.1, |fs.keys|, fuel);
    GrowsTrans(st, loop1.0, loop2.0);
    Ok(loop2.0.(outputColumns := SortOutputColumns(loop2.0.tree, cfg.multi, inputs)))
  }

  // --------------------------------------------------------- worked cases

  /** A transformer fitted on one column names its outputs `<column>.<suffix>`. */
  lemma SingleColumnOutputs(t: Transformer, c: string)
    ensures |FitStage(t, [c]).outputColumns| == |t.outputs|
    ensures forall i :: 0 <= i < |t.outputs| ==> FitStage(t, [c]).outputColumns[i] == OutputName(c, t.outputs[i].suffix)
  {
    assert Prefix([c]) == c;
  }

  /** Two output names of one prefix differ when their suffixes do. */
  lemma OutputNameInjective(p: string, x: string, y: string)
    requires OutputName(p, x) == OutputName(p, y)
    ensures x == y
  {
    assert OutputName(p, x)[|p| + 1..] == x;
    assert OutputName(p, y)[|p| + 1..] == y;
  }

  /** An output is terminal for `fit` when nothing configures its field and its
      sdtype needs no further transformer. */
  predicate TerminalOutput(cfg: Settings, s: Stage, i: int)
    requires 0 <= i < |s.outputColumns| == |s.transformer.outputs|
  {
    FieldOf(cfg.multi, s.outputColumns[i]) !in cfg.fieldTransformers.vals
    && s.transformer.outputs[i].sdtype in TERMINAL_SDTYPES
  }

  // Unfolding aids: `FitOutputsStep`, `FitFieldSteps`, `FitOutputRecorded`,
  // `FitOutputChained`, `FitOutputNotReady` and `FitOutputKnown` each restate one
  // case of a definition. They are proof steps for the lemmas around them, not
  // properties of their own.

  /** `FitOutputs` handles output `k - 1` after the outputs before it. */
  lemma FitOutputsStep(cfg: Settings, st: Fitted, names: seq<string>, s: Stage, k: nat, fuel: nat)
    requires 0 < k <= |s.outputColumns| == |s.transformer.outputs|
    ensures FitOutputs(cfg, st, names, s, k, fuel) == FitOutput(cfg, FitOutputs(cfg, st, names, s, k - 1, fuel), names, s, k - 1, fuel)
  {
  }

  /** `FitField` as its steps: fit, record, handle the outputs, add the node. */
  lemma FitFieldSteps(cfg: Settings, st: Fitted, names: seq<string>, field: Field, t: Transformer, fuel: nat)
    ensures var s := FitStage(t, FieldColumns(field));
      var st1 := st.(sequence := st.sequence + [s], fittedFields := AddFieldToSet(field, st.fittedFields));
      var st2 := FitOutputs(cfg, st1, TransformNames(s, names), s, |s.outputColumns|, fuel);
      FitField(cfg, st, names, field, t, fuel) == (st2.(tree := st2.tree[field := Node(s, s.outputColumns)]), TransformNames(s, names))
  {
  }

  /** An output with no next transformer is recorded once. */
  lemma FitOutputRecorded(cfg: Settings, st: Fitted, names: seq<string>, s: Stage, i: nat, fuel: nat)
    requires i < |s.outputColumns| == |s.transformer.outputs|
    requires NextTransformer(cfg.fieldTransformers, cfg.registry, FieldOf(cfg.multi, s.outputColumns[i]),
                             s.transformer.outputs[i].sdtype, NextTransformers(s)).None?
    requires s.outputColumns[i] !in st.outputColumns
    ensures FitOutput(cfg, st, names, s, i, fuel) == st.(outputColumns := st.outputColumns + [s.outputColumns[i]])
  {
  }

  /** An output whose next transformer is known and whose field is in the data
      has that transformer fitted on its field. */
  lemma FitOutputChained(cfg: Settings, st: Fitted, names: seq<string>, s: Stage, i: nat, fuel: nat, t: Transformer)
    requires i < |s.outputColumns| == |s.transformer.outputs|
    requires NextTransformer(cfg.fieldTransformers, cfg.registry, FieldOf(cfg.multi, s.outputColumns[i]),
                             s.transformer.outputs[i].sdtype, NextTransformers(s)) == Some(t)
    requires fuel > 0 && FieldInNames(FieldOf(cfg.multi, s.outputColumns[i]), names)
    ensures FitOutput(cfg, st, names, s, i, fuel) == FitField(cfg, st, names, FieldOf(cfg.multi, s.outputColumns[i]), t, fuel - 1).0
  {
  }

  /** A terminal output has no next transformer. */
  lemma TerminalHasNoNext(cfg: Settings, s: Stage, i: int)
    requires 0 <= i < |s.outputColumns| == |s.transformer.outputs|
    requires TerminalOutput(cfg, s, i)
    ensures NextTransformer(cfg.fieldTransformers, cfg.registry, FieldOf(cfg.multi, s.outputColumns[i]),
                            s.transformer.outputs[i].sdtype, NextTransformers(s)).None?
  {
  }

  /** Terminal outputs not yet recorded are appended to the output columns, in
      declaration order, and nothing else changes. */
  lemma {:induction false} FitOutputsTerminal(cfg: Settings, st: Fitted, names: seq<string>, s: Stage, k: nat, fuel: nat)
    requires k <= |s.outputColumns| == |s.transformer.outputs|
    requires forall i :: 0 <= i < k ==> TerminalOutput(cfg, s, i)
    requires Distinct(s.outputColumns)
    requires forall o :: o in s.outputColumns ==> o !in st.outputColumns
    ensures FitOutputs(cfg, st, names, s, k, fuel) == st.(outputColumns := st.outputColumns + s.outputColumns[..k])
  {
    if k == 0 {
      assert st.outputColumns + s.outputColumns[..0] == st.outputColumns;
    } else {
      FitOutputsTerminal(cfg, st, names, s, k - 1, fuel);
      var o := s.outputColumns[k - 1];
      var before := s.outputColumns[..k - 1];
      DistinctBefore(s.outputColumns, k - 1);
      assert o in s.outputColumns;
      assert o !in st.outputColumns + before by {
        assert o !in st.outputColumns && o !in before;
      }
      assert TerminalOutput(cfg, s, k - 1);
      TerminalAppend(cfg, st, names, s, k, fuel);
    }
  }

  /** One more terminal output, not yet recorded, is appended. */
  lemma TerminalAppend(cfg: Settings, st: Fitted, names: seq<string>, s: Stage, k: nat, fuel: nat)
    requires 0 < k <= |s.outputColumns| == |s.transformer.outputs|
    requires FitOutputs(cfg, st, names, s, k - 1, fuel) == st.(outputColumns := st.outputColumns + s.outputColumns[..k - 1])
    requires TerminalOutput(cfg, s, k - 1)
    requires s.outputColumns[k - 1] !in st.outputColumns + s.outputColumns[..k - 1]
    ensures FitOutputs(cfg, st, names, s, k, fuel) == st.(outputColumns := st.outputColumns + s.outputColumns[..k])
  {
    var st1 := st.(outputColumns := st.outputColumns + s.outputColumns[..k - 1]);
    var o := s.outputColumns[k - 1];
    TerminalHasNoNext(cfg, s, k - 1);
    FitOutputsStep(cfg, st, names, s, k, fuel);
    FitOutputRecorded(cfg, st1, names, s, k - 1, fuel);
    AppendSlice(st.outputColumns, s.outputColumns, k);
  }

  lemma AppendSlice(xs: seq<string>, ys: seq<string>, k: nat)
    requires 0 < k <= |ys|
    ensures xs + ys[..k - 1] + [ys[k - 1]] == xs + ys[..k]
  {
    assert ys[..k] == ys[..k - 1] + [ys[k - 1]];
  }

  /** A field whose transformer has only terminal outputs: the transformer is
      appended to the sequence, its outputs to the output columns, and the field
      gets a tree node. */
  lemma FitFieldTerminal(cfg: Settings, st: Fitted, names: seq<string>, field: Field, t: Transformer, fuel: nat)
    requires var s := FitStage(t, FieldColumns(field));
      (forall i :: 0 <= i < |s.outputColumns| ==> TerminalOutput(cfg, s, i))
      && Distinct(s.outputColumns)
      && forall o :: o in s.outputColumns ==> o !in st.outputColumns
    ensures var s := FitStage(t, FieldColumns(field));
      FitField(cfg, st, names, field, t, fuel).0
        == Fitted(st.sequence + [s], st.tree[field := Node(s, s.outputColumns)],
                  st.outputColumns + s.outputColumns, AddFieldToSet(field, st.fittedFields))
  {
    var s := FitStage(t, FieldColumns(field));
    var st1 := st.(sequence := st.sequence + [s], fittedFields := AddFieldToSet(field, st.fittedFields));
    FitOutputsTerminal(cfg, st1, TransformNames(s, names), s, |s.outputColumns|, fuel);
    assert s.outputColumns[..|s.outputColumns|] == s.outputColumns;
  }

  /** The output of a chained transformer is not an output of the first one
      whose suffix has no separator. */
  lemma NestedNameDiffers(a: string, x1: string, y: string, x2: string)
    requires SUFFIX_SEP !in x2
    ensures OutputName(OutputName(a, x1), y) != OutputName(a, x2)
  {
    var p := OutputName(OutputName(a, x1), y);
    assert p[|a| + 1..] == x1 + [SUFFIX_SEP] + y;
    assert p[|a| + 1..][|x1|] == SUFFIX_SEP;
    assert OutputName(a, x2)[|a| + 1..] == x2;
  }

  /** Field `a` fitted with a transformer declaring `x1` (categorical, with a
      hinted next transformer) and `x2` (numerical); the hinted transformer
      declares one numerical output `y`. Both transformers are fitted, in
      pre-order; the tree gets a node for `a` and one for `a.x1`; the final
      outputs are `a.x1.y` and `a.x2`. */
  lemma FitFieldChainExample(cfg: Settings, t1: Transformer, t2: Transformer, a: string, x1: string, x2: string, y: string, fuel: nat)
    requires cfg.fieldTransformers.vals == map[] && cfg.multi == map[]
    requires t1.outputs == [OutputSpec(x1, "categorical"), OutputSpec(x2, "numerical")]
    requires t1.hints == [Hint(x1, t2)]
    requires t2.outputs == [OutputSpec(y, "numerical")]
    requires x1 != x2 && SUFFIX_SEP !in x2
    requires fuel >= 1
    ensures var r := FitField(cfg, EMPTY_FITTED, [a], Single(a), t1, fuel);
      var s1 := FitStage(t1, [a]);
      var s2 := FitStage(t2, [OutputName(a, x1)]);
      && r.0.sequence == [s1, s2]
      && r.0.tree == map[Single(OutputName(a, x1)) := Node(s2, [OutputName(OutputName(a, x1), y)]),
                         Single(a) := Node(s1, [OutputName(a, x1), OutputName(a, x2)])]
      && r.0.outputColumns == [OutputName(OutputName(a, x1), y), OutputName(a, x2)]
      && r.1 == [OutputName(a, x1), OutputName(a, x2)]
  {
    var o1, o2 := OutputName(a, x1), OutputName(a, x2);
    var p := OutputName(o1, y);
    var s1 := FitStage(t1, [a]);
    SingleColumnOutputs(t1, a);
    assert s1.outputColumns == [o1, o2];
    var s2 := FitStage(t2, [o1]);
    SingleColumnOutputs(t2, o1);
    assert s2.outputColumns == [p];
    assert o1 != o2 by {
      if o1 == o2 { OutputNameInjective(a, x1, x2); }
    }
    NestedNameDiffers(a, x1, y, x2);
    var names1 := ChainNames(s1, a, o1, o2);
    var st1 := EMPTY_FITTED.(sequence := [s1], fittedFields := AddFieldToSet(Single(a), {}));
    var inner := ChainFirstOutput(cfg, s1, s2, st1, names1, o1, p, fuel);
    ChainSecondOutput(cfg, s1, st1, inner, names1, o2, p, fuel);
    ChainAssemble(cfg, t1, a, s1, names1, inner.(outputColumns := [p, o2]), fuel);
  }

  /** The chain example's node for `a` closes the fit of the field. */
  lemma ChainAssemble(cfg: Settings, t1: Transformer, a: string, s1: Stage, names1: seq<string>, st2: Fitted, fuel: nat)
    requires s1 == FitStage(t1, [a]) && names1 == TransformNames(s1, [a])
    requires |s1.outputColumns| == |s1.transformer.outputs|
    requires FitOutputs(cfg, EMPTY_FITTED.(sequence := [s1], fittedFields := AddFieldToSet(Single(a), {})),
                        names1, s1, |s1.outputColumns|, fuel) == st2
    ensures FitField(cfg, EMPTY_FITTED, [a], Single(a), t1, fuel) == (st2.(tree := st2.tree[Single(a) := Node(s1, s1.outputColumns)]), names1)
  {
    FitFieldSteps(cfg, EMPTY_FITTED, [a], Single(a), t1, fuel);
    assert FieldColumns(Single(a)) == [a];
    assert EMPTY_FITTED.sequence + [s1] == [s1];
  }

  /** The names after the first transformer of the chain example. */
  lemma ChainNames(s1: Stage, a: string, o1: string, o2: string) returns (names1: seq<string>)
    requires s1.columns == [a] && s1.outputColumns == [o1, o2]
    requires |o1| > |a| && |o2| > |a|
    ensures names1 == TransformNames(s1, [a]) == [o1, o2]
  {
    TransformNamesFresh(s1, [a]);
    assert Without([a], set c | c in s1.columns) == [];
    names1 := [o1, o2];
  }

  /** The first output of the chain example fits the hinted transformer. */
  lemma ChainFirstOutput(cfg: Settings, s1: Stage, s2: Stage, st1: Fitted, names1: seq<string>, o1: string, p: string, fuel: nat)
    returns (inner: Fitted)
    requires cfg.fieldTransformers.vals == map[] && cfg.multi == map[]
    requires |s1.outputColumns| == |s1.transformer.outputs| == 2 && s1.outputColumns[0] == o1 && o1 in names1
    requires s1.transformer.outputs[0].sdtype == "categorical"
    requires o1 in NextTransformers(s1) && NextTransformers(s1)[o1] == s2.transformer
    requires s2 == FitStage(s2.transformer, [o1]) && s2.outputColumns == [p]
    requires s2.transformer.outputs[0].sdtype == "numerical"
    requires st1.outputColumns == [] && fuel >= 1
    ensures inner == st1.(sequence := st1.sequence + [s2], tree := st1.tree[Single(o1) := Node(s2, [p])],
                          outputColumns := [p], fittedFields := AddFieldToSet(Single(o1), st1.fittedFields))
    ensures FitOutput(cfg, st1, names1, s1, 0, fuel) == inner
  {
    var t := s2.transformer;
    assert FieldOf(cfg.multi, o1) == Single(o1);
    assert "categorical" !in TERMINAL_SDTYPES;
    assert NextTransformer(cfg.fieldTransformers, cfg.registry, Single(o1), "categorical", NextTransformers(s1)) == Some(t);
    assert FieldInNames(Single(o1), names1);
    assert FitStage(t, FieldColumns(Single(o1))) == s2;
    assert TerminalOutput(cfg, s2, 0);
    FitFieldTerminal(cfg, st1, names1, Single(o1), t, fuel - 1);
    FitOutputChained(cfg, st1, names1, s1, 0, fuel, t);
    inner := FitField(cfg, st1, names1, Single(o1), t, fuel - 1).0;
    assert st1.outputColumns + s2.outputColumns == [p];
    assert inner == Fitted(st1.sequence + [s2], st1.tree[Single(o1) := Node(s2, [p])], [p],
                           AddFieldToSet(Single(o1), st1.fittedFields));
  }

  /** The second output of the chain example is terminal and is recorded. */
  lemma ChainSecondOutput(cfg: Settings, s1: Stage, st1: Fitted, inner: Fitted, names1: seq<string>, o2: string, p: string, fuel: nat)
    requires cfg.fieldTransformers.vals == map[] && cfg.multi == map[]
    requires |s1.outputColumns| == |s1.transformer.outputs| == 2 && s1.outputColumns[1] == o2
    requires s1.transformer.outputs[1].sdtype == "numerical"
    requires FitOutput(cfg, st1, names1, s1, 0, fuel) == inner
    requires inner.outputColumns == [p] && p != o2
    ensures FitOutputs(cfg, st1, names1, s1, 2, fuel) == inner.(outputColumns := [p, o2])
  {
    FitOutputsStep(cfg, st1, names1, s1, 1, fuel);
    assert FitOutputs(cfg, st1, names1, s1, 0, fuel) == st1;
    FitOutputsStep(cfg, st1, names1, s1, 2, fuel);
    assert "numerical" in TERMINAL_SDTYPES;
    FitOutputRecorded(cfg, inner, names1, s1, 1, fuel);
  }

  /** A transformer whose only output belongs to a two-column field whose other
      column is absent from the data: the next transformer is not fitted and no
      output column is recorded. */
  lemma FitFieldMultiColumnNotReady(cfg: Settings, t1: Transformer, a: string, b: string, x: string, sibling: string, fuel: nat)
    requires |t1.outputs| == 1 && t1.outputs[0] == OutputSpec(x, "categorical") && t1.hints == []
    requires cfg.multi == map[OutputName(a, x) := [OutputName(a, x), sibling]]
    requires Multi([OutputName(a, x), sibling]) !in cfg.fieldTransformers.vals
    requires "categorical" in cfg.registry
    requires sibling != a && sibling != b && sibling != OutputName(a, x)
    ensures var r := FitField(cfg, EMPTY_FITTED, [a, b], Single(a), t1, fuel);
      r.0.sequence == [FitStage(t1, [a])] && r.0.outputColumns == []
  {
    var o := OutputName(a, x);
    var s1 := FitStage(t1, [a]);
    SingleColumnOutputs(t1, a);
    assert s1.outputColumns == [o];
    var names1 := TransformNames(s1, [a, b]);
    assert sibling !in names1;
    var f := FieldOf(cfg.multi, o);
    assert f == Multi([o, sibling]);
    assert !FieldInNames(f, names1) by {
      assert sibling in FieldColumns(f);
    }
    var st1 := EMPTY_FITTED.(sequence := EMPTY_FITTED.sequence + [s1], fittedFields := AddFieldToSet(Single(a), {}));
    assert NextTransformer(cfg.fieldTransformers, cfg.registry, f, "categorical", NextTransformers(s1)).Some?;
    FitOutputNotReady(cfg, st1, names1, s1, 0, fuel);
    FitOutputsStep(cfg, st1, names1, s1, 1, fuel);
    assert FitOutputs(cfg, st1, names1, s1, 0, fuel) == st1;
    FitFieldSteps(cfg, EMPTY_FITTED, [a, b], Single(a), t1, fuel);
    assert FieldColumns(Single(a)) == [a];
  }

  /** An output whose next transformer cannot be fitted yet (its field is not
      all present in the data, or the chain is out of fuel) leaves the state as
      it was. */
  lemma FitOutputNotReady(cfg: Settings, st: Fitted, names: seq<string>, s: Stage, i: nat, fuel: nat)
    requires i < |s.outputColumns| == |s.transformer.outputs|
    requires NextTransformer(cfg.fieldTransformers, cfg.registry, FieldOf(cfg.multi, s.outputColumns[i]),
                             s.transformer.outputs[i].sdtype, NextTransformers(s)).Some?
    requires !(fuel > 0 && FieldInNames(FieldOf(cfg.multi, s.outputColumns[i]), names))
    ensures FitOutput(cfg, st, names, s, i, fuel) == st
  {
  }

  /** An output with no next transformer that is already recorded changes nothing. */
  lemma FitOutputKnown(cfg: Settings, st: Fitted, names: seq<string>, s: Stage, i: nat, fuel: nat)
    requires i < |s.outputColumns| == |s.transformer.outputs|
    requires NextTransformer(cfg.fieldTransformers, cfg.registry, FieldOf(cfg.multi, s.outputColumns[i]),
                             s.transformer.outputs[i].sdtype, NextTransformers(s)).None?
    requires s.outputColumns[i] in st.outputColumns
    ensures FitOutput(cfg, st, names, s, i, fuel) == st
  {
  }
}
