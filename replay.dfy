/** The sequence executor. `transform` calls every fitted transformer's
    `transform` in fit order and `reverse_transform` calls every
    `reverse_transform` in reverse order, each on the evolving table and without
    dropping columns; each then keeps the columns of its argument that `fit`
    never saw, followed by the fitted output (respectively input) columns that
    are present. The main result is that `reverse_transform(transform(data))`
    gives back the columns of `data` that were fitted and are restorable, with
    their values, after the unseen ones. */
module Replay {
  import opened Seqs
  import opened Frames
  import opened Transformers

  // ------------------------------------------------------------ forward pass

  /** The table after the first `k` transformers of the sequence. */
  function Forward(seqn: seq<Stage>, c: Codec, d: Frame, k: nat): (r: Frame)
    requires k <= |seqn|
    ensures Valid(d) ==> Valid(r)
    ensures forall x :: x in d.cols ==> x in r.cols
    decreases k, 1
  {
    if k == 0 then d else ForwardStep(seqn, c, d, k)
  }

  /** Step `k` of the forward pass: transformer `k - 1` on the table before it. */
  function ForwardStep(seqn: seq<Stage>, c: Codec, d: Frame, k: nat): (r: Frame)
    requires 0 < k <= |seqn|
    ensures forall x :: x in Forward(seqn, c, d, k - 1).cols ==> x in r.cols
    decreases k, 0
  {
    StageTransform(seqn[k - 1], c, Forward(seqn, c, d, k - 1), false)
  }

  /** Transformer `j` finds all its input columns when its turn comes. */
  predicate Fired(seqn: seq<Stage>, c: Codec, d: Frame, j: nat)
    requires j < |seqn|
  {
    HasAll(Forward(seqn, c, d, j), seqn[j].columns)
  }

  /** One step of the forward pass: a transformer that fires adds its outputs,
      holding its encoding of its inputs; every other column keeps its value; a
      transformer that does not fire changes nothing. */
  lemma FwdStep(seqn: seq<Stage>, c: Codec, d: Frame, k: nat)
    requires k < |seqn|
    ensures var f, g, s := Forward(seqn, c, d, k), Forward(seqn, c, d, k + 1), seqn[k];
      && (Fired(seqn, c, d, k) ==> forall x :: x in g.cols <==> x in f.cols || x in s.outputColumns)
      && (Fired(seqn, c, d, k) && Distinct(s.outputColumns) ==>
            forall t :: 0 <= t < |s.outputColumns| ==> g.cols[s.outputColumns[t]] == Encode(c, s, Columns(f, s.columns))[t])
      && (forall x :: x in f.cols && x !in s.outputColumns ==> g.cols[x] == f.cols[x])
      && (!Fired(seqn, c, d, k) ==> g == f)
  {
    var f, s := Forward(seqn, c, d, k), seqn[k];
    if Fired(seqn, c, d, k) && Distinct(s.outputColumns) {
      SetColumnsValues(f, s.outputColumns, Encode(c, s, Columns(f, s.columns)));
    }
  }

  /** Columns are only ever added. */
  lemma {:induction false} FwdGrows(seqn: seq<Stage>, c: Codec, d: Frame, k1: nat, k2: nat)
    requires k1 <= k2 <= |seqn|
    ensures forall x :: x in Forward(seqn, c, d, k1).cols ==> x in Forward(seqn, c, d, k2).cols
    decreases k2
  {
    if k1 < k2 {
      FwdGrows(seqn, c, d, k1, k2 - 1);
    }
  }

  /** A column of the table after `k` steps was in the data or is an output of a
      transformer that fired. */
  lemma {:induction false} FwdOrigin(seqn: seq<Stage>, c: Codec, d: Frame, k: nat, x: string)
    requires k <= |seqn|
    requires x in Forward(seqn, c, d, k).cols
    ensures x in d.cols || exists m :: 0 <= m < k && Fired(seqn, c, d, m) && x in seqn[m].outputColumns
    decreases k
  {
    if k > 0 && x !in d.cols {
      FwdStep(seqn, c, d, k - 1);
      if x in Forward(seqn, c, d, k - 1).cols {
        FwdOrigin(seqn, c, d, k - 1, x);
        var m :| 0 <= m < k - 1 && Fired(seqn, c, d, m) && x in seqn[m].outputColumns;
        assert 0 <= m < k;
      } else {
        assert Fired(seqn, c, d, k - 1) && x in seqn[k - 1].outputColumns;
      }
    }
  }

  /** A column that no transformer from step `k1` to step `k2` writes keeps its value. */
  lemma {:induction false} FwdUnchanged(seqn: seq<Stage>, c: Codec, d: Frame, k1: nat, k2: nat, x: string)
    requires k1 <= k2 <= |seqn|
    requires x in Forward(seqn, c, d, k1).cols
    requires forall m :: k1 <= m < k2 ==> x !in seqn[m].outputColumns
    ensures x in Forward(seqn, c, d, k2).cols && Forward(seqn, c, d, k2).cols[x] == Forward(seqn, c, d, k1).cols[x]
    decreases k2
  {
    if k1 < k2 {
      FwdUnchanged(seqn, c, d, k1, k2 - 1, x);
      FwdStep(seqn, c, d, k2 - 1);
      FwdGrows(seqn, c, d, k1, k2 - 1);
    }
  }

  // -------------------------------------------------------------- hypotheses

  /** Column `o` is an output of transformer `j`. */
  predicate OutputOf(seqn: seq<Stage>, j: int, o: string)
  {
    0 <= j < |seqn| && o in seqn[j].outputColumns
  }

  /** What `fit` guarantees of the sequence and of the recorded column lists,
      together with what the data must not clash with: each transformer consumes
      distinct columns and produces at least one; output names are unique across the whole sequence; no
      output is a fitted input column or a column of the data; every recorded
      output column is an output of some transformer. */
  ghost predicate Replayable(seqn: seq<Stage>, inputs: seq<string>, outputs: seq<string>, d: Frame)
  {
    && Valid(d) && Distinct(inputs) && Distinct(outputs)
    && (forall j :: 0 <= j < |seqn| ==>
          Distinct(seqn[j].columns) && Distinct(seqn[j].outputColumns) && |seqn[j].outputColumns| > 0)
    && (forall j, m, o :: OutputOf(seqn, j, o) && OutputOf(seqn, m, o) ==> j == m)
    && (forall j, o :: OutputOf(seqn, j, o) ==> o !in d.cols && o !in inputs)
    && (forall o :: o in outputs ==> exists j :: OutputOf(seqn, j, o))
  }

  /** Every transformer of the sequence is inverted by its reverse. */
  ghost predicate Inverts(c: Codec, seqn: seq<Stage>)
  {
    forall s :: s in seqn ==> StageInverse(c, s)
  }

  /** On this data, every output of a transformer that fires is a recorded output
      column or an input of a later transformer that fires too (a multi-column
      field whose other columns are absent breaks this). */
  ghost predicate Closed(seqn: seq<Stage>, c: Codec, d: Frame, outputs: seq<string>)
  {
    forall j, o :: 0 <= j < |seqn| && Fired(seqn, c, d, j) && o in seqn[j].outputColumns ==>
      o in outputs || exists m :: j < m < |seqn| && Fired(seqn, c, d, m) && o in seqn[m].columns
  }

  // ------------------------------------------------- consequences for forward

  /** An output present at the end was written by its own transformer, which
      therefore fired. */
  lemma OnlyWriter(seqn: seq<Stage>, c: Codec, d: Frame, inputs: seq<string>, outputs: seq<string>, j: nat, o: string)
    requires Replayable(seqn, inputs, outputs, d)
    requires OutputOf(seqn, j, o) && o in Forward(seqn, c, d, |seqn|).cols
    ensures Fired(seqn, c, d, j)
  {
    FwdOrigin(seqn, c, d, |seqn|, o);
    var m :| 0 <= m < |seqn| && Fired(seqn, c, d, m) && o in seqn[m].outputColumns;
    assert OutputOf(seqn, m, o);
  }

  /** The inputs of a transformer that fires keep, to the end, the values it
      read, and none of them is one of its outputs. */
  lemma InputsStable(seqn: seq<Stage>, c: Codec, d: Frame, inputs: seq<string>, outputs: seq<string>, j: nat, x: string)
    requires Replayable(seqn, inputs, outputs, d)
    requires j < |seqn| && Fired(seqn, c, d, j) && x in seqn[j].columns
    ensures x in Forward(seqn, c, d, |seqn|).cols
    ensures Forward(seqn, c, d, |seqn|).cols[x] == Forward(seqn, c, d, j).cols[x]
    ensures x !in seqn[j].outputColumns
  {
    FwdOrigin(seqn, c, d, j, x);
    forall m | j <= m < |seqn|
      ensures x !in seqn[m].outputColumns
    {
      if x in seqn[m].outputColumns {
        assert OutputOf(seqn, m, x);
        if x !in d.cols {
          var m' :| 0 <= m' < j && Fired(seqn, c, d, m') && x in seqn[m'].outputColumns;
          assert OutputOf(seqn, m', x);
        }
      }
    }
    FwdUnchanged(seqn, c, d, j, |seqn|, x);
  }

  /** The outputs of a transformer that fires hold, at the end, its encoding of
      its inputs. */
  lemma OutputsFinal(seqn: seq<Stage>, c: Codec, d: Frame, inputs: seq<string>, outputs: seq<string>, j: nat, t: nat)
    requires Replayable(seqn, inputs, outputs, d)
    requires j < |seqn| && Fired(seqn, c, d, j) && t < |seqn[j].outputColumns|
    ensures var f, s := Forward(seqn, c, d, |seqn|), seqn[j];
      s.outputColumns[t] in f.cols && f.cols[s.outputColumns[t]] == Encode(c, s, Columns(Forward(seqn, c, d, j), s.columns))[t]
  {
    var o := seqn[j].outputColumns[t];
    FwdStep(seqn, c, d, j);
    forall m | j + 1 <= m < |seqn|
      ensures o !in seqn[m].outputColumns
    {
      assert OutputOf(seqn, j, o);
      if o in seqn[m].outputColumns {
        assert OutputOf(seqn, m, o);
      }
    }
    FwdUnchanged(seqn, c, d, j + 1, |seqn|, o);
  }

  /** The columns of the data keep their values to the end. */
  lemma DataStable(seqn: seq<Stage>, c: Codec, d: Frame, inputs: seq<string>, outputs: seq<string>, x: string)
    requires Replayable(seqn, inputs, outputs, d)
    requires x in d.cols
    ensures x in Forward(seqn, c, d, |seqn|).cols && Forward(seqn, c, d, |seqn|).cols[x] == d.cols[x]
  {
    forall m | 0 <= m < |seqn|
      ensures x !in seqn[m].outputColumns
    {
      if x in seqn[m].outputColumns {
        assert OutputOf(seqn, m, x);
      }
    }
    FwdUnchanged(seqn, c, d, 0, |seqn|, x);
  }

  // ---------------------------------------------------------- whole tables

  /** `transform(data)` once fitted: replay every transformer without dropping,
      then keep the columns of the data that `fit` did not see, followed by the
      recorded output columns that are present. */
  function TransformAll(seqn: seq<Stage>, c: Codec, d: Frame, inputs: seq<string>, outputs: seq<string>): (r: Frame)
    requires Valid(d)
    ensures forall x :: x in r.cols <==>
      (x in d.cols && x !in inputs) || (x in outputs && x in Forward(seqn, c, d, |seqn|).cols)
    ensures forall x :: x in r.cols ==> r.cols[x] == Forward(seqn, c, d, |seqn|).cols[x]
    ensures Distinct(outputs) && (forall o :: o in outputs ==> o !in d.cols) ==> Valid(r)
  {
    var f := Forward(seqn, c, d, |seqn|);
    var unseen, present := Without(d.names, Elems(inputs)), Keep(outputs, f.cols.Keys);
    ReindexDistinct(d.names, Elems(inputs), outputs, f.cols.Keys);
    Select(f, unseen + present)
  }

  /** The table after undoing the transformers from the last down to number `i`. */
  function Backward(seqn: seq<Stage>, c: Codec, x: Frame, i: nat): (r: Frame)
    requires i <= |seqn|
    ensures Valid(x) ==> Valid(r)
    ensures forall y :: y in x.cols ==> y in r.cols
    decreases |seqn| - i, 1
  {
    if i == |seqn| then x else BackwardStep(seqn, c, x, i)
  }

  /** Undoing transformer `i` on the table after undoing the later ones. */
  function BackwardStep(seqn: seq<Stage>, c: Codec, x: Frame, i: nat): (r: Frame)
    requires i < |seqn|
    ensures forall y :: y in Backward(seqn, c, x, i + 1).cols ==> y in r.cols
    decreases |seqn| - i, 0
  {
    StageReverse(seqn[i], c, Backward(seqn, c, x, i + 1), false)
  }

  /** `reverse_transform(data)` once fitted: undo every transformer in reverse
      order without dropping, then keep the columns of the argument that are not
      output columns, followed by the recorded input columns that are present. */
  function ReverseAll(seqn: seq<Stage>, c: Codec, x: Frame, inputs: seq<string>, outputs: seq<string>): (r: Frame)
    requires Valid(x)
    ensures forall y :: y in r.cols <==>
      (y in x.cols && y !in outputs) || (y in inputs && y in Backward(seqn, c, x, 0).cols)
    ensures forall y :: y in r.cols ==> r.cols[y] == Backward(seqn, c, x, 0).cols[y]
    ensures Distinct(inputs) && (forall y :: y in x.cols && y !in outputs ==> y !in inputs) ==> Valid(r)
  {
    var b := Backward(seqn, c, x, 0);
    var other, present := Without(x.names, Elems(outputs)), Keep(inputs, b.cols.Keys);
    ReindexDistinct(x.names, Elems(outputs), inputs, b.cols.Keys);
    Select(b, other + present)
  }

  /** The names a reindex keeps are distinct when both lists are and no kept
      name of the first is in the second. */
  lemma ReindexDistinct(a: seq<string>, drop: set<string>, b: seq<string>, keep: set<string>)
    requires Distinct(a)
    ensures Distinct(b) && (forall x :: x in a && x !in drop ==> x !in b) ==> Distinct(Without(a, drop) + Keep(b, keep))
  {
    if Distinct(b) {
      WithoutDistinct(a, drop);
      KeepDistinct(b, keep);
      DistinctConcat(Without(a, drop), Keep(b, keep));
    }
  }

  // ------------------------------------------------------------- round trip

  /** The columns of the data consumed by a transformer that fires on it. */
  ghost function Restored(seqn: seq<Stage>, c: Codec, d: Frame): (r: set<string>)
    ensures forall y :: y in r ==> y in d.cols
  {
    set j, y | 0 <= j < |seqn| && Fired(seqn, c, d, j) && y in seqn[j].columns && y in d.cols :: y
  }

  /** What holds after undoing the transformers down to number `i`: the table is
      valid, agrees with the end of the forward pass on every column it has, has
      the inputs of every later transformer that fired, and has no other column
      than those and the columns of its argument. */
  ghost predicate BackInv(seqn: seq<Stage>, c: Codec, d: Frame, x: Frame, i: nat)
    requires i <= |seqn|
  {
    var b, f := Backward(seqn, c, x, i), Forward(seqn, c, d, |seqn|);
    && Valid(b)
    && (forall y :: y in b.cols ==> y in f.cols && b.cols[y] == f.cols[y])
    && (forall m, y :: i <= m < |seqn| && Fired(seqn, c, d, m) && y in seqn[m].columns ==> y in b.cols)
    && (forall y :: y in b.cols ==>
          y in x.cols || exists m :: i <= m < |seqn| && Fired(seqn, c, d, m) && y in seqn[m].columns)
  }

  /** Undoing a transformer whose outputs are all present: it fired, and it
      writes back exactly the values its inputs had. */
  lemma BackRestores(seqn: seq<Stage>, c: Codec, d: Frame, inputs: seq<string>, outputs: seq<string>, x: Frame, i: nat)
    requires Replayable(seqn, inputs, outputs, d)
    requires i < |seqn| && StageInverse(c, seqn[i]) && BackInv(seqn, c, d, x, i + 1)
    requires HasAll(Backward(seqn, c, x, i + 1), seqn[i].outputColumns)
    ensures Fired(seqn, c, d, i)
    ensures forall y :: y in seqn[i].columns ==>
      && y in Forward(seqn, c, d, |seqn|).cols && y in Backward(seqn, c, x, i).cols
      && Backward(seqn, c, x, i).cols[y] == Forward(seqn, c, d, |seqn|).cols[y]
  {
    var s, b := seqn[i], Backward(seqn, c, x, i + 1);
    var outs := s.outputColumns;
    assert OutputOf(seqn, i, outs[0]);
    OnlyWriter(seqn, c, d, inputs, outputs, i, outs[0]);
    var xs := Columns(Forward(seqn, c, d, i), s.columns);
    assert Columns(b, outs) == Encode(c, s, xs) by {
      forall t | 0 <= t < |outs|
        ensures Columns(b, outs)[t] == Encode(c, s, xs)[t]
      {
        OutputsFinal(seqn, c, d, inputs, outputs, i, t);
      }
    }
    assert Decode(c, s, Encode(c, s, xs)) == xs;
    SetColumnsValues(b, s.columns, xs);
    forall y | y in s.columns
      ensures && y in Forward(seqn, c, d, |seqn|).cols && y in Backward(seqn, c, x, i).cols
              && Backward(seqn, c, x, i).cols[y] == Forward(seqn, c, d, |seqn|).cols[y]
    {
      InputsStable(seqn, c, d, inputs, outputs, i, y);
    }
  }

  /** A transformer that fired finds all its outputs when it is undone, given
      that the argument holds every recorded output column the forward pass
      produced. */
  lemma FiredOutputsPresent(seqn: seq<Stage>, c: Codec, d: Frame, inputs: seq<string>, outputs: seq<string>, x: Frame, i: nat)
    requires Replayable(seqn, inputs, outputs, d) && Closed(seqn, c, d, outputs)
    requires i < |seqn| && BackInv(seqn, c, d, x, i + 1)
    requires forall o :: o in outputs && o in Forward(seqn, c, d, |seqn|).cols ==> o in x.cols
    ensures Fired(seqn, c, d, i) ==> HasAll(Backward(seqn, c, x, i + 1), seqn[i].outputColumns)
  {
    if Fired(seqn, c, d, i) {
      var outs := seqn[i].outputColumns;
      forall o | o in outs
        ensures o in Backward(seqn, c, x, i + 1).cols
      {
        if o in outputs {
          var t :| 0 <= t < |outs| && outs[t] == o;
          OutputsFinal(seqn, c, d, inputs, outputs, i, t);
        }
      }
    }
  }

  /** What the backward pass needs of its argument: a valid table that agrees
      with the end of the forward pass on its columns and holds every recorded
      output column the forward pass produced. */
  ghost predicate Agrees(seqn: seq<Stage>, c: Codec, d: Frame, outputs: seq<string>, x: Frame)
  {
    var f := Forward(seqn, c, d, |seqn|);
    && Valid(x)
    && (forall y :: y in x.cols ==> y in f.cols && x.cols[y] == f.cols[y])
    && (forall o :: o in outputs && o in f.cols ==> o in x.cols)
  }

  /** Nothing undone yet: the invariant holds of the argument. */
  lemma BackInvBase(seqn: seq<Stage>, c: Codec, d: Frame, outputs: seq<string>, x: Frame)
    requires Agrees(seqn, c, d, outputs, x)
    ensures BackInv(seqn, c, d, x, |seqn|)
  {
    assert Backward(seqn, c, x, |seqn|) == x;
  }

  /** Undoing transformer `i` keeps the invariant. */
  lemma BackInvStep(seqn: seq<Stage>, c: Codec, d: Frame, inputs: seq<string>, outputs: seq<string>, x: Frame, i: nat)
    requires Replayable(seqn, inputs, outputs, d) && Closed(seqn, c, d, outputs)
    requires i < |seqn| && StageInverse(c, seqn[i]) && BackInv(seqn, c, d, x, i + 1) && Agrees(seqn, c, d, outputs, x)
    ensures BackInv(seqn, c, d, x, i)
  {
    var s, b := seqn[i], Backward(seqn, c, x, i + 1);
    FiredOutputsPresent(seqn, c, d, inputs, outputs, x, i);
    if HasAll(b, s.outputColumns) {
      BackRestores(seqn, c, d, inputs, outputs, x, i);
    }
  }

  /** The invariant holds all the way down. */
  lemma {:induction false} BackInvAll(seqn: seq<Stage>, c: Codec, d: Frame, inputs: seq<string>, outputs: seq<string>, x: Frame, i: nat)
    requires Inverts(c, seqn) && Replayable(seqn, inputs, outputs, d) && Closed(seqn, c, d, outputs)
    requires i <= |seqn| && Agrees(seqn, c, d, outputs, x)
    ensures BackInv(seqn, c, d, x, i)
    decreases |seqn| - i
  {
    if i == |seqn| {
      BackInvBase(seqn, c, d, outputs, x);
    } else {
      BackInvAll(seqn, c, d, inputs, outputs, x, i + 1);
      assert seqn[i] in seqn;
      BackInvStep(seqn, c, d, inputs, outputs, x, i);
    }
  }

  /** A fitted input column comes back exactly when a transformer consumed it
      on this data. */
  lemma RestoredExactly(seqn: seq<Stage>, c: Codec, d: Frame, inputs: seq<string>, outputs: seq<string>, y: string)
    requires Inverts(c, seqn) && Replayable(seqn, inputs, outputs, d) && Closed(seqn, c, d, outputs)
    requires y in inputs
    ensures y in Backward(seqn, c, TransformAll(seqn, c, d, inputs, outputs), 0).cols <==> y in Restored(seqn, c, d)
  {
    var x := TransformAll(seqn, c, d, inputs, outputs);
    var b := Backward(seqn, c, x, 0);
    BackInvAll(seqn, c, d, inputs, outputs, x, 0);
    if y in b.cols {
      FwdOrigin(seqn, c, d, |seqn|, y);
      if y !in d.cols {
        var m' :| 0 <= m' < |seqn| && Fired(seqn, c, d, m') && y in seqn[m'].outputColumns;
        assert OutputOf(seqn, m', y);
      }
      forall o | o in outputs
        ensures o !in inputs
      {
        var j :| OutputOf(seqn, j, o);
      }
      var m :| 0 <= m < |seqn| && Fired(seqn, c, d, m) && y in seqn[m].columns;
      assert y in Restored(seqn, c, d);
    }
  }

  /** `reverse_transform(transform(data))` gives back the columns of the data
      that `fit` did not see, followed by the fitted input columns that some
      transformer consumed, each with its original values. */
  lemma RoundTrip(seqn: seq<Stage>, c: Codec, d: Frame, inputs: seq<string>, outputs: seq<string>)
    requires Inverts(c, seqn) && Replayable(seqn, inputs, outputs, d) && Closed(seqn, c, d, outputs)
    ensures var x := TransformAll(seqn, c, d, inputs, outputs);
      ReverseAll(seqn, c, x, inputs, outputs)
        == Select(d, Without(d.names, Elems(inputs)) + Keep(inputs, Restored(seqn, c, d)))
  {
    var f := Forward(seqn, c, d, |seqn|);
    var x := TransformAll(seqn, c, d, inputs, outputs);
    var b := Backward(seqn, c, x, 0);
    var unseen, back := Without(d.names, Elems(inputs)), Keep(inputs, Restored(seqn, c, d));
    BackInvAll(seqn, c, d, inputs, outputs, x, 0);
    WithoutConcat(unseen, Keep(outputs, f.cols.Keys), Elems(outputs));
    WithoutNone(unseen, Elems(outputs));
    WithoutAll(Keep(outputs, f.cols.Keys), Elems(outputs));
    forall y | y in inputs
      ensures y in b.cols.Keys <==> y in Restored(seqn, c, d)
    {
      RestoredExactly(seqn, c, d, inputs, outputs, y);
    }
    KeepSameOn(inputs, b.cols.Keys, Restored(seqn, c, d));
    var r := ReverseAll(seqn, c, x, inputs, outputs);
    assert Without(x.names, Elems(outputs)) == unseen;
    assert Keep(inputs, b.cols.Keys) == back;
    assert r.names == unseen + back;
    WithoutDistinct(d.names, Elems(inputs));
    KeepDistinct(inputs, Restored(seqn, c, d));
    DistinctConcat(unseen, back);
    forall y | y in r.names
      ensures r.cols[y] == Select(d, unseen + back).cols[y]
    {
      DataStable(seqn, c, d, inputs, outputs, y);
    }
    SameFrame(r, Select(d, unseen + back));
  }

  // ------------------------------------------------------------ corollaries

  /** Data holding the fitted columns, each consumed by a transformer that
      fires, plus some unseen ones: the unseen columns come back first, then the
      fitted ones in fit order. */
  lemma UnseenFirst(seqn: seq<Stage>, c: Codec, d: Frame, inputs: seq<string>, outputs: seq<string>)
    requires Inverts(c, seqn) && Replayable(seqn, inputs, outputs, d) && Closed(seqn, c, d, outputs)
    requires forall y :: y in inputs ==> y in Restored(seqn, c, d)
    ensures forall y :: y in inputs ==> y in d.cols
    ensures ReverseAll(seqn, c, TransformAll(seqn, c, d, inputs, outputs), inputs, outputs)
              == Select(d, Without(d.names, Elems(inputs)) + inputs)
  {
    RoundTrip(seqn, c, d, inputs, outputs);
    var r := ReverseAll(seqn, c, TransformAll(seqn, c, d, inputs, outputs), inputs, outputs);
    var unseen := Without(d.names, Elems(inputs));
    assert r == Select(d, unseen + Keep(inputs, Restored(seqn, c, d)));
    KeepAll(inputs, Restored(seqn, c, d));
    assert unseen + Keep(inputs, Restored(seqn, c, d)) == unseen + inputs;
  }

  /** Transforming the very columns `fit` saw and reversing the result gives
      the data back. */
  lemma FittedDataRoundTrip(seqn: seq<Stage>, c: Codec, d: Frame, inputs: seq<string>, outputs: seq<string>)
    requires Inverts(c, seqn) && Replayable(seqn, inputs, outputs, d) && Closed(seqn, c, d, outputs)
    requires d.names == inputs
    requires forall y :: y in inputs ==> y in Restored(seqn, c, d)
    ensures ReverseAll(seqn, c, TransformAll(seqn, c, d, inputs, outputs), inputs, outputs) == d
  {
    UnseenFirst(seqn, c, d, inputs, outputs);
    WithoutAll(d.names, Elems(inputs));
    assert [] + inputs == d.names;
    SameFrame(Select(d, d.names), d);
  }

  /** Transforming a subset of the fitted columns, listed in fit order, and
      reversing the result gives that subset back. */
  lemma SubsetRoundTrip(seqn: seq<Stage>, c: Codec, d: Frame, inputs: seq<string>, outputs: seq<string>)
    requires Inverts(c, seqn) && Replayable(seqn, inputs, outputs, d) && Closed(seqn, c, d, outputs)
    requires d.names == Keep(inputs, Elems(d.names))
    requires forall y :: y in d.names ==> y in Restored(seqn, c, d)
    ensures ReverseAll(seqn, c, TransformAll(seqn, c, d, inputs, outputs), inputs, outputs) == d
  {
    RoundTrip(seqn, c, d, inputs, outputs);
    WithoutAll(d.names, Elems(inputs));
    KeepSameOn(inputs, Restored(seqn, c, d), Elems(d.names));
    assert [] + d.names == d.names;
    SameFrame(Select(d, d.names), d);
  }

  /** Transforming the very columns `fit` saw, when every recorded output is
      produced, yields exactly the recorded output columns, in order. */
  lemma TransformFittedData(seqn: seq<Stage>, c: Codec, d: Frame, inputs: seq<string>, outputs: seq<string>)
    requires Valid(d) && Distinct(outputs) && d.names == inputs
    requires forall o :: o in outputs ==> o in Forward(seqn, c, d, |seqn|).cols
    ensures TransformAll(seqn, c, d, inputs, outputs).names == outputs
  {
    WithoutAll(d.names, Elems(inputs));
    KeepAll(outputs, Forward(seqn, c, d, |seqn|).cols.Keys);
    assert [] + outputs == outputs;
  }

  /** Transformers that each consume only columns of the data and whose outputs
      are all recorded: every one fires and the closure condition holds. */
  lemma FlatFires(seqn: seq<Stage>, c: Codec, d: Frame, outputs: seq<string>)
    requires forall j, y :: 0 <= j < |seqn| && y in seqn[j].columns ==> y in d.cols
    requires forall j, o :: OutputOf(seqn, j, o) ==> o in outputs
    ensures forall j :: 0 <= j < |seqn| ==> Fired(seqn, c, d, j)
    ensures Closed(seqn, c, d, outputs)
  {
    forall j | 0 <= j < |seqn|
      ensures Fired(seqn, c, d, j)
    {
      FwdGrows(seqn, c, d, 0, j);
    }
    forall j, o | 0 <= j < |seqn| && o in seqn[j].outputColumns
      ensures o in outputs
    {
      assert OutputOf(seqn, j, o);
    }
  }
}
