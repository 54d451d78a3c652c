/** `fit` on a configuration whose transformers never chain: every key is a
    single column, no column that gets a transformer contains a `.`, and every
    transformer `fit` picks declares only terminal outputs, none of which is
    itself a key of `field_transformers`. `fit` then fits the configured columns
    of the data in key order, then every other column that has a transformer
    for its sdtype in `field_sdtypes` order, one transformer each. The sequence
    it records satisfies what the sequence executor needs, so
    `reverse_transform(transform(data))` gives the data back. */
module FlatFit {
  import opened Wrappers
  import opened Seqs
  import opened Strings
  import opened Naming
  import opened Transformers
  import opened Config
  import opened Frames
  import opened Fitting
  import opened Replay

  /** One transformer `fit` applies: the column it is fitted on, and the
      transformer. */
  datatype Planned = Planned(column: string, transformer: Transformer)

  function PlanStage(p: Planned): Stage
  {
    FitStage(p.transformer, [p.column])
  }

  /** The fitted transformers of a plan, in order. */
  function Stages(plan: seq<Planned>): (r: seq<Stage>)
    ensures |r| == |plan|
    ensures forall j :: 0 <= j < |plan| ==> r[j] == PlanStage(plan[j])
  {
    seq(|plan|, j requires 0 <= j < |plan| => PlanStage(plan[j]))
  }

  /** The columns a plan fits. */
  function PlanColumns(plan: seq<Planned>): (r: set<string>)
    ensures forall c :: c in r <==> exists p :: p in plan && p.column == c
  {
    set p | p in plan :: p.column
  }

  /** The output columns of the plan's transformers. */
  function PlanOutputs(plan: seq<Planned>): (r: set<string>)
    ensures forall o :: o in r <==> exists p :: p in plan && o in PlanStage(p).outputColumns
  {
    set p, o | p in plan && o in PlanStage(p).outputColumns :: o
  }

  /** No column is fitted twice. */
  predicate UniqueColumns(plan: seq<Planned>)
  {
    forall j, m :: 0 <= j < m < |plan| ==> plan[j].column != plan[m].column
  }

  /** A plan entry that does not chain: its column has no `.`, its transformer
      is well declared, and each of its outputs has a terminal sdtype and is not
      a key of `field_transformers`. */
  predicate PlanFlat(ft: Dict<Transformer>, p: Planned)
  {
    && SUFFIX_SEP !in p.column
    && WellDeclared(p.transformer)
    && forall i :: 0 <= i < |p.transformer.outputs| ==>
         && p.transformer.outputs[i].sdtype in TERMINAL_SDTYPES
         && Single(OutputName(p.column, p.transformer.outputs[i].suffix)) !in ft.vals
  }

  predicate AllFlat(ft: Dict<Transformer>, plan: seq<Planned>)
  {
    forall p :: p in plan ==> PlanFlat(ft, p)
  }

  // ------------------------------------------------------------------ names

  /** An output name splits back into its prefix when the prefix has no `.`. */
  lemma OutputNameSplit(p1: string, x1: string, p2: string, x2: string)
    requires SUFFIX_SEP !in p1 && SUFFIX_SEP !in p2
    requires OutputName(p1, x1) == OutputName(p2, x2)
    ensures p1 == p2
  {
    var n := OutputName(p1, x1);
    assert n[|p1|] == SUFFIX_SEP && n[|p2|] == SUFFIX_SEP;
    assert forall k :: 0 <= k < |p1| ==> n[k] == p1[k];
    assert forall k :: 0 <= k < |p2| ==> n[k] == p2[k];
    assert |p1| == |p2|;
    assert p1 == n[..|p1|] == p2;
  }

  /** A transformer fitted on one column names its outputs `<column>.<suffix>`,
      and each holds a `.`. */
  lemma PlanStageOutputs(p: Planned)
    ensures |PlanStage(p).outputColumns| == |p.transformer.outputs|
    ensures forall i :: 0 <= i < |p.transformer.outputs| ==>
      PlanStage(p).outputColumns[i] == OutputName(p.column, p.transformer.outputs[i].suffix)
    ensures forall o :: o in PlanStage(p).outputColumns ==> SUFFIX_SEP in o
  {
    assert Prefix([p.column]) == p.column;
    FitStageNames(p.transformer, [p.column]);
    forall o | o in PlanStage(p).outputColumns
      ensures SUFFIX_SEP in o
    {
      var i :| 0 <= i < |PlanStage(p).outputColumns| && PlanStage(p).outputColumns[i] == o;
      assert o[|p.column|] == SUFFIX_SEP;
    }
  }

  /** Outputs of transformers fitted on different columns without a `.` differ. */
  lemma OutputsApart(p: Planned, q: Planned, o: string)
    requires SUFFIX_SEP !in p.column && SUFFIX_SEP !in q.column
    requires o in PlanStage(p).outputColumns && o in PlanStage(q).outputColumns
    ensures p.column == q.column
  {
    PlanStageOutputs(p);
    PlanStageOutputs(q);
    var i :| 0 <= i < |PlanStage(p).outputColumns| && PlanStage(p).outputColumns[i] == o;
    var j :| 0 <= j < |PlanStage(q).outputColumns| && PlanStage(q).outputColumns[j] == o;
    OutputNameSplit(p.column, p.transformer.outputs[i].suffix, q.column, q.transformer.outputs[j].suffix);
  }

  /** A name without a `.` is no output. */
  lemma PlainNotOutput(plan: seq<Planned>, n: string)
    requires SUFFIX_SEP !in n
    ensures n !in PlanOutputs(plan)
  {
    if n in PlanOutputs(plan) {
      var p :| p in plan && n in PlanStage(p).outputColumns;
      PlanStageOutputs(p);
    }
  }

  // ------------------------------------------------------------ fitted state

  /** The state fitting the plan's transformers in order leaves when none of
      their outputs chains: each transformer joins the sequence, its column gets
      a tree node and is marked fitted, and its outputs join the output
      columns. */
  function Built(plan: seq<Planned>): Fitted
    decreases |plan|
  {
    if |plan| == 0 then EMPTY_FITTED
    else
      var prev, p := Built(plan[..|plan| - 1]), plan[|plan| - 1];
      var s := PlanStage(p);
      Fitted(prev.sequence + [s], prev.tree[Single(p.column) := Node(s, s.outputColumns)],
             prev.outputColumns + s.outputColumns, AddFieldToSet(Single(p.column), prev.fittedFields))
  }

  /** The sequence holds the plan's transformers. */
  lemma {:induction false} BuiltSequence(plan: seq<Planned>)
    ensures Built(plan).sequence == Stages(plan)
    decreases |plan|
  {
    if |plan| > 0 {
      var init, p := plan[..|plan| - 1], plan[|plan| - 1];
      BuiltSequence(init);
      assert Built(plan).sequence == Built(init).sequence + [PlanStage(p)];
      var a, b := Stages(init) + [PlanStage(p)], Stages(plan);
      assert |a| == |b|;
      forall j | 0 <= j < |a|
        ensures a[j] == b[j]
      {
        if j < |init| {
          assert init[j] == plan[j];
        }
      }
    }
  }

  /** The fitted columns are the plan's columns. */
  lemma {:induction false} BuiltFitted(plan: seq<Planned>)
    ensures Built(plan).fittedFields == PlanColumns(plan)
    decreases |plan|
  {
    if |plan| > 0 {
      var init, p := plan[..|plan| - 1], plan[|plan| - 1];
      BuiltFitted(init);
      assert plan == init + [p];
      assert FieldColumns(Single(p.column)) == [p.column];
    }
  }

  /** The tree is keyed by the plan's columns and the output columns are the
      plan's outputs. */
  lemma {:induction false} BuiltOutputs(plan: seq<Planned>)
    ensures forall k :: k in Built(plan).tree <==> k.Single? && k.name in PlanColumns(plan)
    ensures forall o :: o in Built(plan).outputColumns <==> o in PlanOutputs(plan)
    decreases |plan|
  {
    if |plan| > 0 {
      var init, p := plan[..|plan| - 1], plan[|plan| - 1];
      BuiltOutputs(init);
      assert plan == init + [p];
    }
  }

  /** Each fitted column's tree node holds its own transformer. */
  lemma {:induction false} BuiltTree(plan: seq<Planned>, j: nat)
    requires UniqueColumns(plan) && j < |plan|
    ensures Single(plan[j].column) in Built(plan).tree
    ensures Built(plan).tree[Single(plan[j].column)] == Node(PlanStage(plan[j]), PlanStage(plan[j]).outputColumns)
    decreases |plan|
  {
    var init := plan[..|plan| - 1];
    if j < |plan| - 1 {
      assert init[j] == plan[j];
      BuiltTree(init, j);
    }
  }

  /** Fitting one more flat column whose column is new extends the state as
      `Built` says, and the data loses that column and gains its outputs. */
  lemma FlatFieldStep(cfg: Settings, plan: seq<Planned>, names: seq<string>, p: Planned, fuel: nat)
    requires cfg.multi == map[] && PlanFlat(cfg.fieldTransformers, p)
    requires p.column !in PlanColumns(plan) && forall q :: q in plan ==> SUFFIX_SEP !in q.column
    ensures FitField(cfg, Built(plan), names, Single(p.column), p.transformer, fuel).0 == Built(plan + [p])
    ensures FitField(cfg, Built(plan), names, Single(p.column), p.transformer, fuel).1 == TransformNames(PlanStage(p), names)
  {
    var s := PlanStage(p);
    assert FieldColumns(Single(p.column)) == [p.column];
    PlanStageOutputs(p);
    FitStageOutputsFresh(p.transformer, [p.column]);
    forall i | 0 <= i < |s.outputColumns|
      ensures TerminalOutput(cfg, s, i)
    {
    }
    BuiltOutputs(plan);
    forall o | o in s.outputColumns
      ensures o !in Built(plan).outputColumns
    {
      if o in Built(plan).outputColumns {
        var q :| q in plan && o in PlanStage(q).outputColumns;
        OutputsApart(p, q, o);
      }
    }
    FitFieldTerminal(cfg, Built(plan), names, Single(p.column), p.transformer, fuel);
    FitFieldRecords(cfg, Built(plan), names, Single(p.column), p.transformer, fuel);
    assert (plan + [p])[..|plan|] == plan;
  }

  /** One more column without a `.` that is not fitted yet keeps the columns
      apart. */
  lemma UniqueSnoc(plan: seq<Planned>, p: Planned)
    requires UniqueColumns(plan) && p.column !in PlanColumns(plan)
    ensures UniqueColumns(plan + [p])
  {
    forall j, m | 0 <= j < m < |plan + [p]|
      ensures (plan + [p])[j].column != (plan + [p])[m].column
    {
      if m == |plan| {
        assert (plan + [p])[j] == plan[j] && plan[j] in plan;
      } else {
        assert (plan + [p])[j] == plan[j] && (plan + [p])[m] == plan[m];
      }
    }
  }

  // ------------------------------------------------------------ column names

  /** The column names of the data after fitting the plan on data with the
      columns `names0`: the columns no planned transformer consumed, and the
      plan's outputs. */
  ghost predicate NamesAfter(names0: seq<string>, plan: seq<Planned>, names: seq<string>)
  {
    forall n :: n in names <==> (n in names0 && n !in PlanColumns(plan)) || n in PlanOutputs(plan)
  }

  /** Transforming one more planned column, present in the data, removes it
      and adds its outputs. */
  lemma NamesStep(names0: seq<string>, plan: seq<Planned>, names: seq<string>, p: Planned)
    requires NamesAfter(names0, plan, names)
    requires p.column in names && SUFFIX_SEP !in p.column
    ensures NamesAfter(names0, plan + [p], TransformNames(PlanStage(p), names))
  {
    PlanStageOutputs(p);
    PlainNotOutput(plan, p.column);
    assert forall q :: q in plan + [p] <==> q in plan || q == p;
  }

  /** Fitting one more flat column of the data that is not fitted yet moves
      both the state and the remaining data names one plan entry on. */
  lemma FlatStep(cfg: Settings, names0: seq<string>, plan: seq<Planned>, names: seq<string>, p: Planned, fuel: nat)
    requires cfg.multi == map[] && PlanFlat(cfg.fieldTransformers, p)
    requires p.column !in PlanColumns(plan) && forall q :: q in plan ==> SUFFIX_SEP !in q.column
    requires NamesAfter(names0, plan, names) && p.column in names0
    ensures FitField(cfg, Built(plan), names, Single(p.column), p.transformer, fuel).0 == Built(plan + [p])
    ensures NamesAfter(names0, plan + [p], FitField(cfg, Built(plan), names, Single(p.column), p.transformer, fuel).1)
  {
    FlatFieldStep(cfg, plan, names, p, fuel);
    NamesStep(names0, plan, names, p);
  }

  /** A key of `field_transformers` is no output of a flat plan. */
  lemma ConfiguredNotOutput(ft: Dict<Transformer>, plan: seq<Planned>, c: string)
    requires Single(c) in ft.vals && AllFlat(ft, plan)
    ensures c !in PlanOutputs(plan)
  {
    if c in PlanOutputs(plan) {
      var q :| q in plan && c in PlanStage(q).outputColumns;
      PlanStageOutputs(q);
    }
  }

  // ------------------------------------------------------------ both loops

  /** The first loop's plan after one more key of `field_transformers`: the
      key joins when its column is in the data and not fitted yet. */
  function NextConfigured(init: seq<Planned>, names: seq<string>, key: Field, t: Transformer): (r: seq<Planned>)
    ensures r == init || (key.Single? && r == init + [Planned(key.name, t)] && key.name in names && key.name !in PlanColumns(init))
  {
    if key.Single? && key.name in names && key.name !in PlanColumns(init) then init + [Planned(key.name, t)]
    else init
  }

  /** What the first loop of `fit` fits over the first `k` keys of
      `field_transformers`: each key whose column is in the data and not
      fitted yet, with its configured transformer. */
  function ConfiguredPlan(ft: Dict<Transformer>, names: seq<string>, k: nat): seq<Planned>
    requires Covered(ft) && k <= |ft.keys|
  {
    if k == 0 then []
    else NextConfigured(ConfiguredPlan(ft, names, k - 1), names, ft.keys[k - 1], ft.vals[ft.keys[k - 1]])
  }

  /** The first loop's state and names match its plan `plan`, a plan of
      distinct columns of the data `names0`. */
  ghost predicate ConfiguredAt(names0: seq<string>, plan: seq<Planned>, res: (Fitted, seq<string>))
  {
    && res.0 == Built(plan)
    && NamesAfter(names0, plan, res.1)
    && UniqueColumns(plan)
    && forall p :: p in plan ==> p.column in names0
  }

  /** One key of the first loop keeps its state in step with its plan. */
  lemma ConfiguredStepFlat(cfg: Settings, names0: seq<string>, init: seq<Planned>, prev: (Fitted, seq<string>), key: Field, fuel: nat)
    requires cfg.multi == map[] && key.Single? && key in cfg.fieldTransformers.vals
    requires AllFlat(cfg.fieldTransformers, NextConfigured(init, names0, key, cfg.fieldTransformers.vals[key]))
    requires ConfiguredAt(names0, init, prev)
    ensures ConfiguredAt(names0, NextConfigured(init, names0, key, cfg.fieldTransformers.vals[key]),
                         if FieldInNames(key, prev.1) then FitField(cfg, prev.0, prev.1, key, cfg.fieldTransformers.vals[key], fuel) else prev)
  {
    var ft := cfg.fieldTransformers;
    var plan := NextConfigured(init, names0, key, ft.vals[key]);
    assert FieldColumns(key) == [key.name];
    ConfiguredNotOutput(ft, init, key.name);
    if key.name in names0 && key.name !in PlanColumns(init) {
      var p := Planned(key.name, ft.vals[key]);
      assert p in plan;
      FlatStep(cfg, names0, init, prev.1, p, fuel);
      UniqueSnoc(init, p);
    }
  }

  /** The first loop of `fit`, from nothing, builds the state of its plan, and
      the data then holds the columns it did not fit and the outputs. */
  lemma {:induction false} FitConfiguredFlat(cfg: Settings, names0: seq<string>, k: nat, fuel: nat)
    requires cfg.multi == map[] && Covered(cfg.fieldTransformers) && k <= |cfg.fieldTransformers.keys|
    requires forall key :: key in cfg.fieldTransformers.keys ==> key.Single?
    requires AllFlat(cfg.fieldTransformers, ConfiguredPlan(cfg.fieldTransformers, names0, k))
    ensures ConfiguredAt(names0, ConfiguredPlan(cfg.fieldTransformers, names0, k), FitConfigured(cfg, EMPTY_FITTED, names0, k, fuel))
    decreases k
  {
    var ft := cfg.fieldTransformers;
    if k == 0 {
      assert Built([]) == EMPTY_FITTED;
    } else {
      var init, key := ConfiguredPlan(ft, names0, k - 1), ft.keys[k - 1];
      assert forall q :: q in init ==> q in ConfiguredPlan(ft, names0, k);
      FitConfiguredFlat(cfg, names0, k - 1, fuel);
      assert FitConfigured(cfg, EMPTY_FITTED, names0, k, fuel) == FitConfiguredStep(cfg, EMPTY_FITTED, names0, k, fuel);
      assert key in ft.keys;
      ConfiguredStepFlat(cfg, names0, init, FitConfigured(cfg, EMPTY_FITTED, names0, k - 1, fuel), key, fuel);
    }
  }

  /** The second loop's plan after one more key of `field_sdtypes`: the key
      joins, with the transformer `dt` found for its sdtype, when its column
      is not fitted yet. */
  function NextDefault(init: seq<Planned>, key: Field, dt: Option<Transformer>): (r: seq<Planned>)
    ensures r == init || (key.Single? && dt.Some? && r == init + [Planned(key.name, dt.value)] && key.name !in PlanColumns(init))
  {
    if key.Single? && key.name !in PlanColumns(init) && dt.Some? then init + [Planned(key.name, dt.value)]
    else init
  }

  /** What the second loop of `fit` adds to `plan` over the first `k` keys of
      `field_sdtypes`: each key whose column is not fitted yet and whose sdtype
      has a default transformer, with that transformer. */
  function DefaultPlan(registry: map<string, Transformer>, defaults: map<string, Transformer>, fs: Dict<string>,
                       plan: seq<Planned>, k: nat): seq<Planned>
    requires Covered(fs) && k <= |fs.keys|
  {
    if k == 0 then plan
    else NextDefault(DefaultPlan(registry, defaults, fs, plan, k - 1), fs.keys[k - 1],
                     DefaultTransformer(defaults, registry, fs.vals[fs.keys[k - 1]]))
  }

  /** The second loop's outcome matches its plan `plan` over the data `names0`:
      it succeeds exactly when every planned column is in the data, and then
      its state and names are those of the plan. */
  ghost predicate DefaultsAt(names0: seq<string>, plan: seq<Planned>, res: Result<(Fitted, seq<string>), FitError>)
  {
    && (res.Ok? <==> forall p :: p in plan ==> p.column in names0)
    && (res.Ok? ==> res.value.0 == Built(plan) && NamesAfter(names0, plan, res.value.1))
    && UniqueColumns(plan)
  }

  /** One key of the second loop keeps its outcome in step with its plan. */
  lemma DefaultStepFlat(cfg: Settings, names0: seq<string>, init: seq<Planned>, prev: Result<(Fitted, seq<string>), FitError>,
                        key: Field, dt: Option<Transformer>, fuel: nat)
    requires cfg.multi == map[] && key.Single?
    requires AllFlat(cfg.fieldTransformers, NextDefault(init, key, dt))
    requires DefaultsAt(names0, init, prev)
    ensures prev.Ok? ==> DefaultsAt(names0, NextDefault(init, key, dt), DefaultField(cfg, prev.value, key, dt, fuel))
    ensures prev.Err? ==> DefaultsAt(names0, NextDefault(init, key, dt), prev)
  {
    var plan := NextDefault(init, key, dt);
    if plan != init {
      var p := Planned(key.name, dt.value);
      assert key == Single(p.column) && dt == Some(p.transformer) && plan == init + [p];
      assert p in plan;
      assert forall q :: q in init ==> q in plan;
      DefaultNewFlat(cfg, names0, init, prev, p, fuel);
    } else if prev.Ok? {
      assert FieldColumns(key) == [key.name];
      BuiltFitted(init);
      assert DefaultField(cfg, prev.value, key, dt, fuel) == Ok(prev.value);
    }
  }

  /** A key whose column the second loop has not fitted yet and whose sdtype
      has a default transformer keeps its outcome in step with its plan. */
  lemma DefaultNewFlat(cfg: Settings, names0: seq<string>, init: seq<Planned>, prev: Result<(Fitted, seq<string>), FitError>,
                       p: Planned, fuel: nat)
    requires cfg.multi == map[] && PlanFlat(cfg.fieldTransformers, p) && forall q :: q in init ==> SUFFIX_SEP !in q.column
    requires DefaultsAt(names0, init, prev) && p.column !in PlanColumns(init)
    ensures prev.Ok? ==> DefaultsAt(names0, init + [p], DefaultField(cfg, prev.value, Single(p.column), Some(p.transformer), fuel))
    ensures prev.Err? ==> DefaultsAt(names0, init + [p], prev)
  {
    UniqueSnoc(init, p);
    if prev.Err? {
      var q :| q in init && q.column !in names0;
      assert q in init + [p];
    } else if p.column in names0 {
      DefaultFitFlat(cfg, names0, init, prev.value, p, fuel);
    } else {
      assert p in init + [p];
      BuiltFitted(init);
      assert FieldColumns(Single(p.column)) == [p.column];
      assert DefaultField(cfg, prev.value, Single(p.column), Some(p.transformer), fuel) == Err(Absent(Single(p.column)));
    }
  }

  /** The second loop fitting a new column of the data keeps its outcome in
      step with its plan. */
  lemma DefaultFitFlat(cfg: Settings, names0: seq<string>, init: seq<Planned>, prev: (Fitted, seq<string>), p: Planned, fuel: nat)
    requires cfg.multi == map[] && PlanFlat(cfg.fieldTransformers, p) && forall q :: q in init ==> SUFFIX_SEP !in q.column
    requires DefaultsAt(names0, init, Ok(prev)) && UniqueColumns(init + [p])
    requires p.column !in PlanColumns(init) && p.column in names0
    ensures DefaultsAt(names0, init + [p], DefaultField(cfg, prev, Single(p.column), Some(p.transformer), fuel))
  {
    BuiltFitted(init);
    assert FieldColumns(Single(p.column)) == [p.column];
    assert p.column in prev.1;
    FlatStep(cfg, names0, init, prev.1, p, fuel);
    assert DefaultField(cfg, prev, Single(p.column), Some(p.transformer), fuel)
        == Ok(FitField(cfg, prev.0, prev.1, Single(p.column), p.transformer, fuel));
    DefaultsSnoc(names0, init, p, prev, FitField(cfg, prev.0, prev.1, Single(p.column), p.transformer, fuel));
  }

  /** A plan that succeeded, with one more entry whose column is in the data,
      still succeeds. */
  lemma DefaultsSnoc(names0: seq<string>, init: seq<Planned>, p: Planned, prev: (Fitted, seq<string>), res: (Fitted, seq<string>))
    requires DefaultsAt(names0, init, Ok(prev)) && p.column in names0
    requires res.0 == Built(init + [p]) && NamesAfter(names0, init + [p], res.1) && UniqueColumns(init + [p])
    ensures DefaultsAt(names0, init + [p], Ok(res))
  {
    assert forall q :: q in init + [p] ==> q in init || q == p;
  }

  /** The second loop of `fit` succeeds exactly when every column of its plan
      is in the data, and then builds the state of its plan. */
  lemma {:induction false} FitDefaultsFlat(cfg: Settings, defaults: map<string, Transformer>, fs: Dict<string>,
                                           names0: seq<string>, plan1: seq<Planned>, names1: seq<string>, k: nat, fuel: nat)
    requires cfg.multi == map[] && Covered(fs) && k <= |fs.keys|
    requires forall key :: key in fs.keys ==> key.Single?
    requires ConfiguredAt(names0, plan1, (Built(plan1), names1))
    requires AllFlat(cfg.fieldTransformers, DefaultPlan(cfg.registry, defaults, fs, plan1, k))
    ensures DefaultsAt(names0, DefaultPlan(cfg.registry, defaults, fs, plan1, k), FitDefaults(cfg, defaults, fs, Built(plan1), names1, k, fuel))
    decreases k
  {
    if k > 0 {
      var init, key := DefaultPlan(cfg.registry, defaults, fs, plan1, k - 1), fs.keys[k - 1];
      var dt := DefaultTransformer(defaults, cfg.registry, fs.vals[key]);
      assert AllFlat(cfg.fieldTransformers, init) by {
        assert forall q :: q in init ==> q in DefaultPlan(cfg.registry, defaults, fs, plan1, k);
      }
      FitDefaultsFlat(cfg, defaults, fs, names0, plan1, names1, k - 1, fuel);
      var prev := FitDefaults(cfg, defaults, fs, Built(plan1), names1, k - 1, fuel);
      assert DefaultsAt(names0, init, prev);
      assert key in fs.keys;
      assert AllFlat(cfg.fieldTransformers, NextDefault(init, key, dt));
      DefaultStepFlat(cfg, names0, init, prev, key, dt, fuel);
      assert FitDefaults(cfg, defaults, fs, Built(plan1), names1, k, fuel) == FitDefaultsStep(cfg, defaults, fs, Built(plan1), names1, k, fuel);
    }
  }

  // -------------------------------------------------------------- whole fit

  /** Single-column keys that are pairwise different never repeat a column. */
  lemma SinglesUnique(keys: seq<Field>)
    requires KeysDistinct(keys) && forall k :: k in keys ==> k.Single?
    ensures DuplicateField(keys).None?
  {
    forall i | 0 <= i < |keys|
      ensures !Repeats(keys, i)
    {
      assert keys[i] in keys;
      var n := keys[i].name;
      assert FieldColumns(keys[i]) == [n];
      if n in Seen(keys[..i]) {
        var j :| 0 <= j < i && n in FieldColumns(keys[..i][j]);
        assert keys[..i][j] == keys[j] && keys[j] in keys;
        KeysDistinctAt(keys, j, i);
      }
    }
  }

  /** Without tuple keys there is no multi-column field. */
  lemma SinglesNoMulti(fields: seq<Field>)
    requires forall k :: k in fields ==> k.Single?
    ensures MultiColumnFields(fields) == map[]
  {
    assert MultiColumnFields(fields).Keys == {};
  }

  /** Learning adds only single-column keys. */
  lemma LearnedSingles(fs: Dict<string>, cols: map<string, Column>, names: seq<string>)
    requires forall n :: n in names ==> n in cols
    requires DictValid(fs) && forall k :: k in fs.keys ==> k.Single?
    ensures forall k :: k in LearnSdtypes(fs, cols, names).keys ==> k.Single?
  {
    LearnSdtypesEntries(fs, cols, names);
  }

  /** The second loop only appends to the plan of the first. */
  lemma {:induction false} DefaultPlanExtends(registry: map<string, Transformer>, defaults: map<string, Transformer>,
                                              fs: Dict<string>, plan: seq<Planned>, k: nat)
    requires Covered(fs) && k <= |fs.keys|
    ensures plan <= DefaultPlan(registry, defaults, fs, plan, k)
    decreases k
  {
    if k > 0 {
      DefaultPlanExtends(registry, defaults, fs, plan, k - 1);
    }
  }

  /** The transformers `fit` fits when nothing chains: first each key of
      `field_transformers` whose column is in the data, then each learned
      sdtype whose column is still unfitted and that has a default. */
  function FullPlan(ft: Dict<Transformer>, fs: Dict<string>, defaults: map<string, Transformer>,
                    registry: map<string, Transformer>, f: Frame): seq<Planned>
    requires DictValid(ft) && DictValid(fs) && Stored(f)
  {
    var fs1 := LearnSdtypes(fs, f.cols, f.names);
    DefaultPlan(registry, defaults, fs1, ConfiguredPlan(ft, f.names, |ft.keys|), |fs1.keys|)
  }

  /** The entries of a flat plan's prefix are flat. */
  lemma PrefixFlat(ft: Dict<Transformer>, init: seq<Planned>, plan: seq<Planned>)
    requires init <= plan && AllFlat(ft, plan)
    ensures AllFlat(ft, init)
  {
    forall q | q in init
      ensures q in plan
    {
      var i :| 0 <= i < |init| && init[i] == q;
      assert plan[i] == q;
    }
  }

  /** Both loops of `fit` over single-column keys and a plan that does not
      chain: they succeed exactly when every planned column is in the data,
      and then leave the state of the plan, outputs sorted by input column. */
  lemma FitLearnedFlat(cfg: Settings, defaults: map<string, Transformer>, fs: Dict<string>, names0: seq<string>, fuel: nat)
    requires cfg.multi == map[] && Covered(cfg.fieldTransformers) && Covered(fs)
    requires (forall k :: k in cfg.fieldTransformers.keys ==> k.Single?) && (forall k :: k in fs.keys ==> k.Single?)
    requires AllFlat(cfg.fieldTransformers, DefaultPlan(cfg.registry, defaults, fs,
                                                        ConfiguredPlan(cfg.fieldTransformers, names0, |cfg.fieldTransformers.keys|), |fs.keys|))
    ensures FitLearned(cfg, defaults, fs, EMPTY_FITTED, names0, fuel).Ok?
            <==> forall p :: p in DefaultPlan(cfg.registry, defaults, fs,
                                              ConfiguredPlan(cfg.fieldTransformers, names0, |cfg.fieldTransformers.keys|), |fs.keys|)
                   ==> p.column in names0
    ensures FitLearned(cfg, defaults, fs, EMPTY_FITTED, names0, fuel).Ok? ==>
              FitLearned(cfg, defaults, fs, EMPTY_FITTED, names0, fuel).value
              == Built(DefaultPlan(cfg.registry, defaults, fs, ConfiguredPlan(cfg.fieldTransformers, names0, |cfg.fieldTransformers.keys|), |fs.keys|))
                 .(outputColumns := SortOutputColumns(Built(DefaultPlan(cfg.registry, defaults, fs,
                     ConfiguredPlan(cfg.fieldTransformers, names0, |cfg.fieldTransformers.keys|), |fs.keys|)).tree, map[], names0))
    ensures UniqueColumns(DefaultPlan(cfg.registry, defaults, fs,
                                      ConfiguredPlan(cfg.fieldTransformers, names0, |cfg.fieldTransformers.keys|), |fs.keys|))
  {
    var ft := cfg.fieldTransformers;
    var plan1 := ConfiguredPlan(ft, names0, |ft.keys|);
    var plan := DefaultPlan(cfg.registry, defaults, fs, plan1, |fs.keys|);
    DefaultPlanExtends(cfg.registry, defaults, fs, plan1, |fs.keys|);
    PrefixFlat(ft, plan1, plan);
    FitConfiguredFlat(cfg, names0, |ft.keys|, fuel);
    var loop1 := FitConfigured(cfg, EMPTY_FITTED, names0, |ft.keys|, fuel);
    FitDefaultsFlat(cfg, defaults, fs, names0, plan1, loop1.1, |fs.keys|, fuel);
    assert loop1 == (Built(plan1), loop1.1);
  }

  /** When every key is a single column and nothing the plan fits chains, `fit`
      succeeds exactly when every planned column is in the data, and then its
      state is that of the plan, with the outputs sorted by input column. */
  lemma FitAllFlat(ft: Dict<Transformer>, fs: Dict<string>, defaults: map<string, Transformer>,
                   registry: map<string, Transformer>, f: Frame, fuel: nat)
    requires DictValid(ft) && DictValid(fs) && Valid(f)
    requires (forall k :: k in ft.keys ==> k.Single?) && (forall k :: k in fs.keys ==> k.Single?)
    requires AllFlat(ft, FullPlan(ft, fs, defaults, registry, f))
    ensures FitAll(ft, fs, defaults, registry, f, fuel).Ok?
            <==> forall p :: p in FullPlan(ft, fs, defaults, registry, f) ==> p.column in f.names
    ensures FitAll(ft, fs, defaults, registry, f, fuel).Ok? ==>
              FitAll(ft, fs, defaults, registry, f, fuel).value.fitted
              == Built(FullPlan(ft, fs, defaults, registry, f)).(outputColumns :=
                   SortOutputColumns(Built(FullPlan(ft, fs, defaults, registry, f)).tree, map[], f.names))
    ensures UniqueColumns(FullPlan(ft, fs, defaults, registry, f))
  {
    var fs1 := LearnSdtypes(fs, f.cols, f.names);
    SinglesUnique(ft.keys);
    LearnedSingles(fs, f.cols, f.names);
    SinglesNoMulti(ft.keys + fs1.keys);
    FitLearnedFlat(Settings(ft, registry, map[]), defaults, fs1, f.names, fuel);
    assert FitAll(ft, fs, defaults, registry, f, fuel) == FitFields(ft, fs, defaults, registry, f, fuel);
  }

  // ----------------------------------------------------- replaying the fit

  /** The position of a planned column in its plan. */
  lemma PlanIndex(plan: seq<Planned>, c: string) returns (j: nat)
    requires c in PlanColumns(plan)
    ensures j < |plan| && plan[j].column == c
  {
    var p :| p in plan && p.column == c;
    var i :| 0 <= i < |plan| && plan[i] == p;
    j := i;
  }

  /** A column whose node's outputs are no tree keys has those outputs as its
      final outputs. */
  lemma FinalFlat(tree: map<Field, Node>, c: string, outs: seq<string>)
    requires Single(c) in tree && tree[Single(c)].outputs == outs
    requires forall o :: o in outs ==> Single(o) !in tree
    ensures RootOutputs(tree, map[], c) == outs
  {
    LeavesFlat(tree - {Single(c)}, outs);
    assert RootField(map[], c) == Some(Single(c));
  }

  /** No name with a `.` keys the tree of a plan whose columns have none. */
  lemma TreeKeysPlain(plan: seq<Planned>, o: string)
    requires SUFFIX_SEP in o && forall q :: q in plan ==> SUFFIX_SEP !in q.column
    ensures Single(o) !in Built(plan).tree
  {
    BuiltOutputs(plan);
  }

  /** A planned column's final outputs are its own transformer's outputs. */
  lemma BuiltRootAt(plan: seq<Planned>, j: nat)
    requires UniqueColumns(plan) && j < |plan| && forall q :: q in plan ==> SUFFIX_SEP !in q.column
    ensures RootOutputs(Built(plan).tree, map[], plan[j].column) == PlanStage(plan[j]).outputColumns
  {
    var outs := PlanStage(plan[j]).outputColumns;
    BuiltTree(plan, j);
    PlanStageOutputs(plan[j]);
    forall o | o in outs
      ensures Single(o) !in Built(plan).tree
    {
      TreeKeysPlain(plan, o);
    }
    FinalFlat(Built(plan).tree, plan[j].column, outs);
  }

  /** An unplanned column has no final outputs. */
  lemma BuiltRootNone(plan: seq<Planned>, c: string)
    requires c !in PlanColumns(plan)
    ensures RootOutputs(Built(plan).tree, map[], c) == []
  {
    BuiltOutputs(plan);
  }

  /** A final output of a data column belongs to the transformer planned on
      that column. */
  lemma RootOwner(plan: seq<Planned>, c: string, x: string) returns (j: nat)
    requires UniqueColumns(plan) && forall q :: q in plan ==> SUFFIX_SEP !in q.column
    requires x in RootOutputs(Built(plan).tree, map[], c)
    ensures j < |plan| && plan[j].column == c && x in PlanStage(plan[j]).outputColumns
  {
    if c in PlanColumns(plan) {
      j := PlanIndex(plan, c);
      BuiltRootAt(plan, j);
    } else {
      BuiltRootNone(plan, c);
      assert false;
    }
  }

  /** The sorted outputs are exactly the plan's outputs, when the plan fits
      only columns of the data. */
  lemma SortedMembers(plan: seq<Planned>, names: seq<string>)
    requires UniqueColumns(plan) && forall q :: q in plan ==> SUFFIX_SEP !in q.column && q.column in names
    ensures forall x :: x in SortOutputColumns(Built(plan).tree, map[], names) <==> x in PlanOutputs(plan)
  {
    var tree := Built(plan).tree;
    forall x | x in SortOutputColumns(tree, map[], names)
      ensures x in PlanOutputs(plan)
    {
      var i :| 0 <= i < |names| && x in RootOutputs(tree, map[], names[i]);
      var j := RootOwner(plan, names[i], x);
      assert plan[j] in plan;
    }
    forall x | x in PlanOutputs(plan)
      ensures x in SortOutputColumns(tree, map[], names)
    {
      var p :| p in plan && x in PlanStage(p).outputColumns;
      var j :| 0 <= j < |plan| && plan[j] == p;
      var i :| 0 <= i < |names| && names[i] == p.column;
      BuiltRootAt(plan, j);
    }
  }

  /** The sorted outputs of a flat plan over distinct data columns are
      distinct. */
  lemma {:induction false} SortedDistinct(ft: Dict<Transformer>, plan: seq<Planned>, names: seq<string>)
    requires UniqueColumns(plan) && AllFlat(ft, plan) && Distinct(names)
    ensures Distinct(SortOutputColumns(Built(plan).tree, map[], names))
    decreases |names|
  {
    if |names| > 0 {
      var tree := Built(plan).tree;
      var head, rest := RootOutputs(tree, map[], names[0]), SortOutputColumns(tree, map[], names[1..]);
      SortOutputColumnsHead(tree, map[], names);
      DistinctTail(names);
      SortedDistinct(ft, plan, names[1..]);
      if names[0] in PlanColumns(plan) {
        var j := PlanIndex(plan, names[0]);
        BuiltRootAt(plan, j);
        assert plan[j] in plan;
        FitStageOutputsFresh(plan[j].transformer, [plan[j].column]);
      } else {
        BuiltRootNone(plan, names[0]);
      }
      forall x | x in head
        ensures x !in rest
      {
        if x in rest {
          var i :| 0 <= i < |names[1..]| && x in RootOutputs(tree, map[], names[1..][i]);
          var j := RootOwner(plan, names[0], x);
          var m := RootOwner(plan, names[1..][i], x);
          assert plan[j] in plan && plan[m] in plan;
          OutputsApart(plan[j], plan[m], x);
        }
      }
      DistinctConcat(head, rest);
    }
  }

  /** Each transformer of a flat plan has one input column and distinct,
      non-empty outputs, and no two of them share an output. */
  lemma StagesApart(ft: Dict<Transformer>, plan: seq<Planned>)
    requires UniqueColumns(plan) && AllFlat(ft, plan)
    ensures forall j :: 0 <= j < |plan| ==>
      Distinct(Stages(plan)[j].columns) && Distinct(Stages(plan)[j].outputColumns) && |Stages(plan)[j].outputColumns| > 0
    ensures forall j, m, o :: OutputOf(Stages(plan), j, o) && OutputOf(Stages(plan), m, o) ==> j == m
  {
    var seqn := Stages(plan);
    forall j | 0 <= j < |plan|
      ensures Distinct(seqn[j].columns) && Distinct(seqn[j].outputColumns) && |seqn[j].outputColumns| > 0
    {
      assert plan[j] in plan;
      FitStageOutputsFresh(plan[j].transformer, [plan[j].column]);
      assert Distinct([plan[j].column]);
    }
    forall j, m, o | OutputOf(seqn, j, o) && OutputOf(seqn, m, o)
      ensures j == m
    {
      assert plan[j] in plan && plan[m] in plan;
      OutputsApart(plan[j], plan[m], o);
    }
  }

  /** The transformers of a flat plan over columns of the data, replayed on
      that data, meet every condition of the replay theorems: each fires, and
      each output is among the sorted outputs `fit` records. No output may be
      a column of the data. */
  lemma FlatReplayable(ft: Dict<Transformer>, plan: seq<Planned>, c: Codec, f: Frame)
    requires Valid(f) && UniqueColumns(plan) && AllFlat(ft, plan)
    requires forall q :: q in plan ==> q.column in f.names
    requires forall o :: o in PlanOutputs(plan) ==> o !in f.names
    ensures Replayable(Stages(plan), f.names, SortOutputColumns(Built(plan).tree, map[], f.names), f)
    ensures Closed(Stages(plan), c, f, SortOutputColumns(Built(plan).tree, map[], f.names))
    ensures forall j :: 0 <= j < |plan| ==> Fired(Stages(plan), c, f, j)
  {
    FlatConditions(ft, plan, f);
    FlatClosed(plan, c, f);
  }

  /** The conditions on the recorded state alone. */
  lemma FlatConditions(ft: Dict<Transformer>, plan: seq<Planned>, f: Frame)
    requires Valid(f) && UniqueColumns(plan) && AllFlat(ft, plan)
    requires forall q :: q in plan ==> q.column in f.names
    requires forall o :: o in PlanOutputs(plan) ==> o !in f.names
    ensures Replayable(Stages(plan), f.names, SortOutputColumns(Built(plan).tree, map[], f.names), f)
  {
    SortedDistinct(ft, plan, f.names);
    StagesApart(ft, plan);
    FlatOwned(plan, f.names);
  }

  /** Every transformer of a plan over columns of the data fires, and every
      output is recorded. */
  lemma FlatClosed(plan: seq<Planned>, c: Codec, f: Frame)
    requires Valid(f) && UniqueColumns(plan)
    requires forall q :: q in plan ==> SUFFIX_SEP !in q.column && q.column in f.names
    ensures Closed(Stages(plan), c, f, SortOutputColumns(Built(plan).tree, map[], f.names))
    ensures forall j :: 0 <= j < |plan| ==> Fired(Stages(plan), c, f, j)
  {
    var seqn, outs := Stages(plan), SortOutputColumns(Built(plan).tree, map[], f.names);
    FlatOwned(plan, f.names);
    forall j, y | 0 <= j < |seqn| && y in seqn[j].columns
      ensures y in f.cols
    {
      assert plan[j] in plan;
    }
    FlatFires(seqn, c, f, outs);
  }

  /** The sorted outputs of a plan over columns of the data are exactly the
      outputs of its transformers. */
  lemma FlatOwned(plan: seq<Planned>, names: seq<string>)
    requires UniqueColumns(plan) && forall q :: q in plan ==> SUFFIX_SEP !in q.column && q.column in names
    ensures forall o :: o in SortOutputColumns(Built(plan).tree, map[], names) ==> exists j :: OutputOf(Stages(plan), j, o)
    ensures forall j, o :: OutputOf(Stages(plan), j, o) ==> o in PlanOutputs(plan)
    ensures forall j, o :: OutputOf(Stages(plan), j, o) ==> o in SortOutputColumns(Built(plan).tree, map[], names)
  {
    var seqn := Stages(plan);
    SortedMembers(plan, names);
    forall j, o | OutputOf(seqn, j, o)
      ensures o in PlanOutputs(plan)
    {
      assert plan[j] in plan;
    }
    forall o | o in PlanOutputs(plan)
      ensures exists j :: OutputOf(seqn, j, o)
    {
      var p :| p in plan && o in PlanStage(p).outputColumns;
      var j :| 0 <= j < |plan| && plan[j] == p;
      assert OutputOf(seqn, j, o);
    }
  }

  /** When every column of the data is planned, replaying a flat plan forward
      and back gives the data back. */
  lemma FlatRoundTrip(ft: Dict<Transformer>, plan: seq<Planned>, c: Codec, f: Frame)
    requires Valid(f) && UniqueColumns(plan) && AllFlat(ft, plan) && Inverts(c, Stages(plan))
    requires forall q :: q in plan ==> q.column in f.names
    requires forall o :: o in PlanOutputs(plan) ==> o !in f.names
    requires forall n :: n in f.names ==> n in PlanColumns(plan)
    ensures Replayable(Stages(plan), f.names, SortOutputColumns(Built(plan).tree, map[], f.names), f)
    ensures ReverseAll(Stages(plan), c,
                       TransformAll(Stages(plan), c, f, f.names, SortOutputColumns(Built(plan).tree, map[], f.names)),
                       f.names, SortOutputColumns(Built(plan).tree, map[], f.names)) == f
  {
    var seqn, outs := Stages(plan), SortOutputColumns(Built(plan).tree, map[], f.names);
    FlatReplayable(ft, plan, c, f);
    forall y | y in f.names
      ensures y in Restored(seqn, c, f)
    {
      var j := PlanIndex(plan, y);
      assert Fired(seqn, c, f, j) && y in seqn[j].columns && y in f.cols;
    }
    FittedDataRoundTrip(seqn, c, f, f.names, outs);
  }

  /** `fit` over single-column keys and a plan that neither chains nor names an
      output like a column of the data succeeds on data holding every planned
      column, and what it records meets every condition of the replay
      theorems. */
  lemma FitAllReplayable(ft: Dict<Transformer>, fs: Dict<string>, defaults: map<string, Transformer>,
                         registry: map<string, Transformer>, f: Frame, fuel: nat, c: Codec)
    requires DictValid(ft) && DictValid(fs) && Valid(f)
    requires (forall k :: k in ft.keys ==> k.Single?) && (forall k :: k in fs.keys ==> k.Single?)
    requires AllFlat(ft, FullPlan(ft, fs, defaults, registry, f))
    requires forall p :: p in FullPlan(ft, fs, defaults, registry, f) ==> p.column in f.names
    requires forall o :: o in PlanOutputs(FullPlan(ft, fs, defaults, registry, f)) ==> o !in f.names
    ensures FitAll(ft, fs, defaults, registry, f, fuel).Ok?
    ensures Replayable(FitAll(ft, fs, defaults, registry, f, fuel).value.fitted.sequence, f.names,
                       FitAll(ft, fs, defaults, registry, f, fuel).value.fitted.outputColumns, f)
    ensures Closed(FitAll(ft, fs, defaults, registry, f, fuel).value.fitted.sequence, c, f,
                   FitAll(ft, fs, defaults, registry, f, fuel).value.fitted.outputColumns)
  {
    var plan := FullPlan(ft, fs, defaults, registry, f);
    FitAllFlat(ft, fs, defaults, registry, f, fuel);
    BuiltSequence(plan);
    FlatReplayable(ft, plan, c, f);
  }

  /** Under the same conditions, with every column of the data planned and each
      planned transformer inverted by its reverse, `reverse_transform` undoes
      `transform` on the data `fit` saw. */
  lemma FitAllRoundTrip(ft: Dict<Transformer>, fs: Dict<string>, defaults: map<string, Transformer>,
                        registry: map<string, Transformer>, f: Frame, fuel: nat, c: Codec)
    requires DictValid(ft) && DictValid(fs) && Valid(f)
    requires (forall k :: k in ft.keys ==> k.Single?) && (forall k :: k in fs.keys ==> k.Single?)
    requires AllFlat(ft, FullPlan(ft, fs, defaults, registry, f))
    requires forall p :: p in FullPlan(ft, fs, defaults, registry, f) ==> p.column in f.names
    requires forall o :: o in PlanOutputs(FullPlan(ft, fs, defaults, registry, f)) ==> o !in f.names
    requires forall n :: n in f.names ==> n in PlanColumns(FullPlan(ft, fs, defaults, registry, f))
    requires Inverts(c, Stages(FullPlan(ft, fs, defaults, registry, f)))
    ensures FitAll(ft, fs, defaults, registry, f, fuel).Ok?
    ensures Replayable(FitAll(ft, fs, defaults, registry, f, fuel).value.fitted.sequence, f.names,
                       FitAll(ft, fs, defaults, registry, f, fuel).value.fitted.outputColumns, f)
    ensures var st := FitAll(ft, fs, defaults, registry, f, fuel).value.fitted;
      ReverseAll(st.sequence, c, TransformAll(st.sequence, c, f, f.names, st.outputColumns), f.names, st.outputColumns) == f
  {
    var plan := FullPlan(ft, fs, defaults, registry, f);
    FitAllFlat(ft, fs, defaults, registry, f, fuel);
    BuiltSequence(plan);
    FlatRoundTrip(ft, plan, c, f);
  }

  // ------------------------------------------------------------ worked case

  /** Five columns `a` to `e` read as integer, float, categorical, boolean and
      datetime. */
  function OrderData(a: string, b: string, c: string, d: string, e: string): Frame
  {
    Frame([a, b, c, d, e], map[a := Column(Int64, []), b := Column(Float64, []), c := Column(Object, []),
                               d := Column(Bool, []), e := Column(Datetime64, [])])
  }

  /** Transformers configured for `a` and `b`, and for a column `x` the data
      does not have. */
  function OrderTransformers(a: string, b: string, x: string, ti: Transformer, tf: Transformer, tio: Transformer): Dict<Transformer>
  {
    Dict([Single(a), Single(b), Single(x)], map[Single(a) := ti, Single(b) := tf, Single(x) := tio])
  }

  /** The names of the worked case: five distinct data columns without a `.`,
      none of them `x`, and no `<column>.value` equal to `x`. */
  predicate OrderNames(a: string, b: string, c: string, d: string, e: string, x: string)
  {
    && Distinct([a, b, c, d, e]) && x !in [a, b, c, d, e]
    && (forall n :: n in [a, b, c, d, e] ==> SUFFIX_SEP !in n && OutputName(n, "value") != x)
  }

  /** One output, `<column>.value`, of sdtype `float`. */
  predicate ValueOnly(t: Transformer)
  {
    t.outputs == [OutputSpec("value", "float")]
  }

  /** Learning from no configured sdtype lists the five columns in data order. */
  lemma OrderLearnedKeys(a: string, b: string, c: string, d: string, e: string)
    requires Distinct([a, b, c, d, e])
    ensures LearnSdtypes(EmptyDict(), OrderData(a, b, c, d, e).cols, [a, b, c, d, e]).keys
            == [Single(a), Single(b), Single(c), Single(d), Single(e)]
  {
    var names := [a, b, c, d, e];
    LearnFromEmpty(EmptyDict(), OrderData(a, b, c, d, e).cols, names);
    var sg := Singles(names);
    assert |sg| == 5 && sg[0] == Single(a) && sg[1] == Single(b) && sg[2] == Single(c) && sg[3] == Single(d) && sg[4] == Single(e);
  }

  /** Learning reads the sdtypes of the last three columns from their storage
      types. */
  lemma OrderLearnedSdtypes(a: string, b: string, c: string, d: string, e: string)
    requires Distinct([a, b, c, d, e])
    ensures Single(c) in LearnSdtypes(EmptyDict(), OrderData(a, b, c, d, e).cols, [a, b, c, d, e]).vals
    ensures LearnSdtypes(EmptyDict(), OrderData(a, b, c, d, e).cols, [a, b, c, d, e]).vals[Single(c)] == "categorical"
    ensures Single(d) in LearnSdtypes(EmptyDict(), OrderData(a, b, c, d, e).cols, [a, b, c, d, e]).vals
    ensures LearnSdtypes(EmptyDict(), OrderData(a, b, c, d, e).cols, [a, b, c, d, e]).vals[Single(d)] == "boolean"
    ensures Single(e) in LearnSdtypes(EmptyDict(), OrderData(a, b, c, d, e).cols, [a, b, c, d, e]).vals
    ensures LearnSdtypes(EmptyDict(), OrderData(a, b, c, d, e).cols, [a, b, c, d, e]).vals[Single(e)] == "datetime"
  {
    var f := OrderData(a, b, c, d, e);
    var names := [a, b, c, d, e];
    DistinctAt(names, 2, 3);
    DistinctAt(names, 2, 4);
    DistinctAt(names, 3, 4);
    assert f.cols[c].dtype == Object && f.cols[d].dtype == Bool && f.cols[e].dtype == Datetime64;
    LearnSdtypesEntries(EmptyDict(), f.cols, names);
    assert c in names && d in names && e in names;
  }

  /** The first loop fits `a` and then `b`, and skips `x`. */
  lemma OrderConfigured(a: string, b: string, c: string, d: string, e: string, x: string,
                        ti: Transformer, tf: Transformer, tio: Transformer)
    requires OrderNames(a, b, c, d, e, x)
    ensures ConfiguredPlan(OrderTransformers(a, b, x, ti, tf, tio), [a, b, c, d, e], 3) == [Planned(a, ti), Planned(b, tf)]
  {
    var ft, names := OrderTransformers(a, b, x, ti, tf, tio), [a, b, c, d, e];
    DistinctAt(names, 0, 1);
    assert a in names && b in names;
    assert ft.vals[Single(a)] == ti && ft.vals[Single(b)] == tf;
    assert ConfiguredPlan(ft, names, 1) == [Planned(a, ti)];
    assert ConfiguredPlan(ft, names, 2) == [Planned(a, ti), Planned(b, tf)];
  }

  /** The second loop skips `a` and `b`, which the first loop fitted, and fits
      `c`, `d` and `e` with the transformers for their sdtypes. */
  lemma OrderDefaults(fs: Dict<string>, a: string, b: string, c: string, d: string, e: string,
                      ti: Transformer, tf: Transformer, tc: Transformer, tb: Transformer, td: Transformer)
    requires Distinct([a, b, c, d, e]) && Covered(fs)
    requires fs.keys == [Single(a), Single(b), Single(c), Single(d), Single(e)]
    requires Single(c) in fs.vals && Single(d) in fs.vals && Single(e) in fs.vals
    requires fs.vals[Single(c)] == "categorical" && fs.vals[Single(d)] == "boolean" && fs.vals[Single(e)] == "datetime"
    ensures DefaultPlan(map["datetime" := td], map["boolean" := tb, "categorical" := tc], fs, [Planned(a, ti), Planned(b, tf)], 5)
            == [Planned(a, ti), Planned(b, tf), Planned(c, tc), Planned(d, tb), Planned(e, td)]
  {
    var names := [a, b, c, d, e];
    var defaults, registry := map["boolean" := tb, "categorical" := tc], map["datetime" := td];
    OrderDefaultsFound(tc, tb, td);
    var p1, p2, p3, p4, p5 := Planned(a, ti), Planned(b, tf), Planned(c, tc), Planned(d, tb), Planned(e, td);
    assert DefaultPlan(registry, defaults, fs, [p1, p2], 2) == [p1, p2] by {
      assert p1 in [p1, p2] && p2 in [p1, p2];
      assert DefaultPlan(registry, defaults, fs, [p1, p2], 1) == [p1, p2];
    }
    assert DefaultPlan(registry, defaults, fs, [p1, p2], 3) == [p1, p2, p3] by {
      DistinctAt(names, 0, 2);
      DistinctAt(names, 1, 2);
    }
    assert DefaultPlan(registry, defaults, fs, [p1, p2], 4) == [p1, p2, p3, p4] by {
      DistinctAt(names, 0, 3);
      DistinctAt(names, 1, 3);
      DistinctAt(names, 2, 3);
    }
    DistinctAt(names, 0, 4);
    DistinctAt(names, 1, 4);
    DistinctAt(names, 2, 4);
    DistinctAt(names, 3, 4);
  }

  /** The worked case's defaults: `boolean` and `categorical` configured, and
      `datetime` from the library. */
  lemma OrderDefaultsFound(tc: Transformer, tb: Transformer, td: Transformer)
    ensures DefaultTransformer(map["boolean" := tb, "categorical" := tc], map["datetime" := td], "categorical") == Some(tc)
    ensures DefaultTransformer(map["boolean" := tb, "categorical" := tc], map["datetime" := td], "boolean") == Some(tb)
    ensures DefaultTransformer(map["boolean" := tb, "categorical" := tc], map["datetime" := td], "datetime") == Some(td)
  {
  }

  /** A transformer with the one output `value` on a column without a `.` does
      not chain unless `<column>.value` is configured. */
  lemma ValueFlat(ft: Dict<Transformer>, p: Planned)
    requires ValueOnly(p.transformer) && SUFFIX_SEP !in p.column
    requires Single(OutputName(p.column, "value")) !in ft.vals
    ensures PlanFlat(ft, p)
  {
    assert SUFFIX_SEP !in "value";
  }

  /** Every transformer of the worked case's plan is flat. */
  lemma OrderFlat(a: string, b: string, c: string, d: string, e: string, x: string,
                  ti: Transformer, tf: Transformer, tio: Transformer, tc: Transformer, tb: Transformer, td: Transformer)
    requires OrderNames(a, b, c, d, e, x)
    requires ValueOnly(ti) && ValueOnly(tf) && ValueOnly(tc) && ValueOnly(tb) && ValueOnly(td)
    ensures AllFlat(OrderTransformers(a, b, x, ti, tf, tio),
                    [Planned(a, ti), Planned(b, tf), Planned(c, tc), Planned(d, tb), Planned(e, td)])
  {
    var ft := OrderTransformers(a, b, x, ti, tf, tio);
    var plan := [Planned(a, ti), Planned(b, tf), Planned(c, tc), Planned(d, tb), Planned(e, td)];
    forall p | p in plan
      ensures PlanFlat(ft, p)
    {
      var o := OutputName(p.column, "value");
      assert p.column in [a, b, c, d, e];
      assert o[|p.column|] == SUFFIX_SEP;
      assert SUFFIX_SEP in o;
      assert a in [a, b, c, d, e] && b in [a, b, c, d, e];
      ValueFlat(ft, p);
    }
  }

  /** With `a` and `b` configured, `x` configured but absent, no sdtypes given,
      `boolean` and `categorical` defaults configured and the library's
      transformer for `datetime`, `fit` succeeds and fits `a`, `b`, `c`, `d`
      and `e` in that order with those transformers, and never the one for `x`. */
  lemma FitOrderExample(a: string, b: string, c: string, d: string, e: string, x: string,
                        ti: Transformer, tf: Transformer, tio: Transformer, tc: Transformer, tb: Transformer, td: Transformer,
                        fuel: nat)
    requires OrderNames(a, b, c, d, e, x)
    requires ValueOnly(ti) && ValueOnly(tf) && ValueOnly(tc) && ValueOnly(tb) && ValueOnly(td)
    ensures DictValid(OrderTransformers(a, b, x, ti, tf, tio)) && Valid(OrderData(a, b, c, d, e))
    ensures FitAll(OrderTransformers(a, b, x, ti, tf, tio), EmptyDict(), map["boolean" := tb, "categorical" := tc],
                   map["datetime" := td], OrderData(a, b, c, d, e), fuel).Ok?
    ensures FitAll(OrderTransformers(a, b, x, ti, tf, tio), EmptyDict(), map["boolean" := tb, "categorical" := tc],
                   map["datetime" := td], OrderData(a, b, c, d, e), fuel).value.fitted.sequence
            == [FitStage(ti, [a]), FitStage(tf, [b]), FitStage(tc, [c]), FitStage(tb, [d]), FitStage(td, [e])]
  {
    var ft, f := OrderTransformers(a, b, x, ti, tf, tio), OrderData(a, b, c, d, e);
    var plan := [Planned(a, ti), Planned(b, tf), Planned(c, tc), Planned(d, tb), Planned(e, td)];
    OrderValid(a, b, c, d, e, x, ti, tf, tio);
    OrderPlan(a, b, c, d, e, x, ti, tf, tio, tc, tb, td);
    OrderFlat(a, b, c, d, e, x, ti, tf, tio, tc, tb, td);
    assert forall p :: p in plan ==> p.column in f.names;
    FitAllStages(ft, EmptyDict(), map["boolean" := tb, "categorical" := tc], map["datetime" := td], f, fuel, plan);
    OrderStages(a, b, c, d, e, ti, tf, tc, tb, td);
  }

  /** `fit` plans the worked case's columns in data order, each with the
      transformer configured for it or for its sdtype. */
  lemma OrderPlan(a: string, b: string, c: string, d: string, e: string, x: string,
                  ti: Transformer, tf: Transformer, tio: Transformer, tc: Transformer, tb: Transformer, td: Transformer)
    requires OrderNames(a, b, c, d, e, x)
    ensures DictValid(OrderTransformers(a, b, x, ti, tf, tio)) && Valid(OrderData(a, b, c, d, e))
    ensures FullPlan(OrderTransformers(a, b, x, ti, tf, tio), EmptyDict(), map["boolean" := tb, "categorical" := tc],
                     map["datetime" := td], OrderData(a, b, c, d, e))
            == [Planned(a, ti), Planned(b, tf), Planned(c, tc), Planned(d, tb), Planned(e, td)]
  {
    var names := [a, b, c, d, e];
    var ft, f := OrderTransformers(a, b, x, ti, tf, tio), OrderData(a, b, c, d, e);
    OrderValid(a, b, c, d, e, x, ti, tf, tio);
    var fs1 := LearnSdtypes(EmptyDict(), f.cols, names);
    OrderLearnedKeys(a, b, c, d, e);
    OrderLearnedSdtypes(a, b, c, d, e);
    OrderConfigured(a, b, c, d, e, x, ti, tf, tio);
    OrderDefaults(fs1, a, b, c, d, e, ti, tf, tc, tb, td);
    FullPlanOf(ft, EmptyDict(), map["boolean" := tb, "categorical" := tc], map["datetime" := td], f, fs1,
               [Planned(a, ti), Planned(b, tf)]);
  }

  /** The worked case's configuration and data are well formed. */
  lemma OrderValid(a: string, b: string, c: string, d: string, e: string, x: string,
                   ti: Transformer, tf: Transformer, tio: Transformer)
    requires OrderNames(a, b, c, d, e, x)
    ensures DictValid(OrderTransformers(a, b, x, ti, tf, tio)) && Valid(OrderData(a, b, c, d, e))
  {
    var names, ft := [a, b, c, d, e], OrderTransformers(a, b, x, ti, tf, tio);
    DistinctAt(names, 0, 1);
    assert a in names && b in names;
    var k1, k2 := ft.keys[..1], ft.keys[..2];
    assert k1 == [Single(a)] && k2 == [Single(a), Single(b)];
    assert KeysDistinct(k1[..0]) && KeysDistinct(k1) && KeysDistinct(k2);
    assert ft.keys[..|ft.keys| - 1] == k2;
  }

  /** The stages of the worked case's plan. */
  lemma OrderStages(a: string, b: string, c: string, d: string, e: string,
                    ti: Transformer, tf: Transformer, tc: Transformer, tb: Transformer, td: Transformer)
    ensures Stages([Planned(a, ti), Planned(b, tf), Planned(c, tc), Planned(d, tb), Planned(e, td)])
            == [FitStage(ti, [a]), FitStage(tf, [b]), FitStage(tc, [c]), FitStage(tb, [d]), FitStage(td, [e])]
  {
  }

  /** `FullPlan` in terms of the learned sdtypes and the configured plan. */
  lemma FullPlanOf(ft: Dict<Transformer>, fs: Dict<string>, defaults: map<string, Transformer>,
                   registry: map<string, Transformer>, f: Frame, fs1: Dict<string>, plan1: seq<Planned>)
    requires DictValid(ft) && DictValid(fs) && Stored(f)
    requires fs1 == LearnSdtypes(fs, f.cols, f.names) && plan1 == ConfiguredPlan(ft, f.names, |ft.keys|)
    ensures FullPlan(ft, fs, defaults, registry, f) == DefaultPlan(registry, defaults, fs1, plan1, |fs1.keys|)
  {
  }

  /** When a flat plan's columns are all in the data, `fit` succeeds and fits
      the plan's transformers in the plan's order. */
  lemma FitAllStages(ft: Dict<Transformer>, fs: Dict<string>, defaults: map<string, Transformer>,
                     registry: map<string, Transformer>, f: Frame, fuel: nat, plan: seq<Planned>)
    requires DictValid(ft) && DictValid(fs) && Valid(f)
    requires (forall k :: k in ft.keys ==> k.Single?) && (forall k :: k in fs.keys ==> k.Single?)
    requires FullPlan(ft, fs, defaults, registry, f) == plan && AllFlat(ft, plan)
    requires forall p :: p in plan ==> p.column in f.names
    ensures FitAll(ft, fs, defaults, registry, f, fuel).Ok?
    ensures FitAll(ft, fs, defaults, registry, f, fuel).value.fitted.sequence == Stages(plan)
  {
    FitAllFlat(ft, fs, defaults, registry, f, fuel);
    BuiltSequence(plan);
  }
}
