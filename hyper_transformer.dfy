/** The `HyperTransformer` object: its configuration (`field_sdtypes`,
    `field_transformers` and the copies the user provided), its fitted state
    (flag, transformer sequence, transformer tree, input and output columns,
    fitted columns) and the operations that read and update them. Fitting is
    proved against `Fitting.FitAll`, transforming and reversing against
    `Replay.TransformAll` and `Replay.ReverseAll`. Warnings are recorded in a
    ghost log. */
module HyperTransformers {
  import opened Wrappers
  import opened Seqs
  import opened Transformers
  import opened Config
  import opened Frames
  import opened Fitting
  import opened Replay

  /** Errors the object raises: `NotFittedError`, the "Nothing to update" error,
      and a lookup of a field the tree does not hold. */
  datatype HTError = NotFitted | NothingToUpdate | UnknownField(field: Field)

  /** Warnings, which do not stop the operation. */
  datatype Warning =
    | RefitNeeded
    | SdtypeMismatch(field: Field)
    | FieldsNotFitted(fields: seq<Field>)

  /** The structure `get_config` returns and `set_config` takes. */
  datatype Configuration = Configuration(sdtypes: Dict<string>, transformers: Dict<Transformer>)

  /** `_validate_config`: the fields, among `keys`, with a configured
      transformer whose input sdtype differs from the field's configured sdtype. */
  function Mismatched(sdtypes: Dict<string>, transformers: Dict<Transformer>, keys: seq<Field>): (r: seq<Field>)
    ensures forall f :: f in r <==>
      f in keys && f in transformers.vals && f in sdtypes.vals && sdtypes.vals[f] != transformers.vals[f].inputSdtype
    ensures |r| <= |keys|
  {
    if |keys| == 0 then []
    else
      var f := keys[0];
      var here := if f in transformers.vals && f in sdtypes.vals && sdtypes.vals[f] != transformers.vals[f].inputSdtype
                  then [f] else [];
      here + Mismatched(sdtypes, transformers, keys[1..])
  }

  /** One mismatch warning per field, in order. */
  function MismatchWarnings(fields: seq<Field>): (r: seq<Warning>)
    ensures |r| == |fields| && forall i :: 0 <= i < |fields| ==> r[i] == SdtypeMismatch(fields[i])
  {
    seq(|fields|, i requires 0 <= i < |fields| => SdtypeMismatch(fields[i]))
  }

  /** The fields, in order, whose columns were not all fitted. */
  function Unfitted(fields: seq<Field>, fitted: set<string>): seq<Field>
  {
    if |fields| == 0 then []
    else (if FieldInSet(fields[0], fitted) then [] else [fields[0]]) + Unfitted(fields[1..], fitted)
  }

  /** A field is listed exactly when it is one of `fields` and some column of
      it was never fitted. */
  lemma {:induction false} UnfittedMembers(fields: seq<Field>, fitted: set<string>)
    ensures forall f :: f in Unfitted(fields, fitted) <==> f in fields && !FieldInSet(f, fitted)
  {
    if |fields| > 0 {
      UnfittedMembers(fields[1..], fitted);
      assert forall f :: f in fields <==> f == fields[0] || f in fields[1..];
    }
  }

  class HyperTransformer {
    var fieldSdtypes: Dict<string>
    var fieldTransformers: Dict<Transformer>
    var providedFieldSdtypes: Dict<string>
    var providedFieldTransformers: Dict<Transformer>
    /** `default_sdtype_transformers`. */
    const defaults: map<string, Transformer>
    /** The library-wide default transformer for each sdtype. */
    const registry: map<string, Transformer>
    /** Bound on the depth of chained transformers. */
    const fuel: nat

    var fitted: bool
    var sequence: seq<Stage>
    var tree: map<Field, Node>
    var inputColumns: seq<string>
    var outputColumns: seq<string>
    var fittedFields: set<string>
    var multi: map<string, seq<string>>

    ghost var warnings: seq<Warning>

    /** Every dictionary lists each of its keys once. */
    predicate Valid()
      reads this`fieldSdtypes, this`fieldTransformers, this`providedFieldSdtypes, this`providedFieldTransformers
    {
      DictValid(fieldSdtypes) && DictValid(fieldTransformers)
      && DictValid(providedFieldSdtypes) && DictValid(providedFieldTransformers)
    }

    /** What a call of `fit` that returned `r` leaves, as `Fitting.FitAll`
        computes it. */
    function Outcome(r: Result<(), FitError>): Result<FitResult, FitError>
      reads this`sequence, this`tree, this`outputColumns, this`fittedFields, this`fieldSdtypes, this`multi
    {
      if r.Ok? then Ok(FitResult(State(), fieldSdtypes, multi)) else Err(r.error)
    }

    /** The fitted state, as `Fitting` computes it. */
    function State(): Fitted
      reads this`sequence, this`tree, this`outputColumns, this`fittedFields
    {
      Fitted(sequence, tree, outputColumns, fittedFields)
    }

    /** The configuration and the input columns, which fitting leaves alone. */
    function Setup(): (Dict<Transformer>, Dict<string>, Dict<Transformer>, Dict<string>, map<string, seq<string>>, seq<string>)
      reads this`fieldTransformers, this`fieldSdtypes, this`providedFieldTransformers, this`providedFieldSdtypes, this`multi, this`inputColumns
    {
      (fieldTransformers, fieldSdtypes, providedFieldTransformers, providedFieldSdtypes, multi, inputColumns)
    }

    /** What the recursive fit consults. */
    function Cfg(): Settings
      reads this`fieldTransformers, this`multi
    {
      Settings(fieldTransformers, registry, multi)
    }

    /** `HyperTransformer(field_sdtypes, field_transformers, default_sdtype_transformers)`:
        both configuration maps and their provided copies start as given, and
        nothing is fitted. */
    constructor(sdtypes: Dict<string>, transformers: Dict<Transformer>, defaults: map<string, Transformer>,
                registry: map<string, Transformer>, fuel: nat)
      requires DictValid(sdtypes) && DictValid(transformers)
      ensures Valid()
      ensures fieldSdtypes == sdtypes && providedFieldSdtypes == sdtypes
      ensures fieldTransformers == transformers && providedFieldTransformers == transformers
      ensures this.defaults == defaults && this.registry == registry && this.fuel == fuel
      ensures !fitted && sequence == [] && tree == map[] && inputColumns == [] && outputColumns == [] && fittedFields == {}
      ensures multi == MultiColumnFields(transformers.keys + sdtypes.keys)
      ensures warnings == []
    {
      fieldSdtypes, providedFieldSdtypes := sdtypes, sdtypes;
      fieldTransformers, providedFieldTransformers := transformers, transformers;
      this.defaults, this.registry, this.fuel := defaults, registry, fuel;
      fitted, sequence, tree := false, [], map[];
      inputColumns, outputColumns, fittedFields := [], [], {};
      multi := MultiColumnFields(transformers.keys + sdtypes.keys);
      warnings := [];
    }

    /** The constructor followed by the duplicate check `__init__` runs: a
        `field_transformers` that names a column under two keys is refused with
        the first such key. */
    static method Create(sdtypes: Dict<string>, transformers: Dict<Transformer>, defaults: map<string, Transformer>,
                         registry: map<string, Transformer>, fuel: nat)
      returns (r: Result<HyperTransformer, Field>)
      requires DictValid(sdtypes) && DictValid(transformers)
      ensures r.Err? <==> DuplicateField(transformers.keys).Some?
      ensures r.Err? ==> r.error == DuplicateField(transformers.keys).value
      ensures r.Ok? ==> fresh(r.value) && r.value.Valid() && !r.value.fitted
      ensures r.Ok? ==> r.value.fieldTransformers == transformers && r.value.fieldSdtypes == sdtypes
    {
      var ht := new HyperTransformer(sdtypes, transformers, defaults, registry, fuel);
      var valid := ValidateFieldTransformers(transformers.keys);
      if valid.Err? {
        return Err(valid.error);
      }
      return Ok(ht);
    }

    /** `_unfit`: the fitted state is cleared and the configuration goes back to
        what was provided. */
    method Unfit()
      modifies this`fitted, this`sequence, this`tree, this`fittedFields, this`inputColumns, this`outputColumns
      modifies this`fieldSdtypes, this`fieldTransformers
      ensures !fitted && sequence == [] && tree == map[] && fittedFields == {}
      ensures inputColumns == [] && outputColumns == []
      ensures fieldSdtypes == providedFieldSdtypes == old(providedFieldSdtypes)
      ensures fieldTransformers == providedFieldTransformers == old(providedFieldTransformers)
      ensures multi == old(multi) && warnings == old(warnings)
    {
      fitted, sequence, tree, fittedFields := false, [], map[], {};
      inputColumns, outputColumns := [], [];
      fieldSdtypes := providedFieldSdtypes;
      fieldTransformers := providedFieldTransformers;
    }

    /** What every configuration update does after changing the maps: on a
        fitted object, warn that a refit is needed; clear the fitted state,
        keeping the configuration. */
    method Invalidate()
      modifies this`fitted, this`sequence, this`tree, this`fittedFields, this`inputColumns, this`outputColumns, this`warnings
      ensures !fitted && sequence == [] && tree == map[] && fittedFields == {}
      ensures inputColumns == [] && outputColumns == []
      ensures warnings == old(warnings) + (if old(fitted) then [RefitNeeded] else [])
      ensures fieldSdtypes == old(fieldSdtypes) && fieldTransformers == old(fieldTransformers)
      ensures providedFieldSdtypes == old(providedFieldSdtypes) && providedFieldTransformers == old(providedFieldTransformers)
      ensures multi == old(multi)
    {
      if fitted {
        warnings := warnings + [RefitNeeded];
      }
      fitted, sequence, tree, fittedFields := false, [], map[], {};
      inputColumns, outputColumns := [], [];
    }

    // ------------------------------------------------------- configuration

    /** `get_config`. */
    function GetConfig(): (r: Configuration)
      reads this
      ensures r.sdtypes == fieldSdtypes && r.transformers == fieldTransformers
    {
      Configuration(fieldSdtypes, fieldTransformers)
    }

    /** `set_config`: warn about each configured transformer whose input sdtype
        differs from its field's sdtype, then make the configuration both the
        current and the provided one. */
    method SetConfig(config: Configuration)
      requires DictValid(config.sdtypes) && DictValid(config.transformers)
      modifies this
      ensures Valid()
      ensures GetConfig() == config
      ensures providedFieldSdtypes == config.sdtypes && providedFieldTransformers == config.transformers
      ensures warnings == old(warnings)
        + MismatchWarnings(Mismatched(config.sdtypes, config.transformers, config.transformers.keys))
        + (if old(fitted) then [RefitNeeded] else [])
      ensures !fitted && sequence == [] && tree == map[]
    {
      warnings := warnings + MismatchWarnings(Mismatched(config.sdtypes, config.transformers, config.transformers.keys));
      providedFieldSdtypes, fieldSdtypes := config.sdtypes, config.sdtypes;
      providedFieldTransformers, fieldTransformers := config.transformers, config.transformers;
      Invalidate();
    }

    /** `detect_initial_config(data)`: every column of the data gets the sdtype
        its storage type reads as and, when the library has one, that sdtype's
        default transformer; the provided copies are emptied. */
    method DetectInitialConfig(data: Frame)
      requires Frames.Valid(data)
      modifies this`fieldSdtypes, this`fieldTransformers, this`providedFieldSdtypes, this`providedFieldTransformers
      ensures Valid()
      ensures fieldSdtypes == LearnSdtypes(EmptyDict(), data.cols, data.names)
      ensures fieldTransformers == DetectTransformers(registry, data.cols, data.names)
      ensures providedFieldSdtypes == EmptyDict() && providedFieldTransformers == EmptyDict()
    {
      var sdtypes: Dict<string> := EmptyDict();
      var transformers: Dict<Transformer> := EmptyDict();
      var i := 0;
      while i < |data.names|
        invariant 0 <= i <= |data.names|
        invariant sdtypes == LearnSdtypes(EmptyDict(), data.cols, data.names[..i])
        invariant transformers == DetectTransformers(registry, data.cols, data.names[..i])
        modifies {}
      {
        var c := data.names[i];
        var sdtype := DetectSdtype(data.cols[c].dtype);
        DetectStep(data, registry, i);
        sdtypes := Put(sdtypes, Single(c), sdtype);
        if sdtype in registry {
          transformers := Put(transformers, Single(c), registry[sdtype]);
        }
        i := i + 1;
      }
      assert data.names[..i] == data.names;
      DetectTransformersValid(registry, data.cols, data.names);
      fieldSdtypes, fieldTransformers := sdtypes, transformers;
      providedFieldSdtypes, providedFieldTransformers := EmptyDict(), EmptyDict();
    }

    /** `update_field_sdtypes`: the given sdtypes override or extend both the
        current and the provided ones. */
    method UpdateFieldSdtypes(update: Dict<string>)
      requires Valid() && DictValid(update)
      modifies this
      ensures Valid()
      ensures fieldSdtypes == Merge(old(fieldSdtypes), update)
      ensures providedFieldSdtypes == Merge(old(providedFieldSdtypes), update)
      ensures fieldTransformers == old(fieldTransformers) && providedFieldTransformers == old(providedFieldTransformers)
      ensures warnings == old(warnings) + (if old(fitted) then [RefitNeeded] else [])
      ensures !fitted && sequence == [] && tree == map[]
    {
      fieldSdtypes := Merge(fieldSdtypes, update);
      providedFieldSdtypes := Merge(providedFieldSdtypes, update);
      Invalidate();
    }

    /** `set_first_transformers_for_fields`: the given transformers override or
        extend both the current and the provided ones. */
    method SetFirstTransformersForFields(update: Dict<Transformer>)
      requires Valid() && DictValid(update)
      modifies this
      ensures Valid()
      ensures fieldTransformers == Merge(old(fieldTransformers), update)
      ensures providedFieldTransformers == Merge(old(providedFieldTransformers), update)
      ensures fieldSdtypes == old(fieldSdtypes) && providedFieldSdtypes == old(providedFieldSdtypes)
      ensures warnings == old(warnings) + (if old(fitted) then [RefitNeeded] else [])
      ensures !fitted && sequence == [] && tree == map[]
    {
      fieldTransformers := Merge(fieldTransformers, update);
      providedFieldTransformers := Merge(providedFieldTransformers, update);
      Invalidate();
    }

    /** `update_transformers`: with no transformer configured at all, "Nothing to
        update" and no change; otherwise the given transformers override or
        extend both the current and the provided ones, with a warning for each
        field whose configured sdtype the transformer does not consume. */
    method UpdateTransformers(update: Dict<Transformer>) returns (r: Result<(), HTError>)
      requires Valid() && DictValid(update)
      modifies this
      ensures Valid()
      ensures r.Err? <==> |old(fieldTransformers.keys)| == 0
      ensures r.Err? ==> r.error == NothingToUpdate && unchanged(this)
      ensures r.Ok? ==> && fieldTransformers == Merge(old(fieldTransformers), update)
                        && providedFieldTransformers == Merge(old(providedFieldTransformers), update)
                        && fieldSdtypes == old(fieldSdtypes) && !fitted
                        && warnings == old(warnings)
                             + MismatchWarnings(Mismatched(old(fieldSdtypes), update, update.keys))
                             + (if old(fitted) then [RefitNeeded] else [])
    {
      if |fieldTransformers.keys| == 0 {
        return Err(NothingToUpdate);
      }
      warnings := warnings + MismatchWarnings(Mismatched(fieldSdtypes, update, update.keys));
      fieldTransformers := Merge(fieldTransformers, update);
      providedFieldTransformers := Merge(providedFieldTransformers, update);
      Invalidate();
      return Ok(());
    }

    /** `update_transformers_by_sdtype(sdtype, transformer)`: with no sdtype
        configured at all, "Nothing to update" and no change; otherwise every
        field configured with that sdtype gets the transformer, in the current
        and the provided transformers, and every other entry stays. */
    method UpdateTransformersBySdtype(sdtype: string, t: Transformer) returns (r: Result<(), HTError>)
      requires Valid()
      modifies this`fieldTransformers, this`providedFieldTransformers
      modifies this`fitted, this`sequence, this`tree, this`fittedFields, this`inputColumns, this`outputColumns, this`warnings
      ensures Valid()
      ensures r.Err? <==> |old(fieldSdtypes.keys)| == 0
      ensures r.Err? ==> r.error == NothingToUpdate && unchanged(this)
      ensures r.Ok? ==>
        && fieldSdtypes == old(fieldSdtypes) && !fitted
        && fieldTransformers == SetBySdtype(old(fieldTransformers), fieldSdtypes, sdtype, t, fieldSdtypes.keys)
        && providedFieldTransformers == SetBySdtype(old(providedFieldTransformers), fieldSdtypes, sdtype, t, fieldSdtypes.keys)
        && warnings == old(warnings) + (if old(fitted) then [RefitNeeded] else [])
    {
      if |fieldSdtypes.keys| == 0 {
        return Err(NothingToUpdate);
      }
      var keys := fieldSdtypes.keys;
      var transformers, provided := fieldTransformers, providedFieldTransformers;
      var i := 0;
      while i < |keys|
        invariant 0 <= i <= |keys|
        invariant transformers == SetBySdtype(fieldTransformers, fieldSdtypes, sdtype, t, keys[..i])
        invariant provided == SetBySdtype(providedFieldTransformers, fieldSdtypes, sdtype, t, keys[..i])
        modifies {}
      {
        var f := keys[i];
        SetBySdtypeStep(fieldTransformers, fieldSdtypes, sdtype, t, keys, i);
        SetBySdtypeStep(providedFieldTransformers, fieldSdtypes, sdtype, t, keys, i);
        if fieldSdtypes.vals[f] == sdtype {
          transformers := Put(transformers, f, t);
          provided := Put(provided, f, t);
        }
        i := i + 1;
      }
      assert keys[..i] == keys;
      fieldTransformers, providedFieldTransformers := transformers, provided;
      Invalidate();
      return Ok(());
    }

    /** `_fit_field_transformer(data, field, transformer)`, proved against
        `Fitting.FitField`: the transformer joins the sequence, the field's
        columns become fitted, each output is chained to its next transformer
        (recursively) or recorded as an output column, and the tree node is
        written last. Returns the column names after the transformer. */
    method FitFieldTransformer(names: seq<string>, field: Field, t: Transformer, depth: nat) returns (names': seq<string>)
      modifies this`sequence, this`tree, this`outputColumns, this`fittedFields
      ensures State() == FitField(Cfg(), old(State()), names, field, t, depth).0
      ensures names' == FitField(Cfg(), old(State()), names, field, t, depth).1
      decreases depth, 1
    {
      var s := FitStage(t, FieldColumns(field));
      sequence := sequence + [s];
      fittedFields := AddFieldToSet(field, fittedFields);
      names' := TransformNames(s, names);
      ghost var st1 := State();
      var i := 0;
      while i < |s.outputColumns|
        invariant 0 <= i <= |s.outputColumns|
        invariant State() == FitOutputs(Cfg(), st1, names', s, i, depth)
      {
        FitOutputsStep(Cfg(), st1, names', s, i + 1, depth);
        FitOutputAt(names', s, i, depth);
        i := i + 1;
      }
      ghost var st2 := State();
      tree := tree[field := Node(s, s.outputColumns)];
      assert State() == st2.(tree := st2.tree[field := Node(s, s.outputColumns)]);
      FitFieldSteps(Cfg(), old(State()), names, field, t, depth);
    }

    /** One output of a fitted transformer, proved against `Fitting.FitOutput`:
        chain its next transformer when there is one and the output's field is
        in the data, or record it as an output column (once). */
    method FitOutputAt(names: seq<string>, s: Stage, i: nat, depth: nat)
      requires i < |s.outputColumns| == |s.transformer.outputs|
      modifies this`sequence, this`tree, this`outputColumns, this`fittedFields
      ensures State() == FitOutput(Cfg(), old(State()), names, s, i, depth)
      decreases depth, 0
    {
      var o := s.outputColumns[i];
      var f := FieldOf(multi, o);
      match NextTransformer(fieldTransformers, registry, f, s.transformer.outputs[i].sdtype, NextTransformers(s)) {
        case Some(next) =>
          if depth > 0 && FieldInNames(f, names) {
            FitOutputChained(Cfg(), State(), names, s, i, depth, next);
            var _ := FitFieldTransformer(names, f, next, depth - 1);
          }
        case None =>
          if o !in outputColumns {
            FitOutputRecorded(Cfg(), State(), names, s, i, depth);
            outputColumns := outputColumns + [o];
          }
      }
    }

    /** `fit(data)`, proved against `Fitting.FitAll`: reset, validate the
        configured keys, learn the sdtypes of the data's columns, build the
        multi-column map, fit the configured fields, then the remaining ones,
        warn about configured columns never fitted, sort the output columns and
        mark the object fitted. */
    method Fit(data: Frame) returns (r: Result<(), FitError>)
      requires Valid() && Stored(data)
      modifies this`fitted, this`sequence, this`tree, this`fittedFields, this`inputColumns, this`outputColumns, this`fieldSdtypes, this`fieldTransformers, this`multi, this`warnings
      ensures Valid()
      ensures Outcome(r) == FitAll(old(providedFieldTransformers), old(providedFieldSdtypes), defaults, registry, data, fuel)
      ensures fitted == r.Ok? && inputColumns == data.names
      ensures fieldTransformers == providedFieldTransformers == old(providedFieldTransformers)
      ensures providedFieldSdtypes == old(providedFieldSdtypes)
    {
      Unfit();
      inputColumns := data.names;
      var valid := ValidateFieldTransformers(fieldTransformers.keys);
      if valid.Err? {
        r := Err(Duplicated(valid.error));
      } else {
        LearnConfig(data);
        r := FitLearnedFields(Cfg(), fieldSdtypes, EMPTY_FITTED, data.names);
      }
    }

    /** Both loops of `fit`, the check that every configured field was fitted,
        and the sorting of the output columns, proved against
        `Fitting.FitLearned` on the configuration `cfg` and sdtypes `fs` from
        the state `st0` with the input columns `inputs`. */
    method FitLearnedFields(ghost cfg: Settings, ghost fs: Dict<string>, ghost st0: Fitted, ghost inputs: seq<string>)
      returns (r: Result<(), FitError>)
      requires cfg == Cfg() && fs == fieldSdtypes && st0 == State() && inputs == inputColumns
      requires Covered(fieldTransformers) && Covered(fieldSdtypes) && !fitted
      modifies this`sequence, this`tree, this`outputColumns, this`fittedFields, this`fitted, this`warnings
      ensures (if r.Ok? then Ok(State()) else Err(r.error)) == FitLearned(cfg, defaults, fs, st0, inputs, fuel)
      ensures fitted == r.Ok?
      ensures Setup() == old(Setup())
    {
      var names := FitConfiguredFields(inputColumns);
      var rest := FitDefaultFields(names);
      if rest.Err? {
        r := Err(rest.error);
      } else {
        ValidateAllFieldsFitted();
        SortOutputs();
        fitted := true;
        r := Ok(());
      }
    }

    /** `_learn_config`: the sdtype of each column of the data not configured
        yet is learned, then the multi-column map is rebuilt from the keys of
        both dictionaries. */
    method LearnConfig(data: Frame)
      requires DictValid(fieldSdtypes) && Stored(data)
      modifies this`fieldSdtypes, this`multi
      ensures fieldSdtypes == LearnSdtypes(old(fieldSdtypes), data.cols, data.names) && DictValid(fieldSdtypes)
      ensures multi == MultiColumnFields(fieldTransformers.keys + fieldSdtypes.keys)
      ensures fieldTransformers == old(fieldTransformers) && inputColumns == old(inputColumns) && fitted == old(fitted) && State() == old(State())
      ensures providedFieldTransformers == old(providedFieldTransformers) && providedFieldSdtypes == old(providedFieldSdtypes)
    {
      fieldSdtypes := LearnSdtypes(fieldSdtypes, data.cols, data.names);
      multi := MultiColumnFields(fieldTransformers.keys + fieldSdtypes.keys);
    }

    /** `_sort_output_columns`: the final outputs of each input column, in input
        column order. */
    method SortOutputs()
      modifies this`outputColumns
      ensures Setup() == old(Setup())
      ensures outputColumns == SortOutputColumns(tree, multi, inputColumns)
    {
      outputColumns := SortOutputColumns(tree, multi, inputColumns);
    }

    /** `_validate_all_fields_fitted`: one warning, listing the configured
        fields that were never fitted, when there are any. */
    method ValidateAllFieldsFitted()
      modifies this`warnings
      ensures Setup() == old(Setup())
      ensures var u := Unfitted(fieldTransformers.keys, fittedFields);
        warnings == old(warnings) + if |u| > 0 then [FieldsNotFitted(u)] else []
    {
      var u := Unfitted(fieldTransformers.keys, fittedFields);
      if |u| > 0 {
        warnings := warnings + [FieldsNotFitted(u)];
      }
    }

    /** The first loop of `fit`: each key of `field_transformers` whose columns
        are all in the data is fitted with its configured transformer. */
    method FitConfiguredFields(names0: seq<string>) returns (names: seq<string>)
      requires Covered(fieldTransformers)
      modifies this`sequence, this`tree, this`outputColumns, this`fittedFields
      ensures (State(), names) == FitConfigured(Cfg(), old(State()), names0, |fieldTransformers.keys|, fuel)
      ensures Setup() == old(Setup())
    {
      ghost var st0 := State();
      ghost var cfg := Cfg();
      names := names0;
      var ft := fieldTransformers;
      var i := 0;
      while i < |ft.keys|
        invariant 0 <= i <= |ft.keys|
        invariant (State(), names) == FitConfigured(cfg, st0, names0, i, fuel)
      {
        var field := ft.keys[i];
        if FieldInNames(field, names) {
          names := FitFieldTransformer(names, field, ft.vals[field], fuel);
        }
        i := i + 1;
      }
    }

    /** The second loop of `fit`: every field of `field_sdtypes` not fitted yet
        and with a transformer for its sdtype is fitted with it; one that is not
        in the data stops the fit. */
    method FitDefaultFields(names0: seq<string>) returns (r: Result<seq<string>, FitError>)
      requires Covered(fieldSdtypes)
      modifies this`sequence, this`tree, this`outputColumns, this`fittedFields
      ensures var expected := FitDefaults(Cfg(), defaults, fieldSdtypes, old(State()), names0, |fieldSdtypes.keys|, fuel);
        && (r.Ok? <==> expected.Ok?)
        && (r.Ok? ==> (State(), r.value) == expected.value)
        && (r.Err? ==> r.error == expected.error)
      ensures Setup() == old(Setup())
    {
      ghost var st0 := State();
      ghost var cfg := Cfg();
      var names := names0;
      var fs := fieldSdtypes;
      var i := 0;
      while i < |fs.keys|
        invariant 0 <= i <= |fs.keys|
        invariant FitDefaults(cfg, defaults, fs, st0, names0, i, fuel) == Ok((State(), names))
      {
        var field := fs.keys[i];
        if !FieldInSet(field, fittedFields) {
          match DefaultTransformer(defaults, registry, fs.vals[field]) {
            case Some(t) =>
              if FieldInNames(field, names) {
                names := FitFieldTransformer(names, field, t, fuel);
              } else {
                FitDefaultsErrSticks(cfg, defaults, fs, st0, names0, i + 1, |fs.keys|, fuel);
                return Err(Absent(field));
              }
            case None =>
          }
        }
        i := i + 1;
      }
      return Ok(names);
    }

    // ------------------------------------------------------------- replaying

    /** `transform(data)`: not fitted, `NotFittedError`; otherwise every fitted
        transformer in sequence order, then the unseen columns followed by the
        output columns that are present. */
    method Transform(c: Codec, data: Frame) returns (r: Result<Frame, HTError>)
      requires Frames.Valid(data)
      ensures !fitted ==> r == Err(NotFitted)
      ensures fitted ==> r == Ok(TransformAll(sequence, c, data, inputColumns, outputColumns))
    {
      if !fitted {
        return Err(NotFitted);
      }
      var f := data;
      var i := 0;
      while i < |sequence|
        invariant 0 <= i <= |sequence|
        invariant f == Forward(sequence, c, data, i)
      {
        f := StageTransform(sequence[i], c, f, false);
        i := i + 1;
      }
      ReindexDistinct(data.names, Elems(inputColumns), outputColumns, f.cols.Keys);
      return Ok(Select(f, Without(data.names, Elems(inputColumns)) + Keep(outputColumns, f.cols.Keys)));
    }

    /** `reverse_transform(data)`: not fitted, `NotFittedError`; otherwise every
        fitted transformer's reverse in reverse sequence order, then the columns
        that are not output columns followed by the input columns that are
        present. */
    method ReverseTransform(c: Codec, data: Frame) returns (r: Result<Frame, HTError>)
      requires Frames.Valid(data)
      ensures !fitted ==> r == Err(NotFitted)
      ensures fitted ==> r == Ok(ReverseAll(sequence, c, data, inputColumns, outputColumns))
    {
      if !fitted {
        return Err(NotFitted);
      }
      var f := data;
      var i := |sequence|;
      while i > 0
        invariant 0 <= i <= |sequence|
        invariant f == Backward(sequence, c, data, i)
      {
        i := i - 1;
        f := StageReverse(sequence[i], c, f, false);
      }
      ReindexDistinct(data.names, Elems(outputColumns), inputColumns, f.cols.Keys);
      return Ok(Select(f, Without(data.names, Elems(outputColumns)) + Keep(inputColumns, f.cols.Keys)));
    }

    /** `fit_transform(data)`: `fit`, then `transform` on the same data. */
    method FitTransform(c: Codec, data: Frame) returns (r: Result<Frame, FitError>)
      requires Valid() && Frames.Valid(data)
      modifies this
      ensures Valid()
      ensures var expected := FitAll(old(providedFieldTransformers), old(providedFieldSdtypes), defaults, registry, data, fuel);
        && (r.Ok? <==> expected.Ok?)
        && (r.Err? ==> r.error == expected.error)
        && (r.Ok? ==> r.value == TransformAll(expected.value.fitted.sequence, c, data, data.names,
                                              expected.value.fitted.outputColumns))
      ensures fitted == r.Ok? && inputColumns == data.names
      ensures r.Ok? ==> State() == FitAll(old(providedFieldTransformers), old(providedFieldSdtypes), defaults, registry, data, fuel).value.fitted
    {
      var fit := Fit(data);
      if fit.Err? {
        return Err(fit.error);
      }
      var t := Transform(c, data);
      return Ok(t.value);
    }

    // --------------------------------------------------------------- getters

    /** `get_transformer(field)`. */
    function GetTransformer(field: Field): (r: Result<Transformer, HTError>)
      reads this
      ensures r.Err? <==> !fitted || field !in tree
      ensures !fitted ==> r == Err(NotFitted)
      ensures r.Ok? ==> r.value == tree[field].stage.transformer
    {
      if !fitted then Err(NotFitted)
      else if field !in tree then Err(UnknownField(field))
      else Ok(tree[field].stage.transformer)
    }

    /** `get_output_transformers(field)`: each output of the field's node, with
        the transformer of that output's own node when it has one. */
    function GetOutputTransformers(field: Field): (r: Result<map<string, Option<Transformer>>, HTError>)
      reads this
      ensures r.Err? <==> !fitted || field !in tree
      ensures !fitted ==> r == Err(NotFitted)
      ensures r.Ok? ==> forall o :: o in r.value <==> o in tree[field].outputs
      ensures r.Ok? ==> forall o :: o in r.value && Single(o) in tree ==> r.value[o] == Some(tree[Single(o)].stage.transformer)
      ensures r.Ok? ==> forall o :: o in r.value && Single(o) !in tree ==> r.value[o].None?
    {
      if !fitted then Err(NotFitted)
      else if field !in tree then Err(UnknownField(field))
      else
        Ok(map o | o in tree[field].outputs :: if Single(o) in tree then Some(tree[Single(o)].stage.transformer) else None)
    }

    /** `get_final_output_columns(field)`: the leaves below the field's node; in a
        tree whose names grow downwards, exactly those. */
    function GetFinalOutputColumns(field: Field): (r: Result<seq<string>, HTError>)
      reads this
      ensures r.Err? <==> !fitted || field !in tree
      ensures !fitted ==> r == Err(NotFitted)
      ensures r.Ok? ==> forall o :: o in tree[field].outputs && Single(o) !in tree ==> o in r.value
      ensures r.Ok? ==> forall x :: x in r.value ==>
        x in tree[field].outputs || exists k :: k in tree && k != field && x in tree[k].outputs
      ensures r.Ok? && NamesGrow(tree) ==> forall x :: x in r.value <==> Below(tree - {field}, tree[field].outputs, x) && Single(x) !in tree
    {
      if !fitted then Err(NotFitted)
      else if field !in tree then Err(UnknownField(field))
      else
        var leaves := FinalOutputs(tree, field);
        assert NamesGrow(tree) ==> forall x :: x in leaves <==> Below(tree - {field}, tree[field].outputs, x) && Single(x) !in tree by {
          if NamesGrow(tree) {
            FinalOutputsLeaves(tree, field);
          }
        }
        Ok(leaves)
    }
  }

  /** The transformers `d` after every key of `keys` whose configured sdtype in
      `fs` is `sdtype` is given `t`, walking the keys in order. */
  function SetBySdtype(d: Dict<Transformer>, fs: Dict<string>, sdtype: string, t: Transformer, keys: seq<Field>): (r: Dict<Transformer>)
    requires forall k :: k in keys ==> k in fs.vals
    ensures DictValid(d) ==> DictValid(r)
    decreases |keys|
  {
    if |keys| == 0 then d
    else
      var r := SetBySdtype(d, fs, sdtype, t, keys[..|keys| - 1]);
      var f := keys[|keys| - 1];
      if fs.vals[f] == sdtype then Put(r, f, t) else r
  }

  /** Exactly the keys with that sdtype get the transformer; every other entry
      stays as it was, and none is removed. */
  lemma {:induction false} SetBySdtypeEntries(d: Dict<Transformer>, fs: Dict<string>, sdtype: string, t: Transformer, keys: seq<Field>)
    requires forall k :: k in keys ==> k in fs.vals
    ensures forall f :: f in SetBySdtype(d, fs, sdtype, t, keys).vals <==> f in d.vals || (f in keys && fs.vals[f] == sdtype)
    ensures forall f :: f in keys && fs.vals[f] == sdtype ==> SetBySdtype(d, fs, sdtype, t, keys).vals[f] == t
    ensures forall f :: f in d.vals && !(f in keys && fs.vals[f] == sdtype) ==> SetBySdtype(d, fs, sdtype, t, keys).vals[f] == d.vals[f]
    decreases |keys|
  {
    if |keys| > 0 {
      var init := keys[..|keys| - 1];
      assert keys == init + [keys[|keys| - 1]];
      SetBySdtypeEntries(d, fs, sdtype, t, init);
    }
  }

  /** One more key of the walk. */
  lemma SetBySdtypeStep(d: Dict<Transformer>, fs: Dict<string>, sdtype: string, t: Transformer, keys: seq<Field>, i: nat)
    requires forall k :: k in keys ==> k in fs.vals
    requires i < |keys|
    ensures fs.vals[keys[i]] == sdtype ==>
      SetBySdtype(d, fs, sdtype, t, keys[..i + 1]) == Put(SetBySdtype(d, fs, sdtype, t, keys[..i]), keys[i], t)
    ensures fs.vals[keys[i]] != sdtype ==>
      SetBySdtype(d, fs, sdtype, t, keys[..i + 1]) == SetBySdtype(d, fs, sdtype, t, keys[..i])
  {
    assert keys[..i + 1][..i] == keys[..i];
  }

  /** The transformers `detect_initial_config` picks for the columns `names`:
      the library default of each column's detected sdtype, where there is one. */
  function DetectTransformers(registry: map<string, Transformer>, cols: map<string, Column>, names: seq<string>): Dict<Transformer>
    requires forall n :: n in names ==> n in cols
    decreases |names|
  {
    if |names| == 0 then EmptyDict()
    else
      var c := names[|names| - 1];
      var r := DetectTransformers(registry, cols, names[..|names| - 1]);
      var sdtype := DetectSdtype(cols[c].dtype);
      if sdtype in registry then Put(r, Single(c), registry[sdtype]) else r
  }

  /** The detected transformers form a dictionary. */
  lemma {:induction false} DetectTransformersValid(registry: map<string, Transformer>, cols: map<string, Column>, names: seq<string>)
    requires forall n :: n in names ==> n in cols
    ensures DictValid(DetectTransformers(registry, cols, names))
    decreases |names|
  {
    if |names| > 0 {
      DetectTransformersValid(registry, cols, names[..|names| - 1]);
    }
  }

  /** A column gets a transformer exactly when the library has a default for its
      detected sdtype, and then it gets that default. */
  lemma {:induction false} DetectTransformersMembers(registry: map<string, Transformer>, cols: map<string, Column>, names: seq<string>)
    requires forall n :: n in names ==> n in cols
    ensures var r := DetectTransformers(registry, cols, names);
      forall f :: f in r.vals <==> f.Single? && f.name in names && DetectSdtype(cols[f.name].dtype) in registry
    ensures var r := DetectTransformers(registry, cols, names);
      forall f :: f in r.vals ==> f.Single? && r.vals[f] == registry[DetectSdtype(cols[f.name].dtype)]
    decreases |names|
  {
    if |names| > 0 {
      var init := names[..|names| - 1];
      DetectTransformersMembers(registry, cols, init);
      assert names == init + [names[|names| - 1]];
    }
  }

  /** One more column of distinct column names: learning appends it with its
      detected sdtype, and it gets its default transformer when there is one. */
  lemma DetectStep(data: Frame, registry: map<string, Transformer>, i: nat)
    requires Frames.Valid(data) && i < |data.names|
    ensures LearnSdtypes(EmptyDict(), data.cols, data.names[..i + 1])
            == Put(LearnSdtypes(EmptyDict(), data.cols, data.names[..i]), Single(data.names[i]), DetectSdtype(data.cols[data.names[i]].dtype))
    ensures DetectSdtype(data.cols[data.names[i]].dtype) in registry ==>
              DetectTransformers(registry, data.cols, data.names[..i + 1])
              == Put(DetectTransformers(registry, data.cols, data.names[..i]), Single(data.names[i]), registry[DetectSdtype(data.cols[data.names[i]].dtype)])
    ensures DetectSdtype(data.cols[data.names[i]].dtype) !in registry ==>
              DetectTransformers(registry, data.cols, data.names[..i + 1]) == DetectTransformers(registry, data.cols, data.names[..i])
  {
    assert data.names[..i + 1][..i] == data.names[..i];
    DistinctBefore(data.names, i);
    LearnSdtypesEntries(EmptyDict(), data.cols, data.names[..i]);
  }

  /** Once `fit` stops on a field it cannot fit, the later fields do not matter. */
  lemma {:induction false} FitDefaultsErrSticks(cfg: Settings, defaults: map<string, Transformer>, fs: Dict<string>,
                                                st: Fitted, names: seq<string>, k1: nat, k2: nat, fuel: nat)
    requires Covered(fs) && 0 < k1 <= k2 <= |fs.keys|
    requires FitDefaults(cfg, defaults, fs, st, names, k1, fuel).Err?
    ensures FitDefaults(cfg, defaults, fs, st, names, k2, fuel) == FitDefaults(cfg, defaults, fs, st, names, k1, fuel)
    decreases k2 - k1
  {
    if k1 < k2 {
      FitDefaultsErrStep(cfg, defaults, fs, st, names, k1 + 1, fuel);
      FitDefaultsErrSticks(cfg, defaults, fs, st, names, k1 + 1, k2, fuel);
    }
  }

  lemma FitDefaultsErrStep(cfg: Settings, defaults: map<string, Transformer>, fs: Dict<string>,
                           st: Fitted, names: seq<string>, k: nat, fuel: nat)
    requires Covered(fs) && 0 < k <= |fs.keys|
    requires FitDefaults(cfg, defaults, fs, st, names, k - 1, fuel).Err?
    ensures FitDefaults(cfg, defaults, fs, st, names, k, fuel) == FitDefaults(cfg, defaults, fs, st, names, k - 1, fuel)
  {
  }
}
