# RDT HyperTransformer: a verified model

This project models the core of RDT (Reversible Data Transforms) in Dafny.
RDT turns a table into machine-learning-ready columns and back. The model covers five parts:

- **The `HyperTransformer` engine** (`hyper_transformer.dfy` with `config.dfy`, `fitting.dfy`, `flat_fit.dfy` and `replay.dfy`).
  - The engine holds a configuration: `field_sdtypes`, `field_transformers` and their `_provided_*` copies.
  - It holds the fitted state: the transformer sequence, the field tree, and the input, output and fitted columns.
  - It validates duplicate fields, builds the multi-column field map, and picks the next transformer for an output.
  - `fit` recursively fits each field and chains the outputs that are not ML-ready.
  - It orders the output columns, replays the sequence forward (`transform`) and backward (`reverse_transform`), and invalidates the fitted state on configuration updates.
  - `HyperTransformer` is a class whose methods update its fields. Each method is proved against a function of `Fitting`, `FlatFit` or `Replay`, and the properties are proved about those functions.
- **Transformer units** (`transformers.dfy`, `naming.dfy`). A fitted transformer is a `Stage`: the transformer value, the columns it was fitted on, and its output column names `<col>#<col>….<suffix>`. Its forward and backward column functions are an abstract `Codec`. The round trips rest on a per-stage inverse hypothesis, `StageInverse`.
- **Tables** (`frames.dfy`). A table is an ordered list of column names plus a map from name to an abstract column (a storage type and values).
- **The benchmark schedule** (`performance.dfy`): `_get_dataset_sizes`, `TRANSFORMER_ARGS`, and the one-row-per-size loop of `evaluate_transformer_performance`, with profiling as a parameter.
- **The contributor-validation bookkeeping** (`contributing.dfy`): `get_class`, the summary rows of `validate_transformer_integration`, the two code-style checks, and the error collection of `validate_transformer_code_style`. The outcomes of the external tools are inputs.

The engine's own implementation file is not part of this model. Its behaviour follows the unit and integration tests in `tests/unit/test_hyper_transformer.py` and `tests/integration/test_hyper_transformer.py`, which are cited below. Where a test and the prose description of the engine disagree, the model follows the test. `_fit_field_transformer` is such a case: the frame produced by a recursive call is not spliced back into the caller's frame (tests/unit/test_hyper_transformer.py:428-502).

`Wrappers`, `Seqs` and `Strings` are small helper modules (Option/Result, sequence filters, join/split).

## Model

| member | source | states |
|---|---|---|
| Config.AddFieldToSet | tests/unit/test_hyper_transformer.py:36-80 | after `_add_field_to_set`, the set holds exactly the old columns plus every column of the field (a string or a tuple) |
| Config.Put | tests/unit/test_hyper_transformer.py:1208-1234 | a dictionary write: a new key goes last, an existing key keeps its place, and the key list stays duplicate-free |
| Config.Merge | tests/unit/test_hyper_transformer.py:1258-1341 | `dict.update`: every updating entry overrides or extends, every other entry stays, and no key is lost |
| Config.MultiColumnFields | tests/unit/test_hyper_transformer.py:182-220 | `_create_multi_column_fields`: a column is mapped exactly when some tuple key of more than one column (from either dictionary) holds it; it maps to such a tuple; single-column keys give no entry |
| Config.MultiColumnFieldsLastWins | tests/unit/test_hyper_transformer.py:182-220 | a column maps to the last tuple key that holds it |
| Config.DuplicateField | tests/unit/test_hyper_transformer.py:82-114 | the field reported is the first key all of whose columns were named by earlier keys; none exactly when no key repeats |
| Config.ValidateFieldTransformers | tests/unit/test_hyper_transformer.py:82-114 | the loop of `_validate_field_transformers` fails exactly when `DuplicateField` finds a key, and it names that key |
| Config.DuplicatePrefix | tests/unit/test_hyper_transformer.py:82-114 | the first repeating key is the one reported |
| Config.DuplicateFieldExample | tests/unit/test_hyper_transformer.py:82-114 | `'integer'`, `'float'`, `('integer',)` is rejected, naming `('integer',)` |
| Config.NextTransformer | tests/unit/test_hyper_transformer.py:222-354 | `_get_next_transformer`'s precedence: an explicit `field_transformers` entry wins even for a numerical output; else a terminal sdtype gives none; else the hint; else the global default with noise off; `default_sdtype_transformers` is never consulted |
| Frames.SetColumn | tests/integration/test_hyper_transformer.py:171-197 | an assigned column replaces a same-named column where it stands and otherwise is appended |
| Frames.SetColumnsValues | tests/integration/test_hyper_transformer.py:171-197 | after assigning distinct names, each holds its own value |
| Frames.SetNewColumnsNames | tests/integration/test_hyper_transformer.py:102-148 | assigning only new names appends them in the order given |
| Frames.Select | tests/integration/test_hyper_transformer.py:253-272 | a reindex on present names keeps exactly those columns in that order |
| Frames.DetectSdtype | tests/unit/test_hyper_transformer.py:356-426 | int with missing values reads as `float`, object as `categorical`, bool as `boolean`, datetime64 as `datetime`, int as `integer` |
| Frames.DetectSdtypes | tests/unit/test_hyper_transformer.py:356-426 | the detected sdtype of every column, in column order |
| Naming.PositionalNames | tests/integration/transformers/test_base.py:256-373 | an unnamed array's columns are named `0`, `1`, … |
| Naming.OutputColumns | tests/integration/transformers/test_base.py:9-135 | one output name per declared suffix, in declaration order, each `<prefix>.<suffix>` |
| Naming.ParseOutputColumns | tests/integration/transformers/test_base.py:9-216 | every output name gives back its input column names and its suffix, which is what lets `reverse_transform` restore the original names |
| Naming.OutputColumnsDistinct | tests/integration/transformers/test_base.py:65-135 | distinct suffixes give distinct output names |
| Naming.SingleColumnSingleOutput | tests/integration/transformers/test_base.py:9-63 | `bool` with the output `value` yields exactly `bool.value` |
| Naming.SingleColumnTwoOutputs | tests/integration/transformers/test_base.py:65-135 | two outputs come out in declaration order: `bool.value`, `bool.null` |
| Naming.MultiColumnPrefix | tests/integration/transformers/test_base.py:137-216 | `year`, `month`, `day` share the prefix `year#month#day` |
| Naming.NamedSeriesPrefix | tests/integration/transformers/test_base.py:218-254 | a named Series is prefixed with its name |
| Naming.ArrayPrefix | tests/integration/transformers/test_base.py:256-292 | an unnamed 1-d array is prefixed with `0` |
| Naming.WideArrayPrefix | tests/integration/transformers/test_base.py:294-373 | an unnamed 3-column array is prefixed with `0#1#2` |
| Transformers.FitStage | tests/integration/transformers/test_base.py:9-135 | a fitted transformer records its transformer, its input columns and one output column per declared output |
| Transformers.FitStageNames | tests/integration/transformers/test_base.py:9-216 | output `i` is named from the input columns' prefix and declared suffix `i` |
| Transformers.OutputsLongerThanInputs | tests/integration/transformers/test_base.py:9-216 | every output name is longer than every input name, so a transformer never writes over its own input |
| Transformers.FitStageOutputsFresh | tests/integration/transformers/test_base.py:65-135 | a well-declared transformer's outputs are distinct and differ from its inputs |
| Transformers.OutputSdtypes | tests/unit/test_hyper_transformer.py:428-502 | each output column with its declared sdtype, in order |
| Transformers.NextTransformers | tests/unit/test_hyper_transformer.py:287-321 | a hint is keyed by the full output column name |
| Transformers.NextTransformersHints | tests/unit/test_hyper_transformer.py:287-321 | every key of `get_next_transformers` comes from a hint, and each maps to the transformer of the last hint naming its suffix |
| Transformers.HintMapValues | tests/unit/test_hyper_transformer.py:287-321 | a hint that no later hint overrides is the value of its output name: a later hint for the same output wins |
| Transformers.StageTransform | tests/integration/transformers/test_base.py:9-135 | `transform`: with its inputs present, the outputs are written, the inputs are kept without `drop`, and without its inputs the table is unchanged |
| Transformers.StageReverse | tests/integration/transformers/test_base.py:9-135 | `reverse_transform`: with its outputs present, the input columns are written back, and otherwise the table is unchanged |
| Transformers.PassThroughInverse | tests/integration/test_hyper_transformer.py:15-30 | the inversion hypothesis can be met: the identity codec inverts every stage with as many outputs as inputs |
| Transformers.TransformExact | tests/integration/transformers/test_base.py:9-135 | transforming with `drop` exactly the fitted columns leaves exactly the outputs, holding the encoded values |
| Transformers.ReverseExact | tests/integration/transformers/test_base.py:9-135 | reversing with `drop` exactly the outputs leaves exactly the fitted columns, holding the decoded values |
| Transformers.StageRoundTrip | tests/integration/transformers/test_base.py:9-216 | transform followed by reverse on the fitted columns gives the same table: names, order and values |
| Transformers.BaseTransformer.Fit | tests/integration/transformers/test_base.py:94-112 | `fit` records the input columns (from a table, a Series name or positions) and the derived output columns on the instance |
| Transformers.BaseTransformer.Transform | tests/integration/transformers/test_base.py:9-135 | `transform` on the instance is `StageTransform` of what `fit` recorded |
| Transformers.BaseTransformer.ReverseTransform | tests/integration/transformers/test_base.py:9-135 | `reverse_transform` on the instance is `StageReverse` of what `fit` recorded |
| Transformers.FitTransformReverseRestores | tests/integration/transformers/test_base.py:58-63 | after `fit` on a table of its inputs, transform then reverse restores the original column names and values |
| Fitting.TransformNames | tests/unit/test_hyper_transformer.py:428-502 | the names after a fitted transformer's `transform`: inputs removed, outputs appended; unchanged when an input is missing |
| Fitting.FieldOf | tests/unit/test_hyper_transformer.py:504-567 | an output column belongs to its multi-column tuple, else to itself |
| Fitting.FitFieldRecords | tests/unit/test_hyper_transformer.py:428-502 | `_fit_field_transformer` appends its transformer before anything it chains (pre-order), writes the field's tree node, marks its columns fitted, returns the transformed names and loses nothing recorded |
| Fitting.FitOutputEffect | tests/unit/test_hyper_transformer.py:428-567 | an output without a next transformer is recorded once; one whose field is not in the data changes nothing; otherwise its next transformer is fitted right after |
| Fitting.FitOutputsGrows | tests/unit/test_hyper_transformer.py:428-502 | handling the outputs only ever adds to the sequence, the output columns, the fitted columns and the tree |
| Fitting.FitOutputsTerminal | tests/unit/test_hyper_transformer.py:428-502 | terminal outputs are appended to the output columns in declaration order |
| Fitting.FitFieldTerminal | tests/unit/test_hyper_transformer.py:428-502 | a transformer whose outputs are all terminal adds itself to the sequence, its outputs to the output columns and a node for its field |
| Fitting.FitFieldChainExample | tests/unit/test_hyper_transformer.py:428-502 | the worked chain: both transformers in pre-order, tree nodes for `a` and `a.x1`, final outputs `a.x1.y` then `a.x2` |
| Fitting.FitFieldMultiColumnNotReady | tests/unit/test_hyper_transformer.py:504-567 | an output that belongs to a multi-column field whose other columns are absent fits no next transformer and leaves the output columns unchanged |
| Fitting.Leaves | tests/unit/test_hyper_transformer.py:1587-1627 | every output without its own node is a leaf, and every leaf is an output of some node |
| Fitting.LeavesFlat | tests/unit/test_hyper_transformer.py:1587-1627 | with no output keyed in the tree, the leaves are the outputs themselves |
| Fitting.BelowLonger | tests/unit/test_hyper_transformer.py:1587-1627 | in a tree whose output names grow downwards, every descendant is named longer than its ancestor, so no walk revisits a node |
| Fitting.LeavesBelow | tests/unit/test_hyper_transformer.py:1587-1627 | in such a tree, a column is a leaf iff it is a descendant of the outputs and has no node of its own |
| Fitting.FinalOutputsLeaves | tests/unit/test_hyper_transformer.py:1587-1627 | `get_final_output_columns(field)` returns exactly the descendants of the field that have no node |
| Fitting.FinalOutputsExample | tests/unit/test_hyper_transformer.py:1603-1627 | for the test's tree with `field1.out2.out2`, the leaves of `field1` are `field1.out1.value`, `field1.out2.out1.value`, `field1.out2.out2.value`, depth first |
| Fitting.FinalOutputsAsWrittenExample | tests/unit/test_hyper_transformer.py:1603-1627 | with the tree as the test lists it (`field.out2.out2` under `field1.out2`), the third leaf is `field.out2.out2`, not the expected `field1.out2.out2.value` |
| Fitting.SortOutputColumns | tests/unit/test_hyper_transformer.py:601-628 | `_sort_output_columns`: a column is an output exactly when it is a final output of some input column |
| Fitting.SortOutputColumnsAppend | tests/unit/test_hyper_transformer.py:601-628 | the output columns of two runs of input columns are those of the first run followed by those of the second, so outputs come in input-column order |
| Fitting.SortOutputColumnsExample | tests/unit/test_hyper_transformer.py:601-628 | the worked case concatenates the three columns' outputs in input order |
| Fitting.LearnSdtypesEntries | tests/unit/test_hyper_transformer.py:855-918 | `_learn_config` keeps each configured sdtype and gives every other data column its detected sdtype |
| Fitting.LearnKeepsOrder | tests/unit/test_hyper_transformer.py:855-918 | learning only appends, so the configured keys keep their places in front |
| Fitting.LearnFromEmpty | tests/unit/test_hyper_transformer.py:356-426 | with nothing configured, every column of the data is learned in column order |
| Fitting.FitConfiguredGrows | tests/unit/test_hyper_transformer.py:855-918 | the first loop of `fit` loses nothing recorded before it |
| Fitting.DefaultTransformer | tests/unit/test_hyper_transformer.py:855-918 | a `default_sdtype_transformers` entry wins over the library default; none when neither knows the sdtype |
| Fitting.FitDefaultsCovers | tests/unit/test_hyper_transformer.py:855-918 | the second loop loses nothing; on success every field with a transformer for its sdtype is fitted; it fails only naming a field missing from the data |
| Fitting.FitAll | tests/unit/test_hyper_transformer.py:855-918 | `fit` fails with a duplicate exactly when the configured keys repeat a column, naming it; on success the sdtypes are the learned ones and the multi-column map is built from both key lists |
| Fitting.FitFields | tests/unit/test_hyper_transformer.py:855-918 | past the duplicate check, only a missing column can make `fit` fail |
| Fitting.FitLearned | tests/unit/test_hyper_transformer.py:855-918 | both loops fail only on a field of `field_sdtypes` missing from the data, and never shrink the sequence or the fitted columns |
| Fitting.SingleColumnOutputs | tests/integration/test_hyper_transformer.py:136-147 | a transformer fitted on one column names its outputs `<column>.<suffix>` |
| FlatFit.FitConfiguredFlat | tests/unit/test_hyper_transformer.py:855-918 | the first loop fits exactly the configured keys present in the data, in key order, skipping the others |
| FlatFit.FitDefaultsFlat | tests/unit/test_hyper_transformer.py:855-918 | the second loop then fits each remaining field with its default transformer in sdtype-key order, and succeeds exactly when every such column is in the data |
| FlatFit.FitLearnedFlat | tests/unit/test_hyper_transformer.py:855-918 | both loops together leave the state of the plan: configured fields first, then defaults, with the outputs sorted by input column |
| FlatFit.FitAllFlat | tests/unit/test_hyper_transformer.py:855-918 | for single-column keys and transformers that do not chain, `fit` succeeds exactly when every planned column is present, and its state is that of the plan |
| FlatFit.FitAllStages | tests/unit/test_hyper_transformer.py:855-918 | under the same conditions the fitted sequence is the plan's transformers in plan order |
| FlatFit.FitOrderExample | tests/unit/test_hyper_transformer.py:854-918 | the `fit` worked case: the configured `integer` and `float` first, then `categorical`, `bool` and `datetime` from their defaults, in that order; a configured key absent from the data is never fitted |
| FlatFit.BuiltSequence | tests/unit/test_hyper_transformer.py:855-918 | the plan's state holds its transformers in plan order |
| FlatFit.BuiltTree | tests/integration/test_hyper_transformer.py:136-147 | each fitted column's tree node holds its own transformer and exactly that transformer's outputs |
| FlatFit.SortedDistinct | tests/unit/test_hyper_transformer.py:601-628 | the sorted output columns of a plan are duplicate-free |
| FlatFit.StagesApart | tests/unit/test_hyper_transformer.py:855-918 | no two fitted transformers share an output column |
| FlatFit.FlatReplayable | tests/unit/test_hyper_transformer.py:920-995 | a plan over columns of the data meets the replay conditions: every transformer fires and every output is recorded |
| FlatFit.FlatRoundTrip | tests/integration/test_hyper_transformer.py:102-148 | when every column of the data is planned, transform then reverse gives the data back |
| FlatFit.FitAllReplayable | tests/integration/test_hyper_transformer.py:102-148 | what `fit` records meets the conditions of the replay theorems |
| FlatFit.FitAllRoundTrip | tests/integration/test_hyper_transformer.py:102-134 | `fit`, then `transform`, then `reverse_transform` on the fitted data gives the data back: same columns, same order, same values |
| Replay.FwdStep | tests/unit/test_hyper_transformer.py:920-972 | one forward step adds the firing transformer's outputs, holding its encoding, and leaves every other column alone |
| Replay.FwdGrows | tests/unit/test_hyper_transformer.py:920-972 | the forward replay only adds columns |
| Replay.FwdOrigin | tests/unit/test_hyper_transformer.py:920-972 | every column after the forward replay came from the data or from a transformer that fired |
| Replay.FwdUnchanged | tests/unit/test_hyper_transformer.py:920-972 | a column no later transformer writes keeps its value |
| Replay.InputsStable | tests/unit/test_hyper_transformer.py:920-972 | the inputs of a firing transformer keep the values it read |
| Replay.OutputsFinal | tests/unit/test_hyper_transformer.py:920-972 | each firing transformer's outputs hold its encoding at the end |
| Replay.DataStable | tests/integration/test_hyper_transformer.py:253-272 | the data's own columns keep their values through the replay |
| Replay.TransformAll | tests/unit/test_hyper_transformer.py:920-972 | `transform` returns the unseen columns and the recorded outputs that were produced, each with its replayed value |
| Replay.ReverseAll | tests/unit/test_hyper_transformer.py:1022-1074 | `reverse_transform` returns the columns that are not outputs and the recorded inputs that were restored, each with its restored value |
| Replay.BackRestores | tests/unit/test_hyper_transformer.py:1022-1074 | undoing a transformer whose outputs are present writes back exactly the values its inputs had |
| Replay.BackInvAll | tests/unit/test_hyper_transformer.py:1022-1074 | the backward replay keeps agreeing with the forward one all the way down |
| Replay.RestoredExactly | tests/integration/test_hyper_transformer.py:234-250 | a fitted column comes back exactly when some transformer consumed it |
| Replay.RoundTrip | tests/integration/test_hyper_transformer.py:102-272 | reverse of transform gives the unseen columns and then the consumed fitted columns, each with its original values |
| Replay.UnseenFirst | tests/integration/test_hyper_transformer.py:253-272 | an unseen column comes back unchanged and ahead of the fitted columns |
| Replay.FittedDataRoundTrip | tests/integration/test_hyper_transformer.py:102-134 | transforming the very columns `fit` saw and reversing gives the data back |
| Replay.SubsetRoundTrip | tests/integration/test_hyper_transformer.py:234-250 | transforming a subset of the fitted columns and reversing gives that subset back |
| Replay.TransformFittedData | tests/unit/test_hyper_transformer.py:920-972 | transforming the fitted data returns exactly the recorded output columns, in order |
| Replay.FlatFires | tests/unit/test_hyper_transformer.py:920-972 | transformers that read only data columns all fire, and the closure condition holds |
| HyperTransformers.Mismatched | tests/unit/test_hyper_transformer.py:631-705 | `_validate_config` flags exactly the fields whose configured transformer expects another sdtype |
| HyperTransformers.MismatchWarnings | tests/unit/test_hyper_transformer.py:631-705 | one warning per flagged field, in order |
| HyperTransformers.UnfittedMembers | tests/unit/test_hyper_transformer.py:570-599 | a configured field is reported by `_validate_all_fields_fitted` exactly when some column of it was never fitted |
| HyperTransformers.HyperTransformer.constructor | tests/unit/test_hyper_transformer.py:116-131 | `__init__` stores both maps and their provided copies, builds the multi-column map, and leaves nothing fitted |
| HyperTransformers.HyperTransformer.Create | tests/unit/test_hyper_transformer.py:116-131 | construction fails exactly when `field_transformers` repeats a column, naming the first repeating key |
| HyperTransformers.HyperTransformer.Unfit | tests/unit/test_hyper_transformer.py:133-180 | `_unfit` clears the fitted state and restores the configuration from the provided copies |
| HyperTransformers.HyperTransformer.Invalidate | tests/unit/test_hyper_transformer.py:1258-1341 | after an update the fitted state is cleared, the configuration kept, and a refit warning given only when it was fitted |
| HyperTransformers.HyperTransformer.GetConfig | tests/unit/test_hyper_transformer.py:707-765 | `get_config` returns the current sdtypes and transformers |
| HyperTransformers.HyperTransformer.SetConfig | tests/unit/test_hyper_transformer.py:767-811 | `set_config` warns about each mismatched field, makes the configuration current and provided, and clears the fitted state |
| HyperTransformers.HyperTransformer.DetectInitialConfig | tests/unit/test_hyper_transformer.py:356-426 | every column gets its detected sdtype and, where the library has one, its default transformer; the provided copies are emptied |
| HyperTransformers.HyperTransformer.UpdateFieldSdtypes | tests/unit/test_hyper_transformer.py:1208-1234 | the given sdtypes override or extend the current and provided ones; transformers are untouched |
| HyperTransformers.HyperTransformer.SetFirstTransformersForFields | tests/unit/test_hyper_transformer.py:1431-1469 | the given transformers override or extend the current and provided ones; sdtypes are untouched |
| HyperTransformers.HyperTransformer.UpdateTransformers | tests/unit/test_hyper_transformer.py:1258-1429 | "Nothing to update" with no change exactly when no transformer is configured; otherwise a merge, a warning per mismatched field and a refit warning when fitted |
| HyperTransformers.HyperTransformer.UpdateTransformersBySdtype | tests/unit/test_hyper_transformer.py:1100-1206 | "Nothing to update" with no change exactly when no sdtype is configured; otherwise every field of that sdtype gets the transformer |
| HyperTransformers.SetBySdtypeEntries | tests/unit/test_hyper_transformer.py:1130-1206 | exactly the fields of that sdtype get the transformer; every other entry stays and none is removed |
| HyperTransformers.DetectTransformersMembers | tests/unit/test_hyper_transformer.py:356-426 | a column gets a transformer exactly when the library has a default for its detected sdtype, and it gets that default |
| HyperTransformers.HyperTransformer.FitFieldTransformer | tests/unit/test_hyper_transformer.py:428-567 | the method's new state and returned names are those of `Fitting.FitField` |
| HyperTransformers.HyperTransformer.FitOutputAt | tests/unit/test_hyper_transformer.py:428-567 | handling one output leaves the state `Fitting.FitOutput` computes |
| HyperTransformers.HyperTransformer.LearnConfig | tests/unit/test_hyper_transformer.py:855-918 | `_learn_config` learns the unknown sdtypes and rebuilds the multi-column map, touching nothing else |
| HyperTransformers.HyperTransformer.FitConfiguredFields | tests/unit/test_hyper_transformer.py:855-918 | the first loop leaves the state `Fitting.FitConfigured` computes |
| HyperTransformers.HyperTransformer.FitDefaultFields | tests/unit/test_hyper_transformer.py:855-918 | the second loop succeeds or fails as `Fitting.FitDefaults` does, with the same state or error |
| HyperTransformers.HyperTransformer.ValidateAllFieldsFitted | tests/unit/test_hyper_transformer.py:570-599 | one warning listing the configured fields never fitted, only when there are some |
| HyperTransformers.HyperTransformer.SortOutputs | tests/unit/test_hyper_transformer.py:601-628 | the output columns become `SortOutputColumns` of the tree over the input columns |
| HyperTransformers.HyperTransformer.FitLearnedFields | tests/unit/test_hyper_transformer.py:855-918 | both loops, the unfitted check and the sort leave the state `Fitting.FitLearned` computes, and mark the object fitted exactly on success |
| HyperTransformers.HyperTransformer.Fit | tests/unit/test_hyper_transformer.py:855-918 | `fit` succeeds or fails as `Fitting.FitAll` does, records the input columns, and marks the object fitted exactly on success |
| HyperTransformers.HyperTransformer.Transform | tests/unit/test_hyper_transformer.py:920-995 | `NotFittedError` when not fitted; otherwise each fitted transformer once, in sequence order, giving `Replay.TransformAll` |
| HyperTransformers.HyperTransformer.ReverseTransform | tests/unit/test_hyper_transformer.py:1022-1097 | `NotFittedError` when not fitted; otherwise each reverse once, in reverse sequence order, giving `Replay.ReverseAll` |
| HyperTransformers.HyperTransformer.FitTransform | tests/unit/test_hyper_transformer.py:997-1020 | `fit_transform` is `fit` followed by `transform` on the same data, and its state is what `Fitting.FitAll` computes |
| HyperTransformers.HyperTransformer.GetTransformer | tests/unit/test_hyper_transformer.py:1471-1530 | `NotFittedError` when not fitted; otherwise the transformer of the field's node |
| HyperTransformers.HyperTransformer.GetOutputTransformers | tests/unit/test_hyper_transformer.py:1532-1585 | `NotFittedError` when not fitted; otherwise each output of the node with its own node's transformer, or none |
| HyperTransformers.HyperTransformer.GetFinalOutputColumns | tests/unit/test_hyper_transformer.py:1587-1646 | `NotFittedError` when not fitted, an error for a field without a node; otherwise every direct output without a node is returned, and in a tree whose names grow downwards exactly the descendants of the field without a node are |
| Performance.SamePairsShape | rdt/performance/performance.py:64 | outside `categorical`, every size is paired with itself, in order |
| Performance.CategoricalPairsShape | rdt/performance/performance.py:66-67 | for `categorical`, the fit sizes are the sizes up to 10000 in order, and each transform size is `max(s, 1000)`, so at least the fit size and at least 1000 |
| Performance.AtMostIsSubsequence | rdt/performance/performance.py:67 | the kept sizes are exactly the sizes within the bound, never more of them, and cutting the sizes anywhere keeps the kept sizes of the front ahead of those of the back (original order) |
| Performance.AtMostAppend | rdt/performance/performance.py:67 | filtering two runs of sizes keeps the first run's kept sizes ahead of the second's |
| Performance.DefaultSchedules | rdt/performance/performance.py:10-69 | the schedules for the library's sizes, with at most three entries |
| Performance.TransformerArgs | rdt/performance/performance.py:89 | the extra arguments are looked up by class name, defaulting to none |
| Performance.TransformerArgsModelMissing | rdt/performance/performance.py:13-46 | every transformer with extra arguments models missing values, and all but `BinaryEncoder` replace them by the mean |
| Performance.EvaluateTransformerPerformance | rdt/performance/performance.py:89-111 | one row per size pair, in schedule order, with the verbose details when asked |
| Contributing.GetClass | tests/contributing.py:62-74 | a non-string gives none; a dotted name splits at its last `.` into module and attribute; no `.` raises |
| Contributing.GetClassQualified | tests/contributing.py:62-74 | a qualified class name resolves to its package and class |
| Contributing.CheckNamesDistinct | tests/contributing.py:25-59 | different steps have different check names |
| Contributing.RecogniseValidationError | tests/contributing.py:99-108 | a validation error is recognised exactly when the trace mentions a step of `CHECK_DETAILS`, and it is the exception's message |
| Contributing.SummaryRowsFresh | tests/contributing.py:117-131 | no row repeats a check already seen |
| Contributing.SummaryRowsDistinct | tests/contributing.py:117-131 | at most one row per check |
| Contributing.SummaryRowsCover | tests/contributing.py:117-131 | every check of the recorded steps gets a row |
| Contributing.SummaryRowsFirst | tests/contributing.py:117-131 | each row is the one of the first step with its check |
| Contributing.SummaryRowsOrdered | tests/contributing.py:117-131 | the rows are in order of their checks' first appearance |
| Contributing.SummaryRowsVerdicts | tests/contributing.py:120-131 | only the failed step's row says 'No', carrying the validation error; every other row says 'Yes' with its details |
| Contributing.ValidateTransformerIntegration | tests/contributing.py:97-136 | an error recorded with no step fails at `steps[-1]`; a step missing from the table fails at the lookup, naming the first one; otherwise the rows are the summary and the result is true exactly when the run completed |
| Contributing.AsWrittenDetailsAreTuples | tests/contributing.py:25-59 | as written, exactly three steps carry a pair of strings as their details |
| Contributing.CorrectedDetailsJoinParts | tests/contributing.py:25-59 | the corrected table has the same steps and checks, each description the pieces glued together |
| Contributing.AsWrittenCompositionRow | tests/contributing.py:34-58 | as written, a passing composition check reports two strings as its details |
| Contributing.CorrectedCompositionRow | tests/contributing.py:34-58 | as corrected, it reports one sentence |
| Contributing.CorrectedSummary | tests/contributing.py:117-131 | the summary over the corrected table is the as-written one with each description glued together |
| Contributing.ThirdPartyCodeStyle | tests/contributing.py:139-156 | a tool's check is 'No' and carries its output exactly when the captured output is not empty |
| Contributing.CustomValidation | tests/contributing.py:159-174 | a returning check is 'Yes'; a failed assertion is 'No' with its message captured; any other exception propagates |
| Contributing.CapturesEmptyIff | tests/contributing.py:291-308 | there is nothing to report exactly when no result captured output |
| Contributing.CollectCodeStyleErrors | tests/contributing.py:291-308 | every captured output is popped out of the results in place, the popped pairs are returned in order, and the style is valid exactly when none was captured |

## Left out

- HyperTransformers.HyperTransformer.GetFinalOutputColumns: the exactly-the-leaves clause holds for trees whose output names grow downwards (`Fitting.NamesGrow`). Fitted trees are built that way, since every output is named after its input columns with a suffix added (`Transformers.OutputsLongerThanInputs`), but the model does not carry that invariant through the whole of `fit`; the clause is stated under the condition instead.
- Fitting.RootField: at a multi-column field's first column `_sort_output_columns` looks up the tuple, and at its other columns nothing. The tests exercise only single-column fields, where this is the `Single(c)` lookup of `get_final_output_columns(c)` (tests/unit/test_hyper_transformer.py:601-628). For tuple fields the rule is a modelling choice.
- HyperTransformers.HyperTransformer.constructor: it does not run the duplicate check of `__init__`. `Create` is the constructor followed by that check, and it is the entry point that refuses duplicates.
- Fitting.FitOutput: the depth of chaining is bounded by a `fuel` parameter so that the recursion terminates. With no fuel left, a non-terminal output is neither chained nor recorded, while the engine keeps chaining. The chains in the tests are at most two deep.
- Fitting.FitDefaults: a learned sdtype with neither a configured nor a library default transformer is skipped, because the tests never show what the engine does then.
- A defaulted transformer is not written back into `field_transformers`: the tests do not show that it is.
- FlatFit.FitAllRoundTrip: the value round trip from `fit` is proved only for configurations whose keys are single columns and whose fitted transformers do not chain. It also needs every planned column in the data, and no output named like a data column. The chained case (tests/integration/test_hyper_transformer.py:171-197) is covered by `Replay.RoundTrip` and `Fitting.FitFieldChainExample` separately, but the replay conditions are not derived from `fit` for chains.
- FlatFit.FitAllReplayable: the replay conditions are derived under the same single-column, non-chaining hypotheses.
- Per-type encoders (numerical, categorical, boolean, datetime, and `BinaryEncoder`'s round-and-clip reverse): floating-point numerics, so they are an abstract `Codec`. The round trips assume `StageInverse` for each fitted transformer.
- `DTTransformer` date parsing and faker value generation: thin wrappers over external libraries.
- Profiling, the division by sizes, `summary.max` and `evaluate_transformers`: timings and memory in floating point. `profile` is a parameter of `EvaluateTransformerPerformance`.
- The subprocess calls to flake8, isort, pylint and pydocstyle, `importlib`, and `tabulate`: their outcomes are inputs, and printing is not modelled.
- The import in `get_class`: only the (module, attribute) split is modelled.
- The quality and performance validation in `tests/contributing.py`: floating-point scores and pandas aggregation.
- The exact text of the JSON printout of `detect_initial_config` and of the tree YAML: library formatting. Only the mapping content is modelled.
- The pandas `copy` flag, in-place DataFrame semantics, index alignment and row values beyond an abstract column.
- Warnings are recorded in a `warnings` log rather than emitted. Prints are not modelled.
- Transformers.BaseTransformer.Transform and Transformers.BaseTransformer.ReverseTransform take the codec as a parameter instead of the subclass's `_transform`/`_reverse_transform` bodies.
- Running the validator in `validate_transformer_integration` is not modelled: its recorded steps and how it ended are inputs.

## Findings

| source | as written | input that shows it | evidently intended | confidence | as-written member | corrected member |
|---|---|---|---|---|---|---|
| tests/contributing.py:34-58 | three entries of `CHECK_DETAILS` store their description as a pair of strings (two adjacent literals separated by a comma), so a passing row for them carries a tuple as its Details | a run whose only recorded step is `_validate_composition`, completing normally | one sentence per description, the two literals concatenated | not executed | Contributing.AsWrittenCompositionRow | Contributing.CorrectedSummary |
| tests/unit/test_hyper_transformer.py:1603-1627 | the tree of `test_get_final_output_columns` lists `field.out2.out2` (no `1`) as an output of `field1.out2`, and the final comparison has no `assert`, so the expected list is never checked | the test's own tree: `field1.out2` with outputs `field1.out2.out1` and `field.out2.out2` | `field1.out2.out2`, so that the leaves are the expected three columns | not executed | Fitting.FinalOutputsAsWrittenExample | Fitting.FinalOutputsExample |
