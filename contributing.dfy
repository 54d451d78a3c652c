/** The bookkeeping of `tests/contributing.py`: resolving a dotted class name,
    the integration-check summary, and the code-style report. The external
    tools (the integration validator, flake8/isort/pylint/pydocstyle, the custom
    checks) are not run: their outcomes are the inputs. */
module Contributing {
  import opened Wrappers
  import opened Strings
  import opened Seqs

  // ---------------------------------------------------------------- get_class

  /** The argument of `get_class`: a dotted class name, or anything else. */
  datatype ClassArg = DottedName(name: string) | NotAString

  datatype ClassError = NoDotInName(name: string)

  /** `get_class`: anything that is not a string gives None; a string is split at
      its last `.` into the module to import and the attribute to read from it
      (Python raises when there is no `.`). The import itself is not modelled:
      the result is the (module, attribute) pair that would be looked up. */
  function GetClass(arg: ClassArg): (r: Result<Option<(string, string)>, ClassError>)
    ensures arg.NotAString? ==> r == Ok(None)
    ensures arg.DottedName? && '.' !in arg.name ==> r.Err?
    ensures r.Ok? && r.value.Some? ==>
      arg.DottedName? && arg.name == r.value.value.0 + "." + r.value.value.1 && '.' !in r.value.value.1
  {
    match arg
    case NotAString => Ok(None)
    case DottedName(name) =>
      match RSplitOnce(name, '.')
      case None => Err(NoDotInName(name))
      case Some(parts) => Ok(Some(parts))
  }

  /** A fully qualified class name resolves to its module and class name. */
  lemma GetClassQualified(package: string, className: string)
    requires '.' !in className
    ensures GetClass(DottedName(package + "." + className)) == Ok(Some((package, className)))
  {
    RSplitOnceOfConcat(package, '.', className);
  }

  // ------------------------------------------------------------ CHECK_DETAILS

  /** The names of the validation steps, in the order `CHECK_DETAILS` lists them. */
  const CHECK_STEPS: seq<string> := [
    "_validate_dataset_generators",
    "_validate_transformed_data",
    "_validate_reverse_transformed_data",
    "_validate_composition",
    "_validate_hypertransformer_transformed_data",
    "_validate_hypertransformer_reverse_transformed_data"
  ]

  // The descriptions that `CHECK_DETAILS` in contributing.py writes in two pieces.
  const REVERSE_HEAD := "The Transformer can reverse transform the data it produces, going back to the "
  const REVERSE_TAIL := "original data type."
  const COMPOSITION_HEAD := "Transforming data and reversing it recovers the original data, if composition is "
  const COMPOSITION_TAIL := "identity is specified."
  const HT_REVERSE_HEAD := "The HyperTransformer is able to reverse the data that it has previously transformed "
  const HT_REVERSE_TAIL := "and restore the original data type."

  /** `CHECK_DETAILS` exactly as written: three of the descriptions carry a comma
      inside their parentheses, which makes them 2-tuples of strings rather than
      one string. Each value here is (check name, the parts of the description). */
  const CHECK_DETAILS_AS_WRITTEN: map<string, (string, seq<string>)> := map[
    "_validate_dataset_generators" := ("Dataset Generators",
      ["At least one Dataset Generator exists for the Transformer data type."]),
    "_validate_transformed_data" := ("Output Types",
      ["The Transformer can transform data and produce output(s) of the indicated data type(s)."]),
    "_validate_reverse_transformed_data" := ("Reverse Transform", [REVERSE_HEAD, REVERSE_TAIL]),
    "_validate_composition" := ("Composition is Identity", [COMPOSITION_HEAD, COMPOSITION_TAIL]),
    "_validate_hypertransformer_transformed_data" := ("Hypertransformer can transform",
      ["The HyperTransformer is able to use the Transformer and produce float values."]),
    "_validate_hypertransformer_reverse_transformed_data" := ("Hypertransformer can reverse transform",
      [HT_REVERSE_HEAD, HT_REVERSE_TAIL])
  ]

  /** `CHECK_DETAILS` as evidently intended: every description one string. */
  const CHECK_DETAILS: map<string, (string, string)> := map[
    "_validate_dataset_generators" := ("Dataset Generators",
      "At least one Dataset Generator exists for the Transformer data type."),
    "_validate_transformed_data" := ("Output Types",
      "The Transformer can transform data and produce output(s) of the indicated data type(s)."),
    "_validate_reverse_transformed_data" := ("Reverse Transform", REVERSE_HEAD + REVERSE_TAIL),
    "_validate_composition" := ("Composition is Identity", COMPOSITION_HEAD + COMPOSITION_TAIL),
    "_validate_hypertransformer_transformed_data" := ("Hypertransformer can transform",
      "The HyperTransformer is able to use the Transformer and produce float values."),
    "_validate_hypertransformer_reverse_transformed_data" := ("Hypertransformer can reverse transform",
      HT_REVERSE_HEAD + HT_REVERSE_TAIL)
  ]

  /** The pieces of a description, glued together. */
  function Concat(parts: seq<string>): string
  {
    if |parts| == 0 then "" else parts[0] + Concat(parts[1..])
  }

  /** As written, three checks would report a pair of strings as their details:
      their descriptions are not single sentences. */
  lemma AsWrittenDetailsAreTuples(step: string)
    ensures step in CHECK_DETAILS_AS_WRITTEN && |CHECK_DETAILS_AS_WRITTEN[step].1| != 1 <==>
      step in {"_validate_reverse_transformed_data", "_validate_composition",
               "_validate_hypertransformer_reverse_transformed_data"}
  {
  }

  /** The corrected table has the same steps and check names, and each description
      is the concatenation of the pieces `CHECK_DETAILS` in contributing.py writes. */
  lemma CorrectedDetailsJoinParts(step: string)
    ensures step in CHECK_DETAILS <==> step in CHECK_DETAILS_AS_WRITTEN
    ensures step in CHECK_DETAILS <==> step in CHECK_STEPS
    ensures step in CHECK_DETAILS ==>
      CHECK_DETAILS[step].0 == CHECK_DETAILS_AS_WRITTEN[step].0
      && CHECK_DETAILS[step].1 == Concat(CHECK_DETAILS_AS_WRITTEN[step].1)
  {
    if step in CHECK_DETAILS {
      var parts := CHECK_DETAILS_AS_WRITTEN[step].1;
      assert Concat(parts) == parts[0] + Concat(parts[1..]);
      if |parts| == 2 {
        assert Concat(parts[1..]) == parts[1] + Concat(parts[1..][1..]);
        assert parts[1..][1..] == [];
      } else {
        assert parts[1..] == [];
      }
    }
  }

  /** The check names of different steps differ. */
  lemma CheckNamesDistinct(a: string, b: string)
    requires a in CHECK_DETAILS && b in CHECK_DETAILS && a != b
    ensures CHECK_DETAILS[a].0 != CHECK_DETAILS[b].0
  {
  }

  // ------------------------------------------- validate_transformer_integration

  /** `needle in haystack` on strings. */
  predicate Contains(haystack: string, needle: string)
    decreases |haystack|
  {
    (|needle| <= |haystack| && haystack[..|needle|] == needle)
    || (|haystack| > 0 && Contains(haystack[1..], needle))
  }

  /** How the integration validator ended: it returned, or it raised an exception
      with this message (`str(error)`) and this formatted traceback. */
  datatype RunOutcome = Completed | Raised(message: string, trace: string)

  /** The loop over `CHECK_DETAILS`: a raised error counts as a validation error
      exactly when its traceback mentions one of the validation steps, and the
      validation error is then the exception's message. */
  method RecogniseValidationError(outcome: RunOutcome) returns (validationError: Option<string>)
    ensures outcome.Completed? ==> validationError.None?
    ensures outcome.Raised? ==>
      (validationError.Some? <==> exists i :: 0 <= i < |CHECK_STEPS| && Contains(outcome.trace, CHECK_STEPS[i]))
    ensures validationError.Some? ==> outcome.Raised? && validationError.value == outcome.message
  {
    validationError := None;
    if outcome.Raised? {
      var i := 0;
      while i < |CHECK_STEPS|
        invariant 0 <= i <= |CHECK_STEPS|
        invariant validationError.Some? <==> exists k :: 0 <= k < i && Contains(outcome.trace, CHECK_STEPS[k])
        invariant validationError.Some? ==> validationError.value == outcome.message
      {
        if Contains(outcome.trace, CHECK_STEPS[i]) {
          validationError := Some(outcome.message);
        }
        i := i + 1;
      }
    }
  }

  /** What the details cell of a summary row holds: the step's description from
      the table, or the validation error when the row is the failed step's. */
  datatype RowDetails<D> = Described(description: D) | Failure(error: string)

  /** One row of the integration summary: [check, 'Yes'/'No', details]. */
  datatype SummaryRow<D> = SummaryRow(check: string, correct: string, details: RowDetails<D>)

  /** A table like `CHECK_DETAILS`: step name to (check name, description). */
  type DetailsTable<D> = map<string, (string, D)>

  /** Every step has an entry in the table. */
  predicate KnownSteps<D>(table: DetailsTable<D>, steps: seq<string>)
  {
    forall k :: 0 <= k < |steps| ==> steps[k] in table
  }

  /** `failed_step and step == failed_step`: an empty step name is falsy. */
  predicate IsFailedStep(step: string, failedStep: Option<string>)
  {
    failedStep.Some? && failedStep.value != "" && step == failedStep.value
  }

  /** The row a step contributes the first time its check is met. */
  function RowFor<D>(table: DetailsTable<D>, step: string, failedStep: Option<string>, validationError: string): (r: SummaryRow<D>)
    requires step in table
    ensures r.check == table[step].0
  {
    var (check, details) := table[step];
    if IsFailedStep(step, failedStep) then SummaryRow(check, "No", Failure(validationError))
    else SummaryRow(check, "Yes", Described(details))
  }

  /** The summary rows of `steps` whose checks are not in `seen`, one per check,
      in order of first appearance. */
  function SummaryRows<D>(table: DetailsTable<D>, steps: seq<string>, failedStep: Option<string>, validationError: string,
                          seen: set<string>): seq<SummaryRow<D>>
    requires KnownSteps(table, steps)
  {
    if |steps| == 0 then []
    else
      var check := table[steps[0]].0;
      if check in seen then SummaryRows(table, steps[1..], failedStep, validationError, seen)
      else [RowFor(table, steps[0], failedStep, validationError)] + SummaryRows(table, steps[1..], failedStep, validationError, seen + {check})
  }

  /** No row is for a check already seen. */
  lemma {:induction false} SummaryRowsFresh<D>(table: DetailsTable<D>, steps: seq<string>, failedStep: Option<string>, err: string,
                                              seen: set<string>)
    requires KnownSteps(table, steps)
    ensures forall i :: 0 <= i < |SummaryRows(table, steps, failedStep, err, seen)| ==>
      SummaryRows(table, steps, failedStep, err, seen)[i].check !in seen
  {
    if |steps| > 0 {
      var check := table[steps[0]].0;
      var seen' := if check in seen then seen else seen + {check};
      var r := SummaryRows(table, steps, failedStep, err, seen);
      var rest := SummaryRows(table, steps[1..], failedStep, err, seen');
      SummaryRowsFresh(table, steps[1..], failedStep, err, seen');
      if check in seen {
        assert r == rest;
      } else {
        assert r == [RowFor(table, steps[0], failedStep, err)] + rest;
        forall i | 0 <= i < |r| ensures r[i].check !in seen {
          if i > 0 {
            assert r[i] == rest[i - 1];
          }
        }
      }
    }
  }

  /** At most one row per check. */
  lemma {:induction false} SummaryRowsDistinct<D>(table: DetailsTable<D>, steps: seq<string>, failedStep: Option<string>, err: string,
                                                 seen: set<string>)
    requires KnownSteps(table, steps)
    ensures forall i, j :: 0 <= i < j < |SummaryRows(table, steps, failedStep, err, seen)| ==>
      SummaryRows(table, steps, failedStep, err, seen)[i].check != SummaryRows(table, steps, failedStep, err, seen)[j].check
  {
    if |steps| > 0 {
      var check := table[steps[0]].0;
      var seen' := if check in seen then seen else seen + {check};
      var r := SummaryRows(table, steps, failedStep, err, seen);
      var rest := SummaryRows(table, steps[1..], failedStep, err, seen');
      SummaryRowsDistinct(table, steps[1..], failedStep, err, seen');
      if check in seen {
        assert r == rest;
      } else {
        SummaryRowsFresh(table, steps[1..], failedStep, err, seen');
        assert r == [RowFor(table, steps[0], failedStep, err)] + rest;
        forall i, j | 0 <= i < j < |r| ensures r[i].check != r[j].check {
          assert r[j] == rest[j - 1];
          if i > 0 {
            assert r[i] == rest[i - 1];
          }
        }
      }
    }
  }

  /** Every check of the steps that was not seen before gets a row. */
  lemma {:induction false} SummaryRowsCover<D>(table: DetailsTable<D>, steps: seq<string>, failedStep: Option<string>, err: string,
                                              seen: set<string>, k: int)
    requires KnownSteps(table, steps) && 0 <= k < |steps| && table[steps[k]].0 !in seen
    ensures exists i ::
              0 <= i < |SummaryRows(table, steps, failedStep, err, seen)|
              && SummaryRows(table, steps, failedStep, err, seen)[i].check == table[steps[k]].0
    decreases |steps|
  {
    var check := table[steps[0]].0;
    var seen' := if check in seen then seen else seen + {check};
    var r := SummaryRows(table, steps, failedStep, err, seen);
    var rest := SummaryRows(table, steps[1..], failedStep, err, seen');
    assert r == if check in seen then rest else [RowFor(table, steps[0], failedStep, err)] + rest;
    if table[steps[k]].0 == check {
      assert r[0].check == check;
    } else {
      assert k > 0 && steps[k] == steps[1..][k - 1];
      SummaryRowsCover(table, steps[1..], failedStep, err, seen', k - 1);
      var i :| 0 <= i < |rest| && rest[i].check == table[steps[k]].0;
      var i' := if check in seen then i else i + 1;
      assert r[i'] == rest[i];
    }
  }

  /** Some step has check `c`. */
  predicate HasCheck<D>(table: DetailsTable<D>, steps: seq<string>, c: string)
    requires KnownSteps(table, steps)
  {
    exists k :: 0 <= k < |steps| && table[steps[k]].0 == c
  }

  /** The first step with check `c`. */
  function FirstIndex<D>(table: DetailsTable<D>, steps: seq<string>, c: string): (k: nat)
    requires KnownSteps(table, steps) && HasCheck(table, steps, c)
    ensures k < |steps| && table[steps[k]].0 == c
    ensures forall m :: 0 <= m < k ==> table[steps[m]].0 != c
    decreases |steps|
  {
    if table[steps[0]].0 == c then 0
    else
      assert HasCheck(table, steps[1..], c) by {
        var k :| 0 <= k < |steps| && table[steps[k]].0 == c;
        assert steps[1..][k - 1] == steps[k];
      }
      1 + FirstIndex(table, steps[1..], c)
  }

  /** Each row is the row of the first step with its check. */
  lemma {:induction false} SummaryRowsFirst<D>(table: DetailsTable<D>, steps: seq<string>, failedStep: Option<string>, err: string,
                                              seen: set<string>)
    requires KnownSteps(table, steps)
    ensures forall i :: 0 <= i < |SummaryRows(table, steps, failedStep, err, seen)| ==>
      HasCheck(table, steps, SummaryRows(table, steps, failedStep, err, seen)[i].check)
    ensures forall i :: 0 <= i < |SummaryRows(table, steps, failedStep, err, seen)| ==>
      SummaryRows(table, steps, failedStep, err, seen)[i]
      == RowFor(table, steps[FirstIndex(table, steps, SummaryRows(table, steps, failedStep, err, seen)[i].check)], failedStep, err)
  {
    if |steps| > 0 {
      var check := table[steps[0]].0;
      var seen' := if check in seen then seen else seen + {check};
      var r := SummaryRows(table, steps, failedStep, err, seen);
      var rest := SummaryRows(table, steps[1..], failedStep, err, seen');
      SummaryRowsFirst(table, steps[1..], failedStep, err, seen');
      SummaryRowsFresh(table, steps[1..], failedStep, err, seen');
      var off := if check in seen then 0 else 1;
      forall i | off <= i < |r|
        ensures r[i] == rest[i - off]
      {
        if check !in seen {
          assert r == [RowFor(table, steps[0], failedStep, err)] + rest;
        }
      }
      assert |r| == |rest| + off;
      if check !in seen {
        assert r[0] == RowFor(table, steps[0], failedStep, err);
        assert HasCheck(table, steps, r[0].check) by {
          assert table[steps[0]].0 == r[0].check;
        }
        assert FirstIndex(table, steps, r[0].check) == 0;
      }
      forall i | off <= i < |r|
        ensures HasCheck(table, steps, r[i].check)
        ensures r[i] == RowFor(table, steps[FirstIndex(table, steps, r[i].check)], failedStep, err)
      {
        RestFirst(table, steps, rest[i - off].check);
      }
    }
  }

  /** The rows follow the order in which their checks first appear in the
      steps. */
  lemma {:induction false} SummaryRowsOrdered<D>(table: DetailsTable<D>, steps: seq<string>, failedStep: Option<string>, err: string,
                                                seen: set<string>)
    requires KnownSteps(table, steps)
    ensures forall i :: 0 <= i < |SummaryRows(table, steps, failedStep, err, seen)| ==>
      HasCheck(table, steps, SummaryRows(table, steps, failedStep, err, seen)[i].check)
    ensures forall i, j :: 0 <= i < j < |SummaryRows(table, steps, failedStep, err, seen)| ==>
      FirstIndex(table, steps, SummaryRows(table, steps, failedStep, err, seen)[i].check)
      < FirstIndex(table, steps, SummaryRows(table, steps, failedStep, err, seen)[j].check)
  {
    if |steps| > 0 {
      var check := table[steps[0]].0;
      var seen' := if check in seen then seen else seen + {check};
      var r := SummaryRows(table, steps, failedStep, err, seen);
      var rest := SummaryRows(table, steps[1..], failedStep, err, seen');
      SummaryRowsOrdered(table, steps[1..], failedStep, err, seen');
      SummaryRowsFresh(table, steps[1..], failedStep, err, seen');
      var off := if check in seen then 0 else 1;
      forall i | off <= i < |r|
        ensures r[i] == rest[i - off]
      {
        if check !in seen {
          assert r == [RowFor(table, steps[0], failedStep, err)] + rest;
        }
      }
      assert |r| == |rest| + off;
      forall i, j | 0 <= i < j < |r|
        ensures HasCheck(table, steps, r[i].check) && HasCheck(table, steps, r[j].check)
        ensures FirstIndex(table, steps, r[i].check) < FirstIndex(table, steps, r[j].check)
      {
        if i >= off {
          ShiftedOrder(table, steps, rest[i - off].check, rest[j - off].check);
        } else {
          assert r[0] == RowFor(table, steps[0], failedStep, err);
          RestFirst(table, steps, rest[j - off].check);
        }
      }
    }
    assert forall i :: 0 <= i < |SummaryRows(table, steps, failedStep, err, seen)| ==>
      HasCheck(table, steps, SummaryRows(table, steps, failedStep, err, seen)[i].check) by {
      SummaryRowsFirst(table, steps, failedStep, err, seen);
    }
  }

  /** Two checks other than the first step's keep their order of first
      appearance when the first step is put back. */
  lemma ShiftedOrder<D>(table: DetailsTable<D>, steps: seq<string>, a: string, b: string)
    requires KnownSteps(table, steps) && |steps| > 0 && a != table[steps[0]].0 && b != table[steps[0]].0
    requires HasCheck(table, steps[1..], a) && HasCheck(table, steps[1..], b)
    requires FirstIndex(table, steps[1..], a) < FirstIndex(table, steps[1..], b)
    ensures HasCheck(table, steps, a) && HasCheck(table, steps, b)
    ensures FirstIndex(table, steps, a) < FirstIndex(table, steps, b)
  {
    RestFirst(table, steps, a);
    RestFirst(table, steps, b);
  }

  /** A check other than the first step's first appears one step later in the
      tail. */
  lemma RestFirst<D>(table: DetailsTable<D>, steps: seq<string>, c: string)
    requires KnownSteps(table, steps) && |steps| > 0 && c != table[steps[0]].0
    requires HasCheck(table, steps[1..], c)
    ensures HasCheck(table, steps, c)
    ensures FirstIndex(table, steps, c) == 1 + FirstIndex(table, steps[1..], c)
  {
    var k := FirstIndex(table, steps[1..], c);
    assert steps[k + 1] == steps[1..][k];
  }

  /** The first step adds its row unless its check was seen. */
  lemma SummaryRowsHead<D>(table: DetailsTable<D>, steps: seq<string>, failedStep: Option<string>, err: string, seen: set<string>)
    requires KnownSteps(table, steps) && |steps| > 0
    ensures var check := table[steps[0]].0;
      var r := SummaryRows(table, steps, failedStep, err, seen);
      && (check in seen ==> r == SummaryRows(table, steps[1..], failedStep, err, seen))
      && (check !in seen ==> r == [RowFor(table, steps[0], failedStep, err)] + SummaryRows(table, steps[1..], failedStep, err, seen + {check}))
  {
  }

  /** A summary row either is the 'No' row of the failed step, carrying the
      validation error, or a 'Yes' row carrying the name and description of one of
      the steps. */
  ghost predicate VerdictOk<D>(table: DetailsTable<D>, row: SummaryRow<D>, steps: seq<string>, failedStep: Option<string>, err: string)
    requires KnownSteps(table, steps)
  {
    (row.correct == "No" && row.details == Failure(err)
      && failedStep.Some? && failedStep.value in table && row.check == table[failedStep.value].0)
    || (row.correct == "Yes" && row.details.Described?
        && exists k :: 0 <= k < |steps| && table[steps[k]] == (row.check, row.details.description))
  }

  /** A row says 'No' only for the failed step, and then carries the validation
      error; every other row says 'Yes' with its check's description. */
  lemma {:induction false} SummaryRowsVerdicts<D>(table: DetailsTable<D>, steps: seq<string>, failedStep: Option<string>, err: string,
                                                 seen: set<string>)
    requires KnownSteps(table, steps)
    ensures forall i :: 0 <= i < |SummaryRows(table, steps, failedStep, err, seen)| ==>
      VerdictOk(table, SummaryRows(table, steps, failedStep, err, seen)[i], steps, failedStep, err)
  {
    if |steps| > 0 {
      var check := table[steps[0]].0;
      var seen' := if check in seen then seen else seen + {check};
      var r := SummaryRows(table, steps, failedStep, err, seen);
      var rest := SummaryRows(table, steps[1..], failedStep, err, seen');
      SummaryRowsVerdicts(table, steps[1..], failedStep, err, seen');
      assert forall j :: 0 <= j < |rest| ==> VerdictOk(table, rest[j], steps[1..], failedStep, err);
      assert r == if check in seen then rest else [RowFor(table, steps[0], failedStep, err)] + rest;
      forall i | 0 <= i < |r|
        ensures VerdictOk(table, r[i], steps, failedStep, err)
      {
        if check !in seen && i == 0 {
          assert r[0] == RowFor(table, steps[0], failedStep, err);
          if r[0].correct == "Yes" {
            assert table[steps[0]] == (r[0].check, r[0].details.description);
          }
        } else {
          var j := if check in seen then i else i - 1;
          assert r[i] == rest[j];
          assert VerdictOk(table, rest[j], steps[1..], failedStep, err);
          if r[i].correct == "Yes" {
            var k :| 0 <= k < |steps[1..]| && table[steps[1..][k]] == (rest[j].check, rest[j].details.description);
            assert steps[1..][k] == steps[k + 1];
          }
        }
      }
    }
  }

  /** Why the summary could not be built: the validator raised an error the trace
      attributes to a validation step but recorded no step (`steps[-1]` fails), or
      a recorded step has no entry in the table (`CHECK_DETAILS[step]` fails). */
  datatype SummaryError = NoStepRecorded | UnknownStep(step: string)

  /** The validation error recognised in an outcome, as a function. */
  function ValidationErrorOf(outcome: RunOutcome): Option<string>
  {
    if outcome.Raised? && exists i :: 0 <= i < |CHECK_STEPS| && Contains(outcome.trace, CHECK_STEPS[i])
    then Some(outcome.message) else None
  }

  /** `validate_transformer_integration` once the validator has run, over a
      details table (`CHECK_DETAILS` as written or as corrected): `steps` are the
      steps it recorded and `outcome` how it ended. Gives the summary rows and
      whether the transformer passed. */
  method ValidateTransformerIntegration<D>(table: DetailsTable<D>, steps: seq<string>, outcome: RunOutcome)
    returns (r: Result<(seq<SummaryRow<D>>, bool), SummaryError>)
    ensures r == Err(NoStepRecorded) <==> ValidationErrorOf(outcome).Some? && |steps| == 0
    ensures r.Err? && r.error.UnknownStep? <==> !(ValidationErrorOf(outcome).Some? && |steps| == 0) && !KnownSteps(table, steps)
    ensures r.Err? && r.error.UnknownStep? ==>
      exists k :: 0 <= k < |steps| && steps[k] == r.error.step && steps[k] !in table && KnownSteps(table, steps[..k])
    ensures r.Ok? ==> KnownSteps(table, steps) && (r.value.1 <==> outcome.Completed?)
    ensures r.Ok? ==>
      var failedStep := if ValidationErrorOf(outcome).Some? then Some(steps[|steps| - 1]) else None;
      var err := if ValidationErrorOf(outcome).Some? then outcome.message else "";
      r.value.0 == SummaryRows(table, steps, failedStep, err, {})
  {
    var validationError := RecogniseValidationError(outcome);
    var failedStep: Option<string> := None;
    if validationError.Some? {
      if |steps| == 0 {
        return Err(NoStepRecorded);
      }
      failedStep := Some(steps[|steps| - 1]);
    }
    var err := if validationError.Some? then validationError.value else "";
    var rows := [];
    var seen: set<string> := {};
    var i := 0;
    while i < |steps|
      invariant 0 <= i <= |steps|
      invariant KnownSteps(table, steps[..i])
      invariant KnownSteps(table, steps) ==>
        rows + SummaryRows(table, steps[i..], failedStep, err, seen) == SummaryRows(table, steps, failedStep, err, {})
    {
      if steps[i] !in table {
        return Err(UnknownStep(steps[i]));
      }
      var (check, details) := table[steps[i]];
      if KnownSteps(table, steps) {
        SummaryRowsHead(table, steps[i..], failedStep, err, seen);
        assert steps[i..][0] == steps[i] && steps[i..][1..] == steps[i + 1..];
        if check !in seen {
          AppendAssoc(rows, [RowFor(table, steps[i], failedStep, err)],
                      SummaryRows(table, steps[i + 1..], failedStep, err, seen + {check}));
        }
      }
      if check !in seen {
        seen := seen + {check};
        if failedStep.Some? && failedStep.value != "" && steps[i] == failedStep.value {
          rows := rows + [SummaryRow(check, "No", Failure(err))];
        } else {
          rows := rows + [SummaryRow(check, "Yes", Described(details))];
        }
      }
      assert steps[..i + 1] == steps[..i] + [steps[i]];
      i := i + 1;
    }
    assert steps[..i] == steps;
    r := Ok((rows, validationError.None? && outcome.Completed?));
  }

  /** The row with its description's pieces glued together. */
  function JoinRow(row: SummaryRow<seq<string>>): (r: SummaryRow<string>)
    ensures r.check == row.check && r.correct == row.correct
    ensures row.details.Failure? ==> r.details == Failure(row.details.error)
    ensures row.details.Described? ==> r.details == Described(Concat(row.details.description))
  {
    var details := match row.details
      case Described(parts) => Described(Concat(parts))
      case Failure(e) => Failure(e);
    SummaryRow(row.check, row.correct, details)
  }

  /** Every row with its description's pieces glued together. */
  function JoinRows(rows: seq<SummaryRow<seq<string>>>): (r: seq<SummaryRow<string>>)
    ensures |r| == |rows| && forall i :: 0 <= i < |rows| ==> r[i] == JoinRow(rows[i])
  {
    seq(|rows|, i requires 0 <= i < |rows| => JoinRow(rows[i]))
  }

  /** Two tables that agree on their steps and check names, and where each
      description of the first is the pieces of the second glued together, give
      the same summary up to that gluing. */
  lemma {:induction false} SummaryRowsJoined(joined: DetailsTable<string>, parts: DetailsTable<seq<string>>, steps: seq<string>,
                                            failedStep: Option<string>, err: string, seen: set<string>)
    requires KnownSteps(parts, steps)
    requires forall s :: s in parts ==> s in joined && joined[s] == (parts[s].0, Concat(parts[s].1))
    ensures KnownSteps(joined, steps)
    ensures SummaryRows(joined, steps, failedStep, err, seen) == JoinRows(SummaryRows(parts, steps, failedStep, err, seen))
  {
    if |steps| > 0 {
      var check := parts[steps[0]].0;
      var seen' := if check in seen then seen else seen + {check};
      SummaryRowsJoined(joined, parts, steps[1..], failedStep, err, seen');
      var rest := SummaryRows(parts, steps[1..], failedStep, err, seen');
      if check !in seen {
        var row := RowFor(parts, steps[0], failedStep, err);
        assert JoinRow(row) == RowFor(joined, steps[0], failedStep, err);
        assert JoinRows([row] + rest) == [JoinRow(row)] + JoinRows(rest);
      }
    }
  }

  /** The integration summary over the corrected `CHECK_DETAILS` is the one over
      the table as written with every description's pieces glued together. */
  lemma CorrectedSummary(steps: seq<string>, failedStep: Option<string>, err: string)
    requires KnownSteps(CHECK_DETAILS_AS_WRITTEN, steps)
    ensures KnownSteps(CHECK_DETAILS, steps)
    ensures SummaryRows(CHECK_DETAILS, steps, failedStep, err, {})
            == JoinRows(SummaryRows(CHECK_DETAILS_AS_WRITTEN, steps, failedStep, err, {}))
  {
    forall s | s in CHECK_DETAILS_AS_WRITTEN
      ensures s in CHECK_DETAILS && CHECK_DETAILS[s] == (CHECK_DETAILS_AS_WRITTEN[s].0, Concat(CHECK_DETAILS_AS_WRITTEN[s].1))
    {
      CorrectedDetailsJoinParts(s);
    }
    SummaryRowsJoined(CHECK_DETAILS, CHECK_DETAILS_AS_WRITTEN, steps, failedStep, err, {});
  }

  /** As written, a passing composition check reports two strings as its
      details, the two halves of one sentence. */
  lemma AsWrittenCompositionRow()
    ensures KnownSteps(CHECK_DETAILS_AS_WRITTEN, ["_validate_composition"])
    ensures SummaryRows(CHECK_DETAILS_AS_WRITTEN, ["_validate_composition"], None, "", {})
            == [SummaryRow("Composition is Identity", "Yes", Described([COMPOSITION_HEAD, COMPOSITION_TAIL]))]
  {
  }

  /** As corrected, the same row reports the sentence. */
  lemma CorrectedCompositionRow()
    ensures KnownSteps(CHECK_DETAILS, ["_validate_composition"])
    ensures SummaryRows(CHECK_DETAILS, ["_validate_composition"], None, "", {})
            == [SummaryRow("Composition is Identity", "Yes", Described(COMPOSITION_HEAD + COMPOSITION_TAIL))]
  {
  }

  // --------------------------------------------- validate_transformer_code_style

  /** One result dictionary: 'Check', 'Correct', 'Details' and, for a failure,
      'output_capture'. */
  datatype CheckResult = CheckResult(check: string, correct: string, details: string, outputCapture: Option<string>)

  /** `_validate_third_party_code_style` once the tool's captured standard output is known. */
  function ThirdPartyCodeStyle(tag: string, successMessage: string, errorMessage: string, output: string): (r: CheckResult)
    ensures r.check == tag
    ensures r.correct == "No" <==> output != ""
    ensures r.outputCapture.Some? <==> output != ""
    ensures r.outputCapture.Some? ==> r.outputCapture.value == output && r.details == errorMessage
    ensures r.outputCapture.None? ==> r.correct == "Yes" && r.details == successMessage
  {
    if output != "" then CheckResult(tag, "No", errorMessage, Some(output))
    else CheckResult(tag, "Yes", successMessage, None)
  }

  /** How a custom validation function ended. */
  datatype CallOutcome = Returned | AssertionFailed(message: string) | OtherException(message: string)

  /** `_custom_validation`: a returning check passes, a failed assertion is reported
      with its message captured, any other exception propagates. */
  function CustomValidation(tag: string, successMessage: string, errorMessage: string, outcome: CallOutcome): (r: Result<CheckResult, string>)
    ensures outcome.OtherException? <==> r.Err?
    ensures r.Ok? ==> r.value.check == tag
    ensures outcome.Returned? ==> r == Ok(CheckResult(tag, "Yes", successMessage, None))
    ensures outcome.AssertionFailed? ==> r.Ok? && r.value.correct == "No" && r.value.outputCapture == Some(outcome.message)
  {
    match outcome
    case Returned => Ok(CheckResult(tag, "Yes", successMessage, None))
    case AssertionFailed(message) => Ok(CheckResult(tag, "No", errorMessage, Some(message)))
    case OtherException(message) => Err(message)
  }

  /** The results with every 'output_capture' removed. */
  function Stripped(results: seq<CheckResult>): (r: seq<CheckResult>)
    ensures |r| == |results|
    ensures forall i :: 0 <= i < |r| ==> r[i] == results[i].(outputCapture := None)
  {
    if |results| == 0 then [] else [results[0].(outputCapture := None)] + Stripped(results[1..])
  }

  /** (check, captured output) for every result that carries one, in order. */
  function Captures(results: seq<CheckResult>): (r: seq<(string, string)>)
  {
    if |results| == 0 then []
    else if results[0].outputCapture.Some? then
      [(results[0].check, results[0].outputCapture.value)] + Captures(results[1..])
    else Captures(results[1..])
  }

  /** There is no error to report exactly when no result captured any output. */
  lemma {:induction false} CapturesEmptyIff(results: seq<CheckResult>)
    ensures |Captures(results)| == 0 <==> forall i :: 0 <= i < |results| ==> results[i].outputCapture.None?
  {
    if |results| > 0 {
      CapturesEmptyIff(results[1..]);
      if results[0].outputCapture.None? {
        assert forall i :: 1 <= i < |results| ==> results[i] == results[1..][i - 1];
      }
    }
  }

  /** The error collection of `validate_transformer_code_style`: pops
      'output_capture' out of every result that has it, in place, and returns the
      popped (check, output) pairs and whether the code style is correct. */
  method CollectCodeStyleErrors(results: array<CheckResult>) returns (errors: seq<(string, string)>, valid: bool)
    modifies results
    ensures results[..] == Stripped(old(results[..]))
    ensures errors == Captures(old(results[..]))
    ensures valid <==> forall i :: 0 <= i < results.Length ==> old(results[i]).outputCapture.None?
  {
    ghost var original := results[..];
    errors := [];
    var i := 0;
    while i < results.Length
      invariant 0 <= i <= results.Length
      invariant results[i..] == original[i..]
      invariant results[..i] == Stripped(original[..i])
      invariant errors + Captures(original[i..]) == Captures(original)
    {
      assert original[i..] == [original[i]] + original[i + 1..];
      if results[i].outputCapture.Some? {
        errors := errors + [(results[i].check, results[i].outputCapture.value)];
      }
      results[i] := results[i].(outputCapture := None);
      assert original[..i + 1] == original[..i] + [original[i]];
      i := i + 1;
    }
    assert original[..results.Length] == original;
    CapturesEmptyIff(original);
    valid := |errors| == 0;
  }
}
