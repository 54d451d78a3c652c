/** The configuration of the HyperTransformer: fields (a column name or a tuple
    of column names), insertion-ordered dictionaries keyed by field, the map
    from each column of a multi-column field to that field, the check that no
    column is configured twice, and the rule that picks the transformer for an
    output column. */
module Config {
  import opened Wrappers
  import opened Transformers

  /** A configuration key: one column, or a tuple of columns. A one-element
      tuple such as `('integer',)` is a `Multi` field, distinct from the key
      `'integer'`. */
  datatype Field = Single(name: string) | Multi(names: seq<string>)

  function FieldColumns(f: Field): (r: seq<string>)
    ensures f.Single? ==> r == [f.name]
    ensures f.Multi? ==> r == f.names
  {
    match f
    case Single(n) => [n]
    case Multi(ns) => ns
  }

  // ------------------------------------------------------- ordered dictionaries

  /** A dictionary keyed by field that remembers insertion order. */
  datatype Dict<V> = Dict(keys: seq<Field>, vals: map<Field, V>)

  /** No key occurs twice: each key is absent from the keys before it. */
  predicate KeysDistinct(keys: seq<Field>)
    decreases |keys|
  {
    |keys| == 0 || (keys[|keys| - 1] !in keys[..|keys| - 1] && KeysDistinct(keys[..|keys| - 1]))
  }

  /** Two positions of a distinct key sequence hold different keys. */
  lemma {:induction false} KeysDistinctAt(keys: seq<Field>, j: int, i: int)
    requires KeysDistinct(keys) && 0 <= j < i < |keys|
    ensures keys[j] != keys[i]
    decreases |keys|
  {
    var n := |keys| - 1;
    assert keys[..n][j] == keys[j];
    if i < n {
      assert keys[..n][i] == keys[i];
      KeysDistinctAt(keys[..n], j, i);
    }
  }

  /** Every listed key has a value. */
  predicate Covered<V>(d: Dict<V>)
  {
    forall i :: 0 <= i < |d.keys| ==> d.keys[i] in d.vals
  }

  /** The key sequence lists each key of the map exactly once. */
  predicate DictValid<V>(d: Dict<V>)
  {
    KeysDistinct(d.keys) && (forall k :: k in d.keys ==> k in d.vals) && (forall k :: k in d.vals ==> k in d.keys)
  }

  function EmptyDict<V>(): (r: Dict<V>)
    ensures DictValid(r) && |r.keys| == 0 && r.vals == map[]
  {
    Dict([], map[])
  }

  /** `d[k] = v`: a new key goes last, an existing key keeps its place. */
  function Put<V>(d: Dict<V>, k: Field, v: V): (r: Dict<V>)
    ensures r.vals == d.vals[k := v]
    ensures k in d.vals ==> r.keys == d.keys
    ensures k !in d.vals ==> r.keys == d.keys + [k]
    ensures DictValid(d) ==> DictValid(r)
  {
    if k in d.vals then Dict(d.keys, d.vals[k := v]) else Dict(d.keys + [k], d.vals[k := v])
  }

  /** Writes `vals[k]` under each key of `keys`, in order. */
  function PutAll<V>(d: Dict<V>, keys: seq<Field>, vals: map<Field, V>): (r: Dict<V>)
    requires forall k :: k in keys ==> k in vals
    ensures forall k :: k in r.vals <==> k in d.vals || k in keys
    ensures forall k :: k in keys ==> r.vals[k] == vals[k]
    ensures forall k :: k in d.vals && k !in keys ==> r.vals[k] == d.vals[k]
    ensures forall k :: k in d.keys ==> k in r.keys
    ensures DictValid(d) ==> DictValid(r)
    decreases |keys|
  {
    if |keys| == 0 then d
    else PutAll(Put(d, keys[0], vals[keys[0]]), keys[1..], vals)
  }

  /** `d.update(e)`: every entry of `e` overrides or extends `d`; keys new to
      `d` are appended in the order of `e`. */
  function Merge<V>(d: Dict<V>, e: Dict<V>): (r: Dict<V>)
    requires DictValid(e)
    ensures forall k :: k in r.vals <==> k in d.vals || k in e.vals
    ensures forall k :: k in e.vals ==> r.vals[k] == e.vals[k]
    ensures forall k :: k in d.vals && k !in e.vals ==> r.vals[k] == d.vals[k]
    ensures forall k :: k in d.keys ==> k in r.keys
    ensures DictValid(d) ==> DictValid(r)
  {
    PutAll(d, e.keys, e.vals)
  }

  // ---------------------------------------------------------- field helpers

  /** `_add_field_to_set`: the columns of the field join the set. */
  function AddFieldToSet(f: Field, s: set<string>): (r: set<string>)
    ensures forall c :: c in r <==> c in s || c in FieldColumns(f)
  {
    s + set c | c in FieldColumns(f)
  }

  /** `_field_in_set`: every column of the field is in the set. */
  predicate FieldInSet(f: Field, s: set<string>)
  {
    forall c :: c in FieldColumns(f) ==> c in s
  }

  /** A tuple key of more than one column. */
  predicate IsMultiColumn(f: Field)
  {
    f.Multi? && |f.names| > 1
  }

  /** `_create_multi_column_fields` over the keys of `field_transformers`
      followed by those of `field_sdtypes`: each column of a tuple key of more
      than one column maps to that tuple; where two tuples share a column the
      later one wins. */
  function MultiColumnFields(fields: seq<Field>): (r: map<string, seq<string>>)
    ensures forall c :: c in r <==> exists i :: 0 <= i < |fields| && IsMultiColumn(fields[i]) && c in fields[i].names
    ensures forall c :: c in r ==> |r[c]| > 1 && c in r[c] && Multi(r[c]) in fields
    decreases |fields|
  {
    if |fields| == 0 then map[]
    else
      var init := fields[..|fields| - 1];
      var f := fields[|fields| - 1];
      assert forall i :: 0 <= i < |init| ==> init[i] == fields[i];
      var m := MultiColumnFields(init);
      if IsMultiColumn(f) then m + map c | c in f.names :: f.names else m
  }

  /** Each column of a tuple key maps to the last tuple key that holds it. */
  lemma {:induction false} MultiColumnFieldsLastWins(fields: seq<Field>, i: int, c: string)
    requires 0 <= i < |fields| && IsMultiColumn(fields[i]) && c in fields[i].names
    requires forall j :: i < j < |fields| && IsMultiColumn(fields[j]) ==> c !in fields[j].names
    ensures c in MultiColumnFields(fields) && MultiColumnFields(fields)[c] == fields[i].names
    decreases |fields|
  {
    var n := |fields| - 1;
    var init := fields[..n];
    if i < n {
      assert init[i] == fields[i];
      MultiColumnFieldsLastWins(init, i, c);
    }
  }

  // --------------------------------------------------- duplicate validation

  /** Every column named by some field of `fields`. */
  function Seen(fields: seq<Field>): (r: set<string>)
    ensures forall c :: c in r <==> exists i :: 0 <= i < |fields| && c in FieldColumns(fields[i])
    decreases |fields|
  {
    if |fields| == 0 then {}
    else
      var init := fields[..|fields| - 1];
      assert forall i :: 0 <= i < |init| ==> init[i] == fields[i];
      AddFieldToSet(fields[|fields| - 1], Seen(init))
  }

  /** The field at position `i` names only columns that earlier fields named. */
  predicate Repeats(fields: seq<Field>, i: int)
    requires 0 <= i < |fields|
  {
    FieldInSet(fields[i], Seen(fields[..i]))
  }

  /** The first field all of whose columns were already configured, if any. */
  function DuplicateField(fields: seq<Field>): (r: Option<Field>)
    ensures r.None? <==> forall i :: 0 <= i < |fields| ==> !Repeats(fields, i)
    ensures r.Some? ==> exists i :: 0 <= i < |fields| && fields[i] == r.value && Repeats(fields, i)
                          && forall j :: 0 <= j < i ==> !Repeats(fields, j)
    decreases |fields|
  {
    if |fields| == 0 then None
    else
      var n := |fields| - 1;
      var init := fields[..n];
      assert forall i :: 0 <= i < n ==> init[..i] == fields[..i];
      assert forall i :: 0 <= i < n ==> (Repeats(init, i) <==> Repeats(fields, i));
      match DuplicateField(init)
      case Some(f) => Some(f)
      case None => if Repeats(fields, n) then Some(fields[n]) else None
  }

  /** `_validate_field_transformers`: walks the keys of `field_transformers`,
      collecting their columns, and names the first key whose columns were all
      collected before. */
  method ValidateFieldTransformers(fields: seq<Field>) returns (r: Result<(), Field>)
    ensures r.Ok? <==> DuplicateField(fields).None?
    ensures r.Err? ==> r.error == DuplicateField(fields).value
  {
    var seen: set<string> := {};
    var i := 0;
    while i < |fields|
      invariant 0 <= i <= |fields|
      invariant seen == Seen(fields[..i])
      invariant DuplicateField(fields[..i]).None?
    {
      assert fields[..i + 1][..i] == fields[..i];
      if FieldInSet(fields[i], seen) {
        assert Repeats(fields, i);
        DuplicatePrefix(fields, i);
        return Err(fields[i]);
      }
      assert !Repeats(fields[..i + 1], i);
      seen := AddFieldToSet(fields[i], seen);
      i := i + 1;
    }
    assert fields[..i] == fields;
    return Ok(());
  }

  /** When no field before `i` repeats and field `i` does, it is the duplicate. */
  lemma DuplicatePrefix(fields: seq<Field>, i: int)
    requires 0 <= i < |fields|
    requires DuplicateField(fields[..i]).None? && Repeats(fields, i)
    ensures DuplicateField(fields) == Some(fields[i])
  {
    forall j | 0 <= j < i ensures !Repeats(fields, j) {
      assert fields[..i][..j] == fields[..j];
      assert !Repeats(fields[..i], j);
    }
  }

  /** Configuring `'integer'`, `'float'` and `('integer',)` is rejected, naming
      the tuple. */
  lemma DuplicateFieldExample()
    ensures DuplicateField([Single("integer"), Single("float"), Multi(["integer"])]) == Some(Multi(["integer"]))
  {
    var fields := [Single("integer"), Single("float"), Multi(["integer"])];
    assert "integer" in FieldColumns(fields[..2][0]);
    assert Repeats(fields, 2);
    assert !Repeats(fields, 0);
    assert !Repeats(fields, 1) by {
      assert fields[..1] == [Single("integer")];
      if "float" in Seen(fields[..1]) {
        var i :| 0 <= i < 1 && "float" in FieldColumns(fields[..1][i]);
      }
    }
  }

  // ------------------------------------------------------- next transformer

  /** Output sdtypes that are ready for machine learning and need no further
      transformer. */
  const TERMINAL_SDTYPES: set<string> := {"numerical", "float"}

  /** `_get_next_transformer`: the transformer for an output column. An explicit
      `field_transformers` entry wins; otherwise a terminal sdtype needs none;
      otherwise the upstream unit's hint for that column; otherwise the global
      default for the sdtype, with noise switched off. The
      `default_sdtype_transformers` setting is not consulted. */
  function NextTransformer(fieldTransformers: Dict<Transformer>, registry: map<string, Transformer>,
                           outputField: Field, outputSdtype: string, hints: map<string, Transformer>): (r: Option<Transformer>)
    ensures outputField in fieldTransformers.vals ==> r == Some(fieldTransformers.vals[outputField])
    ensures outputField !in fieldTransformers.vals && outputSdtype in TERMINAL_SDTYPES ==> r.None?
    ensures (outputField !in fieldTransformers.vals && outputSdtype !in TERMINAL_SDTYPES
             && outputField.Single? && outputField.name in hints) ==> r == Some(hints[outputField.name])
    ensures r.Some? && outputField !in fieldTransformers.vals && !(outputField.Single? && outputField.name in hints)
            ==> outputSdtype in registry && r.value == registry[outputSdtype].(addNoise := false)
    ensures r.None? ==> outputField !in fieldTransformers.vals
                        && (outputSdtype in TERMINAL_SDTYPES || outputSdtype !in registry)
  {
    if outputField in fieldTransformers.vals then Some(fieldTransformers.vals[outputField])
    else if outputSdtype in TERMINAL_SDTYPES then None
    else if outputField.Single? && outputField.name in hints then Some(hints[outputField.name])
    else if outputSdtype in registry then Some(registry[outputSdtype].(addNoise := false))
    else None
  }
}
