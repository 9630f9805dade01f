/**
 * `ReferenceInspector`: builds the validator/field cross-reference records
 * of a model once, when it is created, and filters them by validator or by
 * field.
 */
module ReferenceInspection {
  import opened PydanticModel
  import opened ValidatorFieldMaps
  import ValidatorInspection
  import FieldInspection

  /** A sequence that holds no element twice, as a list built from a set does. */
  ghost predicate NoDuplicates<T>(s: seq<T>) {
    forall i, j :: 0 <= i < j < |s| ==> s[i] != s[j]
  }

  /** Appending an element not yet present keeps a sequence free of duplicates. */
  lemma AppendFresh<T>(s: seq<T>, x: T)
    requires NoDuplicates(s) && x !in s
    ensures NoDuplicates(s + [x])
  {
  }

  /** The first two elements of a duplicate-free sequence are distinct members. */
  lemma FirstTwoDiffer<T>(s: seq<T>)
    requires NoDuplicates(s) && |s| > 1
    ensures s[0] in s && s[1] in s && s[0] != s[1]
  {
  }

  /** A duplicate-free sequence holding `x` and nothing else is `[x]`. */
  lemma OnlyElement<T>(s: seq<T>, x: T)
    requires NoDuplicates(s) && x in s
    requires forall y :: y in s ==> y == x
    ensures s == [x]
  {
    if |s| > 1 {
      FirstTwoDiffer(s);
      assert false;
    }
  }

  /** `model_path`: `module.Model`. */
  function ModelPath(m: Model): (r: string)
    ensures Dotted(r, m.moduleName, m.name)
  {
    DotJoin(m.moduleName, m.name)
  }

  /** `create_model_reference`: `module.Model.name`. */
  function CreateModelReference(m: Model, name: string): (r: string)
    ensures Dotted(r, ModelPath(m), name)
  {
    DotJoin(ModelPath(m), name)
  }

  /** The one record an asterisk validator gets. */
  function AsteriskRecord(m: Model, validator: string): ValidatorFieldMap {
    ValidatorFieldMap(AllFields, validator, true, ModelPath(m))
  }

  /**
   * `_create_mappings_asterisk`: one "all fields" record per name popped from
   * the `*` entry of `validator_names`; that entry always exists, so the pop
   * never raises.
   */
  function CreateMappingsAsterisk(m: Model): (r: set<ValidatorFieldMap>)
    ensures forall rec :: rec in r <==>
              ValidatorInspection.IsAsterisk(m, rec.validator) && rec == AsteriskRecord(m, rec.validator)
  {
    var fieldValidatorNames := FieldInspection.ValidatorNames(m);
    var asteriskValidators := fieldValidatorNames[Asterisk];
    var modelPath := ModelPath(m);
    set validator | validator in asteriskValidators ::
      ValidatorFieldMap(AllFields, validator, true, modelPath)
  }

  /**
   * The standard records, stated over `__validators__` itself: one per
   * binding of a non-asterisk validator to a target.
   */
  ghost function StandardMappings(m: Model): set<ValidatorFieldMap> {
    set field, validator |
      field in m.validators && validator in m.validators[field] &&
      !ValidatorInspection.IsAsterisk(m, validator) ::
      ValidatorFieldMap(field, validator, false, ModelPath(m))
  }

  /** Membership in `StandardMappings`, record by record. */
  lemma StandardMappingsMembership(m: Model, rec: ValidatorFieldMap)
    ensures rec in StandardMappings(m) <==>
              && ValidatorInspection.BoundTo(m, rec.field, rec.validator)
              && !ValidatorInspection.IsAsterisk(m, rec.validator)
              && rec == ValidatorFieldMap(rec.field, rec.validator, false, ModelPath(m))
  {
    if rec in StandardMappings(m) {
      var field, validator :|
        && field in m.validators && validator in m.validators[field]
        && !ValidatorInspection.IsAsterisk(m, validator)
        && rec == ValidatorFieldMap(field, validator, false, ModelPath(m));
    }
  }

  /**
   * Walking `validator_names` instead of `__validators__` changes nothing
   * for the standard records: its `*` entry holds only asterisk validators,
   * and every other entry holds exactly that target's bound names.
   */
  lemma EntryOfValidatorNames(m: Model, field: string, validator: string)
    ensures (&& field in FieldInspection.ValidatorNames(m)
             && validator in FieldInspection.ValidatorNames(m)[field]
             && !ValidatorInspection.IsAsterisk(m, validator))
            <==>
            (ValidatorInspection.BoundTo(m, field, validator) && !ValidatorInspection.IsAsterisk(m, validator))
  {
  }

  /** The records `ReferenceInspector.__init__` stores in `mappings`. */
  ghost function Mappings(m: Model): set<ValidatorFieldMap> {
    StandardMappings(m) + CreateMappingsAsterisk(m)
  }

  /**
   * `_create_mappings_standard`: walks the entries of `validator_names` and
   * collects a record for every validator of an entry that is not an
   * asterisk validator.
   */
  method CreateMappingsStandard(m: Model) returns (references: set<ValidatorFieldMap>)
    ensures references == StandardMappings(m)
  {
    var fieldValidatorNames := FieldInspection.ValidatorNames(m);
    var modelPath := ModelPath(m);
    references := {};
    var remaining := fieldValidatorNames.Keys;
    while remaining != {}
      invariant remaining <= fieldValidatorNames.Keys
      invariant forall rec :: rec in references <==>
                  && rec.field in fieldValidatorNames && rec.field !in remaining
                  && rec.validator in fieldValidatorNames[rec.field]
                  && !ValidatorInspection.IsAsterisk(m, rec.validator)
                  && rec == ValidatorFieldMap(rec.field, rec.validator, false, modelPath)
      decreases remaining
    {
      var field :| field in remaining;
      var validators := fieldValidatorNames[field];
      var refs := set validator | validator in validators && !ValidatorInspection.IsAsterisk(m, validator) ::
                    ValidatorFieldMap(field, validator, false, modelPath);
      references := references + refs;
      remaining := remaining - {field};
    }
    forall rec ensures rec in references <==> rec in StandardMappings(m) {
      StandardMappingsMembership(m, rec);
      EntryOfValidatorNames(m, rec.field, rec.validator);
    }
  }

  /**
   * Every asterisk record says "all fields" and names an asterisk validator;
   * every other record names a standard validator and a real target of
   * `__validators__`, never `*`.
   */
  lemma RecordKinds(m: Model, rec: ValidatorFieldMap)
    requires rec in Mappings(m)
    ensures rec.modelPath == ModelPath(m)
    ensures rec.isAsterisk ==> rec.field == AllFields && ValidatorInspection.IsAsterisk(m, rec.validator)
    ensures !rec.isAsterisk ==>
              && rec.validator in ValidatorInspection.NamesStandardValidators(m)
              && ValidatorInspection.BoundTo(m, rec.field, rec.validator)
              && rec.field != Asterisk
  {
    StandardMappingsMembership(m, rec);
  }

  /**
   * An asterisk validator has exactly one record, the "all fields" one, even
   * when it is also bound to a named field.
   */
  lemma OneRecordPerAsteriskValidator(m: Model, validator: string)
    requires ValidatorInspection.IsAsterisk(m, validator)
    ensures AsteriskRecord(m, validator) in Mappings(m)
    ensures forall rec :: rec in Mappings(m) && rec.validator == validator ==> rec == AsteriskRecord(m, validator)
  {
    forall rec | rec in Mappings(m) && rec.validator == validator
      ensures rec == AsteriskRecord(m, validator)
    {
      StandardMappingsMembership(m, rec);
    }
  }

  /** A name has a record exactly when it is one of the model's validator names. */
  lemma RecordsCoverValidators(m: Model, validator: string)
    ensures validator in ValidatorInspection.Names(m) <==>
              exists rec :: rec in Mappings(m) && rec.validator == validator
  {
    if validator in ValidatorInspection.Names(m) {
      if ValidatorInspection.IsAsterisk(m, validator) {
        assert AsteriskRecord(m, validator) in Mappings(m);
      } else {
        var field :| ValidatorInspection.BoundTo(m, field, validator);
        var rec := ValidatorFieldMap(field, validator, false, ModelPath(m));
        StandardMappingsMembership(m, rec);
        assert rec in Mappings(m);
      }
    }
    if exists rec :: rec in Mappings(m) && rec.validator == validator {
      var rec :| rec in Mappings(m) && rec.validator == validator;
      RecordKinds(m, rec);
    }
  }

  /**
   * The references a record renders agree with `create_model_reference`:
   * its validator under the model path, and its field there too unless it
   * is an asterisk record, which refers to the model itself.
   */
  lemma RecordReferences(m: Model, rec: ValidatorFieldMap)
    requires rec in Mappings(m)
    ensures rec.ValidatorRef() == CreateModelReference(m, rec.validator)
    ensures rec.isAsterisk ==> rec.FieldRef() == ModelPath(m)
    ensures !rec.isAsterisk ==> rec.FieldRef() == CreateModelReference(m, rec.field)
  {
    RecordKinds(m, rec);
  }

  /**
   * The list comprehension both filters use: the records of `records` that
   * `keep` accepts, each once, in the order the set yields them.
   */
  method Filter(records: set<ValidatorFieldMap>, keep: ValidatorFieldMap -> bool) returns (r: seq<ValidatorFieldMap>)
    ensures NoDuplicates(r)
    ensures forall rec :: rec in r <==> rec in records && keep(rec)
  {
    r := [];
    var remaining := records;
    while remaining != {}
      invariant remaining <= records
      invariant NoDuplicates(r)
      invariant forall rec :: rec in r <==> rec in records - remaining && keep(rec)
      decreases remaining
    {
      var record :| record in remaining;
      if keep(record) {
        AppendFresh(r, record);
        r := r + [record];
      }
      remaining := remaining - {record};
    }
  }

  class ReferenceInspector {
    const model: Model
    const mappings: set<ValidatorFieldMap>

    ghost predicate Valid() {
      mappings == Mappings(model)
    }

    /** `__init__`: computes both kinds of records once and stores their union. */
    constructor (m: Model)
      ensures model == m && Valid()
    {
      model := m;
      var mappingsAsterisk := CreateMappingsAsterisk(m);
      var mappingsStandard := CreateMappingsStandard(m);
      mappings := mappingsStandard + mappingsAsterisk;
    }

    /** `filter_by_validator_name`: the records of validator `name`. */
    method FilterByValidatorName(name: string) returns (r: seq<ValidatorFieldMap>)
      requires Valid()
      ensures NoDuplicates(r)
      ensures forall rec :: rec in r <==> rec in mappings && rec.validator == name
      ensures ValidatorInspection.IsAsterisk(model, name) ==> r == [AsteriskRecord(model, name)]
    {
      r := Filter(mappings, (rec: ValidatorFieldMap) => rec.validator == name);
      if ValidatorInspection.IsAsterisk(model, name) {
        var only := AsteriskRecord(model, name);
        OneRecordPerAsteriskValidator(model, name);
        OnlyElement(r, only);
      }
    }

    /**
     * `filter_by_field_name`: the records of field `name` together with
     * every "all fields" record, so each asterisk validator is listed for
     * every field asked about.
     */
    method FilterByFieldName(name: string) returns (r: seq<ValidatorFieldMap>)
      requires Valid()
      ensures NoDuplicates(r)
      ensures forall rec :: rec in r <==> rec in mappings && (rec.field == name || rec.field == AllFields)
      ensures forall validator :: ValidatorInspection.IsAsterisk(model, validator) ==>
                AsteriskRecord(model, validator) in r
    {
      r := Filter(mappings, (rec: ValidatorFieldMap) => rec.field == name || rec.field == AllFields);
      forall validator | ValidatorInspection.IsAsterisk(model, validator)
        ensures AsteriskRecord(model, validator) in r
      {
        OneRecordPerAsteriskValidator(model, validator);
      }
    }
  }
}
