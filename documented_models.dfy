/**
 * Two model shapes whose rendered documentation the repository's tests pin
 * down, with what the model derives for them.
 */
module DocumentedModels {
  import opened PydanticModel
  import opened ValidatorFieldMaps
  import ValidatorInspection
  import opened ReferenceInspection

  /**
   * A model with one field `field` and one validator `check` bound to it.
   * The field's default is assumed; no record depends on it.
   */
  const ListFields := Model("target.configuration", "ValidatorListFields",
                            [FieldDef("field", Value("1"))],
                            map["field" := ["check"]], [], [], map[])

  /**
   * A model with a `*` validator, a post-root and a pre-root validator. Its
   * field list is assumed; the records do not depend on it.
   */
  const AsteriskRoot := Model("target.configuration", "ValidatorAsteriskRootValidator",
                              [FieldDef("field", Value("1"))],
                              map[Asterisk := ["check"]], ["check_root_pre"], ["check_root"], map[])

  lemma ListFieldsBindings(field: string, validator: string)
    requires ValidatorInspection.BoundTo(ListFields, field, validator)
    ensures field == "field" && validator == "check"
  {
  }

  lemma ListFieldsRecord(rec: ValidatorFieldMap)
    requires rec in Mappings(ListFields)
    ensures rec == ValidatorFieldMap("field", "check", false, ModelPath(ListFields))
  {
    assert ValidatorInspection.NamesAsteriskValidators(ListFields) == {};
    RecordKinds(ListFields, rec);
    ListFieldsBindings(rec.field, rec.validator);
  }

  lemma ListFieldsHasRecord()
    ensures ValidatorFieldMap("field", "check", false, ModelPath(ListFields)) in Mappings(ListFields)
  {
    assert ValidatorInspection.NamesAsteriskValidators(ListFields) == {};
    StandardMappingsMembership(ListFields, ValidatorFieldMap("field", "check", false, ModelPath(ListFields)));
  }

  /** `check` validates exactly `field`. */
  lemma ListFieldsMappings()
    ensures Mappings(ListFields) == {ValidatorFieldMap("field", "check", false, ModelPath(ListFields))}
  {
    ListFieldsHasRecord();
    forall rec | rec in Mappings(ListFields)
      ensures rec == ValidatorFieldMap("field", "check", false, ModelPath(ListFields))
    {
      ListFieldsRecord(rec);
    }
  }

  /**
   * The field `check` validates is linked as
   * `target.configuration.ValidatorListFields.field`.
   */
  lemma ListFieldsReference()
    ensures forall rec :: rec in Mappings(ListFields) ==>
              rec.FieldRef() == "target.configuration" + "." + "ValidatorListFields" + "." + "field"
  {
    ListFieldsMappings();
  }

  lemma AsteriskRootBindings(field: string, validator: string)
    requires ValidatorInspection.BoundTo(AsteriskRoot, field, validator)
    ensures field == Asterisk && validator == "check"
  {
  }

  lemma AsteriskRootNames(validator: string)
    requires ValidatorInspection.IsAsterisk(AsteriskRoot, validator)
    ensures validator == "check" || validator == "check_root" || validator == "check_root_pre"
  {
    if ValidatorInspection.BoundTo(AsteriskRoot, Asterisk, validator) {
      AsteriskRootBindings(Asterisk, validator);
    }
  }

  lemma AsteriskRootRecord(rec: ValidatorFieldMap)
    requires rec in Mappings(AsteriskRoot)
    ensures rec.isAsterisk && rec == AsteriskRecord(AsteriskRoot, rec.validator)
    ensures rec.validator == "check" || rec.validator == "check_root" || rec.validator == "check_root_pre"
  {
    RecordKinds(AsteriskRoot, rec);
    if !rec.isAsterisk {
      AsteriskRootBindings(rec.field, rec.validator);
    }
    AsteriskRootNames(rec.validator);
  }

  /** The `*` validator and both root validators are each rendered once. */
  lemma AsteriskAndRootValidatorsCoverAllFields()
    ensures Mappings(AsteriskRoot) ==
            {AsteriskRecord(AsteriskRoot, "check"),
             AsteriskRecord(AsteriskRoot, "check_root"),
             AsteriskRecord(AsteriskRoot, "check_root_pre")}
  {
    var check := AsteriskRecord(AsteriskRoot, "check");
    var root := AsteriskRecord(AsteriskRoot, "check_root");
    var rootPre := AsteriskRecord(AsteriskRoot, "check_root_pre");
    var expected := {check, root, rootPre};
    OneRecordPerAsteriskValidator(AsteriskRoot, "check");
    OneRecordPerAsteriskValidator(AsteriskRoot, "check_root");
    OneRecordPerAsteriskValidator(AsteriskRoot, "check_root_pre");
    forall rec | rec in Mappings(AsteriskRoot) ensures rec in expected {
      AsteriskRootRecord(rec);
    }
    assert expected <= Mappings(AsteriskRoot);
  }

  /** Every validator of that model is listed against "all fields". */
  lemma AsteriskRootRendersAllFields(rec: ValidatorFieldMap)
    requires rec in Mappings(AsteriskRoot)
    ensures rec.field == AllFields
  {
    AsteriskRootRecord(rec);
  }
}
