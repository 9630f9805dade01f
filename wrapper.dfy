/**
 * `ModelInspector` and `ModelWrapper`: the per-model inspection objects, and
 * the process-wide cache that hands out one wrapper per model identity.
 */
module ModelWrapping {
  import opened PydanticModel
  import opened ValidatorFieldMaps
  import ValidatorInspection
  import FieldInspection
  import opened ReferenceInspection

  /** The identity of a model class (`id(model)`), abstracted to a number. */
  type ModelKey = nat

  /**
   * `ModelInspector`: only the reference composite keeps state (its
   * `mappings`); the field, validator and config composites are the
   * functions of their own modules.
   */
  class ModelInspector {
    const model: Model
    const references: ReferenceInspector

    ghost predicate Valid() {
      references.model == model && references.Valid()
    }

    constructor (m: Model)
      ensures model == m && Valid() && fresh(references)
    {
      model := m;
      references := new ReferenceInspector(m);
    }
  }

  class ModelWrapper {
    const model: Model
    const wrapper: ModelInspector

    ghost predicate Valid() {
      wrapper.model == model && wrapper.Valid()
    }

    constructor (m: Model)
      ensures model == m && Valid() && fresh(wrapper) && fresh(wrapper.references)
    {
      model := m;
      wrapper := new ModelInspector(m);
    }

    /** `get_model_path`. */
    function GetModelPath(): (r: string)
      requires Valid()
      ensures Dotted(r, model.moduleName, model.name)
    {
      ModelPath(wrapper.references.model)
    }

    /** `get_field_validator_names`: the per-field validator names, `*` holding the asterisk ones. */
    function GetFieldValidatorNames(): (r: map<string, set<string>>)
      requires Valid()
      ensures r.Keys == model.validators.Keys + {Asterisk}
      ensures r[Asterisk] == ValidatorInspection.NamesAsteriskValidators(model)
      ensures forall field, n :: field in r && field != Asterisk ==>
                (n in r[field] <==> ValidatorInspection.BoundTo(model, field, n))
    {
      FieldInspection.ValidatorNames(wrapper.model)
    }

    /** `get_fields`: the field names in declaration order. */
    function GetFields(): (r: seq<string>)
      requires Valid()
      ensures |r| == |model.fields|
      ensures forall i :: 0 <= i < |r| ==> r[i] == model.fields[i].name
    {
      FieldInspection.Names(wrapper.model)
    }

    /** `get_validator_names`: every bound validator and every root validator. */
    function GetValidatorNames(): (r: set<string>)
      requires Valid()
      ensures forall n :: n in r <==> ValidatorInspection.Bound(model, n) || ValidatorInspection.IsRoot(model, n)
    {
      ValidatorInspection.Names(wrapper.model)
    }

    /** `get_reference`: `name` under the model path. */
    function GetReference(name: string): (r: string)
      requires Valid()
      ensures Dotted(r, ModelPath(model), name)
    {
      CreateModelReference(wrapper.references.model, name)
    }

    /** `get_fields_for_validator`. */
    method GetFieldsForValidator(validatorName: string) returns (r: seq<ValidatorFieldMap>)
      requires Valid()
      ensures NoDuplicates(r)
      ensures forall rec :: rec in r <==> rec in Mappings(model) && rec.validator == validatorName
    {
      r := wrapper.references.FilterByValidatorName(validatorName);
    }

    /** `get_validators_for_field`: the field's own records and every "all fields" record. */
    method GetValidatorsForField(fieldName: string) returns (r: seq<ValidatorFieldMap>)
      requires Valid()
      ensures NoDuplicates(r)
      ensures forall rec :: rec in r <==> rec in Mappings(model) && (rec.field == fieldName || rec.field == AllFields)
    {
      r := wrapper.references.FilterByFieldName(fieldName);
    }

    /** `get_field_object_by_name`. */
    function GetFieldObjectByName(fieldName: string): (r: Result<FieldDef>)
      requires Valid()
      ensures r.Err? <==> fieldName !in FieldInspection.Names(model)
      ensures r.Ok? ==> r.value.name == fieldName && r.value in model.fields
    {
      FieldInspection.Get(wrapper.model, fieldName)
    }

    /** `field_is_required`. */
    function FieldIsRequired(fieldName: string): (r: Result<bool>)
      requires Valid()
      ensures r.Err? <==> fieldName !in FieldInspection.Names(model)
      ensures r.Ok? ==> (r.value <==> !FieldInspection.Get(model, fieldName).value.default.Value?)
    {
      FieldInspection.IsRequired(wrapper.model, fieldName)
    }
  }

  /** `ModelWrapper.CACHED`: the class-level dictionary from model identity to wrapper. */
  class WrapperCache {
    var cached: map<ModelKey, ModelWrapper>

    ghost predicate Valid()
      reads this
    {
      forall key :: key in cached ==> cached[key].Valid()
    }

    constructor ()
      ensures Valid() && cached == map[]
    {
      cached := map[];
    }

    /**
     * `factory`: the cached wrapper of this identity when there is one (a
     * wrapper object is never falsy), otherwise a new wrapper, stored under
     * the identity with every other entry left as it was.
     */
    method Factory(key: ModelKey, m: Model) returns (w: ModelWrapper)
      requires Valid()
      modifies this
      ensures Valid() && w.Valid()
      ensures key in cached && cached[key] == w
      ensures key in old(cached) ==> w == old(cached)[key] && cached == old(cached)
      ensures key !in old(cached) ==> fresh(w) && w.model == m && cached == old(cached)[key := w]
    {
      var result := if key in cached then Some(cached[key]) else None;
      if result.Some? {
        return result.value;
      }
      w := new ModelWrapper(m);
      cached := cached[key := w];
    }
  }

  /**
   * Two `factory` calls for one identity give the same instance, built from
   * the model of the first call that missed the cache; a model passed later
   * under the same identity is not looked at.
   */
  method FactoryReturnsCachedInstance(cache: WrapperCache, key: ModelKey, first: Model, second: Model)
    returns (w1: ModelWrapper, w2: ModelWrapper)
    requires cache.Valid()
    modifies cache
    ensures w1 == w2
    ensures w1.model == if key in old(cache.cached) then old(cache.cached[key].model) else first
  {
    w1 := cache.Factory(key, first);
    w2 := cache.Factory(key, second);
  }

  /**
   * `StaticInspector.is_validator_by_name`: `obj` is `None` when the object
   * is not a pydantic model; otherwise its (cached) wrapper is asked whether
   * `name` is one of its validators.
   */
  method IsValidatorByName(cache: WrapperCache, name: string, key: ModelKey, obj: Option<Model>)
    returns (b: bool)
    requires cache.Valid()
    modifies cache
    ensures cache.Valid()
    ensures obj.None? ==> !b && cache.cached == old(cache.cached)
    ensures obj.Some? ==> key in cache.cached
    ensures obj.Some? && key in old(cache.cached) ==> cache.cached == old(cache.cached)
    ensures obj.Some? && key !in old(cache.cached) ==>
              && cache.cached[key].model == obj.value
              && cache.cached == old(cache.cached)[key := cache.cached[key]]
    ensures obj.Some? ==>
              (b <==> name in ValidatorInspection.Names(
                        if key in old(cache.cached) then old(cache.cached[key].model) else obj.value))
  {
    if obj.None? {
      return false;
    }
    var wrapper := cache.Factory(key, obj.value);
    var names := wrapper.GetValidatorNames();
    b := name in names;
  }
}
