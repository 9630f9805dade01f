# autodoc_pydantic inspection layer, modelled in Dafny

This project models the inspection layer of the `autodoc_pydantic` Sphinx
extension (`sphinxcontrib/autodoc_pydantic/inspection.py`). It covers how the
layer reads a pydantic model class, classifies the model's validators and
builds the validator ↔ field cross-references that the documentation
renders.

A pydantic model class is abstracted as the value `PydanticModel.Model`. It holds:

- the module and class name;
- the ordered fields, each with its default (`Undefined`, `...` or a value);
- `__validators__` as a map from target name to validator function names, where the target `*` means all fields;
- the pre- and post-root validator names;
- the items of the `Config` class.

Modules, one per class of the source:

- `ValidatorInspection` (`validators.dfy`): `ValidatorInspector`. A validator is "asterisk" when it is bound to `*` or is a pre- or post-root validator. It is "standard" when it is bound somewhere and is not asterisk.
- `FieldInspection` (`fields.dfy`): `FieldInspector`. This covers field names in order, `get` with its `KeyError`, `is_required`, and the per-field validator-name maps.
- `ConfigInspection` (`config.dfy`): `ConfigInspector.items`.
- `ValidatorFieldMaps` (`field_map.dfy`): the `ValidatorFieldMap` record and its dotted reference strings.
- `ReferenceInspection` (`references.dfy`): `ReferenceInspector`. A class stores the record set once, when it is constructed. `_create_mappings_standard` is a method with its loop, proved equal to a reference definition taken directly from `__validators__`. Both filters call one method, `Filter`, which walks the stored set in a loop the way their list comprehensions do.
- `ModelWrapping` (`wrapper.dfy`): `ModelInspector` and `ModelWrapper` (classes), plus the class-level `CACHED` dictionary as the class `WrapperCache`. Its `Factory` method returns the cached instance or inserts exactly one new entry.
- `DocumentedModels` (`documented_models.dfy`): two model shapes from the repository's tests: their validator bindings and names come from the tests, while their single field `field` and its default are assumed, since the tests do not show them. It states which records the model derives for them and which references they render.

Modelling decisions:

- `validator_names` copies a dictionary and assigns one key. Dafny maps are values, so this becomes the map update `complete[Asterisk := asterisk]` inside a function.
- `_create_mappings_asterisk` pops `*` from a fresh dictionary. It is a function over that entry. Its contract shows the `*` entry always exists, so the pop never raises.
- In `factory`, `if result:` is always true for a found wrapper, because `ModelWrapper` defines neither `__bool__` nor `__len__`. It is modelled as "the identity is in the cache".
- Python's `id(model)` is an abstract `ModelKey`. `StaticInspector.is_pydantic_model` is abstracted as `Option<Model>`: `None` stands for an object that is not a pydantic model.
- The filters return a list built by iterating over a set. The model returns a sequence without duplicates and leaves its order unspecified, as Python does.

## Model

| member | source | states |
|---|---|---|
| `ValidatorInspection.NamesFromWrappers` | sphinxcontrib/autodoc_pydantic/inspection.py:246-258 | the names are exactly the function names in the list, and there are no more of them than wrappers |
| `ValidatorInspection.NamesRootValidators` | sphinxcontrib/autodoc_pydantic/inspection.py:260-272 | a name is a root name iff it is a pre-root or a post-root validator |
| `ValidatorInspection.NamesAsteriskValidators` | sphinxcontrib/autodoc_pydantic/inspection.py:274-284 | a name is asterisk iff it is bound to `*` (nothing when `*` is absent), or is a pre-root or post-root validator |
| `ValidatorInspection.NamesAllBound` | sphinxcontrib/autodoc_pydantic/inspection.py:293-294 | the flattened wrapper names are exactly the names bound to some target |
| `ValidatorInspection.NamesStandardValidators` | sphinxcontrib/autodoc_pydantic/inspection.py:286-295 | disjoint from the asterisk names; a name is standard iff it is bound to some target, is not bound to `*` and is not a root validator |
| `ValidatorInspection.Names` | sphinxcontrib/autodoc_pydantic/inspection.py:297-306 | the validator names are exactly every bound name plus every root name |
| `ValidatorInspection.IsAsterisk` | sphinxcontrib/autodoc_pydantic/inspection.py:308-318 | a validator is an asterisk validator exactly when it is bound to `*` or is a pre- or post-root validator |
| `ValidatorInspection.ClassesPartitionNames` | sphinxcontrib/autodoc_pydantic/inspection.py:297-318 | every validator name is asterisk or standard, never both, and `is_asterisk` tells which |
| `FieldInspection.ValidatorNamesStandard` | sphinxcontrib/autodoc_pydantic/inspection.py:131-145 | one entry per target of `__validators__`, holding exactly the names bound to that target |
| `FieldInspection.ValidatorNamesRoot` | sphinxcontrib/autodoc_pydantic/inspection.py:121-129 | a single `*` entry holding exactly the root validators |
| `FieldInspection.ValidatorNames` | sphinxcontrib/autodoc_pydantic/inspection.py:104-119 | keys are the targets plus `*`; `*` always present and equal to the asterisk names; every other key holds its bound names |
| `FieldInspection.ValidatorNamesCoverNames` | sphinxcontrib/autodoc_pydantic/inspection.py:104-119 | a name appears under some key of `validator_names` iff it is one of the model's validator names |
| `FieldInspection.Keys` | sphinxcontrib/autodoc_pydantic/inspection.py:147-153 | the keys of the ordered field dictionary, position by position |
| `FieldInspection.Names` | sphinxcontrib/autodoc_pydantic/inspection.py:147-153 | the field names keep the declaration order: entry i is the name of field i |
| `FieldInspection.Lookup` | sphinxcontrib/autodoc_pydantic/inspection.py:155-160 | `KeyError(name)` iff no field has that name; otherwise the first field with that name |
| `FieldInspection.Get` | sphinxcontrib/autodoc_pydantic/inspection.py:155-160 | `KeyError(name)` iff the name is not a field name; otherwise a declared field of that name |
| `FieldInspection.IsRequired` | sphinxcontrib/autodoc_pydantic/inspection.py:171-182 | `KeyError` for an unknown field; otherwise required iff the default is not a real value |
| `FieldInspection.IsRequiredOfDeclaredField` | sphinxcontrib/autodoc_pydantic/inspection.py:171-182 | with distinct field names, a declared field is required iff its own default is `Undefined` or `...` |
| `ConfigInspection.Items` | sphinxcontrib/autodoc_pydantic/inspection.py:224-233 | exactly the `Config` keys not starting with `_`, each with its own value |
| `ValidatorFieldMaps.DotJoin` | sphinxcontrib/autodoc_pydantic/inspection.py:27-33 | the result reads the prefix, a dot, then the name |
| `ValidatorFieldMaps.DotJoinInjective` | sphinxcontrib/autodoc_pydantic/inspection.py:27-33 | under one prefix, equal references name equal things |
| `ValidatorFieldMaps.ValidatorFieldMap.GetRef` | sphinxcontrib/autodoc_pydantic/inspection.py:27-33 | `model_path`, a dot, then the name |
| `ValidatorFieldMaps.ValidatorFieldMap.FieldRef` | sphinxcontrib/autodoc_pydantic/inspection.py:35-44 | an asterisk record refers to the model path itself; any other record to `model_path.field` |
| `ValidatorFieldMaps.ValidatorFieldMap.ValidatorRef` | sphinxcontrib/autodoc_pydantic/inspection.py:46-52 | always `model_path.validator` |
| `ReferenceInspection.ModelPath` | sphinxcontrib/autodoc_pydantic/inspection.py:364-370 | the module name, a dot, then the class name |
| `ReferenceInspection.CreateModelReference` | sphinxcontrib/autodoc_pydantic/inspection.py:372-378 | the model path, a dot, then the name |
| `ReferenceInspection.CreateMappingsAsterisk` | sphinxcontrib/autodoc_pydantic/inspection.py:380-393 | exactly one "all fields" asterisk record per asterisk validator, and nothing else |
| `ReferenceInspection.StandardMappingsMembership` | sphinxcontrib/autodoc_pydantic/inspection.py:395-414 | a record is standard iff its validator is bound to its field, is not asterisk, and the record is non-asterisk under the model path |
| `ReferenceInspection.EntryOfValidatorNames` | sphinxcontrib/autodoc_pydantic/inspection.py:395-414 | a non-asterisk validator sits in an entry of `validator_names` exactly when `__validators__` binds it to that target |
| `ReferenceInspection.CreateMappingsStandard` | sphinxcontrib/autodoc_pydantic/inspection.py:395-414 | walking the entries of `validator_names` yields exactly the standard records defined from `__validators__` |
| `ReferenceInspection.RecordKinds` | sphinxcontrib/autodoc_pydantic/inspection.py:357-414 | every asterisk record says "all fields" for an asterisk validator; every other record has a standard validator bound to a real target, never `*` |
| `ReferenceInspection.OneRecordPerAsteriskValidator` | sphinxcontrib/autodoc_pydantic/inspection.py:380-414 | an asterisk validator has exactly one record, the "all fields" one, even if it is also bound to a named field |
| `ReferenceInspection.RecordsCoverValidators` | sphinxcontrib/autodoc_pydantic/inspection.py:357-362 | a name has a record iff it is one of the model's validator names |
| `ReferenceInspection.RecordReferences` | sphinxcontrib/autodoc_pydantic/inspection.py:35-52 | each stored record's references agree with `create_model_reference`; an asterisk record's field reference is the model path |
| `ReferenceInspection.ReferenceInspector.constructor` | sphinxcontrib/autodoc_pydantic/inspection.py:357-362 | the stored `mappings` are the standard records united with the asterisk records |
| `ReferenceInspection.Filter` | sphinxcontrib/autodoc_pydantic/inspection.py:421-430 | the list comprehension over the stored record set: a list holding exactly the records the condition accepts, each once |
| `ReferenceInspection.ReferenceInspector.FilterByValidatorName` | sphinxcontrib/autodoc_pydantic/inspection.py:416-422 | exactly the stored records of that validator, none twice; for an asterisk validator just its "all fields" record |
| `ReferenceInspection.ReferenceInspector.FilterByFieldName` | sphinxcontrib/autodoc_pydantic/inspection.py:424-430 | exactly the stored records whose field is the name or "all fields", none twice; every asterisk record is included |
| `ModelWrapping.ModelInspector.constructor` | sphinxcontrib/autodoc_pydantic/inspection.py:440-446 | a fresh reference inspector over the same model, with its mappings computed |
| `ModelWrapping.ModelWrapper.constructor` | sphinxcontrib/autodoc_pydantic/inspection.py:473-475 | a fresh inspector over the given model |
| `ModelWrapping.ModelWrapper.GetModelPath` | sphinxcontrib/autodoc_pydantic/inspection.py:477-482 | the module name, a dot, then the class name |
| `ModelWrapping.ModelWrapper.GetFieldValidatorNames` | sphinxcontrib/autodoc_pydantic/inspection.py:484-489 | the targets plus `*`; `*` holds the asterisk validators and every other target exactly the validators bound to it |
| `ModelWrapping.ModelWrapper.GetFields` | sphinxcontrib/autodoc_pydantic/inspection.py:491-496 | the field names in declaration order |
| `ModelWrapping.ModelWrapper.GetValidatorNames` | sphinxcontrib/autodoc_pydantic/inspection.py:498-503 | every bound validator and every root validator, nothing else |
| `ModelWrapping.ModelWrapper.GetReference` | sphinxcontrib/autodoc_pydantic/inspection.py:505-510 | the model path, a dot, then the name |
| `ModelWrapping.ModelWrapper.GetFieldsForValidator` | sphinxcontrib/autodoc_pydantic/inspection.py:537-545 | exactly the model's records of that validator, none twice |
| `ModelWrapping.ModelWrapper.GetValidatorsForField` | sphinxcontrib/autodoc_pydantic/inspection.py:547-554 | exactly the model's records for that field or "all fields", none twice |
| `ModelWrapping.ModelWrapper.GetFieldObjectByName` | sphinxcontrib/autodoc_pydantic/inspection.py:556-560 | `KeyError` iff the name is not a field; otherwise that declared field |
| `ModelWrapping.ModelWrapper.FieldIsRequired` | sphinxcontrib/autodoc_pydantic/inspection.py:570-575 | `KeyError` for an unknown field; otherwise required iff the default is not a real value |
| `ModelWrapping.WrapperCache.constructor` | sphinxcontrib/autodoc_pydantic/inspection.py:471 | the cache starts empty |
| `ModelWrapping.WrapperCache.Factory` | sphinxcontrib/autodoc_pydantic/inspection.py:512-525 | a hit returns the cached wrapper and changes nothing; a miss stores one fresh wrapper of the model under the identity and leaves other entries alone |
| `ModelWrapping.FactoryReturnsCachedInstance` | sphinxcontrib/autodoc_pydantic/inspection.py:512-525 | two calls for one identity return the same instance, built from the model of the first call that missed |
| `ModelWrapping.IsValidatorByName` | sphinxcontrib/autodoc_pydantic/inspection.py:70-80 | false for a non-model object, cache unchanged; otherwise whether the name is a validator of the model cached under that identity, which on a miss is the given model, stored as the one new entry while every other entry stays |
| `DocumentedModels.ListFieldsMappings` | tests/test_configuration_validator.py:176-190 | a validator `check` on field `field` yields exactly one standard record |
| `DocumentedModels.ListFieldsReference` | tests/test_configuration_validator.py:176-190 | that record links the field as `target.configuration.ValidatorListFields.field` |
| `DocumentedModels.AsteriskAndRootValidatorsCoverAllFields` | tests/test_configuration_validator.py:340-429 | the `*` validator, the root validator and the pre-root validator each yield one "all fields" record, and nothing else |
| `DocumentedModels.AsteriskRootRendersAllFields` | tests/test_configuration_validator.py:340-429 | every validator of that model is listed against "all fields" |

## Left out

- JSON-schema handling is not modelled. This covers `is_json_serializable`, `non_json_serializable`, `SchemaInspector.sanitized`, `create_sanitized_model` and `get_safe_schema_json`. They call pydantic's `create_model` and `schema()` and catch broad exceptions, and that behaviour is not visible in this repository.
- `ModelInspector.from_signode` and `ModelWrapper.from_signode` are not modelled. They read a Sphinx signature node and import a model dynamically with `pydoc.locate`.
- `StaticInspector.is_pydantic_model` is a runtime `isinstance`/`issubclass` check. It appears only as the `Option<Model>` argument of `IsValidatorByName`.
- `get_property_from_field_info` and `get_field_property` are generic `getattr` reflection and are not modelled. Only the `default` property is modelled, as `FieldDef.default`, which is what `is_required` reads.
- `ConfigInspector.items` reads `dir()` of a class, which also lists inherited attributes. The model takes the `Config` attributes as a given map of names to values, abstracted to strings.
- A validator wrapper is represented only by its function name. Other wrapper data (`pre`, `each_item`, `always`, `check_fields`, the root validator's `skip_on_failure` flag) is not read by the inspection layer.
- The model does not say which order the filters list records in. The source iterates a Python set, so that order is unspecified there too.
- `ModelInspector` holds only the reference composite as an object. The config, schema, field and validator composites hold no state of their own and are the functions of their modules.
