/**
 * The parts of a pydantic model class that the inspection layer reads,
 * abstracted as a plain value: where the class lives, its ordered fields
 * (`__fields__`), its validator bindings (`__validators__`), its pre- and
 * post-root validators and the public items of its `Config` namespace.
 * Validator wrapper objects are represented by the name of the function
 * they wrap (`validator.func.__name__`).
 */
module PydanticModel {

  /** The target key under which pydantic stores validators bound to all fields. */
  const Asterisk: string := "*"

  /** The default value recorded in a field's `field_info`. */
  datatype Default =
    | Undefined             // pydantic's `Undefined` sentinel: no default given
    | Ellipsis              // `...`: explicitly required
    | Value(repr: string)   // any other default value, abstracted to its text

  /** One entry of the ordered `__fields__` dictionary. */
  datatype FieldDef = FieldDef(name: string, default: Default)

  datatype Model = Model(
    moduleName: string,                      // `__module__`
    name: string,                            // `__name__`
    fields: seq<FieldDef>,                   // `__fields__`, in declaration order
    validators: map<string, seq<string>>,    // `__validators__`: target field -> validator names
    preRoot: seq<string>,                    // `__pre_root_validators__`
    postRoot: seq<string>,                   // `__post_root_validators__`
    config: map<string, string>              // attributes of the `Config` class
  )

  /** Errors the inspection layer lets escape to its caller. */
  datatype Error = KeyError(key: string)

  datatype Result<T> = Ok(value: T) | Err(error: Error)

  datatype Option<T> = None | Some(value: T)

  /** `__fields__` is a dictionary, so its keys are pairwise distinct. */
  ghost predicate DistinctFieldNames(fields: seq<FieldDef>) {
    forall i, j :: 0 <= i < j < |fields| ==> fields[i].name != fields[j].name
  }
}
