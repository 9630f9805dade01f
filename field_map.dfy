/**
 * `ValidatorFieldMap`: one cross-reference record between a validator and a
 * field it processes, and the dotted reference strings built from it.
 */
module ValidatorFieldMaps {

  /** The field name an asterisk record carries in place of a real field. */
  const AllFields: string := "all fields"

  /** `r` reads `prefix`, then a dot, then `suffix`. */
  ghost predicate Dotted(r: string, prefix: string, suffix: string) {
    && |r| == |prefix| + 1 + |suffix|
    && r[..|prefix|] == prefix
    && r[|prefix|] == '.'
    && r[|prefix| + 1..] == suffix
  }

  /** Joins a prefix and a name with a dot, as the f-strings of the source do. */
  function DotJoin(prefix: string, name: string): (r: string)
    ensures Dotted(r, prefix, name)
  {
    prefix + "." + name
  }

  /** A dotted reference under a given prefix names exactly one thing. */
  lemma DotJoinInjective(prefix: string, a: string, b: string)
    requires DotJoin(prefix, a) == DotJoin(prefix, b)
    ensures a == b
  {
  }

  datatype ValidatorFieldMap = ValidatorFieldMap(
    field: string,
    validator: string,
    isAsterisk: bool,
    modelPath: string
  ) {

    /** `_get_ref`: `name` prefixed by the model path. */
    function GetRef(name: string): (r: string)
      ensures Dotted(r, modelPath, name)
    {
      DotJoin(modelPath, name)
    }

    /**
     * `field_ref`: an asterisk record refers to the model itself, any other
     * record to its field under the model path.
     */
    function FieldRef(): (r: string)
      ensures isAsterisk ==> r == modelPath
      ensures !isAsterisk ==> Dotted(r, modelPath, field)
    {
      if isAsterisk then modelPath else GetRef(field)
    }

    /** `validator_ref`: the validator under the model path. */
    function ValidatorRef(): (r: string)
      ensures Dotted(r, modelPath, validator)
    {
      GetRef(validator)
    }
  }
}
