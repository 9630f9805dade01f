/**
 * `ConfigInspector`: the public items of a model's `Config` namespace.
 */
module ConfigInspection {
  import opened PydanticModel

  /** A name with a leading underscore is private to the `Config` class. */
  predicate IsPrivate(key: string) {
    |key| > 0 && key[0] == '_'
  }

  /** `items`: every attribute of `Config` whose name does not start with `_`, with its value. */
  function Items(m: Model): (r: map<string, string>)
    ensures forall key :: key in r <==> key in m.config && !IsPrivate(key)
    ensures forall key :: key in r ==> r[key] == m.config[key]
  {
    map key | key in m.config && !IsPrivate(key) :: m.config[key]
  }
}
