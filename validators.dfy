/**
 * `ValidatorInspector`: classifies a model's validators into "asterisk"
 * validators, which process all fields at once (bound to the `*` target,
 * or a pre- or post-root validator), and "standard" validators (all others).
 */
module ValidatorInspection {
  import opened PydanticModel

  /** `get_names_from_wrappers`: the set of function names of a list of wrappers. */
  function NamesFromWrappers(validators: seq<string>): (r: set<string>)
    ensures forall n :: n in r <==> n in validators
    ensures |r| <= |validators|
  {
    if validators == [] then {}
    else
      var rest := NamesFromWrappers(validators[1..]);
      assert forall n :: n in validators <==> n == validators[0] || n in validators[1..];
      {validators[0]} + rest
  }

  /** `n` is bound to the target `field` in `__validators__`. */
  ghost predicate BoundTo(m: Model, field: string, n: string) {
    field in m.validators && n in m.validators[field]
  }

  /** `n` is bound to some target, `*` included. */
  ghost predicate Bound(m: Model, n: string) {
    exists field :: BoundTo(m, field, n)
  }

  /** `n` is a pre- or a post-root validator. */
  ghost predicate IsRoot(m: Model, n: string) {
    n in m.preRoot || n in m.postRoot
  }

  /** `names_root_validators`: names of the pre- and post-root validators. */
  function NamesRootValidators(m: Model): (r: set<string>)
    ensures forall n :: n in r <==> IsRoot(m, n)
  {
    NamesFromWrappers(m.preRoot) + NamesFromWrappers(m.postRoot)
  }

  /**
   * `names_asterisk_validators`: the names bound to `*` (none when the key is
   * absent) together with all root validator names.
   */
  function NamesAsteriskValidators(m: Model): (r: set<string>)
    ensures forall n :: n in r <==> BoundTo(m, Asterisk, n) || IsRoot(m, n)
  {
    var asteriskValidators := if Asterisk in m.validators then m.validators[Asterisk] else [];
    NamesFromWrappers(asteriskValidators) + NamesRootValidators(m)
  }

  /** The names of all wrappers of all targets (`chain.from_iterable(values())`). */
  function NamesAllBound(m: Model): (r: set<string>)
    ensures forall n :: n in r <==> Bound(m, n)
  {
    var all := set field, n | field in m.validators && n in m.validators[field] :: n;
    assert forall n :: n in all <==> Bound(m, n) by {
      forall n ensures n in all <==> Bound(m, n) {
        if n in all {
          var field :| field in m.validators && n in m.validators[field];
          assert BoundTo(m, field, n);
        }
        if Bound(m, n) {
          var field :| BoundTo(m, field, n);
        }
      }
    }
    all
  }

  /**
   * `names_standard_validators`: every bound name that is not an asterisk
   * name; so a name bound to `*` and to a named field is asterisk only.
   */
  function NamesStandardValidators(m: Model): (r: set<string>)
    ensures r !! NamesAsteriskValidators(m)
    ensures forall n :: n in r <==> Bound(m, n) && !BoundTo(m, Asterisk, n) && !IsRoot(m, n)
  {
    NamesAllBound(m) - NamesAsteriskValidators(m)
  }

  /** `names`: all validator names of the model. */
  function Names(m: Model): (r: set<string>)
    ensures forall n :: n in r <==> Bound(m, n) || IsRoot(m, n)
  {
    NamesAsteriskValidators(m) + NamesStandardValidators(m)
  }

  /**
   * `is_asterisk`: a validator is an asterisk validator when it is bound to
   * `*` or is a root validator.
   */
  function IsAsterisk(m: Model, n: string): (r: bool)
    ensures r <==> BoundTo(m, Asterisk, n) || IsRoot(m, n)
  {
    n in NamesAsteriskValidators(m)
  }

  /**
   * The two classes partition the validators: every validator name is in
   * exactly one of them, and `is_asterisk` tells which.
   */
  lemma ClassesPartitionNames(m: Model, n: string)
    ensures n in Names(m) <==> n in NamesAsteriskValidators(m) || n in NamesStandardValidators(m)
    ensures !(n in NamesAsteriskValidators(m) && n in NamesStandardValidators(m))
    ensures n in Names(m) ==> (IsAsterisk(m, n) <==> n !in NamesStandardValidators(m))
  {
  }
}
