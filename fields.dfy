/**
 * `FieldInspector`: the fields of a model and, per field, the names of the
 * validators that process it.
 */
module FieldInspection {
  import opened PydanticModel
  import ValidatorInspection

  /** `validator_names_standard`: per target key of `__validators__`, its validator names. */
  function ValidatorNamesStandard(m: Model): (r: map<string, set<string>>)
    ensures r.Keys == m.validators.Keys
    ensures forall field, n :: field in r ==> (n in r[field] <==> ValidatorInspection.BoundTo(m, field, n))
  {
    map field | field in m.validators :: ValidatorInspection.NamesFromWrappers(m.validators[field])
  }

  /** `validator_names_root`: all root validators, filed under the `*` key. */
  function ValidatorNamesRoot(m: Model): (r: map<string, set<string>>)
    ensures r.Keys == {Asterisk}
    ensures forall n :: n in r[Asterisk] <==> ValidatorInspection.IsRoot(m, n)
  {
    map[Asterisk := ValidatorInspection.NamesRootValidators(m)]
  }

  /**
   * `validator_names`: the standard mapping with the root validators merged
   * into its `*` entry. The `*` key is always present and holds exactly the
   * asterisk validators; every other key keeps its standard names.
   */
  function ValidatorNames(m: Model): (r: map<string, set<string>>)
    ensures r.Keys == m.validators.Keys + {Asterisk}
    ensures r[Asterisk] == ValidatorInspection.NamesAsteriskValidators(m)
    ensures forall field, n :: field in r && field != Asterisk ==>
              (n in r[field] <==> ValidatorInspection.BoundTo(m, field, n))
  {
    var standard := ValidatorNamesStandard(m);
    var root := ValidatorNamesRoot(m);
    var complete := standard;
    var asterisk := (if Asterisk in complete then complete[Asterisk] else {}) + root[Asterisk];
    complete[Asterisk := asterisk]
  }

  /**
   * The per-field mapping and the validator classification describe the
   * same validators: a name is some entry's validator exactly when it is
   * one of the model's validator names.
   */
  lemma ValidatorNamesCoverNames(m: Model, n: string)
    ensures n in ValidatorInspection.Names(m) <==>
            exists field :: field in ValidatorNames(m) && n in ValidatorNames(m)[field]
  {
    var names := ValidatorNames(m);
    if n in ValidatorInspection.Names(m) {
      if n in ValidatorInspection.NamesAsteriskValidators(m) {
        assert n in names[Asterisk];
      } else {
        var field :| ValidatorInspection.BoundTo(m, field, n);
        assert field != Asterisk;
        assert n in names[field];
      }
    }
    if exists field :: field in names && n in names[field] {
      var field :| field in names && n in names[field];
      if field != Asterisk {
        assert ValidatorInspection.BoundTo(m, field, n);
      }
    }
  }

  /** The keys of an ordered field dictionary, in order. */
  function Keys(fields: seq<FieldDef>): (r: seq<string>)
    ensures |r| == |fields|
    ensures forall i :: 0 <= i < |fields| ==> r[i] == fields[i].name
  {
    if fields == [] then [] else [fields[0].name] + Keys(fields[1..])
  }

  /** `names`: the field names, in declaration order. */
  function Names(m: Model): (r: seq<string>)
    ensures |r| == |m.fields|
    ensures forall i :: 0 <= i < |m.fields| ==> r[i] == m.fields[i].name
  {
    Keys(m.fields)
  }

  /**
   * Dictionary lookup in an ordered field list: the first entry named `name`,
   * or a `KeyError` when there is none.
   */
  function Lookup(fields: seq<FieldDef>, name: string): (r: Result<FieldDef>)
    ensures r.Err? <==> name !in Keys(fields)
    ensures r.Err? ==> r.error == KeyError(name)
    ensures r.Ok? ==>
              && r.value.name == name
              && exists i :: 0 <= i < |fields| && fields[i] == r.value && FirstNamed(fields, name, i)
  {
    if fields == [] then Err(KeyError(name))
    else if fields[0].name == name then
      assert FirstNamed(fields, name, 0);
      Ok(fields[0])
    else
      var r := Lookup(fields[1..], name);
      assert Keys(fields) == [fields[0].name] + Keys(fields[1..]);
      if r.Ok? then
        var i :| 0 <= i < |fields[1..]| && fields[1..][i] == r.value && FirstNamed(fields[1..], name, i);
        assert FirstNamed(fields, name, i + 1);
        r
      else
        r
  }

  /** No field before position `i` is named `name`. */
  predicate FirstNamed(fields: seq<FieldDef>, name: string, i: nat) {
    forall j :: 0 <= j < i && j < |fields| ==> fields[j].name != name
  }

  /** `get`: the field named `name`; the dictionary raises `KeyError` for an unknown name. */
  function Get(m: Model, name: string): (r: Result<FieldDef>)
    ensures r.Err? <==> name !in Names(m)
    ensures r.Err? ==> r.error == KeyError(name)
    ensures r.Ok? ==> r.value.name == name && r.value in m.fields
  {
    Lookup(m.fields, name)
  }

  /**
   * `is_required`: a field is required when its default is pydantic's
   * `Undefined` sentinel or `...`; an unknown field name is a `KeyError`.
   */
  function IsRequired(m: Model, name: string): (r: Result<bool>)
    ensures r.Err? <==> name !in Names(m)
    ensures r.Err? ==> r.error == KeyError(name)
    ensures r.Ok? ==> (r.value <==> !Get(m, name).value.default.Value?)
  {
    match Get(m, name)
    case Err(e) => Err(e)
    case Ok(field) => Ok(field.default.Undefined? || field.default.Ellipsis?)
  }

  /**
   * Because the field names are distinct, `is_required` of a declared field
   * answers about that field's own default.
   */
  lemma {:induction false} IsRequiredOfDeclaredField(m: Model, i: nat)
    requires DistinctFieldNames(m.fields)
    requires i < |m.fields|
    ensures IsRequired(m, m.fields[i].name) ==
            Ok(m.fields[i].default == Undefined || m.fields[i].default == Ellipsis)
  {
    var name := m.fields[i].name;
    assert name in Names(m);
    var r := Lookup(m.fields, name);
    var j :| 0 <= j < |m.fields| && m.fields[j] == r.value && FirstNamed(m.fields, name, j);
    assert j == i;
  }
}
