/**
 * The members injector of `@Configuration` fields: for each annotated field
 * the configured value, else the mapped defaults, else a missing-key error for
 * a mandatory field, else nothing. The first failure stops the injection and
 * what was injected before it stays injected.
 *
 * Coffig's lookup and its mapper are not modelled: they are functions held by
 * the `Coffig` value. Java values of the field's type are the type parameter `V`.
 */
module MembersInjector {
  import opened Wrappers
  import opened Strings
  import opened Tree

  /** A reflected field: its declaring class, its name and its type. */
  datatype Field = Field(declaringClass: string, name: string, fieldType: string)

  /** The `@Configuration` annotation: the key's segments, the defaults and the mandatory flag. */
  datatype Configuration = Configuration(value: seq<string>, defaultValue: seq<string>, mandatory: bool)

  datatype ConfigurableField = ConfigurableField(field: Field, configuration: Configuration)

  /**
   * The configuration as the injector sees it: an optional lookup of a typed
   * value at a path, which may fail, and the mapper of a node to a typed value,
   * which may fail too.
   */
  datatype Coffig<V> = Coffig(
    getOptional: (string, seq<string>) -> Result<Option<V>, string>,
    mapper: (TreeNode, string) -> Result<V, string>)

  /** What a failure inside the `try` was. */
  datatype Cause =
    | MissingConfigurationKey(key: string)
    | MappingFailure(message: string)

  /** The exception leaving `injectMembers`. */
  datatype InjectionError =
    | LookupFailure(message: string)   // raised by `getOptional`, outside the `try`: not wrapped
    | UnableToInjectConfigurationValue(className: string, fieldName: string, key: string, cause: Cause)

  /** What one field's turn does to the target. */
  datatype Outcome<V> = Assign(value: V) | Keep | Fail(error: InjectionError)

  /** The state after a run: the target's field values and the failure that stopped it, if any. */
  datatype InjectResult<V> = InjectResult(values: map<Field, V>, failure: Option<InjectionError>)

  /** The key named in errors: the path's segments joined with `.`. */
  function Key(configuration: Configuration): (key: string)
    ensures |configuration.value| >= 1 && (forall i :: 0 <= i < |configuration.value| ==> '.' !in configuration.value[i])
            ==> SplitAll(key, '.') == configuration.value
  {
    if |configuration.value| >= 1 && (forall i :: 0 <= i < |configuration.value| ==> '.' !in configuration.value[i]) then
      SplitJoin(configuration.value, '.');
      Join(configuration.value, '.')
    else
      Join(configuration.value, '.')
  }

  /**
   * The node the defaults are mapped from: several defaults make an array of
   * value nodes, one default a value node, none nothing (`null`).
   */
  function MapValue(value: seq<string>): (r: Option<TreeNode>)
    ensures r.None? <==> |value| == 0
    ensures |value| == 1 ==> r == Some(ValueNode(value[0]))
    ensures |value| > 1 ==> (r.Some? && r.value.ArrayNode? && |r.value.items| == |value|
      && forall i :: 0 <= i < |value| ==> r.value.items[i] == ValueNode(value[i]))
  {
    if |value| > 1 then Some(ArrayNode(seq(|value|, i requires 0 <= i < |value| => ValueNode(value[i]))))
    else if |value| == 1 then Some(ValueNode(value[0]))
    else None
  }

  /** The strings a node built from defaults carries. */
  function NodeStrings(node: TreeNode): seq<string>
  {
    match node
    case ValueNode(v) => [v]
    case ArrayNode(items) => seq(|items|, i requires 0 <= i < |items| => if items[i].ValueNode? then items[i].value else "")
    case MapNode(_) => []
  }

  /** The node built from the defaults carries exactly the defaults. */
  lemma MapValueRoundTrip(value: seq<string>)
    requires |value| >= 1
    ensures NodeStrings(MapValue(value).value) == value
  {
    var node := MapValue(value).value;
    if |value| > 1 {
      assert forall i :: 0 <= i < |value| ==> NodeStrings(node)[i] == value[i];
    }
  }

  /** The wrapping of a failure inside the `try`: declaring class, field name and dotted key. */
  function Wrap(cf: ConfigurableField, cause: Cause): (e: InjectionError)
    ensures e.UnableToInjectConfigurationValue? && e.cause == cause
    ensures e.className == cf.field.declaringClass && e.fieldName == cf.field.name
    ensures e.key == Key(cf.configuration)
  {
    UnableToInjectConfigurationValue(cf.field.declaringClass, cf.field.name, Key(cf.configuration), cause)
  }

  /** One field's turn. */
  function FieldStep<V>(coffig: Coffig<V>, cf: ConfigurableField): (r: Outcome<V>)
    ensures r.Fail? && r.error.LookupFailure? <==> coffig.getOptional(cf.field.fieldType, cf.configuration.value).Err?
    ensures r.Fail? && r.error.UnableToInjectConfigurationValue? ==> r.error == Wrap(cf, r.error.cause)
    ensures r.Keep? ==> (coffig.getOptional(cf.field.fieldType, cf.configuration.value) == Ok(None)
      && cf.configuration.defaultValue == [] && !cf.configuration.mandatory)
  {
    var field := cf.field;
    var configuration := cf.configuration;
    match coffig.getOptional(field.fieldType, configuration.value)
    case Err(e) => Fail(LookupFailure(e))
    case Ok(Some(v)) => Assign(v)
    case Ok(None) =>
      if |configuration.defaultValue| > 0 then
        match coffig.mapper(MapValue(configuration.defaultValue).value, field.fieldType)
        case Ok(v) => Assign(v)
        case Err(e) => Fail(Wrap(cf, MappingFailure(e)))
      else if configuration.mandatory then
        Fail(Wrap(cf, MissingConfigurationKey(Key(configuration))))
      else
        Keep
  }

  /** Applying one field's outcome to the target's values. */
  function Apply<V>(values: map<Field, V>, field: Field, outcome: Outcome<V>): InjectResult<V>
  {
    match outcome
    case Assign(v) => InjectResult(values[field := v], None)
    case Keep => InjectResult(values, None)
    case Fail(e) => InjectResult(values, Some(e))
  }

  /** The fields in turn, stopping at the first failure, from the target's initial values. */
  function Inject<V>(coffig: Coffig<V>, fields: seq<ConfigurableField>, values: map<Field, V>): InjectResult<V>
  {
    if fields == [] then InjectResult(values, None)
    else
      var prev := Inject(coffig, fields[..|fields| - 1], values);
      var last := fields[|fields| - 1];
      if prev.failure.Some? then prev
      else Apply(prev.values, last.field, FieldStep(coffig, last))
  }

  /** Once a prefix has failed, the later fields change nothing. */
  lemma {:induction false} InjectFailedStays<V>(coffig: Coffig<V>, fields: seq<ConfigurableField>, values: map<Field, V>, i: nat)
    requires i <= |fields|
    requires Inject(coffig, fields[..i], values).failure.Some?
    ensures Inject(coffig, fields, values) == Inject(coffig, fields[..i], values)
    decreases |fields| - i
  {
    if i < |fields| {
      var next := fields[..i + 1];
      assert next[..i] == fields[..i];
      InjectFailedStays(coffig, fields, values, i + 1);
    } else {
      assert fields[..i] == fields;
    }
  }

  /**
   * No rollback: when field `i` is the first to fail, the run fails with its
   * error and the target keeps what the fields before it injected.
   */
  lemma StopsAtFirstFailure<V>(coffig: Coffig<V>, fields: seq<ConfigurableField>, values: map<Field, V>, i: nat)
    requires i < |fields|
    requires Inject(coffig, fields[..i], values).failure.None?
    requires FieldStep(coffig, fields[i]).Fail?
    ensures Inject(coffig, fields, values)
      == InjectResult(Inject(coffig, fields[..i], values).values, Some(FieldStep(coffig, fields[i]).error))
  {
    var next := fields[..i + 1];
    assert next[..i] == fields[..i];
    assert next[i] == fields[i];
    InjectFailedStays(coffig, fields, values, i + 1);
  }

  /** A run succeeds exactly when no field's turn fails. */
  lemma {:induction false} InjectSucceedsIff<V>(coffig: Coffig<V>, fields: seq<ConfigurableField>, values: map<Field, V>)
    ensures Inject(coffig, fields, values).failure.None?
      <==> forall j :: 0 <= j < |fields| ==> !FieldStep(coffig, fields[j]).Fail?
  {
    if fields != [] {
      var init := fields[..|fields| - 1];
      InjectSucceedsIff(coffig, init, values);
      assert forall j :: 0 <= j < |init| ==> init[j] == fields[j];
    }
  }

  /** The fields a run may write: those of the configurable fields. */
  predicate DistinctFields(fields: seq<ConfigurableField>)
  {
    forall j, k :: 0 <= j < k < |fields| ==> fields[j].field != fields[k].field
  }

  /**
   * After a successful run over distinct fields, each field holds what its
   * turn assigned, or its prior value (or none) when its turn kept it.
   */
  lemma {:induction false} InjectValues<V>(coffig: Coffig<V>, fields: seq<ConfigurableField>, values: map<Field, V>, j: nat)
    requires DistinctFields(fields) && j < |fields|
    requires Inject(coffig, fields, values).failure.None?
    ensures var r := Inject(coffig, fields, values).values;
      var f := fields[j].field;
      match FieldStep(coffig, fields[j])
      case Assign(v) => f in r && r[f] == v
      case Keep => (f in r <==> f in values) && (f in values ==> r[f] == values[f])
      case Fail(_) => false
  {
    var n := |fields|;
    var init := fields[..n - 1];
    assert forall k :: 0 <= k < |init| ==> init[k] == fields[k];
    if j < n - 1 {
      InjectValues(coffig, init, values, j);
      assert fields[n - 1].field != fields[j].field;
    } else {
      InjectUntouched(coffig, init, values, fields[j].field);
    }
  }

  /** A field that is not among the configurable fields is left as it was. */
  lemma {:induction false} InjectUntouched<V>(coffig: Coffig<V>, fields: seq<ConfigurableField>, values: map<Field, V>, f: Field)
    requires forall k :: 0 <= k < |fields| ==> fields[k].field != f
    ensures var r := Inject(coffig, fields, values).values;
      (f in r <==> f in values) && (f in values ==> r[f] == values[f])
  {
    if fields != [] {
      var init := fields[..|fields| - 1];
      assert forall k :: 0 <= k < |init| ==> init[k] == fields[k];
      InjectUntouched(coffig, init, values, f);
    }
  }

  /** A configured value is injected and the defaults are not consulted. */
  lemma PresentValueWins<V>(coffig: Coffig<V>, cf: ConfigurableField, v: V)
    requires coffig.getOptional(cf.field.fieldType, cf.configuration.value) == Ok(Some(v))
    ensures FieldStep(coffig, cf) == Assign(v)
  {
  }

  /** An absent value with defaults injects the mapper's result on the defaults' node. */
  lemma DefaultsMapped<V>(coffig: Coffig<V>, cf: ConfigurableField)
    requires coffig.getOptional(cf.field.fieldType, cf.configuration.value) == Ok(None)
    requires |cf.configuration.defaultValue| > 0
    ensures var node := MapValue(cf.configuration.defaultValue).value;
      NodeStrings(node) == cf.configuration.defaultValue
      && match coffig.mapper(node, cf.field.fieldType)
         case Ok(v) => FieldStep(coffig, cf) == Assign(v)
         case Err(e) => FieldStep(coffig, cf) == Fail(Wrap(cf, MappingFailure(e)))
  {
    MapValueRoundTrip(cf.configuration.defaultValue);
  }

  /**
   * A mandatory field with no value and no defaults fails with the missing key,
   * wrapped as a failure to inject that names the same dotted key.
   */
  lemma MandatoryMissing<V>(coffig: Coffig<V>, cf: ConfigurableField)
    requires coffig.getOptional(cf.field.fieldType, cf.configuration.value) == Ok(None)
    requires cf.configuration.defaultValue == [] && cf.configuration.mandatory
    ensures FieldStep(coffig, cf).Fail?
    ensures var e := FieldStep(coffig, cf).error;
      e.UnableToInjectConfigurationValue? && e.cause == MissingConfigurationKey(e.key)
      && e.key == Join(cf.configuration.value, '.')
  {
  }

  /** An optional field with no value and no defaults keeps its prior value. */
  lemma OptionalMissingKept<V>(coffig: Coffig<V>, cf: ConfigurableField)
    requires coffig.getOptional(cf.field.fieldType, cf.configuration.value) == Ok(None)
    requires cf.configuration.defaultValue == [] && !cf.configuration.mandatory
    ensures FieldStep(coffig, cf) == Keep
  {
  }

  /**
   * A missing `dummy` key with the default `defaultValue`: the mapper receives
   * that single string as a value node.
   */
  lemma SingleStringDefault<V>(coffig: Coffig<V>, mandatory: bool, v: V)
    requires coffig.getOptional("String", ["dummy"]) == Ok(None)
    requires coffig.mapper(ValueNode("defaultValue"), "String") == Ok(v)
    ensures FieldStep(coffig, ConfigurableField(Field("Holder", "dummy", "String"),
                                                Configuration(["dummy"], ["defaultValue"], mandatory))) == Assign(v)
  {
  }

  /** A missing key with the single default `5` maps `ValueNode("5")`, not an array. */
  lemma SingleDefaultIsValueNode<V>(coffig: Coffig<V>, t: string, mandatory: bool, v: V)
    requires coffig.getOptional(t, ["missingProperty"]) == Ok(None)
    requires coffig.mapper(ValueNode("5"), t) == Ok(v)
    ensures FieldStep(coffig, ConfigurableField(Field("Holder", "configObject2", t),
                                                Configuration(["missingProperty"], ["5"], mandatory))) == Assign(v)
  {
  }

  /** The object that receives the injected values. */
  class Target<V> {
    var values: map<Field, V>

    constructor(values: map<Field, V>)
      ensures this.values == values
    {
      this.values := values;
    }
  }

  class ConfigurationMembersInjector<V> {
    const coffig: Coffig<V>
    const fields: seq<ConfigurableField>

    constructor(coffig: Coffig<V>, fields: seq<ConfigurableField>)
      ensures this.coffig == coffig && this.fields == fields
    {
      this.coffig := coffig;
      this.fields := fields;
    }

    /**
     * Injects the fields in turn into `t`; returns the failure that stopped
     * the run, if any, with `t` holding what was injected before it.
     */
    method InjectMembers(t: Target<V>) returns (failure: Option<InjectionError>)
      modifies t
      ensures InjectResult(t.values, failure) == Inject(coffig, fields, old(t.values))
    {
      var i := 0;
      while i < |fields|
        invariant 0 <= i <= |fields|
        invariant Inject(coffig, fields[..i], old(t.values)) == InjectResult(t.values, None)
      {
        var cf := fields[i];
        var next := fields[..i + 1];
        assert next[..i] == fields[..i];
        var outcome := FieldStep(coffig, cf);
        match outcome {
          case Assign(v) =>
            t.values := t.values[cf.field := v];
          case Keep =>
          case Fail(e) =>
            InjectFailedStays(coffig, fields, old(t.values), i + 1);
            return Some(e);
        }
        i := i + 1;
      }
      assert fields[..i] == fields;
      return None;
    }
  }
}
