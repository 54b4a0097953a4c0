/** The JSON Schema subset that messages and tool arguments are checked against. */
module JsonSchema {
  import opened Wrappers
  import opened Json

  function AsArray(v: Option<Json>): Option<seq<Json>> {
    if v.Some? && v.value.Arr? then Some(v.value.items) else None
  }

  function AsReal(v: Json): Option<real> {
    if !v.Num? then None
    else match v.n
      case PosInt(u) => Some(u as real)
      case NegInt(i) => Some(i as real)
      case Float(f) => Some(f)
  }

  function Bound(schema: Json, key: string): Option<real> {
    var v := Field(schema, key);
    if v.Some? then AsReal(v.value) else None
  }

  /** Integers are numbers written without a fraction: 1.0 is not one. */
  predicate TypeMatches(name: string, value: Json) {
    if name == "object" then value.Obj?
    else if name == "array" then value.Arr?
    else if name == "string" then value.Str?
    else if name == "number" then value.Num?
    else if name == "integer" then value.Num? && !value.n.Float?
    else if name == "boolean" then value.Bool?
    else if name == "null" then value.Null?
    else true
  }

  const TYPES := {"object", "array", "string", "number", "integer", "boolean", "null"}

  /** The type names a value has; 1.0 has "number" alone. */
  ghost function TypesOf(value: Json): set<string> {
    match value
    case Null => {"null"}
    case Bool(_) => {"boolean"}
    case Num(PosInt(_)) => {"number", "integer"}
    case Num(NegInt(_)) => {"number", "integer"}
    case Num(Float(_)) => {"number"}
    case Str(_) => {"string"}
    case Arr(_) => {"array"}
    case Obj(_) => {"object"}
  }

  /** A value matches the names it has, and every name that is no type. */
  lemma TypeMatchesIff(name: string, value: Json)
    ensures TypeMatches(name, value) <==> name in TypesOf(value) || name !in TYPES
  {
    assert "object"[0] != "array"[0] && "string"[1] != "object"[1];
  }

  // ---------------------------------------------------------------- conformance, keyword by keyword

  /** The type names a `type` keyword lists; a list with none puts no constraint. */
  predicate Lists(expected: Json, name: string) {
    expected == Str(name) || (expected.Arr? && Str(name) in expected.items)
  }

  ghost predicate TypeOk(schema: Json, value: Json) {
    var expected := Field(schema, "type");
    expected.Some? ==>
      || (exists name :: Lists(expected.value, name) && TypeMatches(name, value))
      || forall name :: !Lists(expected.value, name)
  }

  ghost predicate EnumOk(schema: Json, value: Json) {
    var options := AsArray(Field(schema, "enum"));
    options.Some? ==> value in options.value
  }

  ghost predicate LengthOk(schema: Json, value: Json) {
    value.Str? ==>
      var min, max := AsU64(Field(schema, "minLength")), AsU64(Field(schema, "maxLength"));
      (min.Some? ==> min.value <= |value.s|) && (max.Some? ==> |value.s| <= max.value)
  }

  ghost predicate RangeOk(schema: Json, value: Json) {
    AsReal(value).Some? ==>
      var min, max := Bound(schema, "minimum"), Bound(schema, "maximum");
      (min.Some? ==> min.value <= AsReal(value).value) && (max.Some? ==> AsReal(value).value <= max.value)
  }

  ghost predicate RequiredOk(schema: Json, value: Json) {
    var required := AsArray(Field(schema, "required"));
    value.Obj? && required.Some? ==> forall key :: Str(key) in required.value ==> key in value.fields
  }

  predicate Declares(schema: Json, key: string) {
    var properties := Field(schema, "properties");
    properties.Some? && Field(properties.value, key).Some?
  }

  function Property(schema: Json, key: string): Json
    requires Declares(schema, key)
  {
    Field(Field(schema, "properties").value, key).value
  }

  ghost predicate ExtraOk(schema: Json, value: Json) {
    value.Obj? && Field(schema, "additionalProperties") == Some(Bool(false)) ==>
      forall key :: key in value.fields ==> Declares(schema, key)
  }

  /** The keywords that do not look below the value. */
  ghost predicate ShallowOk(schema: Json, value: Json) {
    && schema.Obj? && TypeOk(schema, value) && EnumOk(schema, value) && LengthOk(schema, value)
    && RangeOk(schema, value) && RequiredOk(schema, value) && ExtraOk(schema, value)
  }

  /** Conformance to JSON Schema Validation (draft 2020-12, section 6) for the keywords type,
      enum, minLength, maxLength, minimum, maximum and required, and to properties,
      additionalProperties and items. */
  ghost predicate Conforms(schema: Json, value: Json)
    decreases value
  {
    && ShallowOk(schema, value)
    && (value.Obj? ==> forall key :: key in value.fields && Declares(schema, key) ==>
      Conforms(Property(schema, key), value.fields[key]))
    && (value.Arr? && Field(schema, "items").Some? ==>
          forall k :: 0 <= k < |value.items| ==> Conforms(Field(schema, "items").value, value.items[k]))
  }

  // ---------------------------------------------------------------- the validator

  datatype Keyword =
    | NotAnObject | Type | Enum | MinLength | MaxLength | Minimum | Maximum
    | Required(key: string) | Extra(key: string)

  datatype Step = Key(key: string) | Index(k: nat)

  datatype Violation = Violation(path: seq<Step>, keyword: Keyword)

  /** A check appends violations, and does so exactly when its keyword fails. */
  ghost predicate Reports(before: seq<Violation>, after: seq<Violation>, ok: bool) {
    before <= after && (after == before <==> ok)
  }

  method CheckType(schema: Json, value: Json, path: seq<Step>, before: seq<Violation>) returns (after: seq<Violation>)
    ensures Reports(before, after, TypeOk(schema, value))
  {
    after := before;
    var expected := Field(schema, "type");
    if expected.None? { return; }
    var allowed := [];
    if expected.value.Str? {
      allowed := [expected.value.s];
    } else if expected.value.Arr? {
      var names := expected.value.items;
      for k := 0 to |names|
        invariant forall name :: name in allowed <==> Str(name) in names[..k]
      {
        if names[k].Str? { allowed := allowed + [names[k].s]; }
      }
      assert names[..|names|] == names;
    }
    assert forall name :: name in allowed <==> Lists(expected.value, name);
    if allowed == [] {
      assert forall name :: !Lists(expected.value, name);
      return;
    }
    for k := 0 to |allowed|
      invariant forall j :: 0 <= j < k ==> !TypeMatches(allowed[j], value)
    {
      if TypeMatches(allowed[k], value) {
        assert Lists(expected.value, allowed[k]);
        return;
      }
    }
    assert Lists(expected.value, allowed[0]);
    after := before + [Violation(path, Type)];
  }

  method CheckEnum(schema: Json, value: Json, path: seq<Step>, before: seq<Violation>) returns (after: seq<Violation>)
    ensures Reports(before, after, EnumOk(schema, value))
  {
    after := before;
    var options := AsArray(Field(schema, "enum"));
    if options.Some? && value !in options.value { after := after + [Violation(path, Enum)]; }
  }

  method CheckLength(schema: Json, value: Json, path: seq<Step>, before: seq<Violation>) returns (after: seq<Violation>)
    ensures Reports(before, after, LengthOk(schema, value))
  {
    after := before;
    if !value.Str? { return; }
    var min, max := AsU64(Field(schema, "minLength")), AsU64(Field(schema, "maxLength"));
    if min.Some? && |value.s| < min.value { after := after + [Violation(path, MinLength)]; }
    if max.Some? && |value.s| > max.value { after := after + [Violation(path, MaxLength)]; }
  }

  method CheckRange(schema: Json, value: Json, path: seq<Step>, before: seq<Violation>) returns (after: seq<Violation>)
    ensures Reports(before, after, RangeOk(schema, value))
  {
    after := before;
    var number := AsReal(value);
    if number.None? { return; }
    var min, max := Bound(schema, "minimum"), Bound(schema, "maximum");
    if min.Some? && number.value < min.value { after := after + [Violation(path, Minimum)]; }
    if max.Some? && number.value > max.value { after := after + [Violation(path, Maximum)]; }
  }

  method CheckRequired(schema: Json, value: Json, path: seq<Step>, before: seq<Violation>)
      returns (after: seq<Violation>)
    requires value.Obj?
    ensures Reports(before, after, RequiredOk(schema, value))
  {
    after := before;
    var required := AsArray(Field(schema, "required"));
    if required.None? { return; }
    var names := required.value;
    for k := 0 to |names|
      invariant Reports(before, after, forall key :: Str(key) in names[..k] ==> key in value.fields)
    {
      assert names[..k + 1] == names[..k] + [names[k]];
      if names[k].Str? && names[k].s !in value.fields {
        assert Str(names[k].s) in names[..k + 1];
        after := after + [Violation(path, Required(names[k].s))];
      }
    }
    assert names[..|names|] == names;
  }

  method CheckExtra(schema: Json, value: Json, path: seq<Step>, before: seq<Violation>) returns (after: seq<Violation>)
    requires value.Obj?
    ensures Reports(before, after, ExtraOk(schema, value))
  {
    after := before;
    if Field(schema, "additionalProperties") != Some(Bool(false)) { return; }
    var keys := value.fields.Keys;
    while keys != {}
      invariant keys <= value.fields.Keys
      invariant Reports(before, after, forall key :: key in value.fields.Keys - keys ==> Declares(schema, key))
      decreases keys
    {
      var key :| key in keys;
      ghost var done := value.fields.Keys - keys;
      keys := keys - {key};
      assert value.fields.Keys - keys == done + {key};
      if !Declares(schema, key) {
        assert key in value.fields.Keys - keys;
        after := after + [Violation(path, Extra(key))];
      }
    }
    assert value.fields.Keys - keys == value.fields.Keys;
  }

  /** `validate_json_schema`: only appends to the violations, and appends nothing exactly when the
      value conforms. */
  method ValidateJsonSchema(schema: Json, value: Json, path: seq<Step>, before: seq<Violation>)
      returns (after: seq<Violation>)
    ensures Reports(before, after, Conforms(schema, value))
    decreases value, 2
  {
    hide TypeOk, EnumOk, LengthOk, RangeOk, RequiredOk, ExtraOk;
    if !schema.Obj? { return before + [Violation(path, NotAnObject)]; }
    after := CheckType(schema, value, path, before);
    if after != before { return; }
    after := CheckEnum(schema, value, path, after);
    after := CheckLength(schema, value, path, after);
    after := CheckRange(schema, value, path, after);
    if value.Obj? {
      after := CheckRequired(schema, value, path, after);
      after := CheckProperties(schema, value, path, after);
      after := CheckExtra(schema, value, path, after);
    } else {
      assert RequiredOk(schema, value) && ExtraOk(schema, value) by { NoObject(schema, value); }
    }
    if value.Arr? && Field(schema, "items").Some? {
      after := CheckItems(Field(schema, "items").value, value, path, after);
    }
  }

  lemma NoObject(schema: Json, value: Json)
    requires !value.Obj?
    ensures RequiredOk(schema, value) && ExtraOk(schema, value)
  {
  }

  method CheckProperties(schema: Json, value: Json, path: seq<Step>, before: seq<Violation>)
      returns (after: seq<Violation>)
    requires value.Obj?
    ensures Reports(before, after, forall key :: key in value.fields && Declares(schema, key) ==>
      Conforms(Property(schema, key), value.fields[key]))
    decreases value, 1
  {
    after := before;
    var properties := Field(schema, "properties");
    if properties.None? || !properties.value.Obj? { return; }
    var keys := properties.value.fields.Keys;
    while keys != {}
      invariant keys <= properties.value.fields.Keys
      invariant Reports(before, after, forall key :: key in value.fields && Declares(schema, key) && key !in keys ==>
        Conforms(Property(schema, key), value.fields[key]))
      decreases keys
    {
      var key :| key in keys;
      keys := keys - {key};
      if key in value.fields {
        after := ValidateJsonSchema(properties.value.fields[key], value.fields[key], path + [Key(key)], after);
      }
    }
  }

  method CheckItems(items: Json, value: Json, path: seq<Step>, before: seq<Violation>) returns (after: seq<Violation>)
    requires value.Arr?
    ensures Reports(before, after, forall k :: 0 <= k < |value.items| ==> Conforms(items, value.items[k]))
    decreases value, 1
  {
    after := before;
    for k := 0 to |value.items|
      invariant Reports(before, after, forall j :: 0 <= j < k ==> Conforms(items, value.items[j]))
    {
      after := ValidateJsonSchema(items, value.items[k], path + [Index(k)], after);
    }
  }

  // ---------------------------------------------------------------- tool arguments

  /** The type check of `validate_value`: a list of types, or "null", is not looked at. */
  predicate ArgumentTypeOk(rule: Json, value: Json) {
    var expected := Field(rule, "type");
    expected.Some? && expected.value.Str? && expected.value.s != "null" ==> TypeMatches(expected.value.s, value)
  }

  ghost predicate ArgumentOk(rule: Json, value: Json) {
    ArgumentTypeOk(rule, value) && EnumOk(rule, value) && LengthOk(rule, value) && RangeOk(rule, value)
  }

  /** What `validate_arguments` accepts: without properties any object; otherwise the required
      arguments, no extra ones if those are refused, and each value its rule, not looked into. */
  ghost predicate ArgumentsOk(schema: Json, arguments: Json) {
    arguments.Obj? &&
    (Field(schema, "properties").Some? && Field(schema, "properties").value.Obj? ==>
      && RequiredOk(schema, arguments)
      && (forall key :: key in arguments.fields ==>
            if Declares(schema, key) then ArgumentOk(Property(schema, key), arguments.fields[key])
            else Field(schema, "additionalProperties") != Some(Bool(false))))
  }

  method ValidateValue(rule: Json, value: Json) returns (ok: bool)
    ensures ok == ArgumentOk(rule, value)
  {
    if !ArgumentTypeOk(rule, value) { return false; }
    var failed := CheckEnum(rule, value, [], []);
    if failed != [] { return false; }
    failed := CheckRange(rule, value, [], []);
    if failed != [] { return false; }
    failed := CheckLength(rule, value, [], []);
    return failed == [];
  }

  method ValidateArguments(schema: Json, arguments: Json) returns (ok: bool)
    ensures ok == ArgumentsOk(schema, arguments)
  {
    hide ArgumentOk;
    if !arguments.Obj? { return false; }
    var properties := Field(schema, "properties");
    if properties.None? || !properties.value.Obj? { return true; }
    var missing := CheckRequired(schema, arguments, [], []);
    if missing != [] { return false; }
    var keys := arguments.fields.Keys;
    while keys != {}
      invariant keys <= arguments.fields.Keys
      invariant forall key :: key in arguments.fields.Keys - keys ==>
        if Declares(schema, key) then ArgumentOk(Property(schema, key), arguments.fields[key])
        else Field(schema, "additionalProperties") != Some(Bool(false))
      decreases keys
    {
      var key :| key in keys;
      keys := keys - {key};
      if Declares(schema, key) {
        var valid := ValidateValue(Property(schema, key), arguments.fields[key]);
        if !valid { return false; }
      } else if Field(schema, "additionalProperties") == Some(Bool(false)) {
        return false;
      }
    }
    assert forall key :: key in arguments.fields ==> key in arguments.fields.Keys - keys;
    ok := true;
  }

  /** What conformance asks of an argument beyond its rule's check: a list of types, the type
      "null", and everything inside an object or an array. */
  ghost predicate DeepOk(rule: Json, value: Json) {
    && rule.Obj?
    && (Field(rule, "type").Some? && (Field(rule, "type").value.Arr? || Field(rule, "type").value == Str("null")) ==>
      TypeOk(rule, value))
    && RequiredOk(rule, value) && ExtraOk(rule, value)
    && (value.Obj? ==> forall key :: key in value.fields && Declares(rule, key) ==>
      Conforms(Property(rule, key), value.fields[key]))
    && (value.Arr? && Field(rule, "items").Some? ==>
          forall k :: 0 <= k < |value.items| ==> Conforms(Field(rule, "items").value, value.items[k]))
  }

  /** What conformance asks of the arguments and `validate_arguments` does not look at: the
      schema's own `type` and `enum`, `required` and `additionalProperties` where there are no
      properties, and what `DeepOk` says of each declared argument. */
  ghost predicate Unchecked(schema: Json, arguments: Json) {
    && schema.Obj? && TypeOk(schema, arguments) && EnumOk(schema, arguments)
    && (!(Field(schema, "properties").Some? && Field(schema, "properties").value.Obj?) ==>
          RequiredOk(schema, arguments) && ExtraOk(schema, arguments))
    && (arguments.Obj? ==>
          forall key :: key in arguments.fields && Declares(schema, key) ==>
            DeepOk(Property(schema, key), arguments.fields[key]))
  }

  lemma ConformsSplits(rule: Json, value: Json)
    ensures Conforms(rule, value) <==> ArgumentOk(rule, value) && DeepOk(rule, value)
  {
    hide EnumOk, LengthOk, RangeOk, RequiredOk, ExtraOk;
    var expected := Field(rule, "type");
    if expected.Some? && expected.value.Str? {
      assert Lists(expected.value, expected.value.s);
    }
  }

  /** For every schema and every arguments: they conform exactly when they are accepted and meet
      what is left unchecked. */
  lemma ConformsIffAcceptedAndRest(schema: Json, arguments: Json)
    ensures arguments.Obj? && Conforms(schema, arguments) <==>
      ArgumentsOk(schema, arguments) && Unchecked(schema, arguments)
  {
    hide EnumOk, TypeOk, RequiredOk, DeepOk, ArgumentOk;
    if arguments.Obj? {
      forall key | key in arguments.fields && Declares(schema, key)
        ensures Conforms(Property(schema, key), arguments.fields[key]) <==>
          ArgumentOk(Property(schema, key), arguments.fields[key]) &&
            DeepOk(Property(schema, key), arguments.fields[key])
      {
        ConformsSplits(Property(schema, key), arguments.fields[key]);
      }
    }
  }

  /** So arguments that conform to the tool's schema are accepted. */
  lemma ConformingArgumentsAreAccepted(schema: Json, arguments: Json)
    requires arguments.Obj? && Conforms(schema, arguments)
    ensures ArgumentsOk(schema, arguments)
  {
    ConformsIffAcceptedAndRest(schema, arguments);
  }

  /** A rule all of whose keywords the check looks at. */
  predicate CoveredRule(rule: Json) {
    && rule.Obj?
    && (Field(rule, "type").Some? ==> !Field(rule, "type").value.Arr? && Field(rule, "type").value != Str("null"))
    && AsArray(Field(rule, "required")).None? && Field(rule, "additionalProperties") != Some(Bool(false))
    && Field(rule, "properties").None? && Field(rule, "items").None?
  }

  /** A schema all of whose keywords `validate_arguments` looks at. */
  predicate Covered(schema: Json) {
    && schema.Obj? && Field(schema, "type") in {None, Some(Str("object"))} && AsArray(Field(schema, "enum")).None?
    && Field(schema, "properties").Some? && Field(schema, "properties").value.Obj?
    && forall key | key in Field(schema, "properties").value.fields ::
      CoveredRule(Field(schema, "properties").value.fields[key])
  }

  /** For a schema of that form, acceptance is conformance, whatever the arguments. */
  lemma CoveredSchemasAreChecked(schema: Json, arguments: Json)
    requires Covered(schema) && arguments.Obj?
    ensures ArgumentsOk(schema, arguments) <==> Conforms(schema, arguments)
  {
    hide ArgumentsOk, Conforms;
    ConformsIffAcceptedAndRest(schema, arguments);
    if Field(schema, "type").Some? { assert Lists(Str("object"), "object"); }
    forall key | key in arguments.fields && Declares(schema, key)
      ensures DeepOk(Property(schema, key), arguments.fields[key])
    {
      assert CoveredRule(Field(schema, "properties").value.fields[key]);
    }
  }

  const TEXT := Obj(map["type" := Str("string")])
  const TEXTS := Obj(map["type" := Str("array"), "items" := TEXT])
  const PROGRAMS := ["cargo", "npm", "pnpm", "node", "python3", "python", "pytest"]
  const PROGRAM := Obj(map["type" := Str("string"),
                           "enum" := Arr(seq(|PROGRAMS|, k requires 0 <= k < |PROGRAMS| => Str(PROGRAMS[k])))])

  /** The parameters the command tool declares. */
  const RUN_COMMAND := Obj(map[
    "type" := Str("object"), "properties" := Obj(map["command" := PROGRAM, "args" := TEXTS, "cwd" := TEXT]),
    "required" := Arr([Str("command")]), "additionalProperties" := Bool(false)])

  const NULL_ARGUMENT := Obj(map["command" := Str("npm"), "args" := Arr([Null])])

  /** Acceptance alone is not enough: the command tool accepts an argument list that holds no text. */
  lemma AcceptedArgumentsMayNotConform()
    ensures ArgumentsOk(RUN_COMMAND, NULL_ARGUMENT) && !Conforms(RUN_COMMAND, NULL_ARGUMENT)
  {
    hide ArgumentOk;
    Keywords();
    assert Declares(RUN_COMMAND, "command") && Property(RUN_COMMAND, "command") == PROGRAM;
    assert Declares(RUN_COMMAND, "args") && Property(RUN_COMMAND, "args") == TEXTS;
    ProgramIsAccepted();
    NullsAreAccepted();
  }

  lemma Keywords()
    ensures "type" != "items" && "type" != "enum" && "items" != "enum" && "command" != "args" && "args" != "cwd"
    ensures "command" != "cwd" && "type" != "properties" && "type" != "required" && "type" != "additionalProperties"
    ensures "properties" != "required" && "properties" != "additionalProperties"
    ensures "required" != "additionalProperties"
  {
    assert |"type"| == 4 && |"items"| == 5 && "type"[0] != "enum"[0] && |"command"| == 7 && |"args"| == 4 &&
      |"cwd"| == 3;
    assert |"properties"| == 10 && |"required"| == 8 && |"additionalProperties"| == 20 && |"enum"| == 4;
  }

  lemma ProgramIsAccepted()
    ensures ArgumentOk(PROGRAM, Str("npm"))
  {
    Keywords();
    var options := PROGRAM.fields["enum"].items;
    assert options[1] == Str("npm");
    assert |"minLength"| == 9 && |"maxLength"| == 9;
  }

  lemma NullsAreAccepted()
    ensures ArgumentOk(TEXTS, Arr([Null])) && !Conforms(TEXTS, Arr([Null]))
  {
    Keywords();
    assert Field(TEXTS, "items") == Some(TEXT);
    NullIsNoText();
    assert Arr([Null]).items[0] == Null;
  }

  lemma NullIsNoText()
    ensures !Conforms(TEXT, Null)
  {
    hide Conforms, ShallowOk;
    assert Field(TEXT, "type") == Some(Str("string")) && Lists(Str("string"), "string");
    forall name | Lists(Str("string"), name) ensures !TypeMatches(name, Null) {
      assert name == "string";
    }
    NeedsType(TEXT, Null);
  }

  lemma NeedsType(schema: Json, value: Json)
    requires !TypeOk(schema, value)
    ensures !Conforms(schema, value)
  {
  }
}
