/**
 * `DynamicEntityMapperImpl`: turns a configured entity into the attribute map the API
 * answers with, converting each configured attribute with the conversion service.
 * The conversion service is a parameter, uninterpreted.
 */
module EntityMapper {
  import opened Wrappers
  import opened Domain
  import opened Config
  import opened CoreLib
  import opened Strings

  /** The Java classes `resolveClass` can answer. */
  datatype TargetClass =
    | BooleanClass | IntegerClass | FloatClass | DoubleClass | LongClass | TimestampClass | DateClass | StringClass

  /** Spring's `ConversionService.convert(value, targetClass)`. */
  type Converter = (Value, TargetClass) -> Value

  /** The lower-case type tags `resolveClass` recognises, each with its class. */
  function KnownTag(tag: string): (r: Option<TargetClass>)
  {
    if tag == "boolean" then Some(BooleanClass)
    else if tag == "integer" then Some(IntegerClass)
    else if tag == "float" then Some(FloatClass)
    else if tag == "double" then Some(DoubleClass)
    else if tag == "long" then Some(LongClass)
    else if tag == "timestamp" then Some(TimestampClass)
    else if tag == "date" then Some(DateClass)
    else None
  }

  /**
   * `resolveClass`: the type tag is lower-cased, then looked up, so each of the seven tags
   * names its class whatever the case it is written in; anything else is `String`.
   */
  function ResolveClass(kind: string): (r: TargetClass)
    ensures ToLower(kind) == "boolean" ==> r == BooleanClass
    ensures ToLower(kind) == "integer" ==> r == IntegerClass
    ensures ToLower(kind) == "float" ==> r == FloatClass
    ensures ToLower(kind) == "double" ==> r == DoubleClass
    ensures ToLower(kind) == "long" ==> r == LongClass
    ensures ToLower(kind) == "timestamp" ==> r == TimestampClass
    ensures ToLower(kind) == "date" ==> r == DateClass
    ensures r == StringClass <==>
      ToLower(kind) !in {"boolean", "integer", "float", "double", "long", "timestamp", "date"}
  {
    match KnownTag(ToLower(kind))
    case Some(c) => c
    case None => StringClass
  }

  /** A capitalised spelling, as in `resolveClass("Boolean")`. */
  lemma ResolveClassMixedCase()
    ensures ResolveClass("Boolean") == BooleanClass
  {
    var lower := ToLower("Boolean");
    assert forall i :: 0 <= i < 7 ==> lower[i] == "boolean"[i];
    assert lower == "boolean";
  }

  /**
   * `convertValue`: null stays null; an empty string becomes null when `nullIfEmpty` is set,
   * before the type is looked at; anything else goes to the converter with the resolved class.
   */
  function ConvertValue(convert: Converter, kind: string, value: Value, nullIfEmpty: bool): (r: Value)
    ensures value == Null ==> r == Null
    ensures nullIfEmpty && ToStringIsEmpty(value) ==> r == Null
    ensures value != Null && !(nullIfEmpty && ToStringIsEmpty(value)) ==> r == convert(value, ResolveClass(kind))
  {
    if value == Null then Null
    else if nullIfEmpty && ToStringIsEmpty(value) then Null
    else convert(value, ResolveClass(kind))
  }

  /** With `nullIfEmpty`, the empty string converts to null whatever the type and the converter. */
  lemma EmptyIgnoresType(c1: Converter, c2: Converter, k1: string, k2: string)
    ensures ConvertValue(c1, k1, Text(""), true) == ConvertValue(c2, k2, Text(""), true) == Null
  {
  }

  /** Without `nullIfEmpty`, the empty string reaches the converter like any other value. */
  lemma EmptyConverted(convert: Converter, kind: string)
    ensures ConvertValue(convert, kind, Text(""), false) == convert(Text(""), ResolveClass(kind))
  {
  }

  /** What `apply` puts for one configured attribute: its own type and flag on its own value. */
  function Mapped(convert: Converter, attribute: AttributeConfiguration, values: map<string, Value>): Value
  {
    ConvertValue(convert, attribute.kind, if attribute.name in values then values[attribute.name] else Null,
                 attribute.nullIfEmpty)
  }

  /** The map `apply` builds from a prefix of the attribute list; each `put` overwrites an earlier one. */
  function Project(convert: Converter, attributes: seq<AttributeConfiguration>, values: map<string, Value>)
    : map<string, Value>
  {
    if |attributes| == 0 then map[]
    else
      var last := attributes[|attributes| - 1];
      Project(convert, attributes[..|attributes| - 1], values)[last.name := Mapped(convert, last, values)]
  }

  /** The names of a list of attribute configurations. */
  function Names(attributes: seq<AttributeConfiguration>): set<string> {
    set i | 0 <= i < |attributes| :: attributes[i].name
  }

  /** The output keys are exactly the configured names: nothing else is kept. */
  lemma {:induction false} ProjectKeys(convert: Converter, attributes: seq<AttributeConfiguration>, values: map<string, Value>)
    ensures Project(convert, attributes, values).Keys == Names(attributes)
  {
    if |attributes| > 0 {
      var n := |attributes| - 1;
      ProjectKeys(convert, attributes[..n], values);
      assert Names(attributes) == Names(attributes[..n]) + {attributes[n].name} by {
        forall x | x in Names(attributes) ensures x in Names(attributes[..n]) + {attributes[n].name} {
          var i :| 0 <= i < |attributes| && attributes[i].name == x;
          if i < n { assert attributes[..n][i] == attributes[i]; }
        }
        forall x | x in Names(attributes[..n]) ensures x in Names(attributes) {
          var i :| 0 <= i < n && attributes[..n][i].name == x;
          assert attributes[i].name == x;
        }
      }
    }
  }

  /**
   * The value under a configured name is what the last attribute of that name maps to:
   * each attribute is converted with its own type and its own flag.
   */
  lemma {:induction false} ProjectLastWins(convert: Converter, attributes: seq<AttributeConfiguration>,
                                           values: map<string, Value>, j: nat)
    requires j < |attributes|
    requires forall l :: j < l < |attributes| ==> attributes[l].name != attributes[j].name
    ensures attributes[j].name in Project(convert, attributes, values)
    ensures Project(convert, attributes, values)[attributes[j].name] == Mapped(convert, attributes[j], values)
  {
    var n := |attributes| - 1;
    if j < n {
      assert attributes[..n][j] == attributes[j];
      forall l | j < l < n ensures attributes[..n][l].name != attributes[..n][j].name {
        assert attributes[..n][l] == attributes[l];
      }
      ProjectLastWins(convert, attributes[..n], values, j);
    }
  }

  /** A configured attribute that the entity does not carry maps to null. */
  lemma ProjectMissing(convert: Converter, attributes: seq<AttributeConfiguration>, values: map<string, Value>, j: nat)
    requires j < |attributes| && attributes[j].name !in values
    requires forall l :: j < l < |attributes| ==> attributes[l].name != attributes[j].name
    ensures attributes[j].name in Project(convert, attributes, values)
    ensures Project(convert, attributes, values)[attributes[j].name] == Null
  {
    ProjectLastWins(convert, attributes, values, j);
  }

  /** What `apply` answers for a configured entity: one entry per configured attribute name. */
  function MapEntity(convert: Converter, entity: DynamicEntity): (r: map<string, Value>)
    requires entity.configuration.Some?
    ensures r.Keys == Names(entity.configuration.value.attributes)
  {
    ProjectKeys(convert, entity.configuration.value.attributes, entity.attributes);
    Project(convert, entity.configuration.value.attributes, entity.attributes)
  }

  /** `apply`: one `put` per configured attribute, in list order, into a fresh map. */
  method Apply(convert: Converter, entity: DynamicEntity) returns (mapped: map<string, Value>)
    requires entity.configuration.Some?
    ensures mapped == MapEntity(convert, entity)
  {
    var attributes := entity.configuration.value.attributes;
    mapped := map[];
    var i := 0;
    while i < |attributes|
      invariant i <= |attributes|
      invariant mapped == Project(convert, attributes[..i], entity.attributes)
    {
      var configuration := attributes[i];
      var key := configuration.name;
      var value := if key in entity.attributes then entity.attributes[key] else Null;
      assert attributes[..i + 1][..i] == attributes[..i];
      mapped := mapped[key := ConvertValue(convert, configuration.kind, value, configuration.nullIfEmpty)];
      i := i + 1;
    }
    assert attributes[..i] == attributes;
  }
}
