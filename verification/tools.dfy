/**
  The tool declarations advertised to the completion service: the argument
  models with their allowed values and defaults, and their conversion into
  function-calling JSON schemas.  What pydantic's `model_json_schema()`
  returns for a model is an input here (`ModelSchema`).
 */
module Tools {
  import opened Wrappers
  import opened Json

  /** The argument models of the six tools. */
  datatype ArgsModel = DeviceControlArgs | WeatherArgs | NewsArgs | EmptyArgs

  /** The values a field admits: any string, or one of a `Literal` list. */
  datatype Domain = AnyText | OneOf(values: seq<string>)

  /** A model field; `default` is `None` for a required field (`Field(...)`). */
  datatype Field = Field(name: string, domain: Domain, default: Option<string>)

  const DeviceIds: seq<string> := [
    "kitchen_lamp", "bathroom_lamp", "room1_lamp", "room2_lamp",
    "room1_ac", "kitchen_ac", "living_room_tv"]

  const Units: seq<string> := ["metric", "imperial"]

  const Categories: seq<string> := [
    "business", "entertainment", "general", "health", "science", "sports", "technology"]

  const Countries: seq<string> := [
    "ae", "ar", "at", "au", "be", "bg", "br", "ca", "ch", "cn", "co", "cu", "cz",
    "de", "eg", "fr", "gb", "gr", "hk", "hu", "id", "ie", "il", "in", "it", "jp",
    "kr", "lt", "lv", "ma", "mx", "my", "ng", "nl", "no", "nz", "ph", "pl", "pt",
    "ro", "rs", "ru", "sa", "se", "sg", "si", "sk", "th", "tr", "tw", "ua", "us",
    "ve", "za"]

  function Fields(m: ArgsModel): seq<Field> {
    match m
    case DeviceControlArgs => [Field("device_id", OneOf(DeviceIds), None)]
    case WeatherArgs => [Field("city", AnyText, None), Field("unit", OneOf(Units), Some("metric"))]
    case NewsArgs => [Field("category", OneOf(Categories), Some("general")),
                      Field("country", OneOf(Countries), Some("us"))]
    case EmptyArgs => []
  }

  /** Names of the fields without a default, in declaration order. */
  function RequiredNames(fields: seq<Field>): (r: seq<string>)
    ensures |r| <= |fields|
    ensures forall n :: n in r <==> exists k :: 0 <= k < |fields| && fields[k].name == n && fields[k].default.None?
  {
    if |fields| == 0 then []
    else
      var rest := RequiredNames(fields[..|fields| - 1]);
      var last := fields[|fields| - 1];
      if last.default.None? then rest + [last.name] else rest
  }

  predicate Admits(d: Domain, v: string) {
    d.AnyText? || v in d.values
  }

  /**
    The defaults: `unit` is "metric", `category` is "general", `country` is
    "us"; each default is one of its field's allowed values, and only
    `device_id` and `city` are required.
   */
  lemma Defaults()
    ensures Fields(WeatherArgs)[1] == Field("unit", OneOf(Units), Some("metric"))
    ensures Fields(NewsArgs)[0].default == Some("general") && Fields(NewsArgs)[1].default == Some("us")
    ensures forall m, k :: 0 <= k < |Fields(m)| && Fields(m)[k].default.Some? ==>
      Admits(Fields(m)[k].domain, Fields(m)[k].default.value)
    ensures RequiredNames(Fields(DeviceControlArgs)) == ["device_id"]
    ensures RequiredNames(Fields(WeatherArgs)) == ["city"]
    ensures RequiredNames(Fields(NewsArgs)) == [] && RequiredNames(Fields(EmptyArgs)) == []
  {
    assert "general" in Categories;
    assert "us" == Countries[51];
  }

  /** What `model_json_schema()` gives: the `properties` object and the `required` list (empty when absent). */
  datatype ModelSchema = ModelSchema(properties: seq<(string, Value)>, required: seq<string>)

  /** A list of strings as a JSON array. */
  function StrArray(xs: seq<string>): (r: Value)
    ensures r.Arr? && |r.items| == |xs|
    ensures forall k :: 0 <= k < |xs| ==> r.items[k] == Str(xs[k])
  {
    Arr(seq(|xs|, k requires 0 <= k < |xs| => Str(xs[k])))
  }

  /** `tool["function"]`, when the tool is an object holding an object there. */
  function FunctionOf(tool: Value): Option<seq<(string, Value)>> {
    if tool.Obj? then
      match Get(tool.fields, "function")
      case Some(Obj(f)) => Some(f)
      case _ => None
    else None
  }

  /** `tool["function"]["name"]`, when it is a string. */
  function ToolName(tool: Value): Option<string> {
    match FunctionOf(tool)
    case Some(f) =>
      (match Get(f, "name") case Some(Str(n)) => Some(n) case _ => None)
    case None => None
  }

  /** `tool["function"]["parameters"]`, when it is an object. */
  function ToolParameters(tool: Value): Option<seq<(string, Value)>> {
    match FunctionOf(tool)
    case Some(f) =>
      (match Get(f, "parameters") case Some(Obj(p)) => Some(p) case _ => None)
    case None => None
  }

  /**
    The `parameters` object: always `type` "object" and the model's
    properties (an empty object when there are none); `required` only when
    the model has properties and a non-empty required list.
   */
  function Parameters(schema: ModelSchema): (p: seq<(string, Value)>)
    ensures Get(p, "type") == Some(Str("object"))
    ensures Get(p, "properties") == Some(Obj(schema.properties))
    ensures Get(p, "required").Some? <==> |schema.properties| > 0 && |schema.required| > 0
    ensures Get(p, "required").Some? ==> Get(p, "required") == Some(StrArray(schema.required))
  {
    var base := [("type", Str("object")), ("properties", Obj([]))];
    if |schema.properties| > 0 then
      var withProps := [("type", Str("object")), ("properties", Obj(schema.properties))];
      assert Get(withProps[..1], "type") == Some(Str("object"));
      assert Get(withProps[..1], "required") == None by {
        assert withProps[..1][..0] == [];
      }
      if |schema.required| > 0 then
        var p := withProps + [("required", StrArray(schema.required))];
        GetAppend(withProps, "required", StrArray(schema.required), "type");
        GetAppend(withProps, "required", StrArray(schema.required), "properties");
        p
      else withProps
    else
      assert Get(base[..1], "required") == None by {
        assert base[..1][..0] == [];
      }
      base
  }

  /**
    `pydantic_to_json_schema`: a function tool named `call_` + the function
    name, with the given description and the parameters above.
   */
  function PydanticToJsonSchema(schema: ModelSchema, functionName: string, description: string): (tool: Value)
    ensures tool.Obj? && Get(tool.fields, "type") == Some(Str("function"))
    ensures ToolName(tool) == Some("call_" + functionName)
    ensures FunctionOf(tool).Some? && Get(FunctionOf(tool).value, "description") == Some(Str(description))
    ensures ToolParameters(tool) == Some(Parameters(schema))
  {
    var fn := [("name", Str("call_" + functionName)), ("description", Str(description)),
               ("parameters", Obj(Parameters(schema)))];
    var tool := [("type", Str("function")), ("function", Obj(fn))];
    assert Get(fn[..2], "name") == Get(fn[..1], "name");
    Obj(tool)
  }

  /** Distinct function names give distinct tool names. */
  lemma PrefixedNamesDistinct(a: string, b: string)
    requires a != b
    ensures "call_" + a != "call_" + b
  {
    assert ("call_" + a)[5..] == a && ("call_" + b)[5..] == b;
  }

  /** One entry of the tool list: the argument model, the function name, the description. */
  datatype ToolSpec = ToolSpec(model: ArgsModel, functionName: string, description: string)

  const ToolSpecs: seq<ToolSpec> := [
    ToolSpec(DeviceControlArgs, "turn_on_device", "Turns on a specific device like a lamp, AC unit, or TV."),
    ToolSpec(DeviceControlArgs, "turn_off_device", "Turns off a specific device like a lamp, AC unit, or TV."),
    ToolSpec(WeatherArgs, "get_current_weather", "Retrieves current weather information for a specified city."),
    ToolSpec(EmptyArgs, "get_current_time", "Gets the precise, real-time current time."),
    ToolSpec(EmptyArgs, "get_current_date", "Gets the precise, real-time current date."),
    ToolSpec(NewsArgs, "get_news_headlines", "Retrieves recent news headlines for a given category and country.")
  ]

  /** `get_tools_schema`: the six tools, in this order, with distinct names. */
  function GetToolsSchema(schemaOf: ArgsModel -> ModelSchema): (r: seq<Value>)
    ensures |r| == 6
    ensures forall k :: 0 <= k < 6 ==> ToolName(r[k]) == Some("call_" + ToolSpecs[k].functionName)
    ensures forall j, k :: 0 <= j < k < 6 ==> ToolName(r[j]) != ToolName(r[k])
  {
    forall j, k | 0 <= j < k < 6 ensures "call_" + ToolSpecs[j].functionName != "call_" + ToolSpecs[k].functionName {
      PrefixedNamesDistinct(ToolSpecs[j].functionName, ToolSpecs[k].functionName);
    }
    seq(6, k requires 0 <= k < 6 =>
      PydanticToJsonSchema(schemaOf(ToolSpecs[k].model), ToolSpecs[k].functionName, ToolSpecs[k].description))
  }

  /** The schema pydantic derives for a model: its fields as properties, the fields without default as required. */
  predicate Describes(schema: ModelSchema, m: ArgsModel) {
    && |schema.properties| == |Fields(m)|
    && (forall k :: 0 <= k < |Fields(m)| ==> schema.properties[k].0 == Fields(m)[k].name)
    && schema.required == RequiredNames(Fields(m))
  }

  /**
    With schemas that describe their models, the advertised tools declare
    `required` exactly for the device and weather tools: the time and date
    tools have no properties and the news tool has defaults for everything.
   */
  lemma AdvertisedRequired(schemaOf: ArgsModel -> ModelSchema, k: nat)
    requires forall m :: Describes(schemaOf(m), m)
    requires k < 6
    ensures Get(ToolParameters(GetToolsSchema(schemaOf)[k]).value, "required").Some? <==> k <= 2
  {
    Defaults();
    var m := ToolSpecs[k].model;
    assert Describes(schemaOf(m), m);
  }
}
