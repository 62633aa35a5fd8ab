/**
  The HTTP layer's shaping of agent results: `_format_response`, which turns
  one tool result into the typed object the frontend renders, and
  `handle_agent_query`, which validates the input and wraps the agent's
  answer.
 */
module Api {
  import opened Wrappers
  import opened Json
  import opened Text
  import Agent
  import Device

  /** The `type` of a response object. */
  datatype Kind = Error | Weather | Time | Date | News | DeviceKind | General

  /** A response object: `type`, `content`, and `data`, where `None` is JSON null. */
  datatype Formatted = Formatted(kind: Kind, content: string, data: Option<Value>)

  const Sparkles: string := "\U{2728}"

  /** `tool_result.get("success")` is truthy; a missing key reads as `None`. */
  predicate Succeeded(result: seq<(string, Value)>) {
    Truthy(GetOr(result, "success", Null))
  }

  /**
    The substring tests of `_format_response` on the tool name, in their
    order: the first of "weather", "time", "date", "news", "device" found in
    the name decides the kind, and "general" is left for names with none.
   */
  function Classify(name: string): (k: Kind)
    ensures k != Error
    ensures k == Weather <==> Contains(name, "weather")
    ensures k == Time <==> !Contains(name, "weather") && Contains(name, "time")
    ensures k == Date <==> !Contains(name, "weather") && !Contains(name, "time") && Contains(name, "date")
    ensures k == News <==>
      !Contains(name, "weather") && !Contains(name, "time") && !Contains(name, "date") && Contains(name, "news")
    ensures k == DeviceKind <==>
      && !Contains(name, "weather") && !Contains(name, "time") && !Contains(name, "date")
      && !Contains(name, "news") && Contains(name, "device")
    ensures k == General <==>
      && !Contains(name, "weather") && !Contains(name, "time") && !Contains(name, "date")
      && !Contains(name, "news") && !Contains(name, "device")
  {
    if Contains(name, "weather") then Weather
    else if Contains(name, "time") then Time
    else if Contains(name, "date") then Date
    else if Contains(name, "news") then News
    else if Contains(name, "device") then DeviceKind
    else General
  }

  /**
    `_format_response`: a result without a truthy `success` is an error,
    whatever the tool name; otherwise the name's classification decides the
    kind and the message.  Only device responses drop the data.
   */
  function FormatResponse(name: string, result: seq<(string, Value)>, show: Value -> string): (r: Formatted)
    ensures r.kind == Error <==> !Succeeded(result)
    ensures Succeeded(result) ==> r.kind == Classify(name)
    ensures r.data.None? <==> r.kind == DeviceKind
    ensures r.data.Some? ==> r.data.value == Obj(result)
    ensures r.kind == Error ==> r.content == "An error occurred while executing " + name + "."
    ensures r.kind == Weather ==> (r.content ==
      "Current weather in " + Display(GetOr(result, "city", Str("your area")), show) +
      " is " + Display(GetOr(result, "condition", Str("unknown")), show) + ".")
    ensures r.kind == Time ==> r.content == "The current time is " + Display(GetOr(result, "time", Str("unknown")), show) + "."
    ensures r.kind == Date ==> r.content == "Today is " + Display(GetOr(result, "fullDate", Str("unknown")), show) + "."
    ensures r.kind == News ==> r.content == "Here are today's top headlines for you."
    ensures r.kind == DeviceKind ==> (r.content ==
      "Alright, the " + Display(GetOr(result, "deviceName", Null), show) +
      " was successfully " + Display(GetOr(result, "action", Null), show) + ". " + Sparkles)
    ensures r.kind == General ==> r.content == "Your request has been processed successfully."
  {
    if !Succeeded(result) then
      Formatted(Error, "An error occurred while executing " + name + ".", Some(Obj(result)))
    else match Classify(name)
      case Weather =>
        Formatted(Weather,
          "Current weather in " + Display(GetOr(result, "city", Str("your area")), show) +
          " is " + Display(GetOr(result, "condition", Str("unknown")), show) + ".",
          Some(Obj(result)))
      case Time =>
        Formatted(Time, "The current time is " + Display(GetOr(result, "time", Str("unknown")), show) + ".", Some(Obj(result)))
      case Date =>
        Formatted(Date, "Today is " + Display(GetOr(result, "fullDate", Str("unknown")), show) + ".", Some(Obj(result)))
      case News =>
        Formatted(News, "Here are today's top headlines for you.", Some(Obj(result)))
      case DeviceKind =>
        Formatted(DeviceKind,
          "Alright, the " + Display(GetOr(result, "deviceName", Null), show) +
          " was successfully " + Display(GetOr(result, "action", Null), show) + ". " + Sparkles,
          None)
      case _ =>
        Formatted(General, "Your request has been processed successfully.", Some(Obj(result)))
  }

  // ---------------------------------------------------------------------
  // The advertised tools, as the formatter classifies them
  // ---------------------------------------------------------------------

  lemma TurnOnToolIsDevice()
    ensures Classify("call_turn_on_device") == DeviceKind
  {
    var name := "call_turn_on_device";
    AbsentCharRulesOut(name, "weather", 0, 0, |name|);
    AbsentCharRulesOut(name, "time", 2, 0, |name|);
    AbsentCharRulesOut(name, "date", 3, 0, 14);
    AbsentCharRulesOut(name, "date", 2, 6, |name|);
    AbsentCharRulesOut(name, "news", 2, 0, |name|);
    assert StartsAt(name, "device", 13);
  }

  lemma TurnOffToolIsDevice()
    ensures Classify("call_turn_off_device") == DeviceKind
  {
    var name := "call_turn_off_device";
    AbsentCharRulesOut(name, "weather", 0, 0, |name|);
    AbsentCharRulesOut(name, "time", 2, 0, |name|);
    AbsentCharRulesOut(name, "date", 3, 0, 15);
    AbsentCharRulesOut(name, "date", 2, 6, |name|);
    AbsentCharRulesOut(name, "news", 2, 0, |name|);
    assert StartsAt(name, "device", 14);
  }

  lemma WeatherToolIsWeather()
    ensures Classify("call_get_current_weather") == Weather
  {
    var name := "call_get_current_weather";
    assert StartsAt(name, "weather", 17);
    AbsentCharRulesOut(name, "time", 1, 0, |name|);
    AbsentCharRulesOut(name, "date", 0, 0, |name|);
    AbsentCharRulesOut(name, "news", 3, 0, |name|);
    AbsentCharRulesOut(name, "device", 0, 0, |name|);
  }

  lemma TimeToolIsTime()
    ensures Classify("call_get_current_time") == Time
  {
    var name := "call_get_current_time";
    AbsentCharRulesOut(name, "weather", 0, 0, |name|);
    assert StartsAt(name, "time", 17);
    AbsentCharRulesOut(name, "date", 0, 0, |name|);
    AbsentCharRulesOut(name, "news", 2, 0, |name|);
    AbsentCharRulesOut(name, "device", 0, 0, |name|);
  }

  lemma DateToolIsDate()
    ensures Classify("call_get_current_date") == Date
  {
    var name := "call_get_current_date";
    AbsentCharRulesOut(name, "weather", 0, 0, |name|);
    AbsentCharRulesOut(name, "time", 1, 0, |name|);
    assert StartsAt(name, "date", 17);
    AbsentCharRulesOut(name, "news", 2, 0, |name|);
    AbsentCharRulesOut(name, "device", 2, 0, |name|);
  }

  lemma NewsToolIsNews()
    ensures Classify("call_get_news_headlines") == News
  {
    var name := "call_get_news_headlines";
    AbsentCharRulesOut(name, "weather", 6, 0, |name|);
    AbsentCharRulesOut(name, "time", 2, 0, |name|);
    AbsentCharRulesOut(name, "date", 0, 0, 17);
    AbsentCharRulesOut(name, "date", 2, 8, |name|);
    assert StartsAt(name, "news", 9);
    AbsentCharRulesOut(name, "device", 2, 0, |name|);
  }

  /** The kind each advertised tool's successful result is given, in the order of the tool list. */
  const ToolKinds: seq<Kind> := [DeviceKind, DeviceKind, Weather, Time, Date, News]

  /** Every advertised tool name lands in its own kind, never in "general". */
  lemma AdvertisedToolKinds(k: nat)
    requires k < 6
    ensures Classify(Agent.BoundNames[k]) == ToolKinds[k] != General
  {
    if k == 0 {
      TurnOnToolIsDevice();
    } else if k == 1 {
      TurnOffToolIsDevice();
    } else if k == 2 {
      WeatherToolIsWeather();
    } else if k == 3 {
      TimeToolIsTime();
    } else if k == 4 {
      DateToolIsDate();
    } else {
      NewsToolIsNews();
    }
  }

  /**
    A device control's own result dictionary, formatted under a device tool
    name: success reads back the device's display name and the action, and
    a failure is an error carrying the dictionary.
   */
  lemma DeviceResultMessage(name: string, r: Device.ControlResult, show: Value -> string)
    requires name == Agent.BoundNames[0] || name == Agent.BoundNames[1]
    ensures var f := FormatResponse(name, Device.ToJson(r).fields, show);
      && (r.Controlled? ==>
            f == Formatted(DeviceKind, "Alright, the " + r.deviceName + " was successfully " + r.action + ". " + Sparkles, None))
      && (r.Failed? ==>
            f == Formatted(Error, "An error occurred while executing " + name + ".", Some(Device.ToJson(r))))
  {
    var fields := Device.ToJson(r).fields;
    if r.Controlled? {
      if name == Agent.BoundNames[0] {
        TurnOnToolIsDevice();
      } else {
        TurnOffToolIsDevice();
      }
    }
  }

  // ---------------------------------------------------------------------
  // The endpoint
  // ---------------------------------------------------------------------

  /** What `run_agent` hands back: a string, a list of one-key result dictionaries, or an exception. */
  datatype AgentResult = TextResult(text: string) | ListResult(items: seq<Value>) | AgentRaised

  /** The endpoint's reply: the 400 error, the list of response objects, or an unhandled exception. */
  datatype ApiResponse = BadRequest(detail: string) | Responses(items: seq<Formatted>) | InternalError

  const EmptyInput: string := "userInput parameter cannot be empty."

  /**
    One element of a list result: its first key is the tool name and that
    key's value the result dictionary.  An element that is not a non-empty
    dictionary, or whose first value is not a dictionary, raises.
   */
  function ShapeItem(item: Value, show: Value -> string): (r: Option<Formatted>)
    ensures r.Some? <==> item.Obj? && |item.fields| > 0 && GetOr(item.fields, item.fields[0].0, Null).Obj?
    ensures r.Some? ==>
      var result := GetOr(item.fields, item.fields[0].0, Null);
      r.value == FormatResponse(item.fields[0].0, result.fields, show)
  {
    if item.Obj? && |item.fields| > 0 then
      match GetOr(item.fields, item.fields[0].0, Null)
      case Obj(result) => Some(FormatResponse(item.fields[0].0, result, show))
      case _ => None
    else None
  }

  /** The loop over a list result: one response object per element, in order. */
  function ShapeItems(items: seq<Value>, show: Value -> string): (r: Option<seq<Formatted>>)
    ensures r.Some? <==> forall k :: 0 <= k < |items| ==> ShapeItem(items[k], show).Some?
    ensures r.Some? ==> |r.value| == |items|
    ensures r.Some? ==> forall k :: 0 <= k < |items| ==> r.value[k] == ShapeItem(items[k], show).value
  {
    if |items| == 0 then Some([])
    else
      match ShapeItem(items[0], show)
      case None => None
      case Some(first) =>
        match ShapeItems(items[1..], show)
        case None => None
        case Some(rest) => Some([first] + rest)
  }

  /**
    `handle_agent_query`: an empty input is rejected before the agent runs;
    a list result is shaped element by element; any other result becomes a
    single "general" object with the agent's text and no data.
   */
  function HandleAgentQuery(userInput: string, runAgent: string -> AgentResult, show: Value -> string): (r: ApiResponse)
    ensures r == BadRequest(EmptyInput) <==> |userInput| == 0
    ensures |userInput| > 0 && runAgent(userInput).TextResult? ==>
      r == Responses([Formatted(General, runAgent(userInput).text, None)])
    ensures |userInput| > 0 && runAgent(userInput).ListResult? ==>
      var items := runAgent(userInput).items;
      && (r.Responses? <==> ShapeItems(items, show).Some?)
      && (r.Responses? ==> |r.items| == |items|)
      && (r.Responses? ==> forall k :: 0 <= k < |items| ==> r.items[k] == ShapeItem(items[k], show).value)
    ensures r == InternalError <==>
      && |userInput| > 0
      && (runAgent(userInput).AgentRaised? ||
          (runAgent(userInput).ListResult? && ShapeItems(runAgent(userInput).items, show).None?))
  {
    if |userInput| == 0 then BadRequest(EmptyInput)
    else match runAgent(userInput)
      case AgentRaised => InternalError
      case TextResult(text) => Responses([Formatted(General, text, None)])
      case ListResult(items) =>
        match ShapeItems(items, show)
        case Some(shaped) => Responses(shaped)
        case None => InternalError
  }

  /** What reaches the endpoint from the agent: its answer text, or the exception it raised. */
  function FromOutcome(o: Agent.Outcome): AgentResult {
    match o
    case Answer(text) => TextResult(text)
    case Crashed(_) => AgentRaised
  }

  /**
    The agent always answers with text, so the per-tool formatting is never
    reached from it: every non-empty query gets one "general" object holding
    the agent's joined answer, or fails with an internal error.
   */
  lemma AgentAnswersAreGeneral(userInput: string, replyOf: string -> Agent.Reply, env: Agent.Env, show: Value -> string)
    requires |userInput| > 0
    ensures var o := Agent.RunAgent(replyOf(userInput), env);
      var r := HandleAgentQuery(userInput, u => FromOutcome(Agent.RunAgent(replyOf(u), env)), show);
      && (o.Answer? ==> r == Responses([Formatted(General, o.text, None)]))
      && (o.Crashed? ==> r == InternalError)
  {
  }
}
