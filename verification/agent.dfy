/**
  The agent: resolving which tools the completion reply asks for, and
  running them one by one.

  The reply is an input: either no usable choice (no response, no `choices`,
  or an empty list) or the first choice's message with its optional native
  `tool_calls` list and its optional `content`.  `json.loads`, the
  capabilities themselves and Python's `str()` of non-string values are the
  oracles of `Env`.
 */
module Agent {
  import opened Wrappers
  import opened Json
  import opened Text
  import Fence
  import Tools
  import Device

  /** The Python functions the tool names are bound to. */
  datatype Capability =
    | TurnOnDevice | TurnOffDevice | GetCurrentWeather | GetCurrentTime | GetCurrentDate | GetNewsHeadlines

  const AvailableFunctions: map<string, Capability> := map[
    "call_turn_on_device" := TurnOnDevice,
    "call_turn_off_device" := TurnOffDevice,
    "call_get_current_weather" := GetCurrentWeather,
    "call_get_current_time" := GetCurrentTime,
    "call_get_current_date" := GetCurrentDate,
    "call_get_news_headlines" := GetNewsHeadlines
  ]

  /** The first choice's message: `tool_calls` absent or null is `None`; `content` absent is `None`. */
  datatype Message = Message(toolCalls: Option<seq<Value>>, content: Option<Value>)

  datatype Reply = NoChoices | FirstChoice(message: Message)

  /** Calling a capability with keyword arguments: it returns a value or raises. */
  datatype Invocation = Returned(value: Value) | Raised(message: string)

  /** The oracles: `json.loads`, calling a capability with `**arguments`, and `str()`. */
  datatype Env = Env(
    decode: string -> Option<Value>,
    invoke: (Capability, Value) -> Invocation,
    show: Value -> string)

  /** The exceptions `run_agent` does not catch. */
  datatype Crash =
    | ContentNotText     // `re.search` on a content that is not a string, e.g. null
    | MalformedToolCall  // a tool call without an object `function` holding `name` and `arguments`
    | UnhashableName     // a list or dict as the name, looked up in the function table

  /** One line of the answer: a rendered result, or one of the three per-call errors. */
  datatype Entry =
    | Rendered(text: string)
    | BadArguments(raw: string)
    | UnknownFunction(name: string)
    | ExecutionError(name: string, message: string)

  function EntryText(e: Entry): string {
    match e
    case Rendered(text) => text
    case BadArguments(raw) => "Error: The model returned invalid JSON for arguments: " + raw
    case UnknownFunction(name) => "Error: Unknown function '" + name + "'"
    case ExecutionError(name, message) => "Error executing function '" + name + "': " + message
  }

  const Apology: string := "Sorry, I couldn't get a valid response from the assistant's brain."
  const NoAnswer: string := "I couldn't process that request."

  datatype Outcome = Answer(text: string) | Crashed(reason: Crash)

  // ---------------------------------------------------------------------
  // The fenced-block fallback
  // ---------------------------------------------------------------------

  /**
    `parse_tool_calls_from_content`: the first ```` ```json ```` block is
    decoded; a list is returned as it is, an object becomes a one-element
    list, and no block, a block that does not decode, or any other value
    gives `None` rather than an exception.
   */
  function ParseToolCallsFromContent(content: string, decode: string -> Option<Value>): (r: Option<seq<Value>>)
    ensures Fence.Body(content).None? ==> r.None?
    ensures r.Some? ==> Fence.Body(content).Some? && decode(Fence.Body(content).value).Some?
    ensures r.Some? ==>
      var v := decode(Fence.Body(content).value).value;
      (v.Arr? && r.value == v.items) || (v.Obj? && r.value == [v])
    ensures Fence.Body(content).Some? && decode(Fence.Body(content).value).Some? ==>
      var v := decode(Fence.Body(content).value).value;
      r.Some? <==> v.Arr? || v.Obj?
  {
    match Fence.Body(content)
    case None => None
    case Some(block) =>
      match decode(block)
      case Some(Arr(items)) => Some(items)
      case Some(Obj(fields)) => Some([Obj(fields)])
      case _ => None
  }

  /** Text after the first block's closing fence never changes what the fallback finds. */
  lemma FallbackReadsFirstBlockOnly(content: string, rest: string, decode: string -> Option<Value>)
    requires Fence.Search(content).Some?
    ensures ParseToolCallsFromContent(content[..Fence.Search(content).value.close + |Fence.Close|] + rest, decode)
         == ParseToolCallsFromContent(content, decode)
  {
    Fence.FirstBlockOnly(content, rest);
  }

  /** The native shape a parsed call is rewrapped into. */
  function Wrap(call: Value): (w: Value)
    ensures w.Obj? && Get(w.fields, "function") == Some(call)
  {
    Obj([("type", Str("function")), ("function", call)])
  }

  /** `[{"type": "function", "function": call} for call in parsed_calls]`. */
  function Rewrap(parsed: seq<Value>): (r: seq<Value>)
    ensures |r| == |parsed| && forall k :: 0 <= k < |parsed| ==> r[k] == Wrap(parsed[k])
  {
    seq(|parsed|, k requires 0 <= k < |parsed| => Wrap(parsed[k]))
  }

  // ---------------------------------------------------------------------
  // One tool call
  // ---------------------------------------------------------------------

  /** The name and arguments a tool call carries. */
  datatype Call = Call(name: Value, arguments: Value)

  /**
    `tool_call["function"]["name"]` and `tool_call["function"]["arguments"]`,
    which raise, outside any handler, when a key is missing or a level is not
    a dictionary.
   */
  function ReadCall(toolCall: Value): (r: Option<Call>)
    ensures r.Some? <==>
      && toolCall.Obj?
      && Get(toolCall.fields, "function").Some?
      && Get(toolCall.fields, "function").value.Obj?
      && Get(Get(toolCall.fields, "function").value.fields, "name").Some?
      && Get(Get(toolCall.fields, "function").value.fields, "arguments").Some?
    ensures r.Some? ==>
      var f := Get(toolCall.fields, "function").value.fields;
      r.value == Call(Get(f, "name").value, Get(f, "arguments").value)
  {
    if !toolCall.Obj? then None
    else match Get(toolCall.fields, "function")
      case Some(Obj(f)) =>
        (match (Get(f, "name"), Get(f, "arguments"))
         case (Some(name), Some(arguments)) => Some(Call(name, arguments))
         case _ => None)
      case _ => None
  }

  /** A call from the fenced block is read from the parsed object itself. */
  lemma WrappedCallReadsParsedObject(call: Value)
    ensures ReadCall(Wrap(call)).Some? <==>
      call.Obj? && Get(call.fields, "name").Some? && Get(call.fields, "arguments").Some?
    ensures ReadCall(Wrap(call)).Some? ==>
      ReadCall(Wrap(call)).value == Call(Get(call.fields, "name").value, Get(call.fields, "arguments").value)
  {
  }

  /**
    One pass of the loop body once name and arguments are read: string
    arguments are decoded first, and a failed decode is reported without
    looking at the name; then the name is looked up, and an unknown name is
    reported, while a known one is invoked and either its result is rendered
    or the exception it raised is reported.
   */
  function ExecuteCall(call: Call, env: Env): (r: Result<Entry, Crash>)
    ensures call.arguments.Str? && env.decode(call.arguments.s).None? ==>
      r == Ok(BadArguments(call.arguments.s))
    ensures r == Err(UnhashableName) <==>
      (call.name.Arr? || call.name.Obj?) && (call.arguments.Str? ==> env.decode(call.arguments.s).Some?)
    ensures r.Ok? && r.value.UnknownFunction? <==>
      && !(call.name.Arr? || call.name.Obj?)
      && !(call.name.Str? && call.name.s in AvailableFunctions)
      && (call.arguments.Str? ==> env.decode(call.arguments.s).Some?)
    ensures r.Ok? && (r.value.Rendered? || r.value.ExecutionError?) ==>
      call.name.Str? && call.name.s in AvailableFunctions
    ensures r.Err? ==> r.error == UnhashableName
    ensures r.Ok? && r.value.UnknownFunction? ==> r.value.name == Display(call.name, env.show)
    ensures call.name.Str? && call.name.s in AvailableFunctions && !call.arguments.Str? ==>
      match env.invoke(AvailableFunctions[call.name.s], call.arguments)
      case Returned(v) => r == Ok(Rendered(Display(v, env.show)))
      case Raised(m) => r == Ok(ExecutionError(call.name.s, m))
    ensures (call.name.Str? && call.name.s in AvailableFunctions &&
             call.arguments.Str? && env.decode(call.arguments.s).Some?) ==>
      match env.invoke(AvailableFunctions[call.name.s], env.decode(call.arguments.s).value)
      case Returned(v) => r == Ok(Rendered(Display(v, env.show)))
      case Raised(m) => r == Ok(ExecutionError(call.name.s, m))
  {
    if call.arguments.Str? && env.decode(call.arguments.s).None? then
      Ok(BadArguments(call.arguments.s))
    else
      var arguments := if call.arguments.Str? then env.decode(call.arguments.s).value else call.arguments;
      if call.name.Arr? || call.name.Obj? then
        Err(UnhashableName)
      else if call.name.Str? && call.name.s in AvailableFunctions then
        match env.invoke(AvailableFunctions[call.name.s], arguments)
        case Returned(v) => Ok(Rendered(Display(v, env.show)))
        case Raised(m) => Ok(ExecutionError(call.name.s, m))
      else
        Ok(UnknownFunction(Display(call.name, env.show)))
  }

  /**
    Arguments sent as a JSON string act exactly as the decoded value would
    have, had it been sent as it is: native and fenced-block calls agree.
   */
  lemma DecodedArgumentsActAsParsed(name: Value, s: string, a: Value, env: Env)
    requires env.decode(s) == Some(a) && !a.Str?
    ensures ExecuteCall(Call(name, Str(s)), env) == ExecuteCall(Call(name, a), env)
  {
  }

  /** The whole loop body for one element of the tool-call list. */
  function Step(toolCall: Value, env: Env): (r: Result<Entry, Crash>)
    ensures ReadCall(toolCall).None? <==> r == Err(MalformedToolCall)
    ensures ReadCall(toolCall).Some? ==> r == ExecuteCall(ReadCall(toolCall).value, env)
    ensures r.Err? ==> r.error != ContentNotText
  {
    match ReadCall(toolCall)
    case None => Err(MalformedToolCall)
    case Some(call) =>
      var e := ExecuteCall(call, env);
      assert e != Err(MalformedToolCall);
      e
  }

  // ---------------------------------------------------------------------
  // The loop
  // ---------------------------------------------------------------------

  /**
    The dispatch loop: every call contributes exactly one entry, in order,
    and each entry depends on its own call alone, so a failing call does not
    stop the ones after it; only an uncaught exception ends the loop, at the
    first call that raises it.
   */
  function Dispatch(toolCalls: seq<Value>, env: Env): (r: Result<seq<Entry>, Crash>)
    ensures r.Ok? <==> forall k :: 0 <= k < |toolCalls| ==> Step(toolCalls[k], env).Ok?
    ensures r.Ok? ==> |r.value| == |toolCalls|
    ensures r.Ok? ==> forall k :: 0 <= k < |toolCalls| ==> r.value[k] == Step(toolCalls[k], env).value
    ensures r.Err? ==>
      exists k :: 0 <= k < |toolCalls| && Step(toolCalls[k], env) == Err(r.error) &&
        forall j :: 0 <= j < k ==> Step(toolCalls[j], env).Ok?
  {
    if |toolCalls| == 0 then Ok([])
    else
      var init := toolCalls[..|toolCalls| - 1];
      var last := toolCalls[|toolCalls| - 1];
      assert forall k :: 0 <= k < |init| ==> init[k] == toolCalls[k];
      match Dispatch(init, env)
      case Err(c) => Err(c)
      case Ok(entries) =>
        match Step(last, env)
        case Err(c) => Err(c)
        case Ok(e) => Ok(entries + [e])
  }

  /** Running a batch in two parts gives the entries of the two parts, one after the other. */
  lemma DispatchAppend(a: seq<Value>, b: seq<Value>, env: Env)
    requires Dispatch(a, env).Ok? && Dispatch(b, env).Ok?
    ensures Dispatch(a + b, env) == Ok(Dispatch(a, env).value + Dispatch(b, env).value)
  {
    var ab := a + b;
    var ra, rb := Dispatch(a, env).value, Dispatch(b, env).value;
    forall k | 0 <= k < |ab| ensures Step(ab[k], env).Ok? && Step(ab[k], env).value == (ra + rb)[k] {
      if k < |a| {
        assert ab[k] == a[k];
      } else {
        assert ab[k] == b[k - |a|];
      }
    }
    var r := Dispatch(ab, env);
    assert r.Ok?;
    assert r.value == ra + rb;
  }

  /** Joined answers of two non-empty entry lists concatenate with a newline between them. */
  lemma AnswerConcat(ea: seq<Entry>, eb: seq<Entry>)
    requires |ea| > 0 && |eb| > 0
    ensures Finish(Ok(ea + eb)) == Answer(Finish(Ok(ea)).text + "\n" + Finish(Ok(eb)).text)
  {
    assert Lines(ea + eb) == Lines(ea) + Lines(eb);
    JoinConcat(Lines(ea), Lines(eb), "\n");
  }

  /** The answer for two batches run together is the two answers on separate lines. */
  lemma BatchAnswerConcat(a: seq<Value>, b: seq<Value>, env: Env)
    requires |a| > 0 && |b| > 0 && Dispatch(a, env).Ok? && Dispatch(b, env).Ok?
    ensures Finish(Dispatch(a + b, env)) ==
      Answer(Finish(Dispatch(a, env)).text + "\n" + Finish(Dispatch(b, env)).text)
  {
    DispatchAppend(a, b, env);
    AnswerConcat(Dispatch(a, env).value, Dispatch(b, env).value);
  }

  /**
    In a batch that runs to the end, every call was readable and its entry
    is its own pass: undecodable arguments give the invalid-JSON entry, an
    unknown name the unknown-function entry, and a known name its rendered
    result or the exception it raised, whatever the other calls did.
   */
  lemma DispatchEntryErrors(toolCalls: seq<Value>, k: nat, env: Env)
    requires Dispatch(toolCalls, env).Ok? && k < |toolCalls|
    ensures ReadCall(toolCalls[k]).Some?
    ensures var call := ReadCall(toolCalls[k]).value;
      var e := Dispatch(toolCalls, env).value[k];
      var undecodable := call.arguments.Str? && env.decode(call.arguments.s).None?;
      var known := call.name.Str? && call.name.s in AvailableFunctions;
      && (undecodable ==> e == BadArguments(call.arguments.s))
      && (!undecodable && !known ==> e == UnknownFunction(Display(call.name, env.show)))
      && (!undecodable && known ==>
            var arguments := if call.arguments.Str? then env.decode(call.arguments.s).value else call.arguments;
            match env.invoke(AvailableFunctions[call.name.s], arguments)
            case Returned(v) => e == Rendered(Display(v, env.show))
            case Raised(m) => e == ExecutionError(call.name.s, m))
  {
  }

  /**
    Exchanging one call for another that does not crash changes that call's
    entry and nothing else.
   */
  lemma DispatchIsolation(toolCalls: seq<Value>, k: nat, replacement: Value, env: Env)
    requires k < |toolCalls| && Dispatch(toolCalls, env).Ok? && Step(replacement, env).Ok?
    ensures Dispatch(toolCalls[k := replacement], env).Ok?
    ensures Dispatch(toolCalls[k := replacement], env).value ==
      Dispatch(toolCalls, env).value[k := Step(replacement, env).value]
  {
    var swapped := toolCalls[k := replacement];
    assert forall j :: 0 <= j < |swapped| ==> Step(swapped[j], env).Ok?;
  }

  // ---------------------------------------------------------------------
  // Resolution and the whole run
  // ---------------------------------------------------------------------

  /** Which calls the reply asks for, or the text to answer with. */
  datatype Resolution = Calls(toolCalls: seq<Value>) | NoCalls(text: string) | Aborted(reason: Crash)

  /** `response_message.get("content", "")`, which must be a string to reach `re.search`. */
  function SearchableContent(content: Option<Value>): Result<string, Crash> {
    match content
    case None => Ok("")
    case Some(Str(s)) => Ok(s)
    case Some(_) => Err(ContentNotText)
  }

  /**
    The precedence: native `tool_calls` when non-empty; otherwise the
    fenced block of the content, rewrapped, when it yields a non-empty list;
    otherwise the content itself, or the fixed fallback text when there is
    none.
   */
  function Resolve(m: Message, decode: string -> Option<Value>): (r: Resolution)
    ensures m.toolCalls.Some? && |m.toolCalls.value| > 0 ==> r == Calls(m.toolCalls.value)
    ensures r.Aborted? <==> (m.toolCalls.None? || |m.toolCalls.value| == 0) && SearchableContent(m.content).Err?
    ensures r.Aborted? ==> r.reason == ContentNotText
    ensures r.NoCalls? ==> r.text == (if m.content.Some? then m.content.value.s else NoAnswer)
  {
    if m.toolCalls.Some? && |m.toolCalls.value| > 0 then Calls(m.toolCalls.value)
    else match SearchableContent(m.content)
      case Err(c) => Aborted(c)
      case Ok(text) =>
        match ParseToolCallsFromContent(text, decode)
        case Some(parsed) =>
          if |parsed| > 0 then Calls(Rewrap(parsed))
          else NoCalls(if m.content.Some? then text else NoAnswer)
        case None => NoCalls(if m.content.Some? then text else NoAnswer)
  }

  /** The text of each entry, in order. */
  function Lines(entries: seq<Entry>): (r: seq<string>)
    ensures |r| == |entries| && forall k :: 0 <= k < |entries| ==> r[k] == EntryText(entries[k])
  {
    seq(|entries|, k requires 0 <= k < |entries| => EntryText(entries[k]))
  }

  /** The answer of a batch: the entries joined by newlines, or the exception that ended it. */
  function Finish(results: Result<seq<Entry>, Crash>): (r: Outcome)
    ensures r.Crashed? <==> results.Err?
    ensures r.Crashed? ==> r.reason == results.error
    ensures results.Ok? && |results.value| == 0 ==> r == Answer("")
    ensures results.Ok? && |results.value| == 1 ==> r == Answer(EntryText(results.value[0]))
  {
    match results
    case Ok(entries) => Answer(Join(Lines(entries), "\n"))
    case Err(c) => Crashed(c)
  }

  /** Native `tool_calls` that are present and non-empty. */
  predicate HasNativeCalls(m: Message) {
    m.toolCalls.Some? && |m.toolCalls.value| > 0
  }

  /**
    `run_agent` after the completion request: no choice gets the apology
    and runs nothing; native calls are run as they are; without them a
    content that is present but not a string is the only way to reach the
    `re.search` crash.  The fallback and plain-text answers are stated by
    `FallbackCalls` and `TextAnswerWithoutCalls`.
   */
  function RunAgent(reply: Reply, env: Env): (r: Outcome)
    ensures reply.NoChoices? ==> r == Answer(Apology)
    ensures reply.FirstChoice? && HasNativeCalls(reply.message) ==>
      r == Finish(Dispatch(reply.message.toolCalls.value, env))
    ensures r == Crashed(ContentNotText) <==>
      && reply.FirstChoice? && !HasNativeCalls(reply.message)
      && reply.message.content.Some? && !reply.message.content.value.Str?
  {
    match reply
    case NoChoices => Answer(Apology)
    case FirstChoice(m) =>
      match Resolve(m, env.decode)
      case Calls(toolCalls) => Finish(Dispatch(toolCalls, env))
      case NoCalls(text) => Answer(text)
      case Aborted(c) => Crashed(c)
  }

  /** Native calls win: when the reply carries any, its content is never looked at. */
  lemma NativeCallsTakePrecedence(calls: seq<Value>, c1: Option<Value>, c2: Option<Value>, env: Env)
    requires |calls| > 0
    ensures RunAgent(FirstChoice(Message(Some(calls), c1)), env) == RunAgent(FirstChoice(Message(Some(calls), c2)), env)
    ensures RunAgent(FirstChoice(Message(Some(calls), c1)), env) == Finish(Dispatch(calls, env))
  {
  }

  /**
    Without native calls, a string content's fenced block decides: a
    non-empty parsed list becomes the calls, each parsed object re-wrapped
    in the native shape, and anything else leaves the content as the answer.
   */
  lemma FallbackCalls(m: Message, env: Env)
    requires m.toolCalls.None? || |m.toolCalls.value| == 0
    requires m.content.Some? && m.content.value.Str?
    ensures var parsed := ParseToolCallsFromContent(m.content.value.s, env.decode);
      parsed.Some? && |parsed.value| > 0 ==> Resolve(m, env.decode) == Calls(Rewrap(parsed.value))
    ensures var parsed := ParseToolCallsFromContent(m.content.value.s, env.decode);
      !(parsed.Some? && |parsed.value| > 0) ==> Resolve(m, env.decode) == NoCalls(m.content.value.s)
  {
    assert SearchableContent(m.content) == Ok(m.content.value.s);
  }

  /**
    The whole run on the fallback path: the outcome is that of running the
    re-wrapped calls of the fenced block, or the content itself when the
    block yields no calls.
   */
  lemma FallbackOutcome(m: Message, env: Env)
    requires m.toolCalls.None? || |m.toolCalls.value| == 0
    requires m.content.Some? && m.content.value.Str?
    ensures var parsed := ParseToolCallsFromContent(m.content.value.s, env.decode);
      parsed.Some? && |parsed.value| > 0 ==>
        RunAgent(FirstChoice(m), env) ==
          Finish(Dispatch(Rewrap(parsed.value), env))
    ensures var parsed := ParseToolCallsFromContent(m.content.value.s, env.decode);
      !(parsed.Some? && |parsed.value| > 0) ==> RunAgent(FirstChoice(m), env) == Answer(m.content.value.s)
  {
    FallbackCalls(m, env);
  }

  /** Without calls from either source the content is the answer, or the fixed text when there is none. */
  lemma TextAnswerWithoutCalls(m: Message, env: Env)
    requires m.toolCalls.None? || |m.toolCalls.value| == 0
    requires m.content.None? || m.content.value.Str?
    requires var text := if m.content.Some? then m.content.value.s else "";
      ParseToolCallsFromContent(text, env.decode).None? || |ParseToolCallsFromContent(text, env.decode).value| == 0
    ensures m.content.Some? ==> RunAgent(FirstChoice(m), env) == Answer(m.content.value.s)
    ensures m.content.None? ==> RunAgent(FirstChoice(m), env) == Answer(NoAnswer)
  {
  }

  /** A null content with no native calls reaches `re.search` and raises. */
  lemma NullContentCrashes(toolCalls: Option<seq<Value>>, env: Env)
    requires toolCalls.None? || |toolCalls.value| == 0
    ensures RunAgent(FirstChoice(Message(toolCalls, Some(Null))), env) == Crashed(ContentNotText)
  {
  }

  /**
    A tool call that cannot be read (not an object, no object `function`, or
    a `function` lacking `name` or `arguments`) raises, whatever the calls
    after it, once the calls before it have run without raising.
   */
  lemma MissingKeyCrashes(before: seq<Value>, call: Value, after: seq<Value>, env: Env)
    requires ReadCall(call).None?
    requires forall k :: 0 <= k < |before| ==> Step(before[k], env).Ok?
    ensures Dispatch(before + [call] + after, env) == Err(MalformedToolCall)
  {
    var calls := before + [call] + after;
    assert calls[|before|] == call;
    assert forall k :: 0 <= k < |before| ==> calls[k] == before[k];
  }

  // ---------------------------------------------------------------------
  // Agreement with the tool declarations and the device table
  // ---------------------------------------------------------------------

  /** The capability each advertised tool is bound to, in the order of the tool list. */
  const Bindings: seq<Capability> :=
    [TurnOnDevice, TurnOffDevice, GetCurrentWeather, GetCurrentTime, GetCurrentDate, GetNewsHeadlines]

  /** The names the function table is keyed by, in the order of the tool list. */
  const BoundNames: seq<string> := ["call_turn_on_device", "call_turn_off_device", "call_get_current_weather", "call_get_current_time", "call_get_current_date", "call_get_news_headlines"]

  // The table's keys, spelled out, are the prefixed function names.
  lemma TurnOnSpelling() ensures "call_" + "turn_on_device" == "call_turn_on_device" { }
  lemma TurnOffSpelling() ensures "call_" + "turn_off_device" == "call_turn_off_device" { }
  lemma WeatherSpelling() ensures "call_" + "get_current_weather" == "call_get_current_weather" { }
  lemma TimeSpelling() ensures "call_" + "get_current_time" == "call_get_current_time" { }
  lemma DateSpelling() ensures "call_" + "get_current_date" == "call_get_current_date" { }
  lemma NewsSpelling() ensures "call_" + "get_news_headlines" == "call_get_news_headlines" { }

  lemma BoundNamesArePrefixed(k: nat)
    requires k < 6
    ensures BoundNames[k] == "call_" + Tools.ToolSpecs[k].functionName
  {
    if k == 0 {
      TurnOnSpelling();
    } else if k == 1 {
      TurnOffSpelling();
    } else if k == 2 {
      WeatherSpelling();
    } else if k == 3 {
      TimeSpelling();
    } else if k == 4 {
      DateSpelling();
    } else {
      NewsSpelling();
    }
  }

  lemma BoundNamesAreTheTable()
    ensures forall k :: 0 <= k < 6 ==> BoundNames[k] in AvailableFunctions && AvailableFunctions[BoundNames[k]] == Bindings[k]
    ensures forall n :: n in AvailableFunctions ==> exists k :: 0 <= k < 6 && BoundNames[k] == n
  {
    assert forall n :: n in AvailableFunctions ==> n in BoundNames;
  }

  /**
    The advertised tool names are exactly the keys of the function table,
    and each is bound to the function of the same name.
   */
  lemma AdvertisedToolsAreAvailable(schemaOf: Tools.ArgsModel -> Tools.ModelSchema)
    ensures var tools := Tools.GetToolsSchema(schemaOf);
      && (forall k :: 0 <= k < |tools| ==>
            Tools.ToolName(tools[k]).Some? && Tools.ToolName(tools[k]).value in AvailableFunctions &&
            AvailableFunctions[Tools.ToolName(tools[k]).value] == Bindings[k])
      && (forall n :: n in AvailableFunctions ==> exists k :: 0 <= k < |tools| && Tools.ToolName(tools[k]) == Some(n))
  {
    var tools := Tools.GetToolsSchema(schemaOf);
    forall k | 0 <= k < 6 ensures Tools.ToolName(tools[k]) == Some(BoundNames[k]) {
      BoundNamesArePrefixed(k);
    }
    BoundNamesAreTheTable();
  }

  /** The device ids the tool schema allows are exactly the devices of the table, each listed once. */
  lemma DeviceIdsMatchDeviceMap()
    ensures forall id :: id in Tools.DeviceIds <==> id in Device.DeviceMap
    ensures forall i, j :: 0 <= i < j < |Tools.DeviceIds| ==> Tools.DeviceIds[i] != Tools.DeviceIds[j]
  {
    assert forall id :: id in Device.DeviceMap ==> id in Tools.DeviceIds;
  }
}
