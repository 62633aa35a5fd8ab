# Smart-home assistant core, modelled in Dafny

This project models the deterministic core of a smart-home voice/text
assistant. A user query goes to a language model together with six tool
declarations. The agent reads the model's reply and picks the tool calls to
run: native `tool_calls` first, then a ```` ```json ```` block in the reply
text. It dispatches each call to a Python capability and joins the results
into one answer. Device capabilities become Modbus RTU "Write Single
Register" frames, protected by the Modbus CRC-16. The HTTP layer shapes
results into typed response objects.

Modules, one per concern:

- `Wrappers`: `Option` and `Result`.
- `Json`: JSON values, with objects as ordered member lists. A lookup returns
  the last binding, as a dictionary built by `json.loads` does. This module
  also holds Python truthiness and `str()`/f-string rendering.
- `Text`: substring search, Python's `str.isspace` set, and `"\n".join`.
- `Fence`: the regular expression ```` ```json\s*(.*?)\s*``` ```` with
  DOTALL, as a leftmost, lazy match.
- `Modbus`: `calculate_crc` and `generate_write_command` (modbus_utils.py).
- `Device`: `DEVICE_MAP` and the on/off operations (device_controller.py).
- `Tools`: the argument models and the tool declarations
  (tools_definition.py).
- `Agent`: `parse_tool_calls_from_content`, the precedence and the dispatch
  loop of `run_agent`, and `AVAILABLE_FUNCTIONS` (agent.py).
- `Api`: `_format_response` and `handle_agent_query` (main_api.py).

What the code cannot see is passed in as a function parameter (an oracle):

- `decode` stands for `json.loads`.
- `invoke` stands for calling a capability with `**arguments`. It either
  returns a value or raises with a message. The oracle is not constrained
  on arguments that are not a dictionary, where Python's `**` always raises
  `TypeError` (caught and reported as an execution error); no stated
  property depends on that case.
- `show` stands for `str()` of a non-string value.
- `send` stands for `send_modbus_command`.
- `schemaOf` stands for pydantic's `model_json_schema()`.

The completion reply is an input datatype: either no usable choice, or the
first choice's message with optional `tool_calls` and optional `content`.

For replies the `Reply` datatype can express, the three exceptions
`run_agent` does not catch are outcomes (`Agent.Crash`), not preconditions:

- A `None` content reaches `re.search`.
- A tool call lacks `function`, `name` or `arguments`.
- A list or dict name is looked up in the function table.

Bytes are `int`s in `0..255`, and the CRC register is an unbounded `int`
kept below 2^16 by invariant. This matches Python's integers.

The agent has no intent router, no second summarising request and no
scan for bare JSON objects: the two sources of tool calls are the native
`tool_calls` and the first fenced block.

## Model

| member | source | states |
|---|---|---|
| Json.GetFindsLastBinding | agent.py:33 | a key is found iff some member has it, and the value found is that of the last such member (duplicate keys in `json.loads`) |
| Json.Display | agent.py:128 | a string renders as itself; `None`, `True` and `False` render as Python spells them; numbers, lists and dictionaries go to the interpreter's printer `show` |
| Text.JoinConcat | agent.py:134 | joining two non-empty lists equals joining each, with one separator between |
| Fence.Search | agent.py:26 | no match iff no opening fence is followed by a closing fence; otherwise the match is well-formed, uses the first opening fence, stops at the first closing fence after the skipped whitespace, and trims whitespace on both sides of the capture |
| Fence.Body | agent.py:26-30 | `group(1)` is absent exactly when no fenced block exists; otherwise it is the trimmed text of the leftmost match |
| Fence.SearchKeepsFirstMatch | agent.py:26 | cutting the text after the first block's closing fence and appending anything leaves the leftmost match where it was |
| Fence.FirstBlockOnly | agent.py:26 | anything appended after the first block's closing fence leaves the captured text unchanged |
| Agent.ParseToolCallsFromContent | agent.py:21-44 | no block gives `None`; a decoded list is returned unchanged; a decoded object becomes a one-element list; a decode failure or any other value gives `None` |
| Agent.FallbackReadsFirstBlockOnly | agent.py:26-39 | the fallback's result does not depend on anything after the first fenced block |
| Agent.ReadCall | agent.py:108-111 | a tool call yields a name and arguments exactly when it is an object whose `function` is an object with both keys |
| Agent.WrappedCallReadsParsedObject | agent.py:102 | a re-wrapped fallback call is read from the parsed object itself |
| Agent.ExecuteCall | agent.py:108-132 | undecodable string arguments give the invalid-JSON entry before the name is looked up; the capability receives the decoded arguments, or the arguments as they are when not a string; an unhashable name is the only exception raised; an unknown name gives the unknown-function entry naming it as `str()` renders it; a known one renders its result or reports its exception under its name |
| Agent.DecodedArgumentsActAsParsed | agent.py:110-114 | arguments sent as a JSON string give the same entry as their decoded value sent as it is |
| Agent.Step | agent.py:107-132 | one loop pass raises the missing-key crash exactly when the call cannot be read; a readable call's entry is that of executing it |
| Agent.DispatchEntryErrors | agent.py:106-133 | in a batch that runs to the end, each call's entry is its own: undecodable arguments give the invalid-JSON entry, an unknown name the unknown-function entry, a known name its rendered result or the exception it raised |
| Agent.Dispatch | agent.py:104-134 | the loop succeeds iff every pass does; it gives exactly one entry per call, in order, each determined by its own call; otherwise it stops at the first pass that raises |
| Agent.DispatchAppend | agent.py:106-133 | two batches run together give the first batch's entries followed by the second's |
| Agent.AnswerConcat | agent.py:134 | the joined answer for two non-empty entry lists is the two answers separated by one newline |
| Agent.BatchAnswerConcat | agent.py:134 | the answer for two batches run together is the two answers separated by a newline |
| Agent.DispatchIsolation | agent.py:112-132 | replacing one call changes that call's entry and no other |
| Agent.Resolve | agent.py:92-102 | non-empty native calls are used as they are; without them a non-string content raises; text answers are the content, or the fixed fallback text when content is absent |
| Agent.Finish | agent.py:134 | a batch that raised is a crash with that exception; an empty batch answers ""; a single entry answers its own text |
| Agent.RunAgent | agent.py:89-137 | no choices gives the apology and runs nothing; non-empty native calls are the ones run, and the answer is their joined entries; the content-not-text crash happens exactly when there are no native calls and the content is present but not a string |
| Agent.NativeCallsTakePrecedence | agent.py:93-104 | with non-empty native calls, the content never influences the outcome |
| Agent.FallbackCalls | agent.py:96-102 | without native calls and with text content, a non-empty parsed list becomes the calls, each parsed object re-wrapped as `{"type": "function", "function": call}`; any other parse leaves the content as the text answer |
| Agent.FallbackOutcome | agent.py:96-137 | on the fallback path the outcome is that of running the re-wrapped fenced-block calls, or the content itself when the block yields none |
| Agent.TextAnswerWithoutCalls | agent.py:135-137 | with no calls from either source, the answer is the content, or "I couldn't process that request." when there is none |
| Agent.NullContentCrashes | agent.py:96-99 | a null content without native calls raises at the regular-expression search |
| Agent.MissingKeyCrashes | agent.py:107-111 | any call that cannot be read (not an object, no object `function`, or no `name` or `arguments` in it) raises, whatever the calls after it, once every call before it has run without raising |
| Agent.BoundNamesArePrefixed | tools_definition.py:56 | each table key is `call_` followed by the function name of the matching tool entry |
| Agent.BoundNamesAreTheTable | agent.py:11-18 | the six names are exactly the table's keys, each bound to the function of the same name |
| Agent.AdvertisedToolsAreAvailable | tools_definition.py:79-116 | the advertised tool names are exactly the keys of `AVAILABLE_FUNCTIONS`, and each is bound to its own function |
| Agent.DeviceIdsMatchDeviceMap | tools_definition.py:13-15 | the allowed `device_id` values are exactly the keys of `DEVICE_MAP`, each listed once |
| Modbus.Crc | modbus_utils.py:17-26 | the register stays within 16 bits over the whole fold |
| Modbus.CalculateCrc | modbus_utils.py:17-27 | the loop returns exactly two bytes: the reference CRC, low byte first |
| Modbus.CrcBytes | modbus_utils.py:27 | the two bytes read back as the register, low byte first |
| Modbus.CrcOfEmpty | modbus_utils.py:18 | the CRC of no bytes is 0xFFFF, i.e. bytes FF FF |
| Modbus.CrcResidueZero | modbus_utils.py:17-27 | any message followed by its own CRC has CRC zero (the check a receiver performs) |
| Modbus.ShiftOnceDouble | modbus_utils.py:21-26 | one CRC step on an even register below 2^16 is a plain halving, with no polynomial applied |
| Modbus.AbsorbOwnLowByte | modbus_utils.py:19-26 | absorbing a register's own low byte leaves its high byte |
| Modbus.AbsorbSelf | modbus_utils.py:19-26 | absorbing a byte into a register equal to it leaves zero |
| Modbus.ShiftMultiple | modbus_utils.py:21-26 | shifting a multiple of 2^k right by j <= k steps divides it by 2^j, with no polynomial applied |
| Modbus.GenerateWriteCommand | modbus_utils.py:29-49 | a frame exists iff slave id fits a byte and register and value fit 16 bits; it is 8 bytes: slave, 0x06, register and value big-endian with no subtract-one, then the CRC of the first six |
| Modbus.AppendCrc | modbus_utils.py:46-47 | the payload is kept, its CRC follows low byte first, and the whole has a zero CRC residue, so a receiver accepts it |
| Modbus.ParseWriteCommand | modbus_utils.py:29-49 | an accepted frame has eight bytes, function code 0x06 and a zero CRC residue |
| Modbus.WriteCommandRoundTrip | modbus_utils.py:29-49 | the receiver reads back the slave, register and value a generated frame was built from |
| Modbus.BigEndianOfWord | modbus_utils.py:41-44 | a 16-bit word splits back into the high and low byte it was built from |
| Modbus.ParsedFrameIsGenerated | modbus_utils.py:29-49 | every accepted frame is the generated frame for what it decodes to |
| Device.DeviceMapAddressing | device_controller.py:9-20 | lamps are at slave 0x36 on registers 1 to 4, the others at 0x37 on registers 1 to 3, and no two devices share a slave and register |
| Device.DeviceMapWritable | device_controller.py:9-20 | every entry has a one-byte slave id and a 16-bit register |
| Device.ControlDevice | device_controller.py:49-61 | an unknown id is reported with no frame; a known one sends the frame for its own table entry; the result is success with the device's name and the action iff the send succeeds, and otherwise an error naming the device |
| Device.TurnOnDevice | device_controller.py:63-64 | a frame is sent iff the id is known; it writes 0x02; success reports "turned on" |
| Device.TurnOffDevice | device_controller.py:66-67 | a frame is sent iff the id is known; it writes 0x01; success reports "turned off" |
| Device.FramesIdentifyDevice | device_controller.py:53-54 | two different devices are never sent the same frame for the same value, whatever the actions |
| Device.OnOffFramesDiffer | device_controller.py:6-7 | turning a device on and turning it off never send the same frame |
| Device.ToJson | device_controller.py:51-61 | `success` is truthy iff the device was controlled; the name, action or error sits under its key |
| Tools.RequiredNames | tools_definition.py:11-42 | a field is required iff it has no default |
| Tools.Defaults | tools_definition.py:19-37 | the defaults are `unit="metric"`, `category="general"` and `country="us"`, each within its own domain; the required names are `device_id`, `city`, none and none |
| Tools.Parameters | tools_definition.py:58-63 | `type` is "object"; `properties` is the model's properties, possibly empty; `required` appears iff both the properties and the required list are non-empty |
| Tools.PydanticToJsonSchema | tools_definition.py:49-72 | a "function" tool named `call_` + the name, with the description and the parameters above |
| Tools.PrefixedNamesDistinct | tools_definition.py:56 | the `call_` prefix keeps distinct names distinct |
| Tools.GetToolsSchema | tools_definition.py:79-116 | six tools, in source order, with distinct `call_` names |
| Tools.AdvertisedRequired | tools_definition.py:60-63 | with faithful schemas, only the two device tools and the weather tool declare `required` |
| Api.Classify | main_api.py:28-63 | the type is the first of weather, time, date, news, device contained in the name, looked for in that order, and "general" exactly when the name contains none of them |
| Api.FormatResponse | main_api.py:18-63 | a missing or falsy `success` gives an error, whatever the name; otherwise the name's classification decides the type and its message; only device responses drop the data, and every other response carries the result as it came |
| Api.TurnOnToolIsDevice | main_api.py:28-57 | `call_turn_on_device` is classified as device: no earlier substring occurs in it and its own does |
| Api.TurnOffToolIsDevice | main_api.py:28-57 | `call_turn_off_device` is classified as device: no earlier substring occurs in it and its own does |
| Api.WeatherToolIsWeather | main_api.py:28-33 | `call_get_current_weather` is classified as weather: no earlier substring occurs in it and its own does |
| Api.TimeToolIsTime | main_api.py:28-39 | `call_get_current_time` is classified as time: no earlier substring occurs in it and its own does |
| Api.DateToolIsDate | main_api.py:28-45 | `call_get_current_date` is classified as date: no earlier substring occurs in it and its own does |
| Api.NewsToolIsNews | main_api.py:28-51 | `call_get_news_headlines` is classified as news: no earlier substring occurs in it and its own does |
| Api.AdvertisedToolKinds | main_api.py:28-57 | every advertised tool name is classified as its own type, never "general" |
| Api.DeviceResultMessage | main_api.py:21-57 | a device tool's own result reads back as "Alright, the <name> was successfully <action>. ✨" without data; a failure is an error carrying the result |
| Api.ShapeItem | main_api.py:82-84 | a list item is formatted under its first key with that key's dictionary; anything else raises |
| Api.ShapeItems | main_api.py:79-87 | one response object per item, in order; the list fails iff some item does |
| Api.HandleAgentQuery | main_api.py:66-93 | an empty input is rejected before the agent runs; a list result is shaped item by item; a text result becomes one "general" object with no data |
| Api.AgentAnswersAreGeneral | main_api.py:79-93 | the agent always answers with text, so every non-empty query gets one "general" object holding the agent's answer, or an internal error |

## Left out

- `llm_client.py` is not part of this model: it holds the HTTPS calls to the completion services and the API-key loading. The reply is an input.
- `data_connectors.py` is not part of this model: it holds the weather and news HTTP lookups and the wall clock. They are capabilities behind `invoke`.
- `send_modbus_command` (modbus_utils.py:51-76) opens a serial port and sleeps. It is the boolean oracle `send`.
- The FastAPI application, CORS middleware and server start-up (main_api.py:1-15, main_api.py:96-98) are HTTP plumbing. The 400 error is the `BadRequest` outcome and no more.
- The internals of `json.loads`, of pydantic's `model_json_schema` and of Python's `str()` for numbers, lists and dictionaries are oracles. JSON numbers are `real`, so NaN and infinities are not represented.
- The prompt text, `print` and logging have no effect on results and are not modelled.
- Frames are sequences of `int` bytes in `0..255`, not `bv8`. The CRC is specified by integer arithmetic with an explicit 16-bit bound.
- Device.ControlDevice: requires the value to fit 16 bits. The source only passes 0x01 and 0x02; a wider value would make `generate_write_command` raise.
- Device.TurnOnDevice: states the sent value and action, and leaves the addressing to `Device.ControlDevice`, which it calls.
- Device.TurnOffDevice: states the sent value and action, and leaves the addressing to `Device.ControlDevice`, which it calls.
- Json.Display: renders numbers, lists and dictionaries through the `show` oracle, so their text is not stated.
- Reply shapes outside the `Reply` datatype are not represented, nor the exceptions they raise: a first choice without `message` (`KeyError`, agent.py:92), a message that is not a dictionary (`AttributeError`, agent.py:93), and a truthy `tool_calls` that is not a list (agent.py:105-108).
- JSON integers and floats are both `Num(real)`: `json.loads` keeps `10` and `10.0` apart and `str()` prints them differently, but the model cannot, so `show` must render them alike.
- `invoke` is one pure function for the whole run: two equal calls in a batch get equal results, and the clock, the network and the serial port do not change between calls. Per-call isolation (`Agent.Dispatch`, `Agent.DispatchIsolation`) is stated under that assumption; in the program a later call can read a later clock or a changed device.
- `AVAILABLE_FUNCTIONS.get` with a name that is a number, boolean or null finds nothing, as with any unknown name. The model does not represent Python's equality of `True` with `1`, which cannot matter for string keys.
