/**
 * The middle tier's message rewriter, `RTMiddleTier._process_message`: every
 * text frame crossing the relay, in either direction, is parsed and may be
 * rewritten, suppressed, or answered. The state it keeps is the registry of
 * tools and the pending tool calls keyed by message id.
 *
 * The parsed frame is an input (None when `json.loads` raises), and so are
 * the three things the code calls into: `json.loads` of a tool call's
 * accumulated arguments (`parseArgs`), the tools' async targets (`run`), and
 * `json.dumps` of a non-string result (`dumps`). The outcome says what is
 * forwarded: the original text, a re-serialised message, or nothing.
 */
module Rtmt {
  import opened Wrappers
  import opened Json
  import OrderedDict

  datatype ToolResultDirection = ToServer | ToClient

  /**
   * What the retrieval tools' targets return: a value and the side it is
   * meant for. The tools import this class and its direction from the middle
   * tier, which does not define them; here they are a plain class with no
   * JSON encoder.
   */
  datatype ToolResult = ToolResult(value: Json, destination: ToolResultDirection)

  /** A registered tool: the identifier of its async target and its JSON schema. */
  datatype Tool = Tool(target: string, schema: Json)

  /** A pending tool call; its fields hold whatever the parsed message carried. */
  datatype RTToolCall = RTToolCall(messageId: Json, conversation: Json, toolCallId: Json, name: Json, arguments: Json)

  /** What a tool target resolves to: a JSON value, or a `ToolResult` object. */
  datatype TargetResult = JsonValue(v: Json) | ToolResultObject(r: ToolResult)

  /** The server-enforced settings (`None` leaves the client's value). */
  datatype Overrides = Overrides(systemMessage: Option<string>, temperature: Option<real>, maxTokens: Option<int>, disableAudio: Option<bool>)

  /** What `_process_message` returns: the frame as received, a re-serialised message, or `None`. */
  datatype Outcome = Unchanged | Reserialized(message: Json) | Suppressed

  type Tools = OrderedDict.Dict<string, Tool>
  type Calls = OrderedDict.Dict<Json, RTToolCall>

  /** The result of one call: the outcome, the pending calls after it, and what it sent to the server. */
  datatype Effect = Effect(outcome: Result<Outcome, PyError>, calls: Calls, sent: seq<Json>)

  // ---- Python dictionary access on the two registries ----

  /** `self._tool_calls.get(k)`: unhashable keys raise TypeError. */
  function CallsGet(calls: Calls, k: Json): (r: Result<Option<RTToolCall>, PyError>)
    ensures r.Failure? <==> !Hashable(k)
  {
    if Hashable(k) then Success(OrderedDict.Get(calls, k)) else Failure(PyError.TypeError)
  }

  /** `self._tool_calls[k]`: as `get`, and KeyError when absent. */
  function CallsIndex(calls: Calls, k: Json): (r: Result<RTToolCall, PyError>)
    ensures r.Success? <==> Hashable(k) && OrderedDict.Get(calls, k).Some?
    ensures r.Success? ==> OrderedDict.Get(calls, k) == Some(r.value)
    ensures Hashable(k) && OrderedDict.Get(calls, k).None? ==> r == Failure(KeyError)
  {
    match CallsGet(calls, k)
    case Failure(e) => Failure(e)
    case Success(None) => Failure(KeyError)
    case Success(Some(c)) => Success(c)
  }

  /** `self.tools[name]`: the keys are strings, so any other hashable name is a KeyError. */
  function ToolsIndex(tools: Tools, name: Json): (r: Result<Tool, PyError>)
    ensures r.Success? <==> name.JStr? && OrderedDict.Get(tools, name.s).Some?
    ensures r.Success? ==> OrderedDict.Get(tools, name.s) == Some(r.value)
  {
    if !Hashable(name) then Failure(PyError.TypeError)
    else if name.JStr? && OrderedDict.Get(tools, name.s).Some? then Success(OrderedDict.Get(tools, name.s).value)
    else Failure(KeyError)
  }

  predicate IsNumber(v: Json)
  {
    v.JNum? || v.JBool?
  }

  function NumberValue(v: Json): real
    requires IsNumber(v)
  {
    if v.JNum? then v.n else if v.b then 1.0 else 0.0
  }

  /**
   * Python `a += b` on parsed values: strings concatenate, a list is
   * extended by any iterable, numbers (booleans count as 0 and 1) add;
   * anything else raises TypeError.
   */
  function PyAdd(a: Json, b: Json): (r: Result<Json, PyError>)
    ensures a.JStr? && b.JStr? ==> r == Success(JStr(a.s + b.s))
    ensures a.JStr? && !b.JStr? ==> r == Failure(PyError.TypeError)
  {
    if a.JStr? && b.JStr? then Success(JStr(a.s + b.s))
    else if a.JArr? && PyIter(b).Success? then Success(JArr(a.items + PyIter(b).value))
    else if IsNumber(a) && IsNumber(b) then Success(JNum(NumberValue(a) + NumberValue(b)))
    else Failure(PyError.TypeError)
  }

  // ---- update_conversation_config, client to server ----

  function Schemas(tools: Tools): (r: seq<Json>)
    ensures |r| == |tools| && forall i :: 0 <= i < |tools| ==> r[i] == tools[i].1.schema
  {
    seq(|tools|, i requires 0 <= i < |tools| => tools[i].1.schema)
  }

  /** `fields[k] = v.value` when the setting is set. */
  function SetIfSome(fields: OrderedDict.Dict<string, Json>, k: string, v: Option<Json>): (r: OrderedDict.Dict<string, Json>)
    ensures OrderedDict.Get(r, k) == if v.Some? then v else OrderedDict.Get(fields, k)
    ensures forall k' :: k' != k ==> OrderedDict.Get(r, k') == OrderedDict.Get(fields, k')
  {
    if v.Some? then PySet(fields, k, v.value) else fields
  }

  /** The four server settings, each written over the client's value only when set. */
  function ApplySettings(fields: OrderedDict.Dict<string, Json>, o: Overrides): (r: OrderedDict.Dict<string, Json>)
    ensures forall k :: OrderedDict.Get(fields, k).Some? ==> OrderedDict.Get(r, k).Some?
  {
    var f1 := SetIfSome(fields, "system_message", if o.systemMessage.Some? then Some(JStr(o.systemMessage.value)) else None);
    var f2 := SetIfSome(f1, "temperature", if o.temperature.Some? then Some(JNum(o.temperature.value)) else None);
    var f3 := SetIfSome(f2, "max_tokens", if o.maxTokens.Some? then Some(JNum(o.maxTokens.value as real)) else None);
    SetIfSome(f3, "disable_audio", if o.disableAudio.Some? then Some(JBool(o.disableAudio.value)) else None)
  }

  lemma {:induction false} SystemMessageApplied(fields: OrderedDict.Dict<string, Json>, o: Overrides)
    ensures OrderedDict.Get(ApplySettings(fields, o), "system_message") ==
      if o.systemMessage.Some? then Some(JStr(o.systemMessage.value)) else OrderedDict.Get(fields, "system_message")
  {
    assert |"system_message"| == 14 && |"temperature"| == 11 && |"max_tokens"| == 10 && |"disable_audio"| == 13;
  }

  lemma {:induction false} TemperatureApplied(fields: OrderedDict.Dict<string, Json>, o: Overrides)
    ensures OrderedDict.Get(ApplySettings(fields, o), "temperature") ==
      if o.temperature.Some? then Some(JNum(o.temperature.value)) else OrderedDict.Get(fields, "temperature")
  {
    assert |"temperature"| == 11 && |"max_tokens"| == 10 && |"disable_audio"| == 13;
  }

  lemma {:induction false} MaxTokensApplied(fields: OrderedDict.Dict<string, Json>, o: Overrides)
    ensures OrderedDict.Get(ApplySettings(fields, o), "max_tokens") ==
      if o.maxTokens.Some? then Some(JNum(o.maxTokens.value as real)) else OrderedDict.Get(fields, "max_tokens")
  {
    assert |"max_tokens"| == 10 && |"disable_audio"| == 13;
  }

  lemma {:induction false} DisableAudioApplied(fields: OrderedDict.Dict<string, Json>, o: Overrides)
    ensures OrderedDict.Get(ApplySettings(fields, o), "disable_audio") ==
      if o.disableAudio.Some? then Some(JBool(o.disableAudio.value)) else OrderedDict.Get(fields, "disable_audio")
  {
  }

  /** Members other than the four settings are left as the client sent them. */
  lemma {:induction false} OtherSettingsKept(fields: OrderedDict.Dict<string, Json>, o: Overrides, k: string)
    requires k != "system_message" && k != "temperature" && k != "max_tokens" && k != "disable_audio"
    ensures OrderedDict.Get(ApplySettings(fields, o), k) == OrderedDict.Get(fields, k)
  {
  }

  /** The server's settings written over the client's, then the tool choice and the tool schemas. */
  function ApplyOverrides(fields: OrderedDict.Dict<string, Json>, o: Overrides, tools: Tools): (r: OrderedDict.Dict<string, Json>)
    ensures OrderedDict.Get(r, "tool_choice") == Some(JStr(if |tools| > 0 then "auto" else "none"))
    ensures OrderedDict.Get(r, "tools") == Some(JArr(Schemas(tools)))
    ensures forall k :: k != "tool_choice" && k != "tools" ==> OrderedDict.Get(r, k) == OrderedDict.Get(ApplySettings(fields, o), k)
  {
    var f5 := PySet(ApplySettings(fields, o), "tool_choice", JStr(if |tools| > 0 then "auto" else "none"));
    assert |"tool_choice"| == 11 && |"tools"| == 5;
    PySet(f5, "tools", JArr(Schemas(tools)))
  }

  // ---- add_message, server to client ----

  /** `submsg["type"] == "tool_call"`, for an item whose `type` reads. */
  predicate IsToolCall(submsg: Json)
  {
    PyIndex(submsg, "type") == Success(JStr("tool_call"))
  }

  /** `message["message"]["id"]`. */
  function MessageIdOf(message: Json): Result<Json, PyError>
  {
    match PyIndex(message, "message")
    case Failure(e) => Failure(e)
    case Success(m) => PyIndex(m, "id")
  }

  /** The five reads that fill an `RTToolCall`, in the order the code makes them. */
  function ReadToolCall(message: Json, submsg: Json): (r: Result<RTToolCall, PyError>)
    ensures r.Success? ==> MessageIdOf(message) == Success(r.value.messageId)
    ensures r.Success? ==> PyIndex(message, "conversation_label") == Success(r.value.conversation)
    ensures r.Success? ==> PyIndex(submsg, "name") == Success(r.value.name)
    ensures r.Success? ==> PyIndex(submsg, "tool_call_id") == Success(r.value.toolCallId)
    ensures r.Success? ==> PyIndex(submsg, "arguments") == Success(r.value.arguments)
  {
    match MessageIdOf(message)
    case Failure(e) => Failure(e)
    case Success(id) =>
      match PyIndex(message, "conversation_label")
      case Failure(e) => Failure(e)
      case Success(conversation) =>
        match PyIndex(submsg, "name")
        case Failure(e) => Failure(e)
        case Success(name) =>
          match PyIndex(submsg, "tool_call_id")
          case Failure(e) => Failure(e)
          case Success(toolCallId) =>
            match PyIndex(submsg, "arguments")
            case Failure(e) => Failure(e)
            case Success(arguments) => Success(RTToolCall(id, conversation, toolCallId, name, arguments))
  }

  /** How the loop reads a tool-call item; the model's loop always uses `CallReader`. */
  type Reader = Json -> Result<RTToolCall, PyError>

  /** The reads of the loop body for the message being handled. */
  function CallReader(message: Json): Reader
  {
    submsg => ReadToolCall(message, submsg)
  }

  /** Every call a reader produces carries the same message id. */
  ghost predicate SharesId(read: Reader)
  {
    forall x, y :: read(x).Success? && read(y).Success? ==> read(x).value.messageId == read(y).value.messageId
  }

  lemma {:induction false} CallReaderSharesId(message: Json)
    ensures SharesId(CallReader(message))
  {
    forall x, y | CallReader(message)(x).Success? && CallReader(message)(y).Success?
      ensures CallReader(message)(x).value.messageId == CallReader(message)(y).value.messageId
    {
      assert CallReader(message)(x) == ReadToolCall(message, x);
      assert CallReader(message)(y) == ReadToolCall(message, y);
    }
  }

  /** The state of the `enumerate` loop: pending calls, indexes to remove, and the exception, if one was raised. */
  datatype Scan = Scan(calls: Calls, removed: seq<nat>, error: Option<PyError>)

  /** One iteration, for item `submsg` at index `i`. */
  function ScanStep(s: Scan, read: Reader, submsg: Json, i: nat): (r: Scan)
  {
    match PyIndex(submsg, "type")
    case Failure(e) => s.(error := Some(e))
    case Success(t) =>
      if t != JStr("tool_call") then s
      else
        match read(submsg)
        case Failure(e) => Scan(s.calls, s.removed + [i], Some(e))
        case Success(c) =>
          if !Hashable(c.messageId) then Scan(s.calls, s.removed + [i], Some(PyError.TypeError))
          else Scan(OrderedDict.Put(s.calls, c.messageId, c), s.removed + [i], None)
  }

  /** The loop over `items`, stopping at the first exception. */
  function ScanItems(calls: Calls, read: Reader, items: seq<Json>): (s: Scan)
    ensures |s.removed| <= |items|
    ensures forall j :: 0 <= j < |s.removed| ==> s.removed[j] < |items|
    decreases |items|
  {
    if items == [] then Scan(calls, [], None)
    else
      var s := ScanItems(calls, read, items[..|items| - 1]);
      if s.error.Some? then s else ScanStep(s, read, items[|items| - 1], |items| - 1)
  }

  /** The items that are not tool calls, in their order. */
  function NonToolItems(items: seq<Json>): (r: seq<Json>)
    ensures |r| <= |items|
    ensures forall i :: 0 <= i < |r| ==> !IsToolCall(r[i])
  {
    if items == [] then []
    else (if IsToolCall(items[0]) then [] else [items[0]]) + NonToolItems(items[1..])
  }

  /** The last tool-call item, if any. */
  function LastToolCall(items: seq<Json>): Option<Json>
    decreases |items|
  {
    if items == [] then None
    else if IsToolCall(items[|items| - 1]) then Some(items[|items| - 1])
    else LastToolCall(items[..|items| - 1])
  }

  /** `message["message"]["content"] = content`, in place, on a message whose nested reads succeed. */
  function WithContent(message: Json, content: seq<Json>): (r: Json)
    requires PyIndex(message, "message").Success? && PyIndex(PyIndex(message, "message").value, "content").Success?
    ensures r.JObj?
    ensures PyIndex(r, "message").Success? && PyIndex(PyIndex(r, "message").value, "content") == Success(JArr(content))
    ensures forall k :: k != "message" ==> OrderedDict.Get(r.fields, k) == OrderedDict.Get(message.fields, k)
  {
    var inner := PyIndex(message, "message").value;
    var inner' := JObj(PySet(inner.fields, "content", JArr(content)));
    JObj(PySet(message.fields, "message", inner'))
  }

  /** `add_message`: never forwarded as received, and nothing is sent to the server. */
  function AddMessage(calls: Calls, message: Json): (e: Effect)
    ensures e.sent == []
    ensures e.outcome.Success? ==> e.outcome.value.Reserialized? || e.outcome.value.Suppressed?
  {
    match PyIndex(message, "message")
    case Failure(e) => Effect(Failure(e), calls, [])
    case Success(inner) =>
      match PyIndex(inner, "content")
      case Failure(e) => Effect(Failure(e), calls, [])
      case Success(content) =>
        match PyIter(content)
        case Failure(e) => Effect(Failure(e), calls, [])
        case Success(items) =>
          var s := ScanItems(calls, CallReader(message), items);
          if s.error.Some? then Effect(Failure(s.error.value), s.calls, [])
          else if |s.removed| < |items| then Effect(Success(Reserialized(WithContent(message, NonToolItems(items)))), s.calls, [])
          else Effect(Success(Suppressed), s.calls, [])
  }

  // ---- add_content, server to client ----

  /**
   * `add_content`: a tool-call fragment is suppressed; only then do the
   * pending calls change, and never which ids are pending. Nothing is sent.
   */
  function AddContent(calls: Calls, message: Json): (e: Effect)
    ensures e.sent == []
    ensures e.outcome != Success(Suppressed) ==> e.calls == calls
    ensures OrderedDict.Keys(e.calls) == OrderedDict.Keys(calls)
  {
    match PyIndex(message, "type")
    case Failure(e) => Effect(Failure(e), calls, [])
    case Success(t) =>
      if t != JStr("tool_call") then Effect(Success(Unchanged), calls, [])
      else
        match PyIndex(message, "message_id")
        case Failure(e) => Effect(Failure(e), calls, [])
        case Success(id) =>
          match CallsIndex(calls, id)
          case Failure(e) => Effect(Failure(e), calls, [])
          case Success(call) =>
            match PyIndex(message, "data")
            case Failure(e) => Effect(Failure(e), calls, [])
            case Success(data) =>
              match PyAdd(call.arguments, data)
              case Failure(e) => Effect(Failure(e), calls, [])
              case Success(arguments) =>
                OrderedDict.KeysPut(calls, id, call.(arguments := arguments));
                Effect(Success(Suppressed), OrderedDict.Put(calls, id, call.(arguments := arguments)), [])
  }

  // ---- message_added, server to client ----

  /** The `text` of the answer: a string result itself, any other JSON value serialised; a `ToolResult` object, having no JSON encoder, is not serialisable. */
  function ResultText(res: TargetResult, dumps: Json -> string): (r: Result<string, PyError>)
    ensures res.ToolResultObject? ==> r == Failure(PyError.TypeError)
    ensures res.JsonValue? && res.v.JStr? ==> r == Success(res.v.s)
  {
    match res
    case JsonValue(JStr(s)) => Success(s)
    case JsonValue(v) => Success(dumps(v))
    case ToolResultObject(_) => Failure(PyError.TypeError)
  }

  /** The `add_message` that answers a tool call, as sent to the server. */
  function ToolResponse(call: RTToolCall, text: string): (r: Json)
    ensures r.JObj? && OrderedDict.Keys(r.fields) == ["event", "conversation_label", "message"]
    ensures OrderedDict.Get(r.fields, "conversation_label") == Some(call.conversation)
  {
    JObj([("event", JStr("add_message")), ("conversation_label", call.conversation),
          ("message", JObj([("role", JStr("tool")), ("tool_call_id", call.toolCallId),
                            ("content", JArr([JObj([("type", JStr("text")), ("text", JStr(text))])]))]))])
  }

  /** `message_added`: answering a call never changes which calls are pending, and sends at most one message. */
  function MessageAdded(tools: Tools, calls: Calls, message: Json, parseArgs: string -> Option<Json>,
                        run: (string, Json) -> Result<TargetResult, PyError>, dumps: Json -> string): (e: Effect)
    ensures e.calls == calls && |e.sent| <= 1
    ensures |e.sent| == 1 <==> e.outcome == Success(Suppressed)
  {
    match PyIndex(message, "id")
    case Failure(e) => Effect(Failure(e), calls, [])
    case Success(id) =>
      match CallsGet(calls, id)
      case Failure(e) => Effect(Failure(e), calls, [])
      case Success(None) => Effect(Success(Unchanged), calls, [])
      case Success(Some(call)) =>
        match ToolsIndex(tools, call.name)
        case Failure(e) => Effect(Failure(e), calls, [])
        case Success(tool) =>
          if !call.arguments.JStr? then Effect(Failure(PyError.TypeError), calls, [])
          else
            match parseArgs(call.arguments.s)
            case None => Effect(Failure(JsonDecodeError), calls, [])
            case Some(args) =>
              match run(tool.target, args)
              case Failure(e) => Effect(Failure(e), calls, [])
              case Success(res) =>
                match ResultText(res, dumps)
                case Failure(e) => Effect(Failure(e), calls, [])
                case Success(text) => Effect(Success(Suppressed), calls, [ToolResponse(call, text)])
  }

  // ---- generation_finished, either direction ----

  const Generate: Json := JObj([("event", JStr("generate"))])

  /** `generation_finished`: forwarded, no call stays pending, and one `generate` is sent exactly when some call was. */
  function GenerationFinished(calls: Calls): (e: Effect)
    ensures e.outcome == Success(Unchanged) && e.calls == []
    ensures |e.sent| == 1 <==> |calls| > 0
    ensures |e.sent| <= 1 && forall m :: m in e.sent ==> m == Generate
  {
    if |calls| > 0 then Effect(Success(Unchanged), [], [Generate]) else Effect(Success(Unchanged), calls, [])
  }

  // ---- The whole step ----

  /** The events `_process_message` tells apart. */
  datatype Event = UpdateConversationConfig | AddMessageEvent | AddContentEvent | MessageAddedEvent
                 | GenerationFinishedEvent | OtherEvent

  /** The `match` on `message["event"]`: each case compares the value with one string. */
  function Classify(event: Json): (r: Event)
    ensures r == UpdateConversationConfig ==> event == JStr("update_conversation_config")
    ensures r == AddMessageEvent ==> event == JStr("add_message")
    ensures r == AddContentEvent ==> event == JStr("add_content")
    ensures r == MessageAddedEvent ==> event == JStr("message_added")
    ensures r == GenerationFinishedEvent ==> event == JStr("generation_finished")
    ensures r == OtherEvent <==> event !in {JStr("update_conversation_config"), JStr("add_message"), JStr("add_content"),
                                            JStr("message_added"), JStr("generation_finished")}
  {
    if event == JStr("update_conversation_config") then UpdateConversationConfig
    else if event == JStr("add_message") then AddMessageEvent
    else if event == JStr("add_content") then AddContentEvent
    else if event == JStr("message_added") then MessageAddedEvent
    else if event == JStr("generation_finished") then GenerationFinishedEvent
    else OtherEvent
  }

  /** `_process_message` on a parsed frame travelling to the client (`toClient`) or to the server. */
  function Process(tools: Tools, o: Overrides, calls: Calls, parsed: Option<Json>, toClient: bool,
                   parseArgs: string -> Option<Json>, run: (string, Json) -> Result<TargetResult, PyError>,
                   dumps: Json -> string): (e: Effect)
    ensures parsed.None? ==> e == Effect(Failure(JsonDecodeError), calls, [])
    ensures e.outcome.Success? && e.outcome.value.Reserialized? ==> parsed.Some? && parsed.value.JObj?
  {
    match parsed
    case None => Effect(Failure(JsonDecodeError), calls, [])
    case Some(JNull) => Effect(Success(Unchanged), calls, [])
    case Some(message) =>
      match PyIndex(message, "event")
      case Failure(e) => Effect(Failure(e), calls, [])
      case Success(event) =>
        match Classify(event)
        case UpdateConversationConfig =>
          if toClient then Effect(Success(Unchanged), calls, [])
          else Effect(Success(Reserialized(JObj(ApplyOverrides(message.fields, o, tools)))), calls, [])
        case AddMessageEvent =>
          if toClient then AddMessage(calls, message) else Effect(Success(Unchanged), calls, [])
        case AddContentEvent =>
          if toClient then AddContent(calls, message) else Effect(Success(Unchanged), calls, [])
        case MessageAddedEvent =>
          if toClient then MessageAdded(tools, calls, message, parseArgs, run, dumps) else Effect(Success(Unchanged), calls, [])
        case GenerationFinishedEvent => GenerationFinished(calls)
        case OtherEvent => Effect(Success(Unchanged), calls, [])
  }

  /**
   * What one frame can cause: at most one message to the server, either a
   * `generate` or, towards the client, a tool's answer to a suppressed
   * `message_added`; frames towards the server leave the pending calls alone
   * except `generation_finished`, which clears them.
   */
  lemma {:induction false} ProcessSendsAtMostOne(tools: Tools, o: Overrides, calls: Calls, parsed: Option<Json>, toClient: bool,
                                                 parseArgs: string -> Option<Json>, run: (string, Json) -> Result<TargetResult, PyError>,
                                                 dumps: Json -> string)
    ensures var e := Process(tools, o, calls, parsed, toClient, parseArgs, run, dumps);
      |e.sent| <= 1
      && (e.sent != [] ==> e.sent == [Generate] || (toClient && e.outcome == Success(Suppressed)))
      && (!toClient ==> e.calls == calls || e.calls == [])
  {
  }

  // ---- Facts about the scan and the filter ----

  /** One step records index `i` only for a tool call, and records it for every tool call that reads without raising. */
  lemma {:induction false} ScanStepRecordsToolCall(s: Scan, read: Reader, submsg: Json, i: nat)
    ensures var r := ScanStep(s, read, submsg, i);
      (r.removed == s.removed || r.removed == s.removed + [i])
      && (r.removed != s.removed ==> IsToolCall(submsg))
      && (r.error.None? ==> (r.removed == s.removed + [i] <==> IsToolCall(submsg)))
  {
  }

  /** One item of the loop, for a scan that had not raised: a tool call's index is recorded, and nothing else is. */
  lemma {:induction false} ScanOneItem(calls: Calls, read: Reader, items: seq<Json>)
    requires items != []
    ensures var prefix := ScanItems(calls, read, items[..|items| - 1]);
      var s := ScanItems(calls, read, items);
      var last := items[|items| - 1];
      (prefix.error.Some? ==> s == prefix)
      && (prefix.error.None? && s.error.None? ==>
            PyIndex(last, "type").Success?
            && s.removed == prefix.removed + (if IsToolCall(last) then [|items| - 1] else []))
  {
    var prefix := ScanItems(calls, read, items[..|items| - 1]);
    ScanStepRecordsToolCall(prefix, read, items[|items| - 1], |items| - 1);
  }

  /** The loop after one more item, for a scan that had not raised: one more step. */
  lemma {:induction false} ScanUnfold(calls: Calls, read: Reader, items: seq<Json>, i: nat)
    requires i < |items| && ScanItems(calls, read, items[..i]).error.None?
    ensures ScanItems(calls, read, items[..i + 1]) == ScanStep(ScanItems(calls, read, items[..i]), read, items[i], i)
  {
    assert items[..i + 1][..i] == items[..i];
  }

  /** One step from a scan that had not raised raises exactly when the item does not read cleanly. */
  lemma {:induction false} ScanStepClean(s: Scan, read: Reader, submsg: Json, i: nat)
    requires s.error.None?
    ensures ScanStep(s, read, submsg, i).error.None? <==> ReadsCleanly(read, submsg)
  {
  }

  /** `r` lists the indexes of the tool calls in `items`, in increasing order. */
  predicate ToolCallIndexes(items: seq<Json>, r: seq<nat>)
  {
    (forall a, b :: 0 <= a < b < |r| ==> r[a] < r[b])
    && (forall a :: 0 <= a < |r| ==> r[a] < |items|)
    && forall x :: 0 <= x < |items| ==> (IsToolCall(items[x]) <==> x in r)
  }

  /** Appending one item keeps the index list exact when the item's index is appended exactly if it is a tool call. */
  lemma {:induction false} ToolCallIndexesStep(items: seq<Json>, r0: seq<nat>, r: seq<nat>)
    requires items != [] && ToolCallIndexes(items[..|items| - 1], r0)
    requires r == r0 + (if IsToolCall(items[|items| - 1]) then [|items| - 1] else [])
    ensures ToolCallIndexes(items, r)
  {
    var n := |items| - 1;
    forall x | 0 <= x < |items| ensures IsToolCall(items[x]) <==> x in r {
      if x < n {
        assert items[x] == items[..n][x];
        assert x in r <==> x in r0;
      } else {
        assert n !in r0;
      }
    }
  }

  /** A scan that raised nothing recorded exactly the indexes of the tool calls, in increasing order. */
  lemma {:induction false} ScanRecordsToolCallIndexes(calls: Calls, read: Reader, items: seq<Json>)
    requires ScanItems(calls, read, items).error.None?
    ensures ToolCallIndexes(items, ScanItems(calls, read, items).removed)
    decreases |items|
  {
    if items != [] {
      var prefix := items[..|items| - 1];
      ScanOneItem(calls, read, items);
      assert ScanItems(calls, read, prefix).error.None?;
      ScanRecordsToolCallIndexes(calls, read, prefix);
      ToolCallIndexesStep(items, ScanItems(calls, read, prefix).removed, ScanItems(calls, read, items).removed);
    }
  }

  /** A scan that raised nothing removed one index per item the filter drops. */
  lemma {:induction false} ScanRemovedCount(calls: Calls, read: Reader, items: seq<Json>)
    requires ScanItems(calls, read, items).error.None?
    ensures |ScanItems(calls, read, items).removed| + |NonToolItems(items)| == |items|
    decreases |items|
  {
    if items != [] {
      var prefix := items[..|items| - 1];
      var last := items[|items| - 1];
      ScanOneItem(calls, read, items);
      ScanRemovedCount(calls, read, prefix);
      NonToolItemsLast(items);
    }
  }

  /** The filter keeps the last item exactly when it is not a tool call. */
  lemma {:induction false} NonToolItemsLast(items: seq<Json>)
    requires items != []
    ensures |NonToolItems(items)| == |NonToolItems(items[..|items| - 1])| + if IsToolCall(items[|items| - 1]) then 0 else 1
  {
    var prefix, last := items[..|items| - 1], items[|items| - 1];
    assert items == prefix + [last];
    NonToolItemsConcat(prefix, [last]);
    assert NonToolItems([last]) == (if IsToolCall(last) then [] else [last]) + NonToolItems([]);
  }

  lemma {:induction false} NonToolItemsConcat(a: seq<Json>, b: seq<Json>)
    ensures NonToolItems(a + b) == NonToolItems(a) + NonToolItems(b)
    decreases |a|
  {
    if a != [] {
      var ab := a + b;
      assert ab[0] == a[0] && ab[1..] == a[1..] + b;
      NonToolItemsConcat(a[1..], b);
      assert NonToolItems(ab) == (if IsToolCall(a[0]) then [] else [a[0]]) + NonToolItems(ab[1..]);
    } else {
      assert a + b == b;
    }
  }

  lemma {:induction false} NonToolItemsOfNone(s: seq<Json>)
    requires forall x :: 0 <= x < |s| ==> !IsToolCall(s[x])
    ensures NonToolItems(s) == s
    decreases |s|
  {
    if s != [] {
      NonToolItemsOfNone(s[1..]);
    }
  }

  /** The filter keeps only items that are not tool calls, and is empty exactly when every item is one. */
  lemma {:induction false} NonToolItemsIsFilter(items: seq<Json>)
    ensures forall x :: x in NonToolItems(items) ==> x in items && !IsToolCall(x)
    ensures NonToolItems(items) == [] <==> forall x :: 0 <= x < |items| ==> IsToolCall(items[x])
    decreases |items|
  {
    if items != [] {
      NonToolItemsIsFilter(items[1..]);
      if !IsToolCall(items[0]) {
        assert NonToolItems(items)[0] == items[0];
      }
    }
  }

  /** Across a tool call followed by a gap with none, the filter keeps the gap. */
  lemma {:induction false} FilterSkipsToolCall(items: seq<Json>, idx: nat, m: nat)
    requires idx < m <= |items|
    requires IsToolCall(items[idx]) && forall x :: idx < x < m ==> !IsToolCall(items[x])
    ensures NonToolItems(items[idx..]) == items[idx + 1..m] + NonToolItems(items[m..])
  {
    var gap := items[idx + 1..m];
    forall x | 0 <= x < |gap| ensures !IsToolCall(gap[x]) {
      assert gap[x] == items[idx + 1 + x];
    }
    NonToolItemsOfNone(gap);
    var tail := items[idx..];
    assert tail[0] == items[idx] && tail[1..] == gap + items[m..];
    NonToolItemsConcat(gap, items[m..]);
  }

  /** Removing one scanned index, below those already removed, extends the filtered tail by one item. */
  lemma {:induction false} PopStep(items: seq<Json>, kept: seq<Json>, idx: nat, m: nat)
    requires idx < m <= |items|
    requires IsToolCall(items[idx]) && forall x :: idx < x < m ==> !IsToolCall(items[x])
    requires kept == items[..m] + NonToolItems(items[m..])
    ensures kept[..idx] + kept[idx + 1..] == items[..idx] + NonToolItems(items[idx..])
  {
    FilterSkipsToolCall(items, idx, m);
    assert kept[..idx] == items[..idx];
    assert kept[idx + 1..] == items[idx + 1..m] + NonToolItems(items[m..]);
  }

  // ---- Properties of one step ----

  /**
   * A configuration message from the client gets every server setting that
   * is set, the tool choice `"auto"` exactly when a tool is registered, and
   * the registered schemas; its other members, and the state, are unchanged.
   */
  lemma {:induction false} ConfigFromClientOverridden(tools: Tools, o: Overrides, message: Json)
    requires message.JObj?
    ensures var out := ApplyOverrides(message.fields, o, tools);
      (o.systemMessage.Some? ==> OrderedDict.Get(out, "system_message") == Some(JStr(o.systemMessage.value)))
      && (o.systemMessage.None? ==> OrderedDict.Get(out, "system_message") == OrderedDict.Get(message.fields, "system_message"))
      && (o.temperature.Some? ==> OrderedDict.Get(out, "temperature") == Some(JNum(o.temperature.value)))
      && (o.maxTokens.Some? ==> OrderedDict.Get(out, "max_tokens") == Some(JNum(o.maxTokens.value as real)))
      && (o.disableAudio.Some? ==> OrderedDict.Get(out, "disable_audio") == Some(JBool(o.disableAudio.value)))
      && (OrderedDict.Get(out, "tool_choice") == Some(JStr("auto")) <==> |tools| > 0)
      && OrderedDict.Get(out, "tools") == Some(JArr(Schemas(tools)))
  {
    var out := ApplyOverrides(message.fields, o, tools);
    SystemMessageApplied(message.fields, o);
    TemperatureApplied(message.fields, o);
    MaxTokensApplied(message.fields, o);
    DisableAudioApplied(message.fields, o);
    assert |"system_message"| == 14 && |"max_tokens"| == 10 && |"disable_audio"| == 13;
    assert |"tool_choice"| == 11 && |"tools"| == 5;
    TemperatureIsNotToolChoice();
    if |tools| == 0 {
      assert OrderedDict.Get(out, "tool_choice") == Some(JStr("none"));
      assert JStr("none").s[0] != JStr("auto").s[0];
    }
  }

  /** Proof helper: the two member names differ, at their second character. */
  lemma {:induction false} TemperatureIsNotToolChoice()
    ensures "temperature" != "tool_choice"
  {
    assert "temperature"[1] == 'e';
    assert "tool_choice"[1] == 'o';
  }

  /**
   * An `add_message` whose content is a list and whose scan raised nothing:
   * the tool calls are taken out and the rest keep their order; when none
   * is left (an empty list included) the message is suppressed.
   */
  lemma {:induction false} AddMessageStripsToolCalls(calls: Calls, message: Json, items: seq<Json>)
    requires PyIndex(message, "message").Success?
    requires PyIndex(PyIndex(message, "message").value, "content") == Success(JArr(items))
    requires ScanItems(calls, CallReader(message), items).error.None?
    ensures var e := AddMessage(calls, message);
      e.sent == [] && e.calls == ScanItems(calls, CallReader(message), items).calls
      && ((exists x :: 0 <= x < |items| && !IsToolCall(items[x])) ==>
            e.outcome == Success(Reserialized(WithContent(message, NonToolItems(items)))))
      && ((forall x :: 0 <= x < |items| ==> IsToolCall(items[x])) ==> e.outcome == Success(Suppressed))
  {
    ScanRemovedCount(calls, CallReader(message), items);
    NonToolItemsIsFilter(items);
  }

  /**
   * Content that is not a list is only ever iterated: a scan of it that
   * raised nothing found no items, and the message is suppressed.
   */
  lemma {:induction false} NonListContentSuppressed(calls: Calls, message: Json)
    requires PyIndex(message, "message").Success?
    requires PyIndex(PyIndex(message, "message").value, "content").Success?
    requires !PyIndex(PyIndex(message, "message").value, "content").value.JArr?
    requires AddMessage(calls, message).outcome.Success?
    ensures AddMessage(calls, message) == Effect(Success(Suppressed), calls, [])
  {
    var content := PyIndex(PyIndex(message, "message").value, "content").value;
    var items := PyIter(content).value;
    if items != [] {
      NonListItemsRaise(calls, CallReader(message), content, items);
    }
  }

  lemma {:induction false} NonListItemsRaise(calls: Calls, read: Reader, content: Json, items: seq<Json>)
    requires PyIter(content) == Success(items) && !content.JArr? && items != []
    ensures ScanItems(calls, read, items).error.Some?
  {
    var first := ScanItems(calls, read, items[..1]);
    assert items[..1][..0] == [];
    assert items[0].JStr?;
    assert first.error.Some?;
    FirstErrorSticks(calls, read, items, 1);
  }

  /** Once the scan has raised, later items change nothing. */
  lemma {:induction false} FirstErrorSticks(calls: Calls, read: Reader, items: seq<Json>, n: nat)
    requires 0 < n <= |items| && ScanItems(calls, read, items[..n]).error.Some?
    ensures ScanItems(calls, read, items) == ScanItems(calls, read, items[..n])
    decreases |items| - n
  {
    if n < |items| {
      assert items[..n + 1][..n] == items[..n];
      FirstErrorSticks(calls, read, items, n + 1);
    } else {
      assert items[..n] == items;
    }
  }

  /**
   * Every tool call in one message is stored under the same key, the
   * message id, so only the last one stays pending; other pending calls are
   * untouched.
   */
  lemma {:induction false} ScanKeepsLastToolCall(calls: Calls, read: Reader, items: seq<Json>)
    requires SharesId(read)
    requires ScanItems(calls, read, items).error.None?
    ensures var s := ScanItems(calls, read, items);
      (LastToolCall(items).None? ==> s.calls == calls)
      && (LastToolCall(items).Some? ==>
            read(LastToolCall(items).value).Success?
            && var c := read(LastToolCall(items).value).value;
            OrderedDict.Get(s.calls, c.messageId) == Some(c)
            && forall k :: k != c.messageId ==> OrderedDict.Get(s.calls, k) == OrderedDict.Get(calls, k))
    decreases |items|
  {
    if items != [] {
      var prefix := items[..|items| - 1];
      var last := items[|items| - 1];
      ScanKeepsLastToolCall(calls, read, prefix);
      var s := ScanItems(calls, read, prefix);
      if IsToolCall(last) {
        var c := read(last).value;
        OrderedDict.GetPutSame(s.calls, c.messageId, c);
        forall k | k != c.messageId
          ensures OrderedDict.Get(ScanItems(calls, read, items).calls, k) == OrderedDict.Get(calls, k)
        {
          OrderedDict.GetPutOther(s.calls, c.messageId, c, k);
          if LastToolCall(prefix).Some? {
            var c' := read(LastToolCall(prefix).value).value;
            assert c'.messageId == c.messageId;
          }
        }
      }
    }
  }

  /** An item the loop passes without raising: its `type` reads, and a tool call's fields read under a hashable id. */
  predicate ReadsCleanly(read: Reader, submsg: Json)
  {
    PyIndex(submsg, "type").Success?
    && (IsToolCall(submsg) ==> read(submsg).Success? && Hashable(read(submsg).value.messageId))
  }

  /** The loop raises exactly when some item does not read cleanly. */
  lemma {:induction false} ScanRaisesUnlessClean(calls: Calls, read: Reader, items: seq<Json>)
    ensures ScanItems(calls, read, items).error.None? <==> forall x :: 0 <= x < |items| ==> ReadsCleanly(read, items[x])
    decreases |items|
  {
    if items != [] {
      var prefix := items[..|items| - 1];
      ScanRaisesUnlessClean(calls, read, prefix);
      forall x | 0 <= x < |prefix| ensures items[x] == prefix[x] {}
      var s := ScanItems(calls, read, prefix);
      if s.error.None? {
        ScanStepClean(s, read, items[|items| - 1], |items| - 1);
      }
    }
  }

  /** Two tool calls read by a reader that keeps the message id: only the second is pending afterwards, under that id. */
  lemma {:induction false} LaterToolCallWins(calls: Calls, read: Reader, first: Json, second: Json)
    requires SharesId(read)
    requires IsToolCall(first) && IsToolCall(second)
    requires ReadsCleanly(read, first) && ReadsCleanly(read, second)
    ensures var s := ScanItems(calls, read, [first, second]);
      var c := read(second).value;
      s.error.None? && OrderedDict.Get(s.calls, c.messageId) == Some(c)
      && forall k :: k != c.messageId ==> OrderedDict.Get(s.calls, k) == OrderedDict.Get(calls, k)
  {
    var items := [first, second];
    assert items[0] == first && items[1] == second;
    ScanRaisesUnlessClean(calls, read, items);
    assert ScanItems(calls, read, items).error.None?;
    assert LastToolCall(items) == Some(second);
    ScanKeepsLastToolCall(calls, read, items);
  }

  /** Where the removal loop has got to: the `j`-th removed index, or the end once all are done. */
  function Mark(r: seq<nat>, j: nat, n: nat): nat
  {
    if j < |r| then r[j] else n
  }

  /** Between two consecutive removed indexes there is no tool call. */
  lemma {:induction false} GapBetweenRemoved(items: seq<Json>, r: seq<nat>, j: nat)
    requires ToolCallIndexes(items, r) && j < |r|
    ensures r[j] < Mark(r, j + 1, |items|) <= |items| && IsToolCall(items[r[j]])
    ensures forall x :: r[j] < x < Mark(r, j + 1, |items|) ==> !IsToolCall(items[x])
  {
  }

  /** Before the first removed index there is no tool call, so the filter keeps that prefix. */
  lemma {:induction false} PopDone(items: seq<Json>, r: seq<nat>)
    requires ToolCallIndexes(items, r)
    ensures var m := Mark(r, 0, |items|);
      m <= |items| && items[..m] + NonToolItems(items[m..]) == NonToolItems(items)
  {
    var m := Mark(r, 0, |items|);
    forall x | 0 <= x < m ensures !IsToolCall(items[..m][x]) {
      assert items[..m][x] == items[x];
    }
    NonToolItemsOfNone(items[..m]);
    assert items == items[..m] + items[m..];
    NonToolItemsConcat(items[..m], items[m..]);
  }

  // ---- add_content, message_added, generation_finished ----

  /** A streamed argument fragment for a pending call is appended to its arguments, and the fragment is not forwarded. */
  lemma {:induction false} AddContentAppendsArguments(calls: Calls, message: Json, id: Json, call: RTToolCall, sofar: string, fragment: string)
    requires PyIndex(message, "type") == Success(JStr("tool_call"))
    requires PyIndex(message, "message_id") == Success(id) && Hashable(id)
    requires OrderedDict.Get(calls, id) == Some(call) && call.arguments == JStr(sofar)
    requires PyIndex(message, "data") == Success(JStr(fragment))
    ensures var e := AddContent(calls, message);
      e.outcome == Success(Suppressed) && e.sent == []
      && OrderedDict.Get(e.calls, id) == Some(call.(arguments := JStr(sofar + fragment)))
      && forall k :: k != id ==> OrderedDict.Get(e.calls, k) == OrderedDict.Get(calls, k)
  {
    OrderedDict.GetPutSame(calls, id, call.(arguments := JStr(sofar + fragment)));
    forall k | k != id
      ensures OrderedDict.Get(OrderedDict.Put(calls, id, call.(arguments := JStr(sofar + fragment))), k) == OrderedDict.Get(calls, k)
    {
      OrderedDict.GetPutOther(calls, id, call.(arguments := JStr(sofar + fragment)), k);
    }
  }

  /** A tool-call fragment for a message with no pending call raises KeyError and changes nothing. */
  lemma {:induction false} AddContentWithoutPendingCall(calls: Calls, message: Json, id: Json)
    requires PyIndex(message, "type") == Success(JStr("tool_call"))
    requires PyIndex(message, "message_id") == Success(id) && Hashable(id)
    requires OrderedDict.Get(calls, id).None?
    ensures AddContent(calls, message) == Effect(Failure(KeyError), calls, [])
  {
  }

  /**
   * A message that completes a pending call whose target returns a string:
   * that string goes back to the server as the call's answer, the message
   * itself is not forwarded, and the call stays pending until the
   * generation finishes.
   */
  lemma {:induction false} MessageAddedAnswersCall(tools: Tools, calls: Calls, message: Json, id: Json, call: RTToolCall, tool: Tool,
                                args: Json, text: string, parseArgs: string -> Option<Json>,
                                run: (string, Json) -> Result<TargetResult, PyError>, dumps: Json -> string)
    requires PyIndex(message, "id") == Success(id) && Hashable(id)
    requires OrderedDict.Get(calls, id) == Some(call)
    requires call.name.JStr? && OrderedDict.Get(tools, call.name.s) == Some(tool)
    requires call.arguments.JStr? && parseArgs(call.arguments.s) == Some(args)
    requires run(tool.target, args) == Success(JsonValue(JStr(text)))
    ensures var e := MessageAdded(tools, calls, message, parseArgs, run, dumps);
      e.outcome == Success(Suppressed) && e.calls == calls && |e.sent| == 1
      && PyIndex(e.sent[0], "event") == Success(JStr("add_message"))
      && PyIndex(e.sent[0], "conversation_label") == Success(call.conversation)
      && ToolAnswer(e.sent[0]) == Some((call.toolCallId, text))
  {
    ToolResponseAnswers(call, text);
  }

  /** The `tool_call_id` and text of a tool answer, when the message has that shape. */
  function ToolAnswer(m: Json): Option<(Json, string)>
  {
    match PyIndex(m, "message")
    case Failure(_) => None
    case Success(inner) =>
      var role, callId, content := PyIndex(inner, "role"), PyIndex(inner, "tool_call_id"), PyIndex(inner, "content");
      if role == Success(JStr("tool")) && callId.Success? && content.Success? && content.value.JArr? && |content.value.items| == 1 then
        var part := content.value.items[0];
        if PyIndex(part, "type") == Success(JStr("text")) && PyIndex(part, "text").Success? && PyIndex(part, "text").value.JStr?
        then Some((callId.value, PyIndex(part, "text").value.s))
        else None
      else None
  }

  /** The answer message carries the call's conversation, the call's id and the text. */
  lemma {:induction false} ToolResponseAnswers(call: RTToolCall, text: string)
    ensures PyIndex(ToolResponse(call, text), "event") == Success(JStr("add_message"))
    ensures PyIndex(ToolResponse(call, text), "conversation_label") == Success(call.conversation)
    ensures ToolAnswer(ToolResponse(call, text)) == Some((call.toolCallId, text))
  {
    var part := JObj([("type", JStr("text")), ("text", JStr(text))]);
    var inner := JObj([("role", JStr("tool")), ("tool_call_id", call.toolCallId), ("content", JArr([part]))]);
    OrderedDict.GetLiteral(part.fields, "type");
    OrderedDict.GetLiteral(part.fields, "text");
    OrderedDict.GetLiteral(inner.fields, "role");
    OrderedDict.GetLiteral(inner.fields, "tool_call_id");
    OrderedDict.GetLiteral(inner.fields, "content");
    OrderedDict.GetLiteral(ToolResponse(call, text).fields, "event");
    OrderedDict.GetLiteral(ToolResponse(call, text).fields, "conversation_label");
    OrderedDict.GetLiteral(ToolResponse(call, text).fields, "message");
    assert PyIndex(ToolResponse(call, text), "message") == Success(inner);
    assert PyIndex(inner, "content") == Success(JArr([part]));
  }

  /** A completed message with no pending call is forwarded as received. */
  lemma {:induction false} MessageAddedWithoutPendingCall(tools: Tools, calls: Calls, message: Json, id: Json,
                                       parseArgs: string -> Option<Json>,
                                       run: (string, Json) -> Result<TargetResult, PyError>, dumps: Json -> string)
    requires PyIndex(message, "id") == Success(id) && Hashable(id) && OrderedDict.Get(calls, id).None?
    ensures MessageAdded(tools, calls, message, parseArgs, run, dumps) == Effect(Success(Unchanged), calls, [])
  {
  }

  /**
   * A target that returns a `ToolResult` object cannot be serialised into
   * the answer: the step raises TypeError and nothing is sent.
   */
  lemma {:induction false} ToolResultObjectRaises(tools: Tools, calls: Calls, message: Json, id: Json, call: RTToolCall, tool: Tool,
                               args: Json, res: ToolResult, parseArgs: string -> Option<Json>,
                               run: (string, Json) -> Result<TargetResult, PyError>, dumps: Json -> string)
    requires PyIndex(message, "id") == Success(id) && Hashable(id)
    requires OrderedDict.Get(calls, id) == Some(call)
    requires call.name.JStr? && OrderedDict.Get(tools, call.name.s) == Some(tool)
    requires call.arguments.JStr? && parseArgs(call.arguments.s) == Some(args)
    requires run(tool.target, args) == Success(ToolResultObject(res))
    ensures MessageAdded(tools, calls, message, parseArgs, run, dumps) == Effect(Failure(PyError.TypeError), calls, [])
  {
  }

  /**
   * The end of a generation, in either direction: when calls are pending,
   * one `generate` goes to the server and the pending calls are dropped;
   * the message itself is forwarded either way.
   */
  lemma {:induction false} GenerationFinishedFlushes(tools: Tools, o: Overrides, calls: Calls, message: Json, toClient: bool,
                                  parseArgs: string -> Option<Json>,
                                  run: (string, Json) -> Result<TargetResult, PyError>, dumps: Json -> string)
    requires PyIndex(message, "event") == Success(JStr("generation_finished"))
    ensures var e := Process(tools, o, calls, Some(message), toClient, parseArgs, run, dumps);
      e.outcome == Success(Unchanged)
      && (|calls| > 0 ==> e.calls == [] && e.sent == [Generate])
      && (|calls| == 0 ==> e.calls == calls && e.sent == [])
  {
    ClassifiesGenerationFinished();
  }

  /** `"generation_finished"` differs from the four strings tested before it. */
  lemma {:induction false} ClassifiesGenerationFinished()
    ensures Classify(JStr("generation_finished")) == GenerationFinishedEvent
  {
    assert |"generation_finished"| == 19 && |"update_conversation_config"| == 26 && |"add_message"| == 11;
    assert |"add_content"| == 11 && |"message_added"| == 13;
  }

  // ---- Dispatch ----

  /** Proof helper: the two event names differ, at their fifth character. */
  lemma {:induction false} AddMessageIsNotAddContent()
    ensures "add_message" != "add_content"
  {
    assert "add_message"[4] == 'm';
    assert "add_content"[4] == 'c';
  }

  /**
   * Which events are acted on in which direction: the configuration only on
   * its way to the server, the three message events only on their way to the
   * client; any other event, or a `null` document, is forwarded untouched.
   */
  lemma {:induction false} ProcessDispatches(tools: Tools, o: Overrides, calls: Calls, message: Json, toClient: bool,
                          parseArgs: string -> Option<Json>,
                          run: (string, Json) -> Result<TargetResult, PyError>, dumps: Json -> string)
    requires PyIndex(message, "event").Success?
    ensures var event := PyIndex(message, "event").value;
      var e := Process(tools, o, calls, Some(message), toClient, parseArgs, run, dumps);
      var untouched := Effect(Success(Unchanged), calls, []);
      (event == JStr("update_conversation_config") ==>
         e == if toClient then untouched else Effect(Success(Reserialized(JObj(ApplyOverrides(message.fields, o, tools)))), calls, []))
      && (event == JStr("add_message") ==> e == if toClient then AddMessage(calls, message) else untouched)
      && (event == JStr("add_content") ==> e == if toClient then AddContent(calls, message) else untouched)
      && (event == JStr("message_added") ==>
            e == if toClient then MessageAdded(tools, calls, message, parseArgs, run, dumps) else untouched)
      && (event !in {JStr("update_conversation_config"), JStr("add_message"), JStr("add_content"),
                     JStr("message_added"), JStr("generation_finished")}
          ==> e == untouched)
  {
    assert |"generation_finished"| == 19 && |"update_conversation_config"| == 26 && |"add_message"| == 11;
    assert |"add_content"| == 11 && |"message_added"| == 13;
    AddMessageIsNotAddContent();
  }

  /** A frame that is not JSON raises; a `null` document is forwarded untouched. */
  lemma {:induction false} ProcessOnUnparsedOrNull(tools: Tools, o: Overrides, calls: Calls, toClient: bool,
                                parseArgs: string -> Option<Json>,
                                run: (string, Json) -> Result<TargetResult, PyError>, dumps: Json -> string)
    ensures Process(tools, o, calls, None, toClient, parseArgs, run, dumps) == Effect(Failure(JsonDecodeError), calls, [])
    ensures Process(tools, o, calls, Some(JNull), toClient, parseArgs, run, dumps) == Effect(Success(Unchanged), calls, [])
  {
  }

  // ---- The pending-call registry stays a dictionary ----

  lemma {:induction false} ScanKeepsUniqueKeys(calls: Calls, read: Reader, items: seq<Json>)
    requires OrderedDict.UniqueKeys(calls)
    ensures OrderedDict.UniqueKeys(ScanItems(calls, read, items).calls)
    decreases |items|
  {
    if items != [] {
      var s := ScanItems(calls, read, items[..|items| - 1]);
      ScanKeepsUniqueKeys(calls, read, items[..|items| - 1]);
      if s.error.None? && IsToolCall(items[|items| - 1]) && read(items[|items| - 1]).Success? {
        var c := read(items[|items| - 1]).value;
        OrderedDict.PutUnique(s.calls, c.messageId, c);
      }
    }
  }

  lemma {:induction false} AddMessageKeepsUniqueKeys(calls: Calls, message: Json)
    requires OrderedDict.UniqueKeys(calls)
    ensures OrderedDict.UniqueKeys(AddMessage(calls, message).calls)
  {
    var inner := PyIndex(message, "message");
    if inner.Success? && PyIndex(inner.value, "content").Success? {
      var iter := PyIter(PyIndex(inner.value, "content").value);
      if iter.Success? {
        ScanKeepsUniqueKeys(calls, CallReader(message), iter.value);
      }
    }
  }

  lemma {:induction false} AddContentKeepsUniqueKeys(calls: Calls, message: Json)
    requires OrderedDict.UniqueKeys(calls)
    ensures OrderedDict.UniqueKeys(AddContent(calls, message).calls)
  {
    var id := PyIndex(message, "message_id");
    if id.Success? && CallsIndex(calls, id.value).Success? && PyIndex(message, "data").Success? {
      var call := CallsIndex(calls, id.value).value;
      var arguments := PyAdd(call.arguments, PyIndex(message, "data").value);
      if arguments.Success? {
        OrderedDict.PutUnique(calls, id.value, call.(arguments := arguments.value));
      }
    }
  }

  /** Every step leaves the pending calls with one entry per message id. */
  lemma {:induction false} ProcessKeepsUniqueKeys(tools: Tools, o: Overrides, calls: Calls, parsed: Option<Json>, toClient: bool,
                               parseArgs: string -> Option<Json>,
                               run: (string, Json) -> Result<TargetResult, PyError>, dumps: Json -> string)
    requires OrderedDict.UniqueKeys(calls)
    ensures OrderedDict.UniqueKeys(Process(tools, o, calls, parsed, toClient, parseArgs, run, dumps).calls)
  {
    if parsed.Some? && parsed.value != JNull && PyIndex(parsed.value, "event").Success? {
      var message := parsed.value;
      match Classify(PyIndex(message, "event").value)
      case AddMessageEvent => AddMessageKeepsUniqueKeys(calls, message);
      case AddContentEvent => AddContentKeepsUniqueKeys(calls, message);
      case _ =>
    }
  }

  // ---- The middle tier object ----

  /**
   * `RTMiddleTier`: the registered tools, the server-enforced settings, the
   * pending tool calls, and what it has sent to the server's socket. The
   * tool and call registries are class attributes in the source, shared by
   * every instance; the application creates one, which is what this models.
   */
  class RTMiddleTier {
    const endpoint: string
    const key: string
    var tools: Tools
    /** Configurable, but never read when messages are processed. */
    var model: Option<string>
    var systemMessage: Option<string>
    var temperature: Option<real>
    var maxTokens: Option<int>
    var disableAudio: Option<bool>
    var toolCalls: Calls
    var sentToServer: seq<Json>

    constructor(endpoint: string, key: string)
      ensures this.endpoint == endpoint && this.key == key
      ensures tools == [] && toolCalls == [] && sentToServer == []
      ensures model.None? && Settings() == Overrides(None, None, None, None)
    {
      this.endpoint := endpoint;
      this.key := key;
      tools := [];
      model := None;
      systemMessage := None;
      temperature := None;
      maxTokens := None;
      disableAudio := None;
      toolCalls := [];
      sentToServer := [];
    }

    function Settings(): Overrides
      reads this`systemMessage, this`temperature, this`maxTokens, this`disableAudio
    {
      Overrides(systemMessage, temperature, maxTokens, disableAudio)
    }

    /**
     * `_process_message`: the outcome, the pending calls afterwards and what
     * was sent to the server are those `Process` gives for the state before.
     */
    method ProcessMessage(parsed: Option<Json>, toClient: bool, parseArgs: string -> Option<Json>,
                          run: (string, Json) -> Result<TargetResult, PyError>, dumps: Json -> string)
      returns (r: Result<Outcome, PyError>)
      modifies this
      ensures var e := Process(old(tools), old(Settings()), old(toolCalls), parsed, toClient, parseArgs, run, dumps);
        r == e.outcome && toolCalls == e.calls && sentToServer == old(sentToServer) + e.sent
      ensures tools == old(tools) && Settings() == old(Settings()) && model == old(model)
    {
      if parsed.None? {
        return Failure(JsonDecodeError);
      }
      var message := parsed.value;
      if message == JNull {
        return Success(Unchanged);
      }
      var event := PyIndex(message, "event");
      if event.Failure? {
        return Failure(event.error);
      }
      match Classify(event.value)
      case UpdateConversationConfig =>
        if toClient {
          r := Success(Unchanged);
        } else {
          var updated := OverrideConfig(message.fields);
          r := Success(Reserialized(JObj(updated)));
        }
      case AddMessageEvent =>
        if toClient {
          r := HandleAddMessage(message);
        } else {
          r := Success(Unchanged);
        }
      case AddContentEvent =>
        if toClient {
          r := HandleAddContent(message);
        } else {
          r := Success(Unchanged);
        }
      case MessageAddedEvent =>
        if toClient {
          r := HandleMessageAdded(message, parseArgs, run, dumps);
        } else {
          r := Success(Unchanged);
        }
      case GenerationFinishedEvent =>
        HandleGenerationFinished();
        r := Success(Unchanged);
      case OtherEvent =>
        r := Success(Unchanged);
    }

    /** The configuration members, overwritten one by one. */
    method OverrideConfig(fields: OrderedDict.Dict<string, Json>) returns (updated: OrderedDict.Dict<string, Json>)
      ensures updated == ApplyOverrides(fields, Settings(), tools)
    {
      updated := fields;
      if systemMessage.Some? {
        updated := PySet(updated, "system_message", JStr(systemMessage.value));
      }
      assert updated == SetIfSome(fields, "system_message", if systemMessage.Some? then Some(JStr(systemMessage.value)) else None);
      ghost var f1 := updated;
      if temperature.Some? {
        updated := PySet(updated, "temperature", JNum(temperature.value));
      }
      assert updated == SetIfSome(f1, "temperature", if temperature.Some? then Some(JNum(temperature.value)) else None);
      ghost var f2 := updated;
      if maxTokens.Some? {
        updated := PySet(updated, "max_tokens", JNum(maxTokens.value as real));
      }
      assert updated == SetIfSome(f2, "max_tokens", if maxTokens.Some? then Some(JNum(maxTokens.value as real)) else None);
      ghost var f3 := updated;
      if disableAudio.Some? {
        updated := PySet(updated, "disable_audio", JBool(disableAudio.value));
      }
      assert updated == SetIfSome(f3, "disable_audio", if disableAudio.Some? then Some(JBool(disableAudio.value)) else None);
      assert updated == ApplySettings(fields, Settings());
      updated := PySet(updated, "tool_choice", JStr(if |tools| > 0 then "auto" else "none"));
      updated := PySet(updated, "tools", JArr(Schemas(tools)));
    }

    method HandleAddMessage(message: Json) returns (r: Result<Outcome, PyError>)
      modifies this
      ensures var e := AddMessage(old(toolCalls), message);
        r == e.outcome && toolCalls == e.calls && sentToServer == old(sentToServer) + e.sent
      ensures tools == old(tools) && Settings() == old(Settings()) && model == old(model)
    {
      var inner := PyIndex(message, "message");
      if inner.Failure? {
        return Failure(inner.error);
      }
      var content := PyIndex(inner.value, "content");
      if content.Failure? {
        return Failure(content.error);
      }
      var iter := PyIter(content.value);
      if iter.Failure? {
        return Failure(iter.error);
      }
      var items := iter.value;
      ghost var calls0 := toolCalls;
      var removeIndexes, error := ScanContent(message, items);
      if error.Some? {
        return Failure(error.value);
      }
      if |removeIndexes| < |items| {
        ScanRecordsToolCallIndexes(calls0, CallReader(message), items);
        var kept := RemoveToolCalls(items, removeIndexes);
        r := Success(Reserialized(WithContent(message, kept)));
      } else {
        r := Success(Suppressed);
      }
    }

    /** The `enumerate` loop over the content items: records pending calls and the indexes of the tool calls, stopping at the first exception. */
    method ScanContent(message: Json, items: seq<Json>) returns (removeIndexes: seq<nat>, error: Option<PyError>)
      modifies this
      ensures Scan(toolCalls, removeIndexes, error) == ScanItems(old(toolCalls), CallReader(message), items)
      ensures sentToServer == old(sentToServer) && tools == old(tools) && Settings() == old(Settings()) && model == old(model)
    {
      var calls := toolCalls;
      removeIndexes, error := [], None;
      var i := 0;
      while i < |items| && error.None?
        invariant 0 <= i <= |items|
        invariant ScanItems(old(toolCalls), CallReader(message), items[..i]) == Scan(calls, removeIndexes, error)
        invariant unchanged(this)
      {
        ScanUnfold(old(toolCalls), CallReader(message), items, i);
        ghost var s := Scan(calls, removeIndexes, None);
        var submsg := items[i];
        var t := PyIndex(submsg, "type");
        if t.Failure? {
          error := Some(t.error);
        } else if t.value == JStr("tool_call") {
          removeIndexes := removeIndexes + [i];
          var call := ReadToolCall(message, submsg);
          assert CallReader(message)(submsg) == call;
          if call.Failure? {
            error := Some(call.error);
          } else if !Hashable(call.value.messageId) {
            error := Some(PyError.TypeError);
          } else {
            calls := OrderedDict.Put(calls, call.value.messageId, call.value);
          }
        }
        assert ScanStep(s, CallReader(message), submsg, i) == Scan(calls, removeIndexes, error);
        i := i + 1;
      }
      if error.Some? {
        FirstErrorSticks(old(toolCalls), CallReader(message), items, i);
      } else {
        assert items[..i] == items;
      }
      toolCalls := calls;
    }

    method HandleAddContent(message: Json) returns (r: Result<Outcome, PyError>)
      modifies this
      ensures var e := AddContent(old(toolCalls), message);
        r == e.outcome && toolCalls == e.calls && sentToServer == old(sentToServer) + e.sent
      ensures tools == old(tools) && Settings() == old(Settings()) && model == old(model)
    {
      var t := PyIndex(message, "type");
      if t.Failure? {
        return Failure(t.error);
      }
      if t.value != JStr("tool_call") {
        return Success(Unchanged);
      }
      var id := PyIndex(message, "message_id");
      if id.Failure? {
        return Failure(id.error);
      }
      var call := CallsIndex(toolCalls, id.value);
      if call.Failure? {
        return Failure(call.error);
      }
      var data := PyIndex(message, "data");
      if data.Failure? {
        return Failure(data.error);
      }
      var arguments := PyAdd(call.value.arguments, data.value);
      if arguments.Failure? {
        return Failure(arguments.error);
      }
      toolCalls := OrderedDict.Put(toolCalls, id.value, call.value.(arguments := arguments.value));
      r := Success(Suppressed);
    }

    method HandleMessageAdded(message: Json, parseArgs: string -> Option<Json>,
                              run: (string, Json) -> Result<TargetResult, PyError>, dumps: Json -> string)
      returns (r: Result<Outcome, PyError>)
      modifies this
      ensures var e := MessageAdded(old(tools), old(toolCalls), message, parseArgs, run, dumps);
        r == e.outcome && toolCalls == e.calls && sentToServer == old(sentToServer) + e.sent
      ensures tools == old(tools) && Settings() == old(Settings()) && model == old(model)
    {
      var id := PyIndex(message, "id");
      if id.Failure? {
        return Failure(id.error);
      }
      var pending := CallsGet(toolCalls, id.value);
      if pending.Failure? {
        return Failure(pending.error);
      }
      if pending.value.None? {
        return Success(Unchanged);
      }
      var call := pending.value.value;
      var tool := ToolsIndex(tools, call.name);
      if tool.Failure? {
        return Failure(tool.error);
      }
      if !call.arguments.JStr? {
        return Failure(PyError.TypeError);
      }
      var args := parseArgs(call.arguments.s);
      if args.None? {
        return Failure(JsonDecodeError);
      }
      var result := run(tool.value.target, args.value);
      if result.Failure? {
        return Failure(result.error);
      }
      var text := ResultText(result.value, dumps);
      if text.Failure? {
        return Failure(text.error);
      }
      sentToServer := sentToServer + [ToolResponse(call, text.value)];
      r := Success(Suppressed);
    }

    method HandleGenerationFinished()
      modifies this
      ensures var e := GenerationFinished(old(toolCalls));
        toolCalls == e.calls && sentToServer == old(sentToServer) + e.sent
      ensures tools == old(tools) && Settings() == old(Settings()) && model == old(model)
    {
      if |toolCalls| > 0 {
        sentToServer := sentToServer + [Generate];
        toolCalls := [];
      }
    }
  }

  /**
   * `content.pop(i)` for each removed index, the highest first, so the
   * indexes still to be popped keep naming the same items.
   */
  method RemoveToolCalls(items: seq<Json>, removeIndexes: seq<nat>) returns (kept: seq<Json>)
    requires ToolCallIndexes(items, removeIndexes)
    ensures kept == NonToolItems(items)
  {
    kept := items;
    var j := |removeIndexes|;
    assert items[|items|..] == [];
    while j > 0
      invariant 0 <= j <= |removeIndexes|
      invariant Mark(removeIndexes, j, |items|) <= |items|
      invariant kept == items[..Mark(removeIndexes, j, |items|)] + NonToolItems(items[Mark(removeIndexes, j, |items|)..])
    {
      j := j - 1;
      var idx := removeIndexes[j];
      GapBetweenRemoved(items, removeIndexes, j);
      PopStep(items, kept, idx, Mark(removeIndexes, j + 1, |items|));
      kept := kept[..idx] + kept[idx + 1..];
    }
    PopDone(items, removeIndexes);
  }
}
