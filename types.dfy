/**
 * The client's message and record types, with the JSON form each takes on
 * the wire (members in declaration order) and a reading of that form back
 * into the record. Optional members are left out of the JSON when absent.
 */
module Types {
  import opened Wrappers
  import opened Json
  import OrderedDict

  type Fields = OrderedDict.Dict<string, Json>

  // ---- Reading members of a parsed object ----

  function Member(v: Json, k: string): Option<Json>
  {
    if v.JObj? then OrderedDict.Get(v.fields, k) else None
  }

  function StrMember(v: Json, k: string): Option<string>
  {
    match Member(v, k)
    case Some(JStr(s)) => Some(s)
    case _ => None
  }

  function NumMember(v: Json, k: string): Option<real>
  {
    match Member(v, k)
    case Some(JNum(n)) => Some(n)
    case _ => None
  }

  /** An optional number member: absent reads as `Some(None)`; present and not a number, as `None`. */
  function OptNumMember(v: Json, k: string): Option<Option<real>>
  {
    match Member(v, k)
    case None => Some(None)
    case Some(JNum(n)) => Some(Some(n))
    case _ => None
  }

  function OptNum(k: string, v: Option<real>): Fields
  {
    if v.Some? then [(k, JNum(v.value))] else []
  }

  lemma {:induction false} GetOptNum(k: string, v: Option<real>, k': string)
    ensures OrderedDict.Get(OptNum(k, v), k') == if v.Some? && k == k' then Some(JNum(v.value)) else None
  {
  }

  // ---- Lists ----

  function EncodeList<T>(xs: seq<T>, enc: T -> Json): (r: seq<Json>)
    ensures |r| == |xs| && forall i :: 0 <= i < |xs| ==> r[i] == enc(xs[i])
  {
    seq(|xs|, i requires 0 <= i < |xs| => enc(xs[i]))
  }

  /** Reads every element, failing when one of them fails. */
  function DecodeList<T>(items: seq<Json>, dec: Json -> Option<T>): (r: Option<seq<T>>)
    ensures r.Some? ==> |r.value| == |items|
  {
    if items == [] then Some([])
    else
      match dec(items[0])
      case None => None
      case Some(x) =>
        match DecodeList(items[1..], dec)
        case None => None
        case Some(rest) => Some([x] + rest)
  }

  lemma {:induction false} DecodeEncodeList<T>(xs: seq<T>, enc: T -> Json, dec: Json -> Option<T>)
    requires forall i :: 0 <= i < |xs| ==> dec(enc(xs[i])) == Some(xs[i])
    ensures DecodeList(EncodeList(xs, enc), dec) == Some(xs)
  {
    if xs != [] {
      var items := EncodeList(xs, enc);
      assert items[1..] == EncodeList(xs[1..], enc);
      DecodeEncodeList(xs[1..], enc, dec);
      assert xs == [xs[0]] + xs[1..];
    }
  }

  // ---- Records ----

  datatype GroundingFile = GroundingFile(id: string, name: string, content: string)

  datatype Sender = User | Assistant

  /** A transcript line; the timestamp is milliseconds since the epoch. */
  datatype HistoryItem = HistoryItem(id: string, transcript: string, groundingFiles: Option<seq<GroundingFile>>, sender: Sender, timestamp: int)

  function SenderName(s: Sender): string
  {
    match s
    case User => "user"
    case Assistant => "assistant"
  }

  /** The sender of a history item is exactly one of the two names. */
  function ParseSender(name: string): (r: Option<Sender>)
    ensures r.Some? <==> name == "user" || name == "assistant"
    ensures r.Some? ==> SenderName(r.value) == name
  {
    if name == "user" then Some(User) else if name == "assistant" then Some(Assistant) else None
  }

  lemma {:induction false} SenderNameRoundTrip(s: Sender)
    ensures ParseSender(SenderName(s)) == Some(s)
  {
  }

  // ---- Outbound commands ----

  datatype TurnDetectionType = ServerVad | NoTurnDetection

  datatype TurnDetection = TurnDetection(kind: TurnDetectionType, threshold: Option<real>, prefixPaddingMs: Option<real>, silenceDurationMs: Option<real>)

  /** The one transcription model the type allows, "whisper-1". */
  datatype TranscriptionModel = Whisper1

  datatype Session = Session(turnDetection: Option<TurnDetection>, inputAudioTranscription: Option<TranscriptionModel>)

  datatype Command =
    | SessionUpdate(session: Session)
    | InputAudioBufferAppend(audio: string)
    | InputAudioBufferClear

  function TurnDetectionTypeName(t: TurnDetectionType): string
  {
    match t
    case ServerVad => "server_vad"
    case NoTurnDetection => "none"
  }

  function ParseTurnDetectionType(name: string): (r: Option<TurnDetectionType>)
    ensures r.Some? <==> name == "server_vad" || name == "none"
    ensures r.Some? ==> TurnDetectionTypeName(r.value) == name
  {
    if name == "server_vad" then Some(ServerVad) else if name == "none" then Some(NoTurnDetection) else None
  }

  function TurnDetectionToJson(t: TurnDetection): (r: Json)
    ensures r.JObj? && |r.fields| >= 1 && r.fields[0] == ("type", JStr(TurnDetectionTypeName(t.kind)))
  {
    JObj([("type", JStr(TurnDetectionTypeName(t.kind)))]
      + OptNum("threshold", t.threshold) + OptNum("prefix_padding_ms", t.prefixPaddingMs)
      + OptNum("silence_duration_ms", t.silenceDurationMs))
  }

  function TurnDetectionFromJson(v: Json): (r: Option<TurnDetection>)
    ensures r.Some? ==> StrMember(v, "type") == Some(TurnDetectionTypeName(r.value.kind))
    ensures r.Some? ==> OptNumMember(v, "threshold") == Some(r.value.threshold)
    ensures r.Some? ==> OptNumMember(v, "prefix_padding_ms") == Some(r.value.prefixPaddingMs)
    ensures r.Some? ==> OptNumMember(v, "silence_duration_ms") == Some(r.value.silenceDurationMs)
  {
    var name := StrMember(v, "type");
    var kind := if name.Some? then ParseTurnDetectionType(name.value) else None;
    var th, pp, sd := OptNumMember(v, "threshold"), OptNumMember(v, "prefix_padding_ms"), OptNumMember(v, "silence_duration_ms");
    if kind.Some? && th.Some? && pp.Some? && sd.Some? then Some(TurnDetection(kind.value, th.value, pp.value, sd.value))
    else None
  }

  function TranscriptionToJson(m: TranscriptionModel): (r: Json)
    ensures StrMember(r, "model") == Some("whisper-1")
  {
    JObj([("model", JStr("whisper-1"))])
  }

  function TranscriptionFromJson(v: Json): (r: Option<TranscriptionModel>)
    ensures r.Some? <==> StrMember(v, "model") == Some("whisper-1")
  {
    if StrMember(v, "model") == Some("whisper-1") then Some(Whisper1) else None
  }

  function SessionToJson(s: Session): (r: Json)
    ensures r.JObj? && |r.fields| == (if s.turnDetection.Some? then 1 else 0) + (if s.inputAudioTranscription.Some? then 1 else 0)
  {
    JObj((if s.turnDetection.Some? then [("turn_detection", TurnDetectionToJson(s.turnDetection.value))] else [])
      + (if s.inputAudioTranscription.Some? then [("input_audio_transcription", TranscriptionToJson(s.inputAudioTranscription.value))] else []))
  }

  /** A session: each member is optional, but one that is present must read. */
  function SessionFromJson(v: Json): (r: Option<Session>)
    ensures r.Some? ==> v.JObj?
    ensures r.Some? ==> (r.value.turnDetection.Some? <==> Member(v, "turn_detection").Some?)
    ensures r.Some? ==> (r.value.inputAudioTranscription.Some? <==> Member(v, "input_audio_transcription").Some?)
  {
    var td, iat := Member(v, "turn_detection"), Member(v, "input_audio_transcription");
    var t := if td.Some? then TurnDetectionFromJson(td.value) else None;
    var m := if iat.Some? then TranscriptionFromJson(iat.value) else None;
    if v.JObj? && (td.None? || t.Some?) && (iat.None? || m.Some?) then Some(Session(t, m)) else None
  }

  /** The message tag of each command. */
  function CommandType(c: Command): string
  {
    match c
    case SessionUpdate(_) => "session.update"
    case InputAudioBufferAppend(_) => "input_audio_buffer.append"
    case InputAudioBufferClear => "input_audio_buffer.clear"
  }

  /** The object `sendJsonMessage` serialises: the tag first, then the command's members. */
  function CommandToJson(c: Command): (r: Json)
    ensures StrMember(r, "type") == Some(CommandType(c))
  {
    match c
    case SessionUpdate(s) => JObj([("type", JStr("session.update")), ("session", SessionToJson(s))])
    case InputAudioBufferAppend(a) => JObj([("type", JStr("input_audio_buffer.append")), ("audio", JStr(a))])
    case InputAudioBufferClear => JObj([("type", JStr("input_audio_buffer.clear"))])
  }

  function CommandFromJson(v: Json): (r: Option<Command>)
    ensures r.Some? ==> StrMember(v, "type") == Some(CommandType(r.value))
  {
    match StrMember(v, "type")
    case Some("session.update") =>
      (match Member(v, "session")
       case Some(s) => (match SessionFromJson(s) case Some(x) => Some(SessionUpdate(x)) case None => None)
       case None => None)
    case Some("input_audio_buffer.append") =>
      (match StrMember(v, "audio") case Some(a) => Some(InputAudioBufferAppend(a)) case None => None)
    case Some("input_audio_buffer.clear") => Some(InputAudioBufferClear)
    case _ => None
  }

  lemma {:induction false} TurnDetectionMember(t: TurnDetection, k: string)
    ensures Member(TurnDetectionToJson(t), k) == (if k == "type" then Some(JStr(TurnDetectionTypeName(t.kind)))
      else if k == "threshold" && t.threshold.Some? then Some(JNum(t.threshold.value))
      else if k == "prefix_padding_ms" && t.prefixPaddingMs.Some? then Some(JNum(t.prefixPaddingMs.value))
      else if k == "silence_duration_ms" && t.silenceDurationMs.Some? then Some(JNum(t.silenceDurationMs.value))
      else None)
  {
    var head: Fields := [("type", JStr(TurnDetectionTypeName(t.kind)))];
    var a, b, c := OptNum("threshold", t.threshold), OptNum("prefix_padding_ms", t.prefixPaddingMs), OptNum("silence_duration_ms", t.silenceDurationMs);
    OrderedDict.GetConcat(head + a + b, c, k);
    OrderedDict.GetConcat(head + a, b, k);
    OrderedDict.GetConcat(head, a, k);
    GetOptNum("threshold", t.threshold, k);
    GetOptNum("prefix_padding_ms", t.prefixPaddingMs, k);
    GetOptNum("silence_duration_ms", t.silenceDurationMs, k);
  }

  lemma {:induction false} TurnDetectionMembers(t: TurnDetection)
    ensures StrMember(TurnDetectionToJson(t), "type") == Some(TurnDetectionTypeName(t.kind))
    ensures OptNumMember(TurnDetectionToJson(t), "threshold") == Some(t.threshold)
    ensures OptNumMember(TurnDetectionToJson(t), "prefix_padding_ms") == Some(t.prefixPaddingMs)
    ensures OptNumMember(TurnDetectionToJson(t), "silence_duration_ms") == Some(t.silenceDurationMs)
  {
    TurnDetectionMember(t, "type");
    TurnDetectionMember(t, "threshold");
    TurnDetectionMember(t, "prefix_padding_ms");
    TurnDetectionMember(t, "silence_duration_ms");
  }

  lemma {:induction false} TurnDetectionRoundTrip(t: TurnDetection)
    ensures TurnDetectionFromJson(TurnDetectionToJson(t)) == Some(t)
  {
    var v := TurnDetectionToJson(t);
    TurnDetectionMembers(t);
    var name := StrMember(v, "type");
    assert name == Some(TurnDetectionTypeName(t.kind));
    var kind := ParseTurnDetectionType(name.value);
    assert kind == Some(t.kind) by {
      if t.kind == ServerVad {
        assert name.value == "server_vad";
      } else {
        assert name.value == "none";
      }
    }
  }

  lemma {:induction false} SessionRoundTrip(s: Session)
    ensures SessionFromJson(SessionToJson(s)) == Some(s)
  {
    var a: Fields := if s.turnDetection.Some? then [("turn_detection", TurnDetectionToJson(s.turnDetection.value))] else [];
    var b: Fields := if s.inputAudioTranscription.Some? then [("input_audio_transcription", TranscriptionToJson(Whisper1))] else [];
    var v := SessionToJson(s);
    assert v.fields == a + b;
    OrderedDict.GetConcat(a, b, "turn_detection");
    OrderedDict.GetConcat(a, b, "input_audio_transcription");
    OrderedDict.GetLiteral(a, "turn_detection");
    OrderedDict.GetLiteral(a, "input_audio_transcription");
    OrderedDict.GetLiteral(b, "turn_detection");
    OrderedDict.GetLiteral(b, "input_audio_transcription");
    var td, iat := Member(v, "turn_detection"), Member(v, "input_audio_transcription");
    var t := if td.Some? then TurnDetectionFromJson(td.value) else None;
    var m := if iat.Some? then TranscriptionFromJson(iat.value) else None;
    assert t == s.turnDetection by {
      if s.turnDetection.Some? {
        TurnDetectionRoundTrip(s.turnDetection.value);
      }
    }
    assert m == s.inputAudioTranscription by {
      if s.inputAudioTranscription.Some? {
        var j := TranscriptionToJson(Whisper1);
        OrderedDict.GetLiteral(j.fields, "model");
        assert iat == Some(j);
        assert StrMember(j, "model") == Some("whisper-1");
        assert TranscriptionFromJson(j) == Some(Whisper1);
        assert m == Some(Whisper1);
        assert s.inputAudioTranscription.value.Whisper1?;
      } else {
        assert iat == None;
      }
    }
  }

  /** Every command reads back from the JSON it is sent as. */
  lemma {:induction false} CommandRoundTrip(c: Command)
    ensures CommandFromJson(CommandToJson(c)) == Some(c)
  {
    var v := CommandToJson(c);
    OrderedDict.GetLiteral(v.fields, "type");
    match c
    case SessionUpdate(s) =>
      SessionRoundTrip(s);
      OrderedDict.GetLiteral(v.fields, "session");
    case InputAudioBufferAppend(a) =>
      OrderedDict.GetLiteral(v.fields, "audio");
    case InputAudioBufferClear =>
  }

  // ---- Inbound events ----

  datatype ContentPart = ContentPart(transcript: string, partType: string)

  datatype OutputItem = OutputItem(id: string, content: Option<seq<ContentPart>>)

  datatype Response = Response(id: string, output: seq<OutputItem>)

  datatype Source = Source(chunkId: string, title: string, chunk: string)

  /** The parsed `tool_result` of a tool response. */
  datatype ToolResult = ToolResult(sources: seq<Source>)

  datatype Inbound =
    | ResponseAudioDelta(delta: string)
    | ResponseAudioTranscriptDelta(delta: string)
    | InputAudioTranscriptionCompleted(eventId: string, itemId: string, contentIndex: real, transcript: string)
    | ResponseDone(eventId: string, response: Response)
    | ExtensionMiddleTierToolResponse(previousItemId: string, toolName: string, toolResult: string)

  function InboundType(m: Inbound): string
  {
    match m
    case ResponseAudioDelta(_) => "response.audio.delta"
    case ResponseAudioTranscriptDelta(_) => "response.audio_transcript.delta"
    case InputAudioTranscriptionCompleted(_, _, _, _) => "conversation.item.input_audio_transcription.completed"
    case ResponseDone(_, _) => "response.done"
    case ExtensionMiddleTierToolResponse(_, _, _) => "extension.middle_tier_tool.response"
  }

  function ContentPartToJson(p: ContentPart): (r: Json)
    ensures r.JObj? && OrderedDict.Keys(r.fields) == ["transcript", "type"]
  {
    JObj([("transcript", JStr(p.transcript)), ("type", JStr(p.partType))])
  }

  function ContentPartFromJson(v: Json): (r: Option<ContentPart>)
    ensures r.Some? <==> StrMember(v, "transcript").Some? && StrMember(v, "type").Some?
    ensures r.Some? ==> StrMember(v, "transcript") == Some(r.value.transcript) && StrMember(v, "type") == Some(r.value.partType)
  {
    var t, ty := StrMember(v, "transcript"), StrMember(v, "type");
    if t.Some? && ty.Some? then Some(ContentPart(t.value, ty.value)) else None
  }

  function OutputItemToJson(o: OutputItem): (r: Json)
    ensures r.JObj? && |r.fields| == (if o.content.Some? then 2 else 1) && r.fields[0] == ("id", JStr(o.id))
  {
    JObj([("id", JStr(o.id))] + if o.content.Some? then [("content", JArr(EncodeList(o.content.value, ContentPartToJson)))] else [])
  }

  function OutputItemFromJson(v: Json): (r: Option<OutputItem>)
    ensures r.Some? ==> StrMember(v, "id") == Some(r.value.id)
    ensures r.Some? ==> (r.value.content.None? <==> Member(v, "content").None?)
  {
    match StrMember(v, "id")
    case None => None
    case Some(id) =>
      match Member(v, "content")
      case None => Some(OutputItem(id, None))
      case Some(JArr(items)) =>
        (match DecodeList(items, ContentPartFromJson) case Some(c) => Some(OutputItem(id, Some(c))) case None => None)
      case Some(_) => None
  }

  function ResponseToJson(r: Response): (j: Json)
    ensures j.JObj? && OrderedDict.Keys(j.fields) == ["id", "output"]
  {
    JObj([("id", JStr(r.id)), ("output", JArr(EncodeList(r.output, OutputItemToJson)))])
  }

  function ResponseFromJson(v: Json): (r: Option<Response>)
    ensures r.Some? ==> StrMember(v, "id") == Some(r.value.id)
    ensures r.Some? ==> Member(v, "output").Some? && Member(v, "output").value.JArr?
    ensures r.Some? ==> |r.value.output| == |Member(v, "output").value.items|
  {
    var id, output := StrMember(v, "id"), Member(v, "output");
    var items := if output.Some? && output.value.JArr? then DecodeList(output.value.items, OutputItemFromJson) else None;
    if id.Some? && items.Some? then Some(Response(id.value, items.value)) else None
  }

  function SourceToJson(s: Source): (r: Json)
    ensures r.JObj? && OrderedDict.Keys(r.fields) == ["chunk_id", "title", "chunk"]
  {
    JObj([("chunk_id", JStr(s.chunkId)), ("title", JStr(s.title)), ("chunk", JStr(s.chunk))])
  }

  function SourceFromJson(v: Json): (r: Option<Source>)
    ensures r.Some? <==> StrMember(v, "chunk_id").Some? && StrMember(v, "title").Some? && StrMember(v, "chunk").Some?
    ensures r.Some? ==> StrMember(v, "chunk_id") == Some(r.value.chunkId)
    ensures r.Some? ==> StrMember(v, "title") == Some(r.value.title) && StrMember(v, "chunk") == Some(r.value.chunk)
  {
    var id, t, c := StrMember(v, "chunk_id"), StrMember(v, "title"), StrMember(v, "chunk");
    if id.Some? && t.Some? && c.Some? then Some(Source(id.value, t.value, c.value)) else None
  }

  function ToolResultToJson(r: ToolResult): (j: Json)
    ensures Member(j, "sources").Some? && Member(j, "sources").value.JArr? && |Member(j, "sources").value.items| == |r.sources|
  {
    JObj([("sources", JArr(EncodeList(r.sources, SourceToJson)))])
  }

  /** `JSON.parse(tool_result)` read as a `ToolResult`. */
  function ToolResultFromJson(v: Json): (r: Option<ToolResult>)
    ensures r.Some? ==> Member(v, "sources").Some? && Member(v, "sources").value.JArr?
    ensures r.Some? ==> |r.value.sources| == |Member(v, "sources").value.items|
  {
    match Member(v, "sources")
    case Some(JArr(items)) =>
      (match DecodeList(items, SourceFromJson) case Some(s) => Some(ToolResult(s)) case None => None)
    case _ => None
  }

  function InboundToJson(m: Inbound): (r: Json)
    ensures StrMember(r, "type") == Some(InboundType(m))
  {
    match m
    case ResponseAudioDelta(d) => JObj([("type", JStr("response.audio.delta")), ("delta", JStr(d))])
    case ResponseAudioTranscriptDelta(d) => JObj([("type", JStr("response.audio_transcript.delta")), ("delta", JStr(d))])
    case InputAudioTranscriptionCompleted(e, i, c, t) =>
      JObj([("type", JStr("conversation.item.input_audio_transcription.completed")), ("event_id", JStr(e)),
            ("item_id", JStr(i)), ("content_index", JNum(c)), ("transcript", JStr(t))])
    case ResponseDone(e, r) => JObj([("type", JStr("response.done")), ("event_id", JStr(e)), ("response", ResponseToJson(r))])
    case ExtensionMiddleTierToolResponse(p, n, t) =>
      JObj([("type", JStr("extension.middle_tier_tool.response")), ("previous_item_id", JStr(p)),
            ("tool_name", JStr(n)), ("tool_result", JStr(t))])
  }

  function TranscriptionCompletedFromJson(v: Json): (r: Option<Inbound>)
    ensures r.Some? ==> r.value.InputAudioTranscriptionCompleted?
    ensures r.Some? ==> StrMember(v, "event_id") == Some(r.value.eventId)
    ensures r.Some? ==> StrMember(v, "item_id") == Some(r.value.itemId)
    ensures r.Some? ==> NumMember(v, "content_index") == Some(r.value.contentIndex)
    ensures r.Some? ==> StrMember(v, "transcript") == Some(r.value.transcript)
  {
    var e, i, c, t := StrMember(v, "event_id"), StrMember(v, "item_id"), NumMember(v, "content_index"), StrMember(v, "transcript");
    if e.Some? && i.Some? && c.Some? && t.Some? then Some(InputAudioTranscriptionCompleted(e.value, i.value, c.value, t.value)) else None
  }

  function ResponseDoneFromJson(v: Json): (r: Option<Inbound>)
    ensures r.Some? ==> r.value.ResponseDone? && StrMember(v, "event_id") == Some(r.value.eventId)
    ensures r.Some? ==> Member(v, "response").Some? && ResponseFromJson(Member(v, "response").value) == Some(r.value.response)
  {
    var e, r := StrMember(v, "event_id"), Member(v, "response");
    var response := if r.Some? then ResponseFromJson(r.value) else None;
    if e.Some? && response.Some? then Some(ResponseDone(e.value, response.value)) else None
  }

  function ToolResponseFromJson(v: Json): (r: Option<Inbound>)
    ensures r.Some? <==> StrMember(v, "previous_item_id").Some? && StrMember(v, "tool_name").Some? && StrMember(v, "tool_result").Some?
    ensures r.Some? ==> r.value.ExtensionMiddleTierToolResponse?
    ensures r.Some? ==> StrMember(v, "previous_item_id") == Some(r.value.previousItemId)
    ensures r.Some? ==> StrMember(v, "tool_name") == Some(r.value.toolName)
    ensures r.Some? ==> StrMember(v, "tool_result") == Some(r.value.toolResult)
  {
    var p, n, t := StrMember(v, "previous_item_id"), StrMember(v, "tool_name"), StrMember(v, "tool_result");
    if p.Some? && n.Some? && t.Some? then Some(ExtensionMiddleTierToolResponse(p.value, n.value, t.value)) else None
  }

  /** Reads an inbound event by its tag; None for another tag or a missing member. */
  function DeltaFromJson(v: Json, audio: bool): (r: Option<Inbound>)
    ensures r.Some? <==> StrMember(v, "delta").Some?
    ensures r.Some? ==> (r.value.ResponseAudioDelta? <==> audio)
    ensures r.Some? ==> (r.value.ResponseAudioDelta? || r.value.ResponseAudioTranscriptDelta?)
    ensures r.Some? ==> Some(r.value.delta) == StrMember(v, "delta")
  {
    match StrMember(v, "delta")
    case Some(d) => Some(if audio then ResponseAudioDelta(d) else ResponseAudioTranscriptDelta(d))
    case None => None
  }

  /** Reads an inbound event by its tag; None for another tag or a missing member. */
  function InboundFromJson(v: Json): (r: Option<Inbound>)
    ensures r.Some? ==> StrMember(v, "type").Some?
    ensures r.Some? && r.value.ResponseAudioDelta? ==> StrMember(v, "type") == Some("response.audio.delta")
    ensures r.Some? && r.value.ResponseAudioTranscriptDelta? ==> StrMember(v, "type") == Some("response.audio_transcript.delta")
    ensures r.Some? && r.value.InputAudioTranscriptionCompleted? ==>
      StrMember(v, "type") == Some("conversation.item.input_audio_transcription.completed")
    ensures r.Some? && r.value.ResponseDone? ==> StrMember(v, "type") == Some("response.done")
    ensures r.Some? && r.value.ExtensionMiddleTierToolResponse? ==> StrMember(v, "type") == Some("extension.middle_tier_tool.response")
  {
    match StrMember(v, "type")
    case Some(tag) =>
      if tag == "response.audio.delta" then DeltaFromJson(v, true)
      else if tag == "response.audio_transcript.delta" then DeltaFromJson(v, false)
      else if tag == "conversation.item.input_audio_transcription.completed" then TranscriptionCompletedFromJson(v)
      else if tag == "response.done" then ResponseDoneFromJson(v)
      else if tag == "extension.middle_tier_tool.response" then ToolResponseFromJson(v)
      else None
    case None => None
  }

  lemma {:induction false} ContentPartRoundTrip(p: ContentPart)
    ensures ContentPartFromJson(ContentPartToJson(p)) == Some(p)
  {
    var f := ContentPartToJson(p).fields;
    OrderedDict.GetLiteral(f, "transcript");
    OrderedDict.GetLiteral(f, "type");
  }

  lemma {:induction false} SourceRoundTrip(s: Source)
    ensures SourceFromJson(SourceToJson(s)) == Some(s)
  {
    var f := SourceToJson(s).fields;
    OrderedDict.GetLiteral(f, "chunk_id");
    OrderedDict.GetLiteral(f, "title");
    OrderedDict.GetLiteral(f, "chunk");
  }

  lemma {:induction false} OutputItemRoundTrip(o: OutputItem)
    ensures OutputItemFromJson(OutputItemToJson(o)) == Some(o)
  {
    var v := OutputItemToJson(o);
    OrderedDict.GetLiteral(v.fields, "id");
    OrderedDict.GetLiteral(v.fields, "content");
    if o.content.Some? {
      var parts := o.content.value;
      forall i | 0 <= i < |parts| ensures ContentPartFromJson(ContentPartToJson(parts[i])) == Some(parts[i]) {
        ContentPartRoundTrip(parts[i]);
      }
      DecodeEncodeList(parts, ContentPartToJson, ContentPartFromJson);
    }
  }

  lemma {:induction false} ResponseRoundTrip(r: Response)
    ensures ResponseFromJson(ResponseToJson(r)) == Some(r)
  {
    forall i | 0 <= i < |r.output| ensures OutputItemFromJson(OutputItemToJson(r.output[i])) == Some(r.output[i]) {
      OutputItemRoundTrip(r.output[i]);
    }
    DecodeEncodeList(r.output, OutputItemToJson, OutputItemFromJson);
    var v := ResponseToJson(r);
    OrderedDict.GetLiteral(v.fields, "id");
    OrderedDict.GetLiteral(v.fields, "output");
  }

  /** The sources of a tool result read back from its JSON form. */
  lemma {:induction false} ToolResultRoundTrip(r: ToolResult)
    ensures ToolResultFromJson(ToolResultToJson(r)) == Some(r)
  {
    forall i | 0 <= i < |r.sources| ensures SourceFromJson(SourceToJson(r.sources[i])) == Some(r.sources[i]) {
      SourceRoundTrip(r.sources[i]);
    }
    DecodeEncodeList(r.sources, SourceToJson, SourceFromJson);
    OrderedDict.GetLiteral(ToolResultToJson(r).fields, "sources");
  }

  /** Proof helper: the five tags differ, here by their lengths. */
  lemma {:induction false} TagsDistinct()
    ensures |"response.audio.delta"| == 20 && |"response.audio_transcript.delta"| == 31
    ensures |"conversation.item.input_audio_transcription.completed"| == 53
    ensures |"response.done"| == 13 && |"extension.middle_tier_tool.response"| == 35
  {
  }

  lemma {:induction false} DeltaRoundTrip(m: Inbound)
    requires m.ResponseAudioDelta? || m.ResponseAudioTranscriptDelta?
    ensures InboundFromJson(InboundToJson(m)) == Some(m)
  {
    var v := InboundToJson(m);
    OrderedDict.GetLiteral(v.fields, "type");
    OrderedDict.GetLiteral(v.fields, "delta");
    assert StrMember(v, "delta") == Some(m.delta);
  }

  lemma {:induction false} TranscriptionCompletedIds(m: Inbound)
    requires m.InputAudioTranscriptionCompleted?
    ensures StrMember(InboundToJson(m), "event_id") == Some(m.eventId)
    ensures StrMember(InboundToJson(m), "item_id") == Some(m.itemId)
  {
    var f := InboundToJson(m).fields;
    assert |"type"| == 4 && |"event_id"| == 8 && |"item_id"| == 7;
    OrderedDict.GetLiteral(f, "event_id");
    OrderedDict.GetLiteral(f, "item_id");
  }

  lemma {:induction false} TranscriptionCompletedFields(m: Inbound)
    requires m.InputAudioTranscriptionCompleted?
    ensures TranscriptionCompletedFromJson(InboundToJson(m)) == Some(m)
  {
    var v := InboundToJson(m);
    var f := v.fields;
    TranscriptionCompletedIds(m);
    assert |"type"| == 4 && |"event_id"| == 8 && |"item_id"| == 7 && |"content_index"| == 13 && |"transcript"| == 10;
    assert NumMember(v, "content_index") == Some(m.contentIndex) by { OrderedDict.GetLiteral(f, "content_index"); }
    assert StrMember(v, "transcript") == Some(m.transcript) by { OrderedDict.GetLiteral(f, "transcript"); }
  }

  lemma {:induction false} TranscriptionCompletedRoundTrip(m: Inbound)
    requires m.InputAudioTranscriptionCompleted?
    ensures InboundFromJson(InboundToJson(m)) == Some(m)
  {
    TranscriptionCompletedFields(m);
    TagsDistinct();
  }

  lemma {:induction false} ResponseDoneFields(m: Inbound)
    requires m.ResponseDone?
    ensures ResponseDoneFromJson(InboundToJson(m)) == Some(m)
  {
    var v := InboundToJson(m);
    var f := v.fields;
    ResponseRoundTrip(m.response);
    assert StrMember(v, "event_id") == Some(m.eventId) by { OrderedDict.GetLiteral(f, "event_id"); }
    assert Member(v, "response") == Some(ResponseToJson(m.response)) by { OrderedDict.GetLiteral(f, "response"); }
  }

  lemma {:induction false} ResponseDoneRoundTrip(m: Inbound)
    requires m.ResponseDone?
    ensures InboundFromJson(InboundToJson(m)) == Some(m)
  {
    ResponseDoneFields(m);
    TagsDistinct();
    var v := InboundToJson(m);
    assert StrMember(v, "type") == Some("response.done");
    assert InboundFromJson(v) == ResponseDoneFromJson(v);
  }

  lemma {:induction false} ToolResponseFields(m: Inbound)
    requires m.ExtensionMiddleTierToolResponse?
    ensures ToolResponseFromJson(InboundToJson(m)) == Some(m)
  {
    var v := InboundToJson(m);
    var f := v.fields;
    assert StrMember(v, "previous_item_id") == Some(m.previousItemId) by { OrderedDict.GetLiteral(f, "previous_item_id"); }
    assert StrMember(v, "tool_name") == Some(m.toolName) by { OrderedDict.GetLiteral(f, "tool_name"); }
    assert StrMember(v, "tool_result") == Some(m.toolResult) by { OrderedDict.GetLiteral(f, "tool_result"); }
  }

  lemma {:induction false} ToolResponseRoundTrip(m: Inbound)
    requires m.ExtensionMiddleTierToolResponse?
    ensures InboundFromJson(InboundToJson(m)) == Some(m)
  {
    ToolResponseFields(m);
    TagsDistinct();
  }

  /** Every inbound event reads back from its JSON form, tag included. */
  lemma {:induction false} InboundRoundTrip(m: Inbound)
    ensures InboundFromJson(InboundToJson(m)) == Some(m)
  {
    match m
    case ResponseAudioDelta(_) => DeltaRoundTrip(m);
    case ResponseAudioTranscriptDelta(_) => DeltaRoundTrip(m);
    case InputAudioTranscriptionCompleted(_, _, _, _) => TranscriptionCompletedRoundTrip(m);
    case ResponseDone(_, _) => ResponseDoneRoundTrip(m);
    case ExtensionMiddleTierToolResponse(_, _, _) => ToolResponseRoundTrip(m);
  }
}
