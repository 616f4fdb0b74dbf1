/**
 * The `useRealTime` hook: the socket URL, the three outbound commands, and
 * the inbound dispatch that reads each frame's `type` and calls the one
 * matching optional handler. Handlers are identified by name; the hook's
 * caller registers any subset of them.
 */
module UseRealtime {
  import opened Wrappers
  import opened Json
  import Types
  import OrderedDict

  /** The 27 optional `onReceived…` handlers, in the order the dispatch tests for them. */
  datatype HandlerId =
    | OnSessionCreated | OnItemCreated | OnItemDeleted | OnItemTruncated | OnResponseCreated
    | OnResponseDone | OnResponseCancelled | OnRateLimitsUpdated | OnResponseOutputItemAdded
    | OnResponseOutputItemDone | OnResponseContentPartAdded | OnResponseContentPartDone
    | OnResponseAudioDelta | OnResponseAudioDone | OnResponseAudioTranscriptDelta
    | OnResponseAudioTranscriptDone | OnResponseTextDelta | OnResponseTextDone
    | OnResponseFunctionCallArgumentsDelta | OnResponseFunctionCallArgumentsDone
    | OnInputAudioBufferSpeechStarted | OnInputAudioBufferSpeechStopped
    | OnItemInputAudioTranscriptionCompleted | OnItemInputAudioTranscriptionFailed
    | OnInputAudioBufferCommitted | OnInputAudioBufferCleared | OnError

  /**
   * The `type` value each handler is dispatched on. Four of them are written
   * with a dot after `response`; no other has a dot at that position.
   */
  function Discriminant(h: HandlerId): (r: string)
    ensures (|r| > 8 && r[8] == '.') <==> h in {OnResponseDone, OnResponseAudioDelta, OnResponseAudioDone, OnResponseAudioTranscriptDelta}
  {
    match h
    case OnSessionCreated => "session_created"
    case OnItemCreated => "item_created"
    case OnItemDeleted => "item_deleted"
    case OnItemTruncated => "item_truncated"
    case OnResponseCreated => "response_created"
    case OnResponseDone => "response.done"
    case OnResponseCancelled => "response_cancelled"
    case OnRateLimitsUpdated => "rate_limits_updated"
    case OnResponseOutputItemAdded => "response_output_item_added"
    case OnResponseOutputItemDone => "response_output_item_done"
    case OnResponseContentPartAdded => "response_content_part_added"
    case OnResponseContentPartDone => "response_content_part_done"
    case OnResponseAudioDelta => "response.audio.delta"
    case OnResponseAudioDone => "response.audio.done"
    case OnResponseAudioTranscriptDelta => "response.audio_transcript.delta"
    case OnResponseAudioTranscriptDone => "response_audio_transcript_done"
    case OnResponseTextDelta => "response_text_delta"
    case OnResponseTextDone => "response_text_done"
    case OnResponseFunctionCallArgumentsDelta => "response_function_call_arguments_delta"
    case OnResponseFunctionCallArgumentsDone => "response_function_call_arguments_done"
    case OnInputAudioBufferSpeechStarted => "input_audio_buffer_speech_started"
    case OnInputAudioBufferSpeechStopped => "input_audio_buffer_speech_stopped"
    case OnItemInputAudioTranscriptionCompleted => "item_input_audio_transcription_completed"
    case OnItemInputAudioTranscriptionFailed => "item_input_audio_transcription_failed"
    case OnInputAudioBufferCommitted => "input_audio_buffer_committed"
    case OnInputAudioBufferCleared => "input_audio_buffer_cleared"
    case OnError => "error"
  }

  /** The cases of the `switch (message.type)`, in the order they are tested. */
  const SwitchOrder: seq<HandlerId> := [
    OnSessionCreated, OnItemCreated, OnItemDeleted, OnItemTruncated,
    OnResponseCreated, OnResponseDone, OnResponseCancelled, OnRateLimitsUpdated,
    OnResponseOutputItemAdded, OnResponseOutputItemDone, OnResponseContentPartAdded, OnResponseContentPartDone,
    OnResponseAudioDelta, OnResponseAudioDone, OnResponseAudioTranscriptDelta, OnResponseAudioTranscriptDone,
    OnResponseTextDelta, OnResponseTextDone, OnResponseFunctionCallArgumentsDelta, OnResponseFunctionCallArgumentsDone,
    OnInputAudioBufferSpeechStarted, OnInputAudioBufferSpeechStopped, OnItemInputAudioTranscriptionCompleted, OnItemInputAudioTranscriptionFailed,
    OnInputAudioBufferCommitted, OnInputAudioBufferCleared, OnError
  ]

  /** The first of `cases` whose discriminant is `t`: a case is selected only by its own discriminant, and only if it is listed. */
  function FirstCase(t: string, cases: seq<HandlerId>): (r: Option<HandlerId>)
    ensures r.Some? ==> r.value in cases && Discriminant(r.value) == t
    ensures r.None? <==> forall h :: h in cases ==> Discriminant(h) != t
    decreases |cases|
  {
    if cases == [] then None
    else if Discriminant(cases[0]) == t then Some(cases[0])
    else
      assert forall h :: h in cases <==> h == cases[0] || h in cases[1..];
      FirstCase(t, cases[1..])
  }

  /** The `switch (message.type)`: the first case equal to `t`, or none. */
  function HandlerFor(t: string): (r: Option<HandlerId>)
    ensures r.Some? ==> Discriminant(r.value) == t
  {
    FirstCase(t, SwitchOrder)
  }

  // ---- Proof helpers: the hook computes no fingerprint; these only show that
  // the 27 case strings are distinct, for DiscriminantInjective and FirstCase.

  /**
   * Proof helper. Three cheap observations of a string (its length, its
   * third character from the end, its sixth character) that already tell the
   * 27 discriminants apart.
   */
  function Fingerprint(s: string): (int, char, char)
  {
    (|s|, if |s| >= 3 then s[|s| - 3] else ' ', if |s| > 5 then s[5] else ' ')
  }

  /** Proof helper: each discriminant's fingerprint, written out. */
  function FingerprintOf(h: HandlerId): (int, char, char)
  {
    match h
    case OnSessionCreated => (15, 't', 'o')
    case OnItemCreated => (12, 't', 'c')
    case OnItemDeleted => (12, 't', 'd')
    case OnItemTruncated => (14, 't', 't')
    case OnResponseCreated => (16, 't', 'n')
    case OnResponseDone => (13, 'o', 'n')
    case OnResponseCancelled => (18, 'l', 'n')
    case OnRateLimitsUpdated => (19, 't', 'l')
    case OnResponseOutputItemAdded => (26, 'd', 'n')
    case OnResponseOutputItemDone => (25, 'o', 'n')
    case OnResponseContentPartAdded => (27, 'd', 'n')
    case OnResponseContentPartDone => (26, 'o', 'n')
    case OnResponseAudioDelta => (20, 'l', 'n')
    case OnResponseAudioDone => (19, 'o', 'n')
    case OnResponseAudioTranscriptDelta => (31, 'l', 'n')
    case OnResponseAudioTranscriptDone => (30, 'o', 'n')
    case OnResponseTextDelta => (19, 'l', 'n')
    case OnResponseTextDone => (18, 'o', 'n')
    case OnResponseFunctionCallArgumentsDelta => (38, 'l', 'n')
    case OnResponseFunctionCallArgumentsDone => (37, 'o', 'n')
    case OnInputAudioBufferSpeechStarted => (33, 't', '_')
    case OnInputAudioBufferSpeechStopped => (33, 'p', '_')
    case OnItemInputAudioTranscriptionCompleted => (40, 't', 'i')
    case OnItemInputAudioTranscriptionFailed => (37, 'l', 'i')
    case OnInputAudioBufferCommitted => (28, 't', '_')
    case OnInputAudioBufferCleared => (26, 'r', '_')
    case OnError => (5, 'r', ' ')
  }

  /** Proof helper: the fingerprint of each discriminant is the one written out. */
  lemma {:induction false} FingerprintOfDiscriminant(h: HandlerId)
    ensures Fingerprint(Discriminant(h)) == FingerprintOf(h)
  {
    match h
    case OnSessionCreated => assert Fingerprint("session_created") == (15, 't', 'o');
    case OnItemCreated => assert Fingerprint("item_created") == (12, 't', 'c');
    case OnItemDeleted => assert Fingerprint("item_deleted") == (12, 't', 'd');
    case OnItemTruncated => assert Fingerprint("item_truncated") == (14, 't', 't');
    case OnResponseCreated => assert Fingerprint("response_created") == (16, 't', 'n');
    case OnResponseDone => assert Fingerprint("response.done") == (13, 'o', 'n');
    case OnResponseCancelled => assert Fingerprint("response_cancelled") == (18, 'l', 'n');
    case OnRateLimitsUpdated => assert Fingerprint("rate_limits_updated") == (19, 't', 'l');
    case OnResponseOutputItemAdded => assert Fingerprint("response_output_item_added") == (26, 'd', 'n');
    case OnResponseOutputItemDone => assert Fingerprint("response_output_item_done") == (25, 'o', 'n');
    case OnResponseContentPartAdded => assert Fingerprint("response_content_part_added") == (27, 'd', 'n');
    case OnResponseContentPartDone => assert Fingerprint("response_content_part_done") == (26, 'o', 'n');
    case OnResponseAudioDelta => assert Fingerprint("response.audio.delta") == (20, 'l', 'n');
    case OnResponseAudioDone => assert Fingerprint("response.audio.done") == (19, 'o', 'n');
    case OnResponseAudioTranscriptDelta => assert Fingerprint("response.audio_transcript.delta") == (31, 'l', 'n');
    case OnResponseAudioTranscriptDone => assert Fingerprint("response_audio_transcript_done") == (30, 'o', 'n');
    case OnResponseTextDelta => assert Fingerprint("response_text_delta") == (19, 'l', 'n');
    case OnResponseTextDone => assert Fingerprint("response_text_done") == (18, 'o', 'n');
    case OnResponseFunctionCallArgumentsDelta => assert Fingerprint("response_function_call_arguments_delta") == (38, 'l', 'n');
    case OnResponseFunctionCallArgumentsDone => assert Fingerprint("response_function_call_arguments_done") == (37, 'o', 'n');
    case OnInputAudioBufferSpeechStarted => assert Fingerprint("input_audio_buffer_speech_started") == (33, 't', '_');
    case OnInputAudioBufferSpeechStopped => assert Fingerprint("input_audio_buffer_speech_stopped") == (33, 'p', '_');
    case OnItemInputAudioTranscriptionCompleted => assert Fingerprint("item_input_audio_transcription_completed") == (40, 't', 'i');
    case OnItemInputAudioTranscriptionFailed => assert Fingerprint("item_input_audio_transcription_failed") == (37, 'l', 'i');
    case OnInputAudioBufferCommitted => assert Fingerprint("input_audio_buffer_committed") == (28, 't', '_');
    case OnInputAudioBufferCleared => assert Fingerprint("input_audio_buffer_cleared") == (26, 'r', '_');
    case OnError => assert Fingerprint("error") == (5, 'r', ' ');
  }

  /** Proof helper: the handler with a given fingerprint, if any. */
  function HandlerOfFingerprint(f: (int, char, char)): (r: Option<HandlerId>)
    ensures r.Some? ==> FingerprintOf(r.value) == f
  {
    if f == (15, 't', 'o') then Some(OnSessionCreated)
    else if f == (12, 't', 'c') then Some(OnItemCreated)
    else if f == (12, 't', 'd') then Some(OnItemDeleted)
    else if f == (14, 't', 't') then Some(OnItemTruncated)
    else if f == (16, 't', 'n') then Some(OnResponseCreated)
    else if f == (13, 'o', 'n') then Some(OnResponseDone)
    else if f == (18, 'l', 'n') then Some(OnResponseCancelled)
    else if f == (19, 't', 'l') then Some(OnRateLimitsUpdated)
    else if f == (26, 'd', 'n') then Some(OnResponseOutputItemAdded)
    else if f == (25, 'o', 'n') then Some(OnResponseOutputItemDone)
    else if f == (27, 'd', 'n') then Some(OnResponseContentPartAdded)
    else if f == (26, 'o', 'n') then Some(OnResponseContentPartDone)
    else if f == (20, 'l', 'n') then Some(OnResponseAudioDelta)
    else if f == (19, 'o', 'n') then Some(OnResponseAudioDone)
    else if f == (31, 'l', 'n') then Some(OnResponseAudioTranscriptDelta)
    else if f == (30, 'o', 'n') then Some(OnResponseAudioTranscriptDone)
    else if f == (19, 'l', 'n') then Some(OnResponseTextDelta)
    else if f == (18, 'o', 'n') then Some(OnResponseTextDone)
    else if f == (38, 'l', 'n') then Some(OnResponseFunctionCallArgumentsDelta)
    else if f == (37, 'o', 'n') then Some(OnResponseFunctionCallArgumentsDone)
    else if f == (33, 't', '_') then Some(OnInputAudioBufferSpeechStarted)
    else if f == (33, 'p', '_') then Some(OnInputAudioBufferSpeechStopped)
    else if f == (40, 't', 'i') then Some(OnItemInputAudioTranscriptionCompleted)
    else if f == (37, 'l', 'i') then Some(OnItemInputAudioTranscriptionFailed)
    else if f == (28, 't', '_') then Some(OnInputAudioBufferCommitted)
    else if f == (26, 'r', '_') then Some(OnInputAudioBufferCleared)
    else if f == (5, 'r', ' ') then Some(OnError)
    else None
  }

  /** Proof helper: the fingerprint tells the handlers apart. */
  lemma {:induction false} FingerprintIdentifies(h: HandlerId)
    ensures HandlerOfFingerprint(Fingerprint(Discriminant(h))) == Some(h)
  {
    FingerprintOfDiscriminant(h);
    HandlerOfOwnFingerprint(h);
  }

  /** Proof helper: the written-out fingerprints are told apart by `HandlerOfFingerprint`, one handler at a time. */
  lemma {:induction false} HandlerOfOwnFingerprint(h: HandlerId)
    ensures HandlerOfFingerprint(FingerprintOf(h)) == Some(h)
  {
    match h
    case OnSessionCreated =>
    case OnItemCreated =>
    case OnItemDeleted =>
    case OnItemTruncated =>
    case OnResponseCreated =>
    case OnResponseDone =>
    case OnResponseCancelled =>
    case OnRateLimitsUpdated =>
    case OnResponseOutputItemAdded =>
    case OnResponseOutputItemDone =>
    case OnResponseContentPartAdded =>
    case OnResponseContentPartDone =>
    case OnResponseAudioDelta =>
    case OnResponseAudioDone =>
    case OnResponseAudioTranscriptDelta =>
    case OnResponseAudioTranscriptDone =>
    case OnResponseTextDelta =>
    case OnResponseTextDone =>
    case OnResponseFunctionCallArgumentsDelta =>
    case OnResponseFunctionCallArgumentsDone =>
    case OnInputAudioBufferSpeechStarted =>
    case OnInputAudioBufferSpeechStopped =>
    case OnItemInputAudioTranscriptionCompleted =>
    case OnItemInputAudioTranscriptionFailed =>
    case OnInputAudioBufferCommitted =>
    case OnInputAudioBufferCleared =>
    case OnError =>
  }

  /** No two handlers share a discriminant. */
  lemma {:induction false} DiscriminantInjective(h1: HandlerId, h2: HandlerId)
    ensures Discriminant(h1) == Discriminant(h2) ==> h1 == h2
  {
    FingerprintIdentifies(h1);
    FingerprintIdentifies(h2);
  }

  /** With distinct discriminants, a listed case is selected by its own discriminant. */
  lemma {:induction false} FirstCaseFinds(h: HandlerId, cases: seq<HandlerId>)
    requires h in cases
    ensures FirstCase(Discriminant(h), cases) == Some(h)
    decreases |cases|
  {
    DiscriminantInjective(h, cases[0]);
    if cases[0] != h {
      assert h in cases[1..];
      FirstCaseFinds(h, cases[1..]);
    }
  }

  /** Each handler's own discriminant selects it. */
  lemma {:induction false} HandlerForDiscriminant(h: HandlerId)
    ensures HandlerFor(Discriminant(h)) == Some(h)
  {
    FirstCaseFinds(h, SwitchOrder);
  }

  /** A string selects a handler only when it is that handler's discriminant. */
  lemma {:induction false} DiscriminantOfHandlerFor(t: string)
    ensures HandlerFor(t).None? <==> forall h :: Discriminant(h) != t
  {
    if HandlerFor(t).None? {
      forall h ensures Discriminant(h) != t {
        HandlerForDiscriminant(h);
      }
    }
  }

  /** Proof helper: a string whose fingerprint is no handler's, or another string's, selects nothing. */
  lemma {:induction false} UnhandledByFingerprint(t: string)
    requires HandlerOfFingerprint(Fingerprint(t)).None? || Discriminant(HandlerOfFingerprint(Fingerprint(t)).value) != t
    ensures HandlerFor(t) == None
  {
    DiscriminantOfHandlerFor(t);
    if HandlerFor(t).Some? {
      FingerprintIdentifies(HandlerFor(t).value);
    }
  }

  /**
   * Frames with the dotted spellings that the service and the middle tier
   * also use (`input_audio_buffer.speech_started`, the middle tier's
   * `extension.middle_tier_tool.response`, `session.created`) reach no
   * handler: the switch lists the underscore forms.
   */
  lemma {:induction false} DottedFormsIgnored(message: Json, t: string)
    requires JsProp(message, "type") == Success(Some(JStr(t)))
    requires t == "input_audio_buffer.speech_started" || t == "extension.middle_tier_tool.response" || t == "session.created"
    ensures Dispatch(Some(message)) == Success(None)
  {
    DottedFormsUnhandled(t);
  }

  lemma {:induction false} DottedFormsUnhandled(t: string)
    requires t == "input_audio_buffer.speech_started" || t == "extension.middle_tier_tool.response" || t == "session.created"
    ensures HandlerFor(t) == None
  {
    if t == "input_audio_buffer.speech_started" {
      assert Fingerprint(t) == (33, 't', '_');
    } else if t == "extension.middle_tier_tool.response" {
      assert Fingerprint(t) == (35, 'n', 's');
    } else {
      assert Fingerprint(t) == (15, 't', 'o');
      assert Discriminant(OnSessionCreated)[7] != t[7];
    }
    UnhandledByFingerprint(t);
  }

  /**
   * The dispatch of one parsed frame (None when `JSON.parse` throws, which
   * is rethrown as a SyntaxError): reading `type` of `null` throws a
   * TypeError; a `type` that is not one of the discriminants, or not a
   * string, selects nothing.
   */
  function Dispatch(parsed: Option<Json>): (r: Result<Option<HandlerId>, JsError>)
    ensures parsed.None? ==> r == Failure(SyntaxError)
    ensures r.Failure? <==> parsed.None? || parsed.value.JNull?
    ensures r.Success? && r.value.Some? ==> JsProp(parsed.value, "type") == Success(Some(JStr(Discriminant(r.value.value))))
  {
    match parsed
    case None => Failure(SyntaxError)
    case Some(message) =>
      match JsProp(message, "type")
      case Failure(e) => Failure(e)
      case Success(Some(JStr(t))) =>
        DiscriminantOfHandlerFor(t);
        Success(HandlerFor(t))
      case Success(_) => Success(None)
  }

  /** Every frame whose `type` is a handler's discriminant selects that handler. */
  lemma {:induction false} DispatchSelects(message: Json, h: HandlerId)
    requires JsProp(message, "type") == Success(Some(JStr(Discriminant(h))))
    ensures Dispatch(Some(message)) == Success(Some(h))
  {
    HandlerForDiscriminant(h);
  }

  // ---- The socket URL ----

  /** An optional string parameter: `undefined`, `null` or a string. */
  datatype JsOptString = Undefined | Null | Str(s: string)

  /** The value of a string parameter inside a template literal. */
  function TemplateText(v: JsOptString): string
  {
    match v
    case Undefined => "undefined"
    case Null => "null"
    case Str(s) => s
  }

  /** `x ?? ""`. */
  function OrEmpty(v: JsOptString): string
  {
    if v.Str? then v.s else ""
  }

  const RealtimePath: string := "/realtime?api-key="
  const ApiVersionSuffix: string := "&api-version=alpha"

  /**
   * The URL splits back into its parts: the override (or nothing), the
   * path with the key parameter, the key's text, the version suffix.
   */
  function SocketUrl(endpointOverride: JsOptString, apiKey: JsOptString): (url: string)
    ensures var p := OrEmpty(endpointOverride) + RealtimePath;
      |url| == |p| + |TemplateText(apiKey)| + |ApiVersionSuffix|
      && url[..|p|] == p
      && url[|p|..|url| - |ApiVersionSuffix|] == TemplateText(apiKey)
      && url[|url| - |ApiVersionSuffix|..] == ApiVersionSuffix
  {
    var p, k := OrEmpty(endpointOverride) + RealtimePath, TemplateText(apiKey);
    var url := p + k + ApiVersionSuffix;
    assert url[..|p|] == p;
    assert url[|p|..|url| - |ApiVersionSuffix|] == k;
    url
  }

  /**
   * A missing key is not an error: the URL is the one for the key
   * "undefined" (or "null"), which the service then rejects.
   */
  lemma {:induction false} MissingKeyInUrl(endpointOverride: JsOptString)
    ensures SocketUrl(endpointOverride, Undefined) == SocketUrl(endpointOverride, Str("undefined"))
    ensures SocketUrl(endpointOverride, Null) == SocketUrl(endpointOverride, Str("null"))
    ensures forall k :: k != "undefined" ==> SocketUrl(endpointOverride, Undefined) != SocketUrl(endpointOverride, Str(k))
  {
  }

  /** Without an override the URL is relative to the page's origin. */
  lemma {:induction false} NoOverrideIsRelative(apiKey: JsOptString)
    ensures SocketUrl(Undefined, apiKey) == SocketUrl(Null, apiKey) == SocketUrl(Str(""), apiKey)
    ensures SocketUrl(Undefined, apiKey)[..|RealtimePath|] == RealtimePath
  {
  }

  // ---- Outbound commands ----

  /** The command `startSession` sends: server-side voice activity detection, no transcription. */
  const StartSessionCommand: Types.Command :=
    Types.SessionUpdate(Types.Session(Some(Types.TurnDetection(Types.ServerVad, None, None, None)), None))

  /** On the wire: `{type: "session.update", session: {turn_detection: {type: "server_vad"}}}`. */
  lemma {:induction false} StartSessionWire()
    ensures Types.CommandToJson(StartSessionCommand) ==
      JObj([("type", JStr("session.update")), ("session", JObj([("turn_detection", JObj([("type", JStr("server_vad"))]))]))])
    ensures Types.Member(Types.Member(Types.CommandToJson(StartSessionCommand), "session").value, "input_audio_transcription") == None
  {
    var vad := JObj([("type", JStr("server_vad"))]);
    var session := JObj([("turn_detection", vad)]);
    assert [("type", JStr("server_vad"))] + [] + [] + [] == vad.fields;
    assert Types.TurnDetectionToJson(StartSessionCommand.session.turnDetection.value) == vad;
    assert [("turn_detection", vad)] + [] == session.fields;
    assert Types.SessionToJson(StartSessionCommand.session) == session;
    OrderedDict.GetLiteral(Types.CommandToJson(StartSessionCommand).fields, "session");
    OrderedDict.GetLiteral(session.fields, "input_audio_transcription");
  }

  /** `addUserAudio(a)` on the wire: the tag and `a` itself. */
  lemma {:induction false} AddUserAudioWire(a: string)
    ensures Types.CommandToJson(Types.InputAudioBufferAppend(a)) ==
      JObj([("type", JStr("input_audio_buffer.append")), ("audio", JStr(a))])
    ensures Types.StrMember(Types.CommandToJson(Types.InputAudioBufferAppend(a)), "audio") == Some(a)
  {
    OrderedDict.GetLiteral(Types.CommandToJson(Types.InputAudioBufferAppend(a)).fields, "audio");
  }

  /** `inputAudioBufferClear()` on the wire: the tag alone. */
  lemma {:induction false} ClearWire()
    ensures Types.CommandToJson(Types.InputAudioBufferClear) == JObj([("type", JStr("input_audio_buffer.clear"))])
    ensures |Types.CommandToJson(Types.InputAudioBufferClear).fields| == 1
  {
  }

  /**
   * One mounted hook: the handlers its caller registered, whether an
   * `onWebSocketMessage` callback was given, the commands sent, the frames
   * handed to `onWebSocketMessage`, and the handler calls made, in order.
   */
  class RealtimeSession {
    const registered: set<HandlerId>
    const hasOnWebSocketMessage: bool
    var sent: seq<Types.Command>
    var observed: seq<string>
    var invoked: seq<(HandlerId, Json)>

    constructor(registered: set<HandlerId>, hasOnWebSocketMessage: bool)
      ensures this.registered == registered && this.hasOnWebSocketMessage == hasOnWebSocketMessage
      ensures sent == [] && observed == [] && invoked == []
    {
      this.registered := registered;
      this.hasOnWebSocketMessage := hasOnWebSocketMessage;
      sent := [];
      observed := [];
      invoked := [];
    }

    /** `startSession()`: exactly one session update is sent. */
    method StartSession()
      modifies this
      ensures sent == old(sent) + [StartSessionCommand]
      ensures observed == old(observed) && invoked == old(invoked)
    {
      sent := sent + [StartSessionCommand];
    }

    /** `addUserAudio(base64Audio)`: one append command carrying the audio unchanged. */
    method AddUserAudio(base64Audio: string)
      modifies this
      ensures sent == old(sent) + [Types.InputAudioBufferAppend(base64Audio)]
      ensures observed == old(observed) && invoked == old(invoked)
    {
      sent := sent + [Types.InputAudioBufferAppend(base64Audio)];
    }

    /** `inputAudioBufferClear()`: one clear command. */
    method InputAudioBufferClear()
      modifies this
      ensures sent == old(sent) + [Types.InputAudioBufferClear]
      ensures observed == old(observed) && invoked == old(invoked)
    {
      sent := sent + [Types.InputAudioBufferClear];
    }

    /**
     * `onMessageReceived(event)`: the frame first goes to
     * `onWebSocketMessage` when given, even if it does not parse; then the
     * selected handler, if registered, gets the parsed message. A parse
     * failure or a `null` message is thrown (`err`) and calls no handler.
     */
    method OnMessageReceived(frame: string, parsed: Option<Json>) returns (err: Option<JsError>)
      modifies this
      ensures observed == old(observed) + (if hasOnWebSocketMessage then [frame] else [])
      ensures err.Some? <==> Dispatch(parsed).Failure?
      ensures err.Some? ==> err.value == Dispatch(parsed).error && invoked == old(invoked)
      ensures err.None? ==>
        invoked == old(invoked) + (if Dispatch(parsed).value.Some? && Dispatch(parsed).value.value in registered
                                   then [(Dispatch(parsed).value.value, parsed.value)] else [])
      ensures sent == old(sent)
    {
      if hasOnWebSocketMessage {
        observed := observed + [frame];
      }
      match Dispatch(parsed)
      case Failure(e) =>
        return Some(e);
      case Success(selected) =>
        if selected.Some? && selected.value in registered {
          invoked := invoked + [(selected.value, parsed.value)];
        }
        return None;
    }
  }
}
