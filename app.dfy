/**
 * The client's `App` component in its older `event`-keyed dialect: the
 * module-level capture buffer and its 4800-byte chunking, the inbound
 * `event` switch whose only effect is playing `add_content` audio, the
 * Start/Stop button (`onTalk`), and the settings panel state.
 */
module LegacyApp {
  import opened Wrappers
  import opened Json
  import Base64
  import Pcm
  import Chunking
  import WebAudio
  import Recording
  import Playback

  type byte = Base64.byte

  const SampleRate: int := 24000

  // ---- Settings ----

  datatype Settings = Settings(temperature: real, systemPrompt: string, voice: string)

  const DefaultSettings: Settings := Settings(0.8, "", "alloy")

  /** The three keys the settings panel passes to `updateSetting`, with their values. */
  datatype SettingChange = SetTemperature(t: real) | SetSystemPrompt(p: string) | SetVoice(v: string)

  /** `{ ...prev, [key]: value }`: the named setting takes the value, the other two keep theirs. */
  function UpdateSetting(prev: Settings, change: SettingChange): (r: Settings)
    ensures change.SetTemperature? ==> r == prev.(temperature := change.t)
    ensures change.SetSystemPrompt? ==> r == prev.(systemPrompt := change.p)
    ensures change.SetVoice? ==> r == prev.(voice := change.v)
  {
    match change
    case SetTemperature(t) => Settings(t, prev.systemPrompt, prev.voice)
    case SetSystemPrompt(p) => Settings(prev.temperature, p, prev.voice)
    case SetVoice(v) => Settings(prev.temperature, prev.systemPrompt, v)
  }

  /** Setting the same value twice is setting it once. */
  lemma {:induction false} UpdateSettingIdempotent(s: Settings, c: SettingChange)
    ensures UpdateSetting(UpdateSetting(s, c), c) == UpdateSetting(s, c)
  {
  }

  /** Two changes name the same key. */
  predicate SameKey(c1: SettingChange, c2: SettingChange)
  {
    (c1.SetTemperature? && c2.SetTemperature?) || (c1.SetSystemPrompt? && c2.SetSystemPrompt?) || (c1.SetVoice? && c2.SetVoice?)
  }

  /** Changes to different keys commute; to the same key, the later one wins. */
  lemma {:induction false} UpdateSettingCommutes(s: Settings, c1: SettingChange, c2: SettingChange)
    ensures !SameKey(c1, c2) ==> UpdateSetting(UpdateSetting(s, c1), c2) == UpdateSetting(UpdateSetting(s, c2), c1)
    ensures SameKey(c1, c2) ==> UpdateSetting(UpdateSetting(s, c1), c2) == UpdateSetting(s, c2)
  {
  }

  // ---- Connection status ----

  /** `{[ReadyState.CONNECTING]: "Connecting", …}[readyState]`, keyed by the numeric ready states. */
  function ConnectionStatus(readyState: int): (r: Option<string>)
    ensures r.Some? <==> -1 <= readyState <= 3
  {
    if readyState == 0 then Some("Connecting")
    else if readyState == 1 then Some("Open")
    else if readyState == 2 then Some("Closing")
    else if readyState == 3 then Some("Closed")
    else if readyState == -1 then Some("Uninstantiated")
    else None
  }

  /** The five ready states have five different labels. */
  lemma {:induction false} ConnectionStatusDistinct(a: int, b: int)
    requires ConnectionStatus(a).Some? && ConnectionStatus(b).Some?
    ensures ConnectionStatus(a) == ConnectionStatus(b) ==> a == b
  {
  }

  // ---- Inbound messages ----

  /** What one inbound frame does. */
  datatype Effect =
    | PlayAudio(samples: seq<Pcm.int16>)  // `audioPlayer.play(pcmData)`
    | LogOnly                             // a listed event: only console output
    | NoCase                              // an `event` no case lists

  /** The `event` values the switch lists other than `add_content`; each only logs. */
  predicate LoggedEvent(e: string)
    ensures LoggedEvent(e) ==> e != "add_content" && |e| >= 5
  {
    e == "start_session" || e == "add_message" || e == "input_transcribed" || e == "generation_canceled"
    || e == "generation_finished" || e == "vad_speech_started" || e == "vad_speech_stopped" || e == "error"
  }

  // ---- `String(data)`, as `atob` receives it ----

  /** The character of a decimal digit. */
  function DigitChar(d: nat): (c: char)
    requires d < 10
    ensures '0' <= c <= '9' && c as int - '0' as int == d
  {
    ('0' as int + d) as char
  }

  /** The decimal digits of `n`, most significant first, without leading zeros. */
  function Decimal(n: nat): (r: string)
    ensures |r| >= 1 && (r[0] == '0' ==> n == 0)
    ensures forall i :: 0 <= i < |r| ==> '0' <= r[i] <= '9'
    decreases n
  {
    if n < 10 then [DigitChar(n)] else Decimal(n / 10) + [DigitChar(n % 10)]
  }

  /** The number a string of decimal digits denotes. */
  function DigitsValue(s: string): nat
    requires forall i :: 0 <= i < |s| ==> '0' <= s[i] <= '9'
    decreases |s|
  {
    if s == [] then 0 else DigitsValue(s[..|s| - 1]) * 10 + (s[|s| - 1] as int - '0' as int)
  }

  /** The digits denote the number they were written for. */
  lemma {:induction false} DecimalValue(n: nat)
    ensures DigitsValue(Decimal(n)) == n
    decreases n
  {
    if n >= 10 {
      var r := Decimal(n);
      assert r[..|r| - 1] == Decimal(n / 10);
      DecimalValue(n / 10);
    }
  }

  function Pow10(m: nat): (r: nat)
    ensures r >= 1
  {
    if m == 0 then 1 else 10 * Pow10(m - 1)
  }

  /** `k` as `d * 10^m` with a single digit `d` from 1 to 9, when it has that form. */
  function OneDigitForm(k: nat): (r: Option<(nat, nat)>)
    ensures r.Some? ==> 1 <= r.value.0 <= 9 && r.value.0 * Pow10(r.value.1) == k
    ensures 1 <= k <= 9 ==> r == Some((k, 0))
    decreases k
  {
    if 1 <= k <= 9 then Some((k, 0))
    else if k > 0 && k % 10 == 0 then
      match OneDigitForm(k / 10)
      case Some((d, m)) =>
        assert d * Pow10(m + 1) == 10 * (d * Pow10(m));
        Some((d, m + 1))
      case None => None
    else None
  }

  /**
   * What `atob` receives for a member value. `NotBase64` stands for a text
   * that holds `.` or `-`, characters `atob` rejects whatever else the text
   * holds; the model does not spell such texts out.
   */
  datatype AtobInput = Text(s: string) | NotBase64

  /** The 1e21 bound below which JavaScript writes an integer in plain decimal. */
  const ExponentFormBound: real := 1000000000000000000000.0

  /**
   * `String(n)` for a number: a negative number's text starts with `-`, and
   * a non-integral one's holds `.` (or `e-` below 1e-6). An integer below
   * 1e21 is written in decimal; a larger one as `de+m` when it has one
   * significant digit, and with a `.` otherwise.
   */
  function NumberText(n: real): (r: AtobInput)
    ensures r.Text? ==> Base64.AllSymbols(r.s)
    ensures 0.0 <= n < ExponentFormBound && n == n.Floor as real ==> r == Text(Decimal(n.Floor))
    ensures r.NotBase64? <==> n < 0.0 || n != n.Floor as real || (n >= ExponentFormBound && OneDigitForm(n.Floor).None?)
  {
    if n < 0.0 || n != n.Floor as real then NotBase64
    else if n < ExponentFormBound then Text(Decimal(n.Floor))
    else
      match OneDigitForm(n.Floor)
      case Some((d, m)) => Text([DigitChar(d)] + "e+" + Decimal(m))
      case None => NotBase64
  }

  /** `items.join(",")` over texts: a `NotBase64` part makes the whole text `NotBase64`. */
  function JoinTexts(ts: seq<AtobInput>): (r: AtobInput)
    ensures r.NotBase64? <==> exists i :: 0 <= i < |ts| && ts[i].NotBase64?
    ensures |ts| == 1 ==> r == ts[0]
    decreases |ts|
  {
    if ts == [] then Text("")
    else if |ts| == 1 then ts[0]
    else
      var rest := JoinTexts(ts[1..]);
      if ts[0].Text? && rest.Text? then Text(ts[0].s + "," + rest.s) else NotBase64
  }

  /**
   * JavaScript's `String(v)` for a parsed value: `null`, booleans and
   * strings as written, numbers by `NumberText`, an object as
   * `[object Object]`, and an array as its elements joined with commas,
   * a `null` element giving the empty string.
   */
  function JsString(v: Json): (r: AtobInput)
    ensures v.JStr? ==> r == Text(v.s)
    ensures r.NotBase64? ==> v.JNum? || v.JArr?
    decreases v
  {
    match v
    case JNull => Text("null")
    case JBool(b) => Text(if b then "true" else "false")
    case JNum(n) => NumberText(n)
    case JStr(s) => Text(s)
    case JObj(_) => Text("[object Object]")
    case JArr(items) =>
      JoinTexts(seq(|items|, i requires 0 <= i < |items| => if items[i].JNull? then Text("") else JsString(items[i])))
  }

  /** The argument of `atob(message.data)`: a missing member is `undefined`, anything else its string conversion. */
  function AtobArgument(data: Option<Json>): (r: AtobInput)
    ensures data.None? ==> r == Text("undefined")
    ensures data.Some? && data.value.JStr? ==> r == Text(data.value.s)
    ensures r.NotBase64? ==> data.Some? && (data.value.JNum? || data.value.JArr?)
  {
    match data
    case None => Text("undefined")
    case Some(v) => JsString(v)
  }

  /** `add_content` with `type === "audio"`: `atob(message.data)`, bytes, then `Int16Array`. */
  function AudioContent(message: Json): (r: Result<Effect, JsError>)
    requires message.JObj?
    ensures r.Success? ==> r.value.PlayAudio?
    ensures AtobArgument(OrderedDict.Get(message.fields, "data")).NotBase64? ==> r == Failure(InvalidCharacterError)
    ensures AtobArgument(OrderedDict.Get(message.fields, "data")).Text? ==>
      r == (match Pcm.DecodeDelta(AtobArgument(OrderedDict.Get(message.fields, "data")).s)
            case Failure(e) => Failure(e)
            case Success(pcmData) => Success(PlayAudio(pcmData)))
  {
    match AtobArgument(OrderedDict.Get(message.fields, "data"))
    case NotBase64 => Failure(InvalidCharacterError)
    case Text(b64) =>
      match Pcm.DecodeDelta(b64)
      case Failure(e) => Failure(e)
      case Success(pcmData) => Success(PlayAudio(pcmData))
  }

  /**
   * `onMessageReceived` up to the player call, on the parsed frame (None
   * when `JSON.parse` throws, which propagates as a SyntaxError).
   */
  function Route(parsed: Option<Json>): (r: Result<Effect, JsError>)
    ensures parsed.None? ==> r == Failure(SyntaxError)
    ensures parsed.Some? && parsed.value.JNull? ==> r == Failure(JsError.TypeError)
    ensures r.Success? && r.value.PlayAudio? ==>
      parsed.Some? && JsProp(parsed.value, "event") == Success(Some(JStr("add_content")))
      && JsProp(parsed.value, "type") == Success(Some(JStr("audio")))
  {
    match parsed
    case None => Failure(SyntaxError)
    case Some(message) =>
      match JsProp(message, "event")
      case Failure(e) => Failure(e)
      case Success(Some(JStr(e))) =>
        if e == "add_content" then
          if JsProp(message, "type") == Success(Some(JStr("audio"))) then AudioContent(message)
          else Success(LogOnly)
        else if LoggedEvent(e) then Success(LogOnly)
        else Success(NoCase)
      case Success(_) => Success(NoCase)
  }

  /** Only `add_content` audio can play or throw; every other parsed object only logs or matches nothing. */
  lemma {:induction false} OnlyAudioContentActs(message: Json)
    requires message.JObj?
    requires JsProp(message, "event") != Success(Some(JStr("add_content"))) || JsProp(message, "type") != Success(Some(JStr("audio")))
    ensures Route(Some(message)) == Success(LogOnly) || Route(Some(message)) == Success(NoCase)
    ensures Route(Some(message)) == Success(LogOnly) <==>
      exists e :: JsProp(message, "event") == Success(Some(JStr(e))) && (e == "add_content" || LoggedEvent(e))
  {
    var ev := JsProp(message, "event");
    if ev.Success? && ev.value.Some? && ev.value.value.JStr? {
      var e := ev.value.value.s;
      assert Route(Some(message)) == if e == "add_content" || LoggedEvent(e) then Success(LogOnly) else Success(NoCase);
    } else {
      assert Route(Some(message)) == Success(NoCase);
    }
  }

  /** Audio content carrying the base64 of samples laid out as capture sends them plays those samples. */
  lemma {:induction false} AudioContentPlaysCapturedSamples(message: Json, samples: seq<Pcm.int16>)
    requires message.JObj?
    requires JsProp(message, "event") == Success(Some(JStr("add_content")))
    requires JsProp(message, "type") == Success(Some(JStr("audio")))
    requires JsProp(message, "data") == Success(Some(JStr(Base64.Encode(Pcm.ToBytes(samples)))))
    ensures Route(Some(message)) == Success(PlayAudio(samples))
  {
    Pcm.CaptureToPlayback(samples);
  }

  /**
   * Audio content without a `data` member throws InvalidCharacterError
   * (`atob("undefined")`); with `data: null` it throws RangeError
   * (`atob("null")` is three bytes, an odd count for `Int16Array`).
   */
  lemma {:induction false} MissingAudioDataThrows(message: Json)
    requires message.JObj?
    requires JsProp(message, "event") == Success(Some(JStr("add_content")))
    requires JsProp(message, "type") == Success(Some(JStr("audio")))
    requires JsProp(message, "data") == Success(None) || JsProp(message, "data") == Success(Some(JNull))
    ensures JsProp(message, "data") == Success(None) ==> Route(Some(message)) == Failure(InvalidCharacterError)
    ensures JsProp(message, "data") == Success(Some(JNull)) ==> Route(Some(message)) == Failure(RangeError)
  {
    AtobUndefined();
    AtobNull();
  }

  /** A text of digits passes `atob` unless its length is one more than a multiple of four; it then gives the bytes its groups hold. */
  lemma {:induction false} DigitsDecode(s: string)
    requires |s| >= 1 && forall i :: 0 <= i < |s| ==> '0' <= s[i] <= '9'
    ensures Base64.Decode(s).Some? <==> |s| % 4 != 1
    ensures Base64.Decode(s).Some? ==> |Base64.Decode(s).value| == 3 * (|s| / 4) + (if |s| % 4 == 0 then 0 else |s| % 4 - 1)
  {
    Base64.StripWhitespaceNone(s);
    assert Base64.StripPadding(s) == s by {
      assert s[|s| - 1] != '=';
    }
    assert Base64.AllSymbols(s);
  }

  /** The message is audio content carrying `data`. */
  predicate AudioWithData(message: Json, data: Json)
  {
    message.JObj?
    && JsProp(message, "event") == Success(Some(JStr("add_content")))
    && JsProp(message, "type") == Success(Some(JStr("audio")))
    && JsProp(message, "data") == Success(Some(data))
  }

  /** Audio content whose `data` converts to the text `s` plays what `atob(s)` decodes to, or throws its error. */
  lemma {:induction false} AudioDataRoute(message: Json, data: Json, s: string)
    requires AudioWithData(message, data) && JsString(data) == Text(s)
    ensures Route(Some(message)) == match Pcm.DecodeDelta(s)
      case Failure(e) => Failure(e)
      case Success(pcmData) => Success(PlayAudio(pcmData))
  {
    assert AtobArgument(OrderedDict.Get(message.fields, "data")) == Text(s);
  }

  /** `String(123)` and `String(1234)`. */
  lemma {:induction false} SmallIntegerTexts()
    ensures JsString(JNum(123.0)) == Text("123") && JsString(JNum(1234.0)) == Text("1234")
  {
    assert Decimal(1) == "1";
    assert Decimal(12) == Decimal(1) + "2";
    assert Decimal(123) == Decimal(12) + "3";
    assert Decimal(1234) == Decimal(123) + "4";
    assert (123.0).Floor == 123 && (1234.0).Floor == 1234;
  }

  /** `atob("123")` is two bytes, one sample; `atob("1234")` is three bytes, which `Int16Array` rejects. */
  lemma {:induction false} DeltaOfDigits()
    ensures Pcm.DecodeDelta("123").Success? && |Pcm.DecodeDelta("123").value| == 1
    ensures Pcm.DecodeDelta("1234") == Failure(RangeError)
  {
    DigitsDecode("123");
    DigitsDecode("1234");
  }

  /** `data: 123` reaches `atob` as "123", two bytes, and plays one sample. */
  lemma {:induction false} NumberDataPlays(message: Json)
    requires AudioWithData(message, JNum(123.0))
    ensures Route(Some(message)).Success? && Route(Some(message)).value.PlayAudio?
    ensures |Route(Some(message)).value.samples| == 1
  {
    SmallIntegerTexts();
    AudioDataRoute(message, JNum(123.0), "123");
    DeltaOfDigits();
  }

  /** `data: 1234` reaches `atob` as "1234", three bytes, which `Int16Array` rejects. */
  lemma {:induction false} NumberDataOddBytes(message: Json)
    requires AudioWithData(message, JNum(1234.0))
    ensures Route(Some(message)) == Failure(RangeError)
  {
    SmallIntegerTexts();
    AudioDataRoute(message, JNum(1234.0), "1234");
    DeltaOfDigits();
  }

  /** A negative or non-integral `data` holds `-` or `.` once converted, and `atob` throws. */
  lemma {:induction false} SignedOrFractionalDataThrows(message: Json, n: real)
    requires AudioWithData(message, JNum(n))
    requires n < 0.0 || n != n.Floor as real
    ensures Route(Some(message)) == Failure(InvalidCharacterError)
  {
  }

  /** `data: []` reaches `atob` as the empty string and plays no samples. */
  lemma {:induction false} EmptyArrayDataPlaysNothing(message: Json)
    requires AudioWithData(message, JArr([]))
    ensures Route(Some(message)) == Success(PlayAudio([]))
  {
    assert JsString(JArr([])) == Text("");
    assert Base64.Decode("") == Some([]);
  }

  /** `atob("undefined")` throws: nine characters leave a lone sixth of a byte. */
  lemma {:induction false} AtobUndefined()
    ensures Base64.Decode("undefined") == None
  {
    var u := "undefined";
    assert |u| == 9;
    Base64.DecodeRejectsLoneSymbol(u);
  }

  /** `atob("null")` is three bytes. */
  lemma {:induction false} AtobNull()
    ensures Base64.Decode("null").Some? && |Base64.Decode("null").value| == 3
  {
    var n := "null";
    Base64.StripWhitespaceNone(n);
    assert Base64.StripPadding(n) == n;
    assert Base64.AllSymbols(n) by {
      assert Base64.IsSymbol(n[0]) && Base64.IsSymbol(n[1]) && Base64.IsSymbol(n[2]) && Base64.IsSymbol(n[3]);
    }
  }

  // ---- Outbound messages ----

  /** The messages the legacy dialect sends. */
  datatype LegacyCommand =
    | UpdateSessionConfig(turnDetection: string)
    | UpdateConversationConfig(systemMessage: string, temperature: real, voice: string)
    | AddUserAudio(data: string)

  /** The two configuration messages `onTalk` sends, in order, for the current settings. */
  function StartCommands(s: Settings): (r: seq<LegacyCommand>)
    ensures |r| == 2 && r[0].UpdateSessionConfig? && r[0].turnDetection == "server_vad"
    ensures r[1].UpdateConversationConfig? && r[1].systemMessage == s.systemPrompt
      && r[1].temperature == s.temperature && r[1].voice == s.voice
  {
    [UpdateSessionConfig("server_vad"), UpdateConversationConfig(s.systemPrompt, s.temperature, s.voice)]
  }

  /** The message a chunking step sends, if it cuts a chunk. */
  function ChunkCommands(step: Chunking.Step): (r: seq<LegacyCommand>)
    ensures |r| <= 1
    ensures |r| == 1 <==> step.chunk.Some?
    ensures step.chunk.Some? ==> r[0] == AddUserAudio(Base64.Encode(step.chunk.value))
  {
    if step.chunk.Some? then [AddUserAudio(Base64.Encode(step.chunk.value))] else []
  }

  /**
   * The component with the module-level variables it shares across renders
   * (`buffer`, `audioRecorder`, `audioPlayer`), its React state, and the
   * messages handed to `sendJsonMessage`.
   */
  class App {
    var buffer: seq<byte>
    var audioRecorder: Recording.Recorder?
    var audioPlayer: Playback.Player?
    var recording: bool
    var isSettingsOpen: bool
    var settings: Settings
    var sent: seq<LegacyCommand>

    constructor()
      ensures buffer == [] && audioRecorder == null && audioPlayer == null
      ensures !recording && !isSettingsOpen && settings == DefaultSettings && sent == []
    {
      buffer := [];
      audioRecorder := null;
      audioPlayer := null;
      recording := false;
      isSettingsOpen := false;
      settings := DefaultSettings;
      sent := [];
    }

    /** `combineArray(newData)`. */
    method CombineArray(newData: seq<byte>)
      modifies this
      ensures buffer == old(buffer) + newData
      ensures sent == old(sent) && recording == old(recording) && settings == old(settings)
      ensures audioRecorder == old(audioRecorder) && audioPlayer == old(audioPlayer) && isSettingsOpen == old(isSettingsOpen)
    {
      buffer := buffer + newData;
    }

    /**
     * `processAudioRecordingBuffer(data)`: append, then send at most one
     * `add_user_audio` with the base64 of the first 4800 bytes.
     */
    method ProcessAudioRecordingBuffer(data: seq<byte>)
      modifies this
      ensures buffer == Chunking.Feed(old(buffer), data).buffer
      ensures sent == old(sent) + ChunkCommands(Chunking.Feed(old(buffer), data))
      ensures recording == old(recording) && settings == old(settings)
      ensures audioRecorder == old(audioRecorder) && audioPlayer == old(audioPlayer) && isSettingsOpen == old(isSettingsOpen)
    {
      CombineArray(data);
      if |buffer| >= Chunking.BufferSize {
        var toSend := buffer[..Chunking.BufferSize];
        buffer := buffer[Chunking.BufferSize..];
        var base64 := Base64.Encode(toSend);
        sent := sent + [AddUserAudio(base64)];
      }
    }

    /** A message from the capture worklet reaches `processAudioRecordingBuffer` through the recorder's callback. */
    method OnWorkletMessage(samples: seq<Pcm.int16>)
      requires audioRecorder != null && audioRecorder.onDataAvailable == Recording.AppProcessAudioRecordingBuffer
      modifies this
      ensures buffer == Chunking.Feed(old(buffer), Recording.Forward(samples)).buffer
      ensures sent == old(sent) + ChunkCommands(Chunking.Feed(old(buffer), Recording.Forward(samples)))
    {
      ProcessAudioRecordingBuffer(Recording.Forward(samples));
    }

    /** The node `audioPlayer.play` and `audioPlayer.stop` post to, when there is one. */
    function PlayerTarget(): set<object>
      reads this, audioPlayer
    {
      if audioPlayer != null && audioPlayer.playbackNode != null then {audioPlayer.playbackNode} else {}
    }

    /**
     * `onMessageReceived(event)`: route the frame; audio goes to the
     * module-level player, and calling `play` before any `onTalk` made one
     * throws a TypeError.
     */
    method OnMessageReceived(parsed: Option<Json>) returns (err: Option<JsError>)
      modifies PlayerTarget()
      ensures Route(parsed).Failure? ==> err == Some(Route(parsed).error)
      ensures Route(parsed).Success? && Route(parsed).value.PlayAudio? && audioPlayer == null ==> err == Some(JsError.TypeError)
      ensures err.None? <==> Route(parsed).Success? && (Route(parsed).value.PlayAudio? ==> audioPlayer != null)
      ensures err.None? && Route(parsed).value.PlayAudio? && PlayerTarget() != {} ==>
        audioPlayer.playbackNode.port == old(audioPlayer.playbackNode.port) + [WebAudio.Samples(Route(parsed).value.samples)]
      ensures !(err.None? && Route(parsed).value.PlayAudio?) && PlayerTarget() != {} ==>
        audioPlayer.playbackNode.port == old(audioPlayer.playbackNode.port)
    {
      match Route(parsed)
      case Failure(e) =>
        return Some(e);
      case Success(effect) =>
        if effect.PlayAudio? {
          if audioPlayer == null {
            return Some(JsError.TypeError);
          }
          audioPlayer.Play(effect.samples);
        }
        return None;
    }

    /**
     * `onTalk()`. When not recording: send the two configuration messages,
     * make a new recorder and a new player (whose `init(24000)` is not
     * awaited), request the microphone (`stream` is null when
     * `getUserMedia` rejects, which ends `onTalk` there), start the
     * recorder without awaiting it, and set `recording`. When recording:
     * stop the recorder and the player when present and clear `recording`.
     */
    method OnTalk(stream: WebAudio.MediaStream?, failure: Recording.StartFailure)
      modifies this, if audioRecorder != null then audioRecorder.Held() else {}, PlayerTarget()
      modifies if stream != null then set t | t in stream.tracks :: t else {}
      ensures buffer == old(buffer) && settings == old(settings) && isSettingsOpen == old(isSettingsOpen)
      ensures !old(recording) ==> sent == old(sent) + StartCommands(settings)
      ensures !old(recording) ==> recording == (stream != null)
      ensures !old(recording) ==> audioRecorder != null && fresh(audioRecorder)
      ensures !old(recording) ==> audioRecorder.onDataAvailable == Recording.AppProcessAudioRecordingBuffer
      ensures !old(recording) ==> audioPlayer != null && fresh(audioPlayer) && audioPlayer.playbackNode == null
      ensures !old(recording) ==> audioPlayer.loadingContext != null && audioPlayer.loadingContext.sampleRate == SampleRate
      ensures !old(recording) && stream == null ==> audioRecorder.Idle()
      ensures !old(recording) && stream != null && failure == Recording.NoFailure ==>
        audioRecorder.Capturing(stream) && fresh(audioRecorder.audioContext)
      ensures !old(recording) && stream != null && failure != Recording.NoFailure ==> audioRecorder.Idle()
      ensures old(recording) ==> sent == old(sent) && !recording
      ensures old(recording) ==> audioRecorder == old(audioRecorder) && audioPlayer == old(audioPlayer)
      ensures old(recording) && audioRecorder != null ==> audioRecorder.mediaStream == null
      ensures old(recording) && audioRecorder != null && old(audioRecorder.mediaStream) != null ==>
        forall t :: t in old(audioRecorder.mediaStream).tracks ==> t.stopped
      ensures old(recording) && audioRecorder != null && old(audioRecorder.audioContext) != null ==>
        old(audioRecorder.audioContext).closed
      ensures old(recording) && audioRecorder != null ==>
        audioRecorder.audioContext == null || audioRecorder.audioContext == old(audioRecorder.audioContext)
      ensures old(recording) && audioPlayer != null ==> audioPlayer.playbackNode == old(audioPlayer.playbackNode)
      ensures old(recording) && PlayerTarget() != {} ==>
        audioPlayer.playbackNode.port == old(audioPlayer.playbackNode.port) + [WebAudio.Flush]
    {
      if !recording {
        StartTalking(stream, failure);
      } else {
        StopTalking();
      }
    }

    /** The first branch of `onTalk`, taken when not recording. */
    method StartTalking(stream: WebAudio.MediaStream?, failure: Recording.StartFailure)
      modifies this
      modifies if stream != null then set t | t in stream.tracks :: t else {}
      ensures buffer == old(buffer) && settings == old(settings) && isSettingsOpen == old(isSettingsOpen)
      ensures sent == old(sent) + StartCommands(settings)
      ensures recording == (old(recording) || stream != null)
      ensures audioRecorder != null && fresh(audioRecorder)
      ensures audioRecorder.onDataAvailable == Recording.AppProcessAudioRecordingBuffer
      ensures audioPlayer != null && fresh(audioPlayer) && audioPlayer.playbackNode == null
      ensures audioPlayer.loadingContext != null && audioPlayer.loadingContext.sampleRate == SampleRate
      ensures stream == null ==> audioRecorder.Idle()
      ensures stream != null && failure == Recording.NoFailure ==>
        audioRecorder.Capturing(stream) && fresh(audioRecorder.audioContext)
      ensures stream != null && failure != Recording.NoFailure ==> audioRecorder.Idle()
    {
      sent := sent + StartCommands(settings);
      var r := new Recording.Recorder(Recording.AppProcessAudioRecordingBuffer);
      audioRecorder := r;
      var p := new Playback.Player();
      audioPlayer := p;
      p.Init(SampleRate);
      if stream == null {
        return;
      }
      r.Start(stream, failure);
      recording := true;
    }

    /** The second branch of `onTalk`, taken while recording. */
    method StopTalking()
      modifies this, if audioRecorder != null then audioRecorder.Held() else {}, PlayerTarget()
      ensures buffer == old(buffer) && settings == old(settings) && isSettingsOpen == old(isSettingsOpen)
      ensures sent == old(sent) && !recording
      ensures audioRecorder == old(audioRecorder) && audioPlayer == old(audioPlayer)
      ensures audioRecorder != null ==> audioRecorder.mediaStream == null
      ensures audioRecorder != null && old(audioRecorder.mediaStream) != null ==>
        forall t :: t in old(audioRecorder.mediaStream).tracks ==> t.stopped
      ensures audioRecorder != null && old(audioRecorder.audioContext) != null ==> old(audioRecorder.audioContext).closed
      ensures audioRecorder != null ==>
        audioRecorder.audioContext == null || audioRecorder.audioContext == old(audioRecorder.audioContext)
      ensures audioPlayer != null ==> audioPlayer.playbackNode == old(audioPlayer.playbackNode)
      ensures PlayerTarget() != {} ==>
        audioPlayer.playbackNode.port == old(audioPlayer.playbackNode.port) + [WebAudio.Flush]
    {
      if audioRecorder != null {
        var _ := audioRecorder.Stop();
      }
      if audioPlayer != null {
        audioPlayer.Stop();
      }
      recording := false;
    }

    /** `toggleSettings()`. */
    method ToggleSettings()
      modifies this
      ensures isSettingsOpen == !old(isSettingsOpen)
      ensures buffer == old(buffer) && settings == old(settings) && recording == old(recording) && sent == old(sent)
      ensures audioRecorder == old(audioRecorder) && audioPlayer == old(audioPlayer)
    {
      isSettingsOpen := !isSettingsOpen;
    }

    /** `updateSetting(key, value)` for the three keys the panel uses. */
    method ChangeSetting(change: SettingChange)
      modifies this
      ensures settings == UpdateSetting(old(settings), change)
      ensures buffer == old(buffer) && isSettingsOpen == old(isSettingsOpen) && recording == old(recording) && sent == old(sent)
      ensures audioRecorder == old(audioRecorder) && audioPlayer == old(audioPlayer)
    {
      settings := UpdateSetting(settings, change);
    }
  }

  /**
   * Start then Stop: the configuration goes out once, and stopping leaves
   * no stream held; a second Start makes a new recorder and player rather
   * than reusing them.
   */
  method StartStopStart(app: App, s1: WebAudio.MediaStream, s2: WebAudio.MediaStream)
    requires !app.recording && app.audioRecorder == null && app.audioPlayer == null
    modifies app, set t | t in s1.tracks :: t, set t | t in s2.tracks :: t
    ensures app.recording
    ensures app.sent == old(app.sent) + StartCommands(app.settings) + StartCommands(app.settings)
    ensures app.audioRecorder != null && app.audioRecorder.Capturing(s2)
  {
    app.OnTalk(s1, Recording.NoFailure);
    var first := app.audioRecorder;
    app.OnTalk(null, Recording.NoFailure);
    assert first.mediaStream == null;
    app.OnTalk(s2, Recording.NoFailure);
    assert app.audioRecorder != first;
  }
}
