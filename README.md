# Voice RAG audio bridge: a Dafny model

This project models the core of a voice "talk to your data" application. A
browser client captures microphone audio, turns it into 16-bit PCM, cuts it
into 4800-byte chunks, and sends each chunk as base64 over a WebSocket. It
plays back the base64 PCM that comes the other way. A Python middle tier sits
between the client and the realtime model service. It enforces server-side
settings, takes over the model's tool calls, runs two retrieval tools against
a search index, and answers the model itself.

The model covers:

- **Capture** (`audio_processor_worklet.dfy`, `pcm.dfy`). The worklet's
  per-sample conversion (floor of `x * 32767`, clamped to the int16 range) and
  its `process` step are modelled. So is the little-endian byte layout of an
  `Int16Array` and its reading back.
- **Chunking and base64** (`chunking.dfy`, `base64.dfy`). This covers the rule
  "append, then cut off one 4800-byte chunk once the buffer has reached 4800"
  and the `btoa`/`atob` pair, including the inputs `atob` rejects.
- **Recorder and player** (`recorder.dfy`, `player.dfy`, `web_audio.dfy`). The
  `Recorder` and `Player` classes are modelled with their nullable fields and
  what `start`, `stop`, `init`, `play` and `stop` do to them. This includes a
  failing step inside `start` and an `init` still waiting for its module. The
  browser objects they hold (context, stream, tracks, nodes, ports) are small
  classes in `web_audio.dfy`.
- **Hooks** (`use_audio_recorder.dfy`, `use_audio_player.dfy`,
  `use_realtime.dfy`). The capture hook keeps a ghost account: the chunks sent,
  followed by the buffer, are every byte captured, and each reported string is
  its chunk's base64. The playback hook's `play` is modelled, and so are the
  realtime hook's URL, its three commands and its dispatch over the 27
  `onReceived…` handlers.
- **Message types** (`types.dfy`). The commands and inbound events of
  `types.ts` are written as JSON and read back, with a round-trip lemma for
  each.
- **The legacy component** (`app.dfy`). `App.tsx` speaks the older `event`
  dialect: `update_session_config`, `add_user_audio`, `add_content`. Its
  settings, chunking, playback routing and the two branches of `onTalk` are
  modelled, with the module-level `buffer`, `audioRecorder` and `audioPlayer`
  as fields of one `App` object.
- **The middle tier** (`rtmt.dfy`, `json.dfy`, `ordered_dict.dfy`).
  `_process_message` is modelled once as a function `Process` and once as the
  method `RTMiddleTier.ProcessMessage`, which updates the pending tool calls in
  place; the method is proved equal to the function. Python's indexing,
  assignment, iteration and `+=` on parsed JSON are modelled, including their
  KeyError and TypeError cases. Dictionaries are insertion-ordered.
- **The retrieval tools** (`ragtools.dfy`). Both tool targets, the OData
  filter quoting, the answer formats and `attach_rag_tools` are modelled.

Behaviour of the code that the model makes explicit:

- **One chunk per capture callback.** Both chunkers
  (`useAudioRecorder.tsx:26` and `App.tsx:109`) test the buffer with a single
  `if`, so one callback cuts at most one chunk. `Chunking.DoubleChunkInOneCall`
  proves that 9600 bytes give one chunk and keep 4800 bytes.
  `Chunking.SmallCallsKeepBufferBelowThreshold` proves that with worklet-sized
  calls the buffer never holds a second full chunk.
- **Tool answers raise TypeError, if `ToolResult` is a plain class.** Both
  tool targets return a `ToolResult` object (`ragtools.py:61`, `:72`). The
  middle tier answers with `result if type(result) == str else
  json.dumps(result)` (`rtmt.py:107`). `rtmt.py` as written defines no
  `ToolResult` or `ToolResultDirection` (see "## Left out"). The model takes
  `ToolResult` to be a plain class with no JSON encoder, which `json.dumps`
  cannot serialise. Under that reading a completed `search` call raises
  TypeError and no answer reaches the model (`RagTools.SearchAnswerRaises`,
  `Rtmt.ToolResultObjectRaises`).
- **The tool result's destination is never read.** The middle tier never
  reads `ToolResultDirection`, so the grounding documents are never sent to
  the client.
- **Only the last tool call of a message stays pending.** Pending calls are
  keyed by the message id (`rtmt.py:77`). When one message carries two tool
  calls, only the second one stays pending (`Rtmt.LaterToolCallWins` with
  `Rtmt.CallReaderSharesId`).
- **A string `sources` argument is split into characters.** If
  `report_grounding` receives `sources` as a plain string, `",".join` iterates
  it character by character (`RagTools.SourceStringSplitsIntoCharacters`).
- **Missing audio data throws.** `atob` receives `"undefined"` when an audio
  `add_content` has no `data` member, and then throws. It receives `"null"`
  when `data` is null; that decodes to three bytes, which `Int16Array`
  rejects (`LegacyApp.MissingAudioDataThrows`).
- **Non-string audio data is converted, not rejected.** `atob` receives
  `String(data)`. A `data` of 123 becomes "123" and plays one sample; 1234
  becomes "1234", three bytes, which `Int16Array` rejects; an empty array
  becomes "" and plays nothing; a negative or fractional number holds `-` or
  `.` and `atob` throws (`LegacyApp.NumberDataPlays`,
  `LegacyApp.NumberDataOddBytes`, `LegacyApp.EmptyArrayDataPlaysNothing`,
  `LegacyApp.SignedOrFractionalDataThrows`).
- **Some dotted message types reach no handler.** The realtime hook's
  `switch` mixes the two spellings. Most cases use underscores, such as
  `session_created`. Four use dots: `response.done`, `response.audio.delta`,
  `response.audio.done` and `response.audio_transcript.delta`
  (`useRealtime.tsx:151-178`, `UseRealtime.Discriminant`). The dotted types
  `session.created`, `input_audio_buffer.speech_started` and
  `extension.middle_tier_tool.response` have no case, so such frames reach no
  handler (`UseRealtime.DottedFormsIgnored`).
- **A failed restart leaves the recorder stuck.** Suppose `start` closes the
  previous context and then fails to make a new one. The closed context stays
  in the recorder, and every later `start` fails at its first `close`
  (`Recording.StuckAfterFailedRestart`).
- **Calls made before the player is ready are lost.** `play` and `stop` calls
  made before `init` has loaded its module post nothing
  (`Playback.PlayStopOrder`).
- **The middle tier's registries are shared.** `tools` and `_tool_calls` are
  class attributes in `rtmt.py`, shared by every instance. The application
  makes one instance, and `Rtmt.RTMiddleTier` models that one instance. The
  `model` setting is stored but never read.

## Model

| member | source | states |
|---|---|---|
| Pcm.ToInt16 | app/frontend/public/audio-processor-worklet.js:22-23 | a sample is the floor of `x * 32767` clamped to the int16 range: unless clamped low it is at most the product, unless clamped high the product is below it plus one |
| Pcm.ToInt16Monotone | app/frontend/public/audio-processor-worklet.js:22-23 | a louder input never gives a smaller sample |
| Pcm.ToInt16InNominalRange | app/frontend/public/audio-processor-worklet.js:22-23 | for inputs in [-1, 1] the clamp never applies: the sample is the floor of `x * 32767`, within one unit below the exact product, and never -32768 |
| Pcm.ToInt16Clamps | app/frontend/public/audio-processor-worklet.js:22-23 | out-of-range inputs clamp: 2.0 gives 32767, -2.0 gives -32768, 0.0 gives 0 |
| Pcm.SampleBytes | app/frontend/src/hooks/useAudioPlayer.tsx:18 | one sample occupies two bytes |
| Pcm.SampleOfBytes | app/frontend/src/hooks/useAudioPlayer.tsx:18 | reading a sample's two little-endian bytes gives the sample back |
| Pcm.BytesOfSample | app/frontend/src/hooks/useAudioPlayer.tsx:18 | any byte pair is the layout of the sample it encodes |
| Pcm.ToBytes | app/frontend/src/components/audio/recorder.ts:27 | the `.buffer` of an `Int16Array` holds two bytes per sample: sample i at bytes 2i and 2i+1, low byte first |
| Pcm.Pairs | app/frontend/src/hooks/useAudioPlayer.tsx:18 | an even byte run read as one sample per byte pair, in order |
| Pcm.FromBytes | app/frontend/src/hooks/useAudioPlayer.tsx:18 | `new Int16Array(bytes.buffer)` throws RangeError exactly when the byte count is odd, and otherwise gives one sample per byte pair |
| Pcm.FromToBytes | app/frontend/src/hooks/useAudioPlayer.tsx:18 | samples laid out as bytes read back as the same samples |
| Pcm.ToFromBytes | app/frontend/src/hooks/useAudioPlayer.tsx:18 | an even byte run read as samples lays out as the same bytes |
| Pcm.DecodeDelta | app/frontend/src/hooks/useAudioPlayer.tsx:16-18 | the playback decode throws InvalidCharacterError exactly when `atob` rejects, and is otherwise the sample reading of the decoded bytes |
| Pcm.CaptureToPlayback | app/frontend/src/hooks/useAudioPlayer.tsx:16-18 | audio encoded as capture sends it decodes on playback to the same samples |
| AudioProcessorWorklet.Converted | app/frontend/public/audio-processor-worklet.js:19-27 | a channel's conversion has the same length and converts each sample independently |
| AudioProcessorWorklet.ConvertedMonotone | app/frontend/public/audio-processor-worklet.js:21-24 | conversion keeps the order of any two samples |
| AudioProcessorWorklet.ConvertedNominal | app/frontend/public/audio-processor-worklet.js:21-24 | a channel within [-1, 1] converts without clamping and never to -32768 |
| AudioProcessorWorklet.PcmAudioProcessor.constructor | app/frontend/public/audio-processor-worklet.js:5-7 | a new processor has posted nothing |
| AudioProcessorWorklet.PcmAudioProcessor.Float32ToInt16 | app/frontend/public/audio-processor-worklet.js:19-27 | the returned array is new, has the input's length, and holds the conversion of each input sample |
| AudioProcessorWorklet.PcmAudioProcessor.Process | app/frontend/public/audio-processor-worklet.js:9-17 | it always asks to be kept alive; when input 0 has a channel, exactly one message is posted, the conversion of channel 0; otherwise nothing is posted |
| Base64.ValueOfSymbol | app/frontend/src/hooks/useAudioPlayer.tsx:16 | every 6-bit value's alphabet character decodes back to that value |
| Base64.SymbolOfValue | app/frontend/src/hooks/useAudioPlayer.tsx:16 | every alphabet character is the symbol of its own value |
| Base64.EncodeGroup | app/frontend/src/hooks/useAudioRecorder.tsx:31 | three bytes encode to four alphabet characters |
| Base64.EncodeBody | app/frontend/src/hooks/useAudioRecorder.tsx:31 | the unpadded encoding has four characters per full group plus n+1 for a final partial group of n bytes, all from the alphabet |
| Base64.Encode | app/frontend/src/hooks/useAudioRecorder.tsx:30-31 | `btoa` output has length 4 * ceil(n / 3), and contains no padding when n is a multiple of three |
| Base64.StripWhitespace | app/frontend/src/hooks/useAudioPlayer.tsx:16 | what `atob` decodes contains no ASCII whitespace |
| Base64.StripWhitespaceConcat | app/frontend/src/hooks/useAudioPlayer.tsx:16 | whitespace removal works piece by piece: stripping a concatenation is stripping each part, so the other characters keep their order |
| Base64.StripWhitespaceChar | app/frontend/src/hooks/useAudioPlayer.tsx:16 | a single character is dropped exactly when it is ASCII whitespace, and otherwise kept |
| Base64.DecodeIgnoresInnerSpace | app/frontend/src/hooks/useAudioPlayer.tsx:16 | a space between symbols does not change what `atob` decodes |
| Base64.StripPadding | app/frontend/src/hooks/useAudioPlayer.tsx:16 | dropping padding never lengthens the string |
| Base64.DecodeGroup | app/frontend/src/hooks/useAudioPlayer.tsx:16 | a group of k alphabet characters decodes to k-1 bytes |
| Base64.DecodeBody | app/frontend/src/hooks/useAudioPlayer.tsx:16 | unpadded input decodes to three bytes per full group plus k-1 for a final group of k characters |
| Base64.Decode | app/frontend/src/hooks/useAudioPlayer.tsx:16 | `atob` succeeds exactly when, after whitespace and padding are removed, every character is in the alphabet and the length is not one more than a multiple of four |
| Base64.DecodeEncodeGroup | app/frontend/src/hooks/useAudioPlayer.tsx:16 | a group, or a group cut short, decodes to the bytes it encodes |
| Base64.DecodeEncodeBody | app/frontend/src/hooks/useAudioPlayer.tsx:16 | the unpadded encoding decodes back to the same bytes |
| Base64.StripWhitespaceNone | app/frontend/src/hooks/useAudioPlayer.tsx:16 | whitespace removal leaves a string without whitespace unchanged |
| Base64.DecodeRejectsLoneSymbol | app/frontend/src/hooks/useAudioPlayer.tsx:16 | input without whitespace whose length is one more than a multiple of four is rejected |
| Base64.StripPaddingOfEncode | app/frontend/src/hooks/useAudioPlayer.tsx:16 | removing padding from `btoa` output leaves exactly the unpadded encoding |
| Base64.StripPaddingOf | app/frontend/src/hooks/useAudioPlayer.tsx:16 | the padding appended to a body is exactly what padding removal drops |
| Base64.NoWhitespaceInEncode | app/frontend/src/hooks/useAudioPlayer.tsx:16 | `btoa` output contains no whitespace |
| Base64.DecodeEncode | app/frontend/src/hooks/useAudioPlayer.tsx:16 | `atob(btoa(b))` is `b` for every byte string |
| Chunking.Take | app/frontend/src/hooks/useAudioRecorder.tsx:26-28 | a chunk is cut exactly when the buffer holds at least 4800 bytes; it has 4800 bytes; the chunk followed by what is kept is the old buffer |
| Chunking.Feed | app/frontend/src/hooks/useAudioRecorder.tsx:22-28 | a callback cuts a chunk exactly when the buffer and the new bytes together reach 4800; the chunk, if any, followed by the kept bytes is the buffer followed by the new bytes |
| Chunking.FeedAll | app/frontend/src/hooks/useAudioRecorder.tsx:22-35 | over a run of callbacks, at most one chunk per callback, each of 4800 bytes |
| Chunking.FlattenAppend | app/frontend/src/hooks/useAudioRecorder.tsx:22-35 | the concatenation of the chunk list grows by each appended chunk |
| Chunking.FlattenSent | app/frontend/src/hooks/useAudioRecorder.tsx:22-35 | appending one step's chunk, if any, adds exactly those bytes |
| Chunking.FeedAllConserves | app/frontend/src/hooks/useAudioRecorder.tsx:22-35 | after any sequence of callbacks, the chunks sent followed by the buffer are exactly the bytes fed in, in order |
| Chunking.Regroup | app/frontend/src/hooks/useAudioRecorder.tsx:22-35 | the bookkeeping step: the conservation equation carries over one callback |
| Chunking.FeedAllChunkSize | app/frontend/src/hooks/useAudioRecorder.tsx:26-28 | every chunk sent has exactly 4800 bytes |
| Chunking.OneChunkPerCall | app/frontend/src/hooks/useAudioRecorder.tsx:26 | a callback sends a chunk exactly when the buffer plus the new bytes reach 4800, sends at most one, and keeps the rest |
| Chunking.DoubleChunkInOneCall | app/frontend/src/hooks/useAudioRecorder.tsx:26-28 | 9600 bytes in one callback send the first 4800 bytes and keep the other 4800 |
| Chunking.SmallCallsKeepBufferBelowThreshold | app/frontend/src/hooks/useAudioRecorder.tsx:26-28 | when each callback brings at most 4800 bytes, the buffer is below 4800 after every callback |
| Chunking.HundredByteCalls | app/frontend/src/hooks/useAudioRecorder.tsx:22-35 | with 100-byte callbacks nothing is sent before the 48th; the 48th sends one chunk and empties the buffer |
| Chunking.ChunkEncoding | app/frontend/src/hooks/useAudioRecorder.tsx:30-31 | a chunk goes on the wire as 6400 base64 characters without padding, and decodes back to itself |
| Json.JsProp | app/frontend/src/App.tsx:42 | JavaScript member access throws exactly on `null`, and on an object gives the member or `undefined` |
| Json.PyIndex | app/backend/rtmt.py:48 | Python `v[k]` succeeds exactly on a dict with that key, and gives its value |
| Json.PySet | app/backend/rtmt.py:52 | after `d[k] = v`, `k` maps to `v` and every other key is unchanged |
| Json.PyIter | app/backend/rtmt.py:68 | iterating a list gives its items; iteration fails exactly on values that are not a list, a dict or a string |
| OrderedDict.Keys | app/backend/rtmt.py:60 | the keys of a dictionary, one per entry, in insertion order |
| OrderedDict.Values | app/backend/rtmt.py:60 | the values of a dictionary, one per entry, in insertion order |
| OrderedDict.Get | app/backend/rtmt.py:93 | `d.get(k)` is None exactly when `k` is not a key |
| OrderedDict.Put | app/backend/rtmt.py:77 | assigning to a present key keeps the size; assigning to a new key appends one entry at the end |
| OrderedDict.GetPutSame | app/backend/rtmt.py:77 | after `d[k] = v`, looking up `k` gives `v` |
| OrderedDict.GetPutOther | app/backend/rtmt.py:77 | after `d[k] = v`, looking up any other key gives what it gave before |
| OrderedDict.KeysPut | app/backend/rtmt.py:77 | assignment keeps every key in place and appends `k` if it is new |
| OrderedDict.PutUnique | app/backend/rtmt.py:77 | assignment keeps the keys pairwise distinct |
| OrderedDict.GetConcat | app/backend/rtmt.py:93 | lookup in two runs of entries finds the first run's entry first |
| OrderedDict.GetLiteral | app/backend/rtmt.py:99-110 | lookup in a literal of up to five entries gives the first entry with that key |
| WebAudio.MediaStream.StopAllTracks | app/frontend/src/components/audio/recorder.ts:39 | every track of the stream is stopped |
| WebAudio.AudioContext.Close | app/frontend/src/components/audio/recorder.ts:44 | the context ends closed; closing succeeds exactly when it was open |
| WebAudio.AudioWorkletNode.PostMessage | app/frontend/src/components/audio/player.ts:14 | the message is appended to the port's messages |
| Recording.Forward | app/frontend/src/components/audio/recorder.ts:26-28 | the bytes handed to the callback are two per sample and read back as exactly the posted samples |
| Recording.Recorder.constructor | app/frontend/src/components/audio/recorder.ts:1-10 | a new recorder keeps its callback and holds nothing |
| Recording.Recorder.Stop | app/frontend/src/components/audio/recorder.ts:37-50 | stops every track and drops the stream; closes the context; ends idle unless the context was already closed, in which case it keeps the context and both nodes; from idle it does nothing |
| Recording.Recorder.Start | app/frontend/src/components/audio/recorder.ts:12-35 | when every step succeeds, the recorder captures the stream through a new open 24 kHz context with new nodes, and tracks of the old stream are not touched; when any step throws, including the close of an already closed context, the stream is dropped and the recorder is idle or holds only a closed context, as the failing step determines |
| Recording.StuckAfterFailedRestart | app/frontend/src/components/audio/recorder.ts:12-35 | after a restart whose new context could not be made, a later start with any stream and any outcome still holds the old closed context and captures nothing |
| Playback.Player.constructor | app/frontend/src/components/audio/player.ts:2 | a new player has no node |
| Playback.Player.Init | app/frontend/src/components/audio/player.ts:4-6 | `init` makes a new open context at the given sample rate and does not yet set the node |
| Playback.Player.OnModuleLoaded | app/frontend/src/components/audio/player.ts:6-9 | when the module loads, a new playback node on that context with an empty port becomes the node; when loading fails, nothing changes |
| Playback.Player.Play | app/frontend/src/components/audio/player.ts:12-16 | `play` posts the samples to the node's port when there is a node; otherwise nothing happens |
| Playback.Player.Stop | app/frontend/src/components/audio/player.ts:18-22 | `stop` posts the flush marker to the node's port when there is a node; otherwise nothing happens |
| Playback.PlayStopOrder | app/frontend/src/components/audio/player.ts:4-22 | a play made while `init` is pending is lost; after the node exists, the port receives exactly the later play and stop, in order |
| UseAudioPlayer.AudioPlayerHook.constructor | app/frontend/src/hooks/useAudioPlayer.tsx:8 | a mounted hook has no player |
| UseAudioPlayer.AudioPlayerHook.Reset | app/frontend/src/hooks/useAudioPlayer.tsx:10-13 | `reset` installs a new player whose 24 kHz `init` has started and which has no node yet |
| UseAudioPlayer.AudioPlayerHook.Play | app/frontend/src/hooks/useAudioPlayer.tsx:15-21 | `play` throws exactly when the decode fails, with the decode's error, whether or not there is a player; otherwise the decoded samples reach the node when there is one; a throw posts nothing |
| UseAudioPlayer.AudioPlayerHook.Stop | app/frontend/src/hooks/useAudioPlayer.tsx:23-25 | `stop` posts the flush marker when there is a node |
| UseAudioPlayer.PlayCapturedAudio | app/frontend/src/hooks/useAudioPlayer.tsx:15-21 | the base64 of captured samples plays back as the same samples, without error |
| UseAudioRecorder.EncodeEach | app/frontend/src/hooks/useAudioRecorder.tsx:30-31 | one base64 string per chunk |
| UseAudioRecorder.FeedKeepsAccount | app/frontend/src/hooks/useAudioRecorder.tsx:22-35 | one callback keeps the account: the chunks sent, followed by the buffer, are every byte fed; every chunk has 4800 bytes; each reported string is its chunk's base64 |
| UseAudioRecorder.AudioRecorderHook.constructor | app/frontend/src/hooks/useAudioRecorder.tsx:39-41 | a mounted hook has an empty buffer, has reported nothing, has no recorder, and keeps the account |
| UseAudioRecorder.AudioRecorderHook.AppendToBuffer | app/frontend/src/hooks/useAudioRecorder.tsx:15-20 | the new bytes are appended to the buffer; nothing else changes |
| UseAudioRecorder.AudioRecorderHook.HandleAudioData | app/frontend/src/hooks/useAudioRecorder.tsx:22-35 | the buffer and the reports follow the chunking rule, and the account still holds with the new bytes counted |
| UseAudioRecorder.AudioRecorderHook.SendChunk | app/frontend/src/hooks/useAudioRecorder.tsx:30-33 | one chunk is reported as its base64; the buffer is unchanged |
| UseAudioRecorder.AudioRecorderHook.OnWorkletMessage | app/frontend/src/hooks/useAudioRecorder.tsx:22-35 | a worklet message feeds the samples' bytes to the chunker: the buffer and the reports are those of one `Feed` of those bytes (so at most one chunk per message), and the account still holds |
| UseAudioRecorder.AudioRecorderHook.Start | app/frontend/src/hooks/useAudioRecorder.tsx:37-43 | the recorder is created on first use with `handleAudioData` as its callback and reused afterwards; a first start with a granted stream whose steps all succeed captures that stream; the buffer and the reports are untouched |
| UseAudioRecorder.AudioRecorderHook.Stop | app/frontend/src/hooks/useAudioRecorder.tsx:45-47 | before any start nothing happens; otherwise every track of the old stream is stopped, the stream dropped and the old context closed; `ok` holds exactly when there was no context or it was still open, and then the recorder ends idle |
| UseRealtime.Discriminant | app/frontend/src/hooks/useRealtime.tsx:135-217 | exactly four case labels, `response.done`, `response.audio.delta`, `response.audio.done` and `response.audio_transcript.delta`, have a dot after `response` |
| UseRealtime.FirstCase | app/frontend/src/hooks/useRealtime.tsx:135-217 | a switch selects a case only if it is listed and only by that case's own label, and selects nothing exactly when no listed case has that label |
| UseRealtime.HandlerFor | app/frontend/src/hooks/useRealtime.tsx:135-217 | the handler selected for a `type` value has that value as its label |
| UseRealtime.DiscriminantInjective | app/frontend/src/hooks/useRealtime.tsx:135-217 | no two of the 27 handlers share a `type` value |
| UseRealtime.FirstCaseFinds | app/frontend/src/hooks/useRealtime.tsx:135-217 | a listed case is selected by its own discriminant |
| UseRealtime.HandlerForDiscriminant | app/frontend/src/hooks/useRealtime.tsx:135-217 | each handler's own `type` value selects it |
| UseRealtime.DiscriminantOfHandlerFor | app/frontend/src/hooks/useRealtime.tsx:135-217 | a string selects a handler only when it is that handler's `type` value, and selects none exactly when it is no handler's |
| UseRealtime.DottedFormsIgnored | app/frontend/src/hooks/useRealtime.tsx:135-217 | frames typed `session.created`, `input_audio_buffer.speech_started` or `extension.middle_tier_tool.response` reach no handler |
| UseRealtime.DottedFormsUnhandled | app/frontend/src/hooks/useRealtime.tsx:135-217 | the switch lists no case for those three dotted types |
| UseRealtime.Dispatch | app/frontend/src/hooks/useRealtime.tsx:127-217 | dispatch throws exactly on unparsable or `null` frames, rethrowing parse failures as SyntaxError; a selected handler's `type` value equals the frame's `type` |
| UseRealtime.DispatchSelects | app/frontend/src/hooks/useRealtime.tsx:135-217 | every frame whose `type` is a handler's `type` value selects that handler |
| UseRealtime.SocketUrl | app/frontend/src/hooks/useRealtime.tsx:86 | the socket URL consists of the override (or nothing), `/realtime?api-key=`, the key's text and `&api-version=alpha`, in that order |
| UseRealtime.MissingKeyInUrl | app/frontend/src/hooks/useRealtime.tsx:86 | a missing key is not an error: it yields the URL for the key "undefined" (or "null") and differs from every other key's URL |
| UseRealtime.NoOverrideIsRelative | app/frontend/src/hooks/useRealtime.tsx:86 | without an override (undefined, null or empty) the URL is the same and starts with the relative path |
| UseRealtime.StartSessionWire | app/frontend/src/hooks/useRealtime.tsx:94-105 | `startSession` sends a `session.update` with server voice activity detection and no transcription member |
| UseRealtime.AddUserAudioWire | app/frontend/src/hooks/useRealtime.tsx:107-114 | `addUserAudio(a)` sends the append tag and `a` unchanged |
| UseRealtime.ClearWire | app/frontend/src/hooks/useRealtime.tsx:116-122 | the clear command carries its tag and nothing else |
| UseRealtime.RealtimeSession.constructor | app/frontend/src/hooks/useRealtime.tsx:51-91 | a mounted hook has its registered handlers and has sent, observed and invoked nothing |
| UseRealtime.RealtimeSession.StartSession | app/frontend/src/hooks/useRealtime.tsx:94-105 | exactly one session update is sent |
| UseRealtime.RealtimeSession.AddUserAudio | app/frontend/src/hooks/useRealtime.tsx:107-114 | exactly one append command is sent, carrying the audio unchanged |
| UseRealtime.RealtimeSession.InputAudioBufferClear | app/frontend/src/hooks/useRealtime.tsx:116-122 | exactly one clear command is sent |
| UseRealtime.RealtimeSession.OnMessageReceived | app/frontend/src/hooks/useRealtime.tsx:124-218 | every frame first goes to `onWebSocketMessage` when that callback is given, even if it does not parse; the call throws exactly when dispatch fails and then calls no handler; otherwise the selected handler, if registered, gets the parsed message; nothing is sent |
| Types.GetOptNum | app/frontend/src/types.ts:23-25 | an optional number member is present exactly when set |
| Types.EncodeList | app/frontend/src/types.ts:76 | one JSON item per element, in order |
| Types.DecodeList | app/frontend/src/types.ts:76 | a list that reads gives one element per item |
| Types.DecodeEncodeList | app/frontend/src/types.ts:76 | a list whose elements round-trip itself round-trips |
| Types.ParseSender | app/frontend/src/types.ts:13 | a sender reads exactly from "user" or "assistant", and names back to the same string |
| Types.SenderNameRoundTrip | app/frontend/src/types.ts:13 | each sender reads back from its name |
| Types.ParseTurnDetectionType | app/frontend/src/types.ts:22 | a turn-detection type reads exactly from "server_vad" or "none", and names back to the same string |
| Types.TranscriptionFromJson | app/frontend/src/types.ts:27-29 | a transcription setting reads exactly when its model is "whisper-1" |
| Types.CommandToJson | app/frontend/src/types.ts:18-42 | every command is sent with its own `type` tag |
| Types.TurnDetectionToJson | app/frontend/src/types.ts:21-26 | the turn-detection object starts with its `type` member |
| Types.TurnDetectionFromJson | app/frontend/src/types.ts:21-26 | turn detection that reads has the `type` and the three optional numbers it was read from |
| Types.TranscriptionToJson | app/frontend/src/types.ts:27-29 | the transcription object names the model "whisper-1" |
| Types.SessionToJson | app/frontend/src/types.ts:20-30 | a session object has one member per setting that is set, and no other |
| Types.SessionFromJson | app/frontend/src/types.ts:20-30 | a session reads only from an object, and has a setting exactly when its member is present |
| Types.CommandFromJson | app/frontend/src/types.ts:18-42 | a command reads only from an object carrying that command's own `type` tag |
| Types.ContentPartToJson | app/frontend/src/types.ts:76 | a content part is an object with `transcript` then `type` |
| Types.ContentPartFromJson | app/frontend/src/types.ts:76 | a content part reads exactly when both string members are present, and holds them |
| Types.OutputItemToJson | app/frontend/src/types.ts:76 | an output item starts with its `id` and has `content` exactly when it has content |
| Types.OutputItemFromJson | app/frontend/src/types.ts:76 | an output item that reads holds the `id`, and has content exactly when `content` is present |
| Types.ResponseToJson | app/frontend/src/types.ts:74-77 | a response is an object with `id` then `output` |
| Types.ResponseFromJson | app/frontend/src/types.ts:74-77 | a response that reads holds the `id` and one output item per item of the `output` list |
| Types.SourceToJson | app/frontend/src/types.ts:90 | a source is an object with `chunk_id`, `title` and `chunk`, in that order |
| Types.SourceFromJson | app/frontend/src/types.ts:90 | a source reads exactly when the three string members are present, and holds them |
| Types.ToolResultToJson | app/frontend/src/types.ts:89-91 | a tool result's `sources` is a list with one item per source |
| Types.ToolResultFromJson | app/frontend/src/types.ts:89-91 | a tool result that reads has one source per item of the `sources` list |
| Types.TranscriptionCompletedFromJson | app/frontend/src/types.ts:62-68 | a completed transcription that reads holds the four members it was read from |
| Types.ResponseDoneFromJson | app/frontend/src/types.ts:71-78 | a finished response that reads holds the `event_id` and the response read from `response` |
| Types.ToolResponseFromJson | app/frontend/src/types.ts:81-86 | a tool response reads exactly when its three string members are present, and holds them |
| Types.DeltaFromJson | app/frontend/src/types.ts:50-59 | a delta reads exactly when `delta` is a string; it is an audio delta exactly when asked for one, and holds that string |
| Types.InboundFromJson | app/frontend/src/types.ts:50-86 | an inbound event reads only from a frame carrying that event's own `type` tag |
| Types.TurnDetectionMember | app/frontend/src/types.ts:21-26 | the turn-detection object has `type` and each set optional number, and nothing else |
| Types.TurnDetectionMembers | app/frontend/src/types.ts:21-26 | each turn-detection member reads back as the value written |
| Types.TurnDetectionRoundTrip | app/frontend/src/types.ts:21-26 | turn detection reads back from its JSON |
| Types.SessionRoundTrip | app/frontend/src/types.ts:20-30 | a session reads back from its JSON, including absent optional members |
| Types.CommandRoundTrip | app/frontend/src/types.ts:18-42 | every command reads back from the JSON it is sent as |
| Types.InboundToJson | app/frontend/src/types.ts:50-86 | every inbound event carries its own `type` tag |
| Types.ContentPartRoundTrip | app/frontend/src/types.ts:76 | a content part reads back from its JSON |
| Types.SourceRoundTrip | app/frontend/src/types.ts:90 | a grounding source reads back from its JSON |
| Types.OutputItemRoundTrip | app/frontend/src/types.ts:76 | an output item, with or without content, reads back from its JSON |
| Types.ResponseRoundTrip | app/frontend/src/types.ts:74-77 | a response reads back from its JSON |
| Types.ToolResultRoundTrip | app/frontend/src/types.ts:89-91 | a tool result's sources read back from its JSON |
| Types.DeltaRoundTrip | app/frontend/src/types.ts:50-59 | audio and transcript deltas read back from their JSON |
| Types.TranscriptionCompletedFields | app/frontend/src/types.ts:62-68 | a completed transcription's fields read back from its JSON |
| Types.TranscriptionCompletedRoundTrip | app/frontend/src/types.ts:62-68 | a completed transcription reads back from its JSON, by its tag |
| Types.ResponseDoneFields | app/frontend/src/types.ts:71-78 | a finished response's fields read back from its JSON |
| Types.ResponseDoneRoundTrip | app/frontend/src/types.ts:71-78 | a finished response reads back from its JSON, by its tag |
| Types.ToolResponseFields | app/frontend/src/types.ts:81-86 | a tool response's fields read back from its JSON |
| Types.ToolResponseRoundTrip | app/frontend/src/types.ts:81-86 | a tool response reads back from its JSON, by its tag |
| Types.InboundRoundTrip | app/frontend/src/types.ts:50-86 | every inbound event reads back from its JSON, tag included |
| LegacyApp.UpdateSetting | app/frontend/src/App.tsx:163-165 | the named setting takes the new value and the other two keep theirs |
| LegacyApp.UpdateSettingIdempotent | app/frontend/src/App.tsx:163-165 | applying the same change twice is applying it once |
| LegacyApp.UpdateSettingCommutes | app/frontend/src/App.tsx:163-165 | changes to different keys commute; for the same key, the later change wins |
| LegacyApp.ConnectionStatus | app/frontend/src/App.tsx:90-96 | a label exists exactly for the five ready states -1 to 3 |
| LegacyApp.ConnectionStatusDistinct | app/frontend/src/App.tsx:90-96 | different ready states have different labels |
| LegacyApp.Route | app/frontend/src/App.tsx:37-81 | an unparsable frame throws SyntaxError and `null` throws TypeError; audio is played only for an `add_content` frame whose `type` is `audio` |
| LegacyApp.OnlyAudioContentActs | app/frontend/src/App.tsx:42-80 | any other parsed object only logs or matches no case; it logs exactly when its `event` is one of the listed events |
| LegacyApp.AudioContentPlaysCapturedSamples | app/frontend/src/App.tsx:52-58 | audio content carrying the base64 of captured samples plays exactly those samples |
| LegacyApp.MissingAudioDataThrows | app/frontend/src/App.tsx:55-57 | audio content without `data` throws InvalidCharacterError; with `data: null` it throws RangeError |
| LegacyApp.LoggedEvent | app/frontend/src/App.tsx:42-80 | the events that only log do not include `add_content` |
| LegacyApp.Decimal | app/frontend/src/App.tsx:55 | `String(n)` of a whole number is a non-empty run of decimal digits without a leading zero |
| LegacyApp.DecimalValue | app/frontend/src/App.tsx:55 | the digits of `String(n)` read back as `n` |
| LegacyApp.OneDigitForm | app/frontend/src/App.tsx:55 | a number of one significant digit is that digit times a power of ten |
| LegacyApp.NumberText | app/frontend/src/App.tsx:55 | `String(n)` reaches `atob` as base64 symbols only, below 1e21 as its decimal digits; it holds a character `atob` rejects exactly when the number is negative, fractional, or at least 1e21 with more than one significant digit |
| LegacyApp.JoinTexts | app/frontend/src/App.tsx:55 | an array's text holds a rejected character exactly when one of its elements' texts does; a one-element array's text is its element's |
| LegacyApp.JsString | app/frontend/src/App.tsx:55 | a string converts to itself; only numbers and arrays can produce characters `atob` rejects |
| LegacyApp.AtobArgument | app/frontend/src/App.tsx:55 | a missing `data` reaches `atob` as "undefined", a string as itself; only a number or an array can hold a rejected character |
| LegacyApp.AudioContent | app/frontend/src/App.tsx:54-58 | audio content plays what `atob` and `Int16Array` make of its `data`, throws their error, or throws InvalidCharacterError when the converted `data` holds a rejected character |
| LegacyApp.DigitsDecode | app/frontend/src/App.tsx:55 | a text of digits passes `atob` unless its length is one more than a multiple of four, giving three bytes per group of four and one less than the rest |
| LegacyApp.AudioDataRoute | app/frontend/src/App.tsx:54-58 | audio content whose `data` converts to a text plays, or throws, what that text decodes to |
| LegacyApp.SmallIntegerTexts | app/frontend/src/App.tsx:55 | `String(123)` is "123" and `String(1234)` is "1234" |
| LegacyApp.DeltaOfDigits | app/frontend/src/App.tsx:55-57 | "123" decodes to one sample; "1234" decodes to three bytes and throws RangeError |
| LegacyApp.NumberDataPlays | app/frontend/src/App.tsx:54-58 | audio content with `data: 123` plays one sample |
| LegacyApp.NumberDataOddBytes | app/frontend/src/App.tsx:54-58 | audio content with `data: 1234` throws RangeError |
| LegacyApp.SignedOrFractionalDataThrows | app/frontend/src/App.tsx:54-58 | audio content whose `data` is a negative or fractional number throws InvalidCharacterError |
| LegacyApp.EmptyArrayDataPlaysNothing | app/frontend/src/App.tsx:54-58 | audio content with `data: []` plays no samples and does not throw |
| LegacyApp.AtobUndefined | app/frontend/src/App.tsx:55 | `atob("undefined")` throws |
| LegacyApp.AtobNull | app/frontend/src/App.tsx:55 | `atob("null")` gives three bytes |
| LegacyApp.StartCommands | app/frontend/src/App.tsx:125-135 | `onTalk` sends two messages in order: server voice activity detection, then the current prompt, temperature and voice |
| LegacyApp.ChunkCommands | app/frontend/src/App.tsx:109-120 | a callback sends one `add_user_audio` with the chunk's base64 exactly when it cuts a chunk |
| LegacyApp.App.constructor | app/frontend/src/App.tsx:20-35 | the buffer is empty, there is no recorder or player, the app is not recording, the settings panel is closed, and the settings have the defaults 0.8, "" and "alloy" |
| LegacyApp.App.CombineArray | app/frontend/src/App.tsx:98-103 | the new bytes are appended to the buffer; nothing else changes |
| LegacyApp.App.ProcessAudioRecordingBuffer | app/frontend/src/App.tsx:105-121 | the buffer follows the chunking rule, and exactly the messages for the cut chunk are sent |
| LegacyApp.App.OnWorkletMessage | app/frontend/src/App.tsx:105-121 | a worklet message feeds the samples' bytes to the chunker |
| LegacyApp.App.OnMessageReceived | app/frontend/src/App.tsx:37-81 | the call throws with the routing error; audio played before any player exists throws TypeError; otherwise routed audio reaches the player's node, and no other frame posts anything |
| LegacyApp.App.OnTalk | app/frontend/src/App.tsx:123-157 | when not recording: both configuration messages are sent, a new recorder and a new 24 kHz player are made, and recording is set exactly when the microphone was granted, and a recorder whose start fails ends idle. When recording: nothing is sent, the old stream's tracks are stopped, the stream is dropped, the old context is closed, the player is flushed and recording is cleared |
| LegacyApp.App.StartTalking | app/frontend/src/App.tsx:124-145 | the start branch: configuration sent, new recorder and player, capture of a granted stream whose steps all succeed, and an idle recorder when a step of `start(stream)` fails |
| LegacyApp.App.StopTalking | app/frontend/src/App.tsx:146-156 | the stop branch: every track of the recorder's stream stopped, the stream dropped and its context closed, the player flushed, recording cleared, nothing sent |
| LegacyApp.App.ToggleSettings | app/frontend/src/App.tsx:159-161 | the panel flag flips and nothing else changes |
| LegacyApp.App.ChangeSetting | app/frontend/src/App.tsx:163-165 | the settings become their update and nothing else changes |
| LegacyApp.StartStopStart | app/frontend/src/App.tsx:123-157 | start, stop and start again send the configuration exactly twice, and the app ends recording and capturing the second stream |
| Rtmt.CallsGet | app/backend/rtmt.py:93 | `_tool_calls.get(k)` raises TypeError exactly for unhashable keys |
| Rtmt.CallsIndex | app/backend/rtmt.py:87 | `_tool_calls[k]` succeeds exactly for a hashable key that is pending, and otherwise raises KeyError or TypeError |
| Rtmt.ToolsIndex | app/backend/rtmt.py:96 | `tools[name]` succeeds exactly for a registered string name |
| Rtmt.PyAdd | app/backend/rtmt.py:88 | string plus string concatenates; string plus any other value raises TypeError |
| Rtmt.Schemas | app/backend/rtmt.py:60 | one schema per registered tool, in registration order |
| Rtmt.SetIfSome | app/backend/rtmt.py:51-58 | a set setting overwrites its member, an unset one leaves it, and other members are untouched |
| Rtmt.SystemMessageApplied | app/backend/rtmt.py:51-52 | the system message is the server's when set, and the client's otherwise |
| Rtmt.TemperatureApplied | app/backend/rtmt.py:53-54 | the temperature is the server's when set, and the client's otherwise |
| Rtmt.MaxTokensApplied | app/backend/rtmt.py:55-56 | the token limit is the server's when set, and the client's otherwise |
| Rtmt.DisableAudioApplied | app/backend/rtmt.py:57-58 | the audio switch is the server's when set, and the client's otherwise |
| Rtmt.OtherSettingsKept | app/backend/rtmt.py:51-58 | other members are as the client sent them |
| Rtmt.ApplyOverrides | app/backend/rtmt.py:49-61 | `tool_choice` is "auto" when a tool is registered and "none" otherwise; `tools` lists the schemas; every other member is the client's with the server's settings applied |
| Rtmt.ReadToolCall | app/backend/rtmt.py:71-76 | a pending call records the message id, the conversation label and the item's name, call id and arguments |
| Rtmt.CallReaderSharesId | app/backend/rtmt.py:72-77 | every call read from one message carries that message's id |
| Rtmt.WithContent | app/backend/rtmt.py:79-80 | the message's content becomes the given list; its other members are unchanged |
| Rtmt.ResultText | app/backend/rtmt.py:107 | a string result is the answer text itself; a `ToolResult` object raises TypeError |
| Rtmt.MessageAdded | app/backend/rtmt.py:91-111 | answering a call never changes the pending calls; at most one message is sent, and one is sent exactly when the frame is suppressed |
| Rtmt.ApplySettings | app/backend/rtmt.py:51-58 | applying the settings never removes a member the client sent |
| Rtmt.ScanStepRecordsToolCall | app/backend/rtmt.py:68-77 | one item records its index, or nothing; only a tool call records, and a tool call that reads cleanly always does |
| Rtmt.ScanItems | app/backend/rtmt.py:67-77 | the loop records at most one index per item, each a valid index |
| Rtmt.NonToolItems | app/backend/rtmt.py:79-80 | the kept items are no more than the items and none of them is a tool call |
| Rtmt.AddMessage | app/backend/rtmt.py:63-83 | `add_message` sends nothing, and when it does not raise the frame is either rewritten or suppressed |
| Rtmt.AddContent | app/backend/rtmt.py:85-89 | `add_content` sends nothing; only a suppressed fragment changes the pending calls, and never which ids are pending |
| Rtmt.ToolResponse | app/backend/rtmt.py:99-110 | the answer has the members `event`, `conversation_label` and `message`, in that order, with the call's conversation label |
| Rtmt.GenerationFinished | app/backend/rtmt.py:113-118 | the frame is forwarded and no call stays pending; one `generate` is sent exactly when some call was pending, and nothing else is sent |
| Rtmt.Classify | app/backend/rtmt.py:48-113 | each case is selected only by its own event name, and no case exactly when the event is none of the five names |
| Rtmt.Process | app/backend/rtmt.py:44-120 | a frame that is not JSON raises and changes nothing; a rewritten frame was a parsed object |
| Rtmt.ProcessSendsAtMostOne | app/backend/rtmt.py:44-120 | a step sends at most one message: a `generate`, or towards the client a tool's answer to a suppressed frame; towards the server the pending calls are kept or, after `generation_finished`, cleared |
| Rtmt.NonToolItemsLast | app/backend/rtmt.py:79-80 | the last item is kept exactly when it is not a tool call |
| Rtmt.ScanOneItem | app/backend/rtmt.py:68-77 | after an error, items change nothing; otherwise an item that is passed without error records its index exactly when it is a tool call |
| Rtmt.ToolCallIndexesStep | app/backend/rtmt.py:69-70 | recording an item's index exactly when it is a tool call keeps the index list exact |
| Rtmt.ScanRecordsToolCallIndexes | app/backend/rtmt.py:67-77 | a loop that raised nothing recorded exactly the tool-call indexes, in increasing order |
| Rtmt.ScanRemovedCount | app/backend/rtmt.py:67-78 | the recorded indexes and the kept items together number the items, which is the comparison at line 78 |
| Rtmt.NonToolItemsConcat | app/backend/rtmt.py:79-80 | filtering distributes over concatenation |
| Rtmt.NonToolItemsOfNone | app/backend/rtmt.py:79-80 | a run without tool calls is kept whole |
| Rtmt.NonToolItemsIsFilter | app/backend/rtmt.py:78-80 | the kept items come from the content and are not tool calls; nothing is kept exactly when every item is a tool call |
| Rtmt.FilterSkipsToolCall | app/backend/rtmt.py:79-80 | across a tool call followed by a run without tool calls, the filter keeps that run |
| Rtmt.PopStep | app/backend/rtmt.py:79-80 | popping one recorded index, below those already popped, keeps the popped suffix filtered |
| Rtmt.ConfigFromClientOverridden | app/backend/rtmt.py:49-61 | a client configuration gets every set server setting; an unset system message is left as the client's; `tool_choice` is "auto" exactly when a tool is registered; `tools` lists the schemas |
| Rtmt.AddMessageStripsToolCalls | app/backend/rtmt.py:63-83 | for list content: tool calls are removed and the rest keep their order; when nothing is left, including an empty list, the message is suppressed; nothing is sent |
| Rtmt.NonListContentSuppressed | app/backend/rtmt.py:68-83 | content that is not a list and does not raise has no items, so the message is suppressed and nothing changes |
| Rtmt.NonListItemsRaise | app/backend/rtmt.py:68-69 | iterating a non-empty string or dict raises on its first item |
| Rtmt.FirstErrorSticks | app/backend/rtmt.py:68-77 | once the loop has raised, later items change nothing |
| Rtmt.ScanKeepsLastToolCall | app/backend/rtmt.py:68-77 | all tool calls of a message share one key, so only the last stays pending; other pending calls are untouched |
| Rtmt.ScanRaisesUnlessClean | app/backend/rtmt.py:68-77 | the loop raises exactly when some item does not read cleanly |
| Rtmt.LaterToolCallWins | app/backend/rtmt.py:71-77 | with two tool calls in one message, only the second stays pending, under the message id, and other pending calls are untouched; the loop's own reader keeps the id (`Rtmt.CallReaderSharesId`) |
| Rtmt.GapBetweenRemoved | app/backend/rtmt.py:79-80 | between consecutive recorded indexes there is no tool call |
| Rtmt.PopDone | app/backend/rtmt.py:79-80 | before the first recorded index there is no tool call, so popping all of them leaves exactly the filtered content |
| Rtmt.AddContentAppendsArguments | app/backend/rtmt.py:85-89 | a fragment for a pending call is appended to that call's arguments; other calls are untouched; the fragment is suppressed and nothing is sent |
| Rtmt.AddContentWithoutPendingCall | app/backend/rtmt.py:85-89 | a fragment for a message with no pending call raises KeyError and changes nothing |
| Rtmt.MessageAddedAnswersCall | app/backend/rtmt.py:91-111 | a completed call whose target returns a string sends one `add_message` carrying the call's conversation, call id and that text; the frame is suppressed and the call stays pending |
| Rtmt.ToolResponseAnswers | app/backend/rtmt.py:99-110 | the answer is an `add_message` with the call's conversation, call id and text |
| Rtmt.MessageAddedWithoutPendingCall | app/backend/rtmt.py:92-94 | a completed message with no pending call is forwarded unchanged |
| Rtmt.ToolResultObjectRaises | app/backend/rtmt.py:97-107 | a target returning a `ToolResult` object makes the step raise TypeError; nothing is sent and no call changes |
| Rtmt.GenerationFinishedFlushes | app/backend/rtmt.py:113-118 | in either direction, with calls pending, exactly one `generate` is sent and the pending calls are dropped; without pending calls nothing is sent; the frame is forwarded either way |
| Rtmt.ClassifiesGenerationFinished | app/backend/rtmt.py:48-113 | `generation_finished` matches its own case and none of the four before it |
| Rtmt.ProcessDispatches | app/backend/rtmt.py:44-120 | configuration is rewritten only on its way to the server; the three message events are handled only on their way to the client; any other event is forwarded untouched |
| Rtmt.ProcessOnUnparsedOrNull | app/backend/rtmt.py:45-47 | a frame that is not JSON raises; a `null` document is forwarded untouched |
| Rtmt.ScanKeepsUniqueKeys | app/backend/rtmt.py:77 | the loop keeps one pending call per key |
| Rtmt.AddMessageKeepsUniqueKeys | app/backend/rtmt.py:63-83 | `add_message` keeps one pending call per key |
| Rtmt.AddContentKeepsUniqueKeys | app/backend/rtmt.py:85-89 | `add_content` keeps one pending call per key |
| Rtmt.ProcessKeepsUniqueKeys | app/backend/rtmt.py:44-120 | every step keeps one pending call per message id |
| Rtmt.RTMiddleTier.constructor | app/backend/rtmt.py:22-42 | a new middle tier stores its endpoint and key; it has no tools, no settings, no model and no pending calls, and has sent nothing |
| Rtmt.RTMiddleTier.ProcessMessage | app/backend/rtmt.py:44-120 | the outcome, the new pending calls and what is sent to the server are those of `Process` on the old state; the tools and settings are unchanged |
| Rtmt.RTMiddleTier.OverrideConfig | app/backend/rtmt.py:49-61 | the rewritten configuration is the client's with the overrides applied |
| Rtmt.RTMiddleTier.HandleAddMessage | app/backend/rtmt.py:63-83 | the outcome and the pending calls are those of `AddMessage`, with the removal done by popping in place |
| Rtmt.RTMiddleTier.ScanContent | app/backend/rtmt.py:67-77 | the loop's recorded indexes, error and pending calls are those of the scan, and nothing is sent |
| Rtmt.RTMiddleTier.HandleAddContent | app/backend/rtmt.py:85-89 | the outcome and the pending calls are those of `AddContent` |
| Rtmt.RTMiddleTier.HandleMessageAdded | app/backend/rtmt.py:91-111 | the outcome, the pending calls and what is sent are those of `MessageAdded` |
| Rtmt.RTMiddleTier.HandleGenerationFinished | app/backend/rtmt.py:113-118 | the pending calls and what is sent are those of `GenerationFinished` |
| Rtmt.RemoveToolCalls | app/backend/rtmt.py:79-80 | popping the recorded indexes from the highest down leaves exactly the items that are not tool calls, in order |
| RagTools.Formatted | app/backend/ragtools.py:60 | an entry's length is the chunk id's length plus the chunk's length plus eleven |
| RagTools.FormattedShape | app/backend/ragtools.py:60 | an entry is `[`, the chunk id, `]: `, the chunk, then the separator line, each at its own position |
| RagTools.SearchTextConcat | app/backend/ragtools.py:58-60 | the answer text for two runs of hits is the two texts joined |
| RagTools.SearchTextEmpty | app/backend/ragtools.py:58-60 | the answer text is empty exactly when there are no hits |
| RagTools.SearchTextEntries | app/backend/ragtools.py:58-60 | each hit's entry appears after the entries of the hits before it |
| RagTools.SearchTextAround | app/backend/ragtools.py:58-60 | the text around one hit is the text before it, its entry, and the text after it |
| RagTools.SearchTextOne | app/backend/ragtools.py:58-60 | one hit's text is its entry |
| RagTools.SearchText | app/backend/ragtools.py:58-60 | the answer text has at least eleven characters per hit and, when there is a hit, opens with `[` |
| RagTools.Join | app/backend/ragtools.py:66 | `",".join` starts with the first name, followed by a comma when there is a second, and has at least one comma between each two names |
| RagTools.Filter | app/backend/ragtools.py:68 | the filter opens with `search.in(chunk_id, '` and closes with `')` |
| RagTools.RunRagTarget | app/backend/ragtools.py:49-80 | the `search` target succeeds exactly when the query reads and answers the server; `report_grounding` succeeds exactly when the sources read and answers the client; both answer with a `ToolResult` object; any other name raises |
| RagTools.SearchResult | app/backend/ragtools.py:49-61 | `search` succeeds exactly when the query argument reads, and its answer is meant for the server |
| RagTools.SearchTool | app/backend/ragtools.py:49-61 | accumulating the text hit by hit gives the search answer |
| RagTools.IndexOfComma | app/backend/ragtools.py:66 | the first comma's index |
| RagTools.Split | app/backend/ragtools.py:66 | splitting at commas always gives at least one name |
| RagTools.SplitJoin | app/backend/ragtools.py:66 | joining loses nothing: names without commas come back, in order, when the joined string is split |
| RagTools.SourceNames | app/backend/ragtools.py:66 | the join succeeds exactly when `sources` reads, iterates, and yields only strings; the names are those strings in order |
| RagTools.SourceStringSplitsIntoCharacters | app/backend/ragtools.py:66 | a single source passed as a string is cited one character at a time |
| RagTools.DoubleQuotes | app/backend/ragtools.py:68 | doubling quotes never shortens the string |
| RagTools.DoubleQuotesStep | app/backend/ragtools.py:68 | doubling works character by character |
| RagTools.DoubleQuotesInverse | app/backend/ragtools.py:68 | doubled text has no lone quote and reads back as the original |
| RagTools.UndoubleQuotesInverse | app/backend/ragtools.py:68 | text without a lone quote is the doubling of what it reads as |
| RagTools.FilterQuotesNames | app/backend/ragtools.py:68 | the filter is `search.in(chunk_id, '…')` whose quoted body has no lone quote and reads back as the joined names |
| RagTools.GroundingDocs | app/backend/ragtools.py:69-71 | one grounding document per hit, in result order |
| RagTools.GroundingDoc | app/backend/ragtools.py:71 | a grounding document has exactly the keys `chunk_id`, `title` and `chunk`, in that order |
| RagTools.GroundingDocRoundTrip | app/backend/ragtools.py:71 | a grounding document reads back as its hit |
| RagTools.GroundingResult | app/backend/ragtools.py:65-72 | grounding succeeds exactly when the source names read, and its answer is meant for the client |
| RagTools.ReportGroundingTool | app/backend/ragtools.py:65-72 | appending the documents hit by hit gives the grounding answer |
| RagTools.WithRagTools | app/backend/ragtools.py:79-80 | `search` and `report_grounding` are registered with their targets and schemas; every other entry is untouched |
| RagTools.AttachRagTools | app/backend/ragtools.py:74-80 | attaching changes only the tool registry, and changes it to the registry with both tools |
| RagTools.AttachedToolsAreOffered | app/backend/ragtools.py:79-80 | once attached, every configuration sent to the server has `tool_choice` set to "auto" |
| RagTools.SearchAnswerRaises | app/backend/ragtools.py:49-61 | a completed `search` call answered by the registered target raises TypeError in the middle tier, and no answer is sent |

## Left out

- **JSON parsing and serialisation.** `JSON.parse`, `json.loads` and
  `json.dumps` of text are parameters. A frame arrives already parsed (None
  when parsing fails), and serialisation is a function the model does not
  inspect.
- **Duplicate keys in a parsed frame.** `JSON.parse` and `json.loads` keep
  the last value of a repeated key, so no parsed object repeats one. The
  model's objects are entry lists that may repeat a key, and `Json.JsProp`,
  `Json.PyIndex` and `OrderedDict.Get` read the first entry. Frames are not
  required to satisfy `OrderedDict.UniqueKeys`, so on an object with a
  repeated key the model reads first-wins where a parser would have kept the
  last value.
- **Async code and the socket transport.** `rtmt.py:122-160` covers the
  websocket forwarding loops, the connection set-up and `attach_to_app`.
  These are concurrency and I/O. Each `await` in the modelled code is one
  step, or a split into two methods, as for `Player.init`.
- **The useWebSocket wiring.** Opening, closing and error callbacks
  (`useRealtime.tsx:87-89`) belong to the library. `sendJsonMessage` is a
  recorded list of commands.
- **The Azure Search SDK and credentials.** `search_client.search` becomes the
  `query`/`lookup` function parameters, returning hits in order. The
  credential warm-up (`ragtools.py:75-77`) and the search options (`top`,
  vector query, semantic ranking) are not modelled.
- **Logging.** `print` and `console.log` have no effect on the modelled
  state.
- **Floating point.** Samples are reals. NaN and infinities in a capture
  buffer, and float32 rounding, are not modelled.
- **Python's mixed-type dictionary keys.** Two keys are treated as equal when
  they are the same JSON value, so `1 == 1.0 == True` across types is not
  modelled.
- **Other settings keys.** `updateSetting` is modelled only for the three
  keys the settings panel passes.
- LegacyApp.JsString: an object converts as "[object Object]"; a `toString`
  or `valueOf` member of its own is not consulted. Numbers are exact reals.
  For a negative or fractional number, and for one of at least 1e21 with more
  than one significant digit, the model records only that the text holds a
  character `atob` rejects (`-` or `.`), not the text itself.
- **Tool names outside the registry.** `RagTools.RagTargets` answers only the
  two registered targets and raises TypeError for any other. The middle tier
  never reaches that branch: `self.tools[name]` (`rtmt.py:96`) already raises
  KeyError for an unregistered name (`Rtmt.ToolsIndex`) before a target is
  called.
- **`ToolResult` and `ToolResultDirection` are not defined in `rtmt.py`.**
  `ragtools.py:6` and `sumarization_tools.py:9` import both from `rtmt`,
  which defines only `Tool`, `RTToolCall` and `RTMiddleTier`, so
  `import ragtools` fails with ImportError as written. The model supplies
  them as `Rtmt.ToolResult` (a value and a `Rtmt.ToolResultDirection`) and
  assumes a plain class with no JSON encoder. `Rtmt.ResultText`,
  `Rtmt.ToolResultObjectRaises` and `RagTools.SearchAnswerRaises` depend on
  that assumption.
- **Tool targets are opaque.** A tool target is a function parameter
  returning a JSON value or a `ToolResult` object; the two retrieval targets
  are `RagTools.RagTargets`.
- **The playback worklet.** `audio-playback-worklet.js` is not part of this
  model. The player's port is the list of messages posted to it.
- **Rendering and the rest of the backend.** JSX and UI state beyond
  `recording`, `isSettingsOpen` and `settings` are not modelled, nor is
  `app.py`, the application entry point.
- UseAudioRecorder.AudioRecorderHook.Start: when the recorder already exists,
  the contract only says it is reused. The capture state then follows
  `Recording.Recorder.Start`, whose contract is not restated.
- Rtmt.PyAdd: the contract states only the string cases. Numeric and list
  `+=` are defined but not specified, because streamed arguments are strings.
- Rtmt.ResultText: a non-string JSON result is serialised by an opaque
  `dumps`, so only the string and `ToolResult` cases are stated.
