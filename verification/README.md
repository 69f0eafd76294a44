# Microphone capture managers, PCM egress and stream relay, in Dafny

This project models the core of a browser microphone-capture widget family
and the two small pieces around it:

- the closure-based capture-session manager `jfmicmgr` (packages/micmgr);
- the class-based `MicManager` (packages/mic_manager);
- the early three-singleton sketch of that class;
- the stream sink `Gum2NovaSonic` that a manager drives through its
  `StreamTarget` hooks;
- the audio-worklet processor that turns float samples into 16-bit PCM;
- the WebSocket relay lambda `streambridge` and its audio header sniffers.

Each part has its own module:

| file | module | models |
|---|---|---|
| `media.dfy` | `Media` | values the managers share: streams and tracks, device records, promise outcomes, audio constraints, the microphone-list mapping, track removal, and the optional target hooks run in order |
| `jfmicmgr.dfy` | `JfMicMgr` | the state atom and its transition table; a `MicSession` class whose fields are the closure's variables |
| `mic_manager.dfy` | `MicManagerClass` | the `MicManager` class with its process-wide instance flag and hook ordering |
| `mic_manager_sketch.dfy` | `MicManagerSingletons` | the lazily created singletons, the UI transition table and the state texts |
| `gum_sink.dfy` | `GumSink` | the stream sink |
| `egress_processor.dfy` | `EgressProcessor` | sample quantisation and the conversion loop |
| `streambridge.dfy` | `StreamBridge` | the connection table, route dispatch and the format, sample-rate and channel detectors |

How the model represents the outside world:

- **Promise outcomes.** The outcome of every platform promise (getUserMedia,
  enumerateDevices, `play()`) is a `Settled` parameter: resolved with a
  value, or rejected with an `Error` (which has a message) or with a
  non-Error value.
- **Clock.** The clock (`Date.now()`) is an `int` parameter.
- **Throwing tracks and hooks.** In `MicManager.ts`, whose stop loop catches
  each throw, the tracks whose `stop()` throws are a set parameter. The
  other managers and the sink let such a throw escape; the model assumes
  there that `stop()` returns (see "Left out"). The target hooks that throw
  are part of the target value.
- **Effects.** Effects on the platform, the target and the audio element are
  appended to a ghost event log. Contracts state that log exactly.
- **Statics.** A static field of a TypeScript class lives in an object of its
  own, such as `InstanceRegistry` or `MicManagerUIStatics`. Methods that
  read or write it take that object.
- **Samples.** Samples are exact reals.
- **Header bytes.** Header bytes are `bv8`. Node's `"ascii"` decoding keeps
  the low seven bits of each byte, and the model does the same.

Where the code and its documentation disagree, the model follows the code:

- `MicManager.ts` keeps no lifecycle state at all. The Uninitialized / Idle /
  Recording / Error machine exists only in `jfmicmgr.ts` and, as a bare
  table, in `MicManager.1.ts`.
- In `jfmicmgr.ts`, `stopRecording` stops and removes every track but keeps
  holding the emptied stream and never changes state. `startRecording`
  never changes state either, although the test suite expects it to move
  to Recording and back to Idle.
- The worklet rounds with `Math.floor` (towards minus infinity), not by
  truncation.
- The relay stores the raw chunk (`event.body`) as the connection's stream:
  the converted record assigned just before is overwritten. The header
  sniffers are never called on any path the handler takes. They are
  modelled as the functions they are.
- `Gum2NovaSonic.ts` is the socket-free earlier copy of `GUM2NovaSonic.ts`.
  Their `setStreamTarget`, `setStream` and hook logic are identical, so one
  class models both. Its rows cite the later file; in the earlier file,
  `setStream` sits at lines 34-42 and the hooks at lines 43-57.

## Model

| member | source | states |
|---|---|---|
| JfMicMgr.ValidStateChanges | packages/micmgr/src/jfmicmgr.ts:17-22 | no state leads to itself or back to Uninitialized; every state but Idle may move to Idle, and every state but Error may move to Error |
| JfMicMgr.TransitionTableShape | packages/micmgr/src/jfmicmgr.ts:17-22 | no state may change to itself or back to Uninitialized; Error leads only to Idle; Idle can be entered from every state but Idle; every other move to a different state is allowed, except out of Error |
| JfMicMgr.MicSession.constructor | packages/micmgr/src/jfmicmgr.ts:57-68 | a new session starts Uninitialized, with an empty cache stamped with the creation time, no stream, and the target from the parameters |
| JfMicMgr.MicSession.ChangeState | packages/micmgr/src/jfmicmgr.ts:168-175 | a move the table allows is committed and notified once; any other move raises MicManagerError "Invalid state change from X to Y" and changes nothing |
| JfMicMgr.MicSession.StopRecording | packages/micmgr/src/jfmicmgr.ts:79-86 | each track of the held stream is stopped and then removed, in order; the stream is kept but ends with no tracks; without a stream nothing happens |
| JfMicMgr.MicSession.GetMicrophoneList | packages/micmgr/src/jfmicmgr.ts:88-133 | a fresh cache (younger than 54321 ms) answers alone; a missing MediaDevices API is a DeviceError before any call; a rejected permission or enumeration becomes a DeviceError with its message or the fallback text, and the cache is kept; a success writes the cache and moves to Idle, and from Idle that move fails, so the call fails although the cache was refreshed |
| JfMicMgr.MicSession.RefreshMicrophoneList | packages/micmgr/src/jfmicmgr.ts:120-126 | the intended refresh: every successful enumeration returns its list, stores it in the cache and ends in Idle; every failure is a DeviceError that leaves the cache and state alone |
| JfMicMgr.MicSession.StartRecording | packages/micmgr/src/jfmicmgr.ts:135-166 | an open stream is torn down first; the request asks for the exact device when an id is given and for any device otherwise; a rejection becomes StreamError and nothing more is held; a success holds the new stream and, for an audio-element target, attaches it and plays it |
| JfMicMgr.ExpiredRefreshFromIdle | packages/micmgr/src/jfmicmgr.ts:121-124 | as written: a first listing succeeds, and the listing after the cache expires fails with "Invalid state change from Idle to Idle" |
| JfMicMgr.ExpiredRefreshFromIdleIntended | packages/micmgr/src/jfmicmgr.ts:121-126 | with the intended refresh, both listings return the microphone list |
| Media.RequestConstraints | packages/micmgr/src/jfmicmgr.ts:140-147 | echo cancellation, noise suppression and automatic gain control are always on; the device is pinned exactly when the id is non-empty, and to that id |
| Media.MicrophoneLabel | packages/micmgr/src/jfmicmgr.ts:117 | a label is never empty; a device's own non-empty label is kept |
| Media.ToMicrophones | packages/micmgr/src/jfmicmgr.ts:113-118 | no more microphones than devices, and every microphone has a non-empty label |
| Media.ToMicrophonesMembership | packages/micmgr/src/jfmicmgr.ts:113-118 | a microphone is listed exactly when some audio-input device maps to it |
| Media.ToMicrophonesCount | packages/micmgr/src/jfmicmgr.ts:113-118 | one microphone per audio-input device, checked against a separate filter-only definition |
| Media.ToMicrophonesAppend | packages/mic_manager/src/MicManager.ts:217-223 | listing two device lists one after the other gives the two listings concatenated |
| Media.WithoutMembership | packages/micmgr/src/jfmicmgr.ts:83 | removing a track keeps exactly the other tracks |
| Media.RemainingMembership | packages/micmgr/src/jfmicmgr.ts:81-84 | after removing a list of tracks, exactly the tracks not removed are left |
| Media.RemoveOneMore | packages/micmgr/src/jfmicmgr.ts:81-84 | one more removal step gives the removal of the longer list |
| Media.RemovingAllTracksEmpties | packages/micmgr/src/jfmicmgr.ts:81-84 | removing every track of a stream leaves it empty |
| Media.PresentMembership | packages/mic_manager/src/MicManager.ts:10-19 | a hook call survives the optional-hook filter exactly when it was asked for and the target implements that hook (setStream always) |
| Media.RunHooks | packages/mic_manager/src/MicManager.ts:474-477 | a run where nothing throws calls exactly the implemented hooks, in order; a run that throws ends at a throwing hook and reports its message |
| Media.RunHooksStopsAtFirstThrow | packages/mic_manager/src/MicManager.ts:474-477 | the hooks called are the implemented hooks in order, up to and including the first that throws: a prefix of them, with no throwing hook before the last one called |
| Media.RunHooksInvokesPresent | packages/mic_manager/src/MicManager.ts:474-477 | only hooks that were asked for and are implemented are ever called |
| Media.RunHooksThrowsIff | packages/mic_manager/src/MicManager.ts:474-477 | a run completes without a throw exactly when no implemented hook among those asked for throws |
| Media.RunHooksNothingThrows | packages/mic_manager/src/MicManager.ts:512-515 | for a target with no throwing hook, the run calls exactly the implemented hooks |
| Media.RunHooksComplete | packages/mic_manager/src/MicManager.ts:512-515 | a target that implements every hook asked for and throws from none hears all of them, in order |
| MicManagerClass.TrackStopsAttemptAll | packages/mic_manager/src/MicManager.ts:503-509 | every track is attempted exactly once and in order, whether or not an earlier stop threw |
| MicManagerClass.CompleteTargetStartOrder | packages/mic_manager/src/MicManager.ts:474-477 | a full target hears setStream(stream), start, onStreamStart, in that order |
| MicManagerClass.CompleteTargetStopOrder | packages/mic_manager/src/MicManager.ts:512-515 | a full target hears setStream(null), stop, onStreamStop, in that order |
| MicManagerClass.CompleteTargetErrorReport | packages/mic_manager/src/MicManager.ts:483-493 | a full target hears a start failure through onStreamError, and the failure is thrown unchanged |
| MicManagerClass.MinimalTargetStartOrder | packages/mic_manager/src/MicManager.ts:474-477 | a target with only setStream hears setStream alone on start |
| MicManagerClass.MinimalTargetStopOrder | packages/mic_manager/src/MicManager.ts:512-515 | such a target hears setStream(null) alone on stop |
| MicManagerClass.MinimalTargetErrorReport | packages/mic_manager/src/MicManager.ts:483-493 | such a target hears nothing of a start failure, which is thrown unchanged |
| MicManagerClass.InstanceRegistry.constructor | packages/mic_manager/src/MicManager.ts:81 | no instance exists when the process starts |
| MicManagerClass.MicManager.Init | packages/mic_manager/src/MicManager.ts:109-120 | a new manager claims the instance flag, holds no stream and no cache, and uses the default audio element exactly when no target was given |
| MicManagerClass.MicManager.Create | packages/mic_manager/src/MicManager.ts:109-113 | a second live instance is refused with MicManagerError "MicManager instance already created"; otherwise a fresh manager is built as Init says |
| MicManagerClass.MicManager.CreateMicUI | packages/mic_manager/src/MicManager.ts:257-273 | a target among the parameters is installed as setStreamTarget does (an open stream is stopped, the old target told); without one, stream, target and log are unchanged; afterwards the widget elements (the default audio element among them) exist |
| MicManagerClass.MicManager.StopRecording | packages/mic_manager/src/MicManager.ts:496-525 | with a stream: every track is attempted and a throwing stop is swallowed; then either the target hears setStream(null), stop, onStreamStop (up to the first throw), or else the audio element's source is cleared; the stream is released in every case; without a stream nothing happens |
| MicManagerClass.MicManager.StopEachTrack | packages/mic_manager/src/MicManager.ts:503-509 | the track loop attempts `stop()` on every track in order and logs each attempt, throwing or not |
| MicManagerClass.MicManager.NotifyTeardown | packages/mic_manager/src/MicManager.ts:512-517 | a target hears the stop hooks it implements, up to the first that throws; without a target, the default audio element loses its source |
| MicManagerClass.MicManager.SetStreamTarget | packages/mic_manager/src/MicManager.ts:159-170 | an open stream is stopped with the old target told, then the new target replaces the default audio element |
| MicManagerClass.MicManager.ClearStreamTarget | packages/mic_manager/src/MicManager.ts:175-186 | an open stream is stopped with the old target told, then the default audio element is used again |
| MicManagerClass.MicManager.GetMicrophoneList | packages/mic_manager/src/MicManager.ts:192-236 | a cache younger than 5000 ms answers alone; a missing MediaDevices API is a DeviceError; a rejected permission or enumeration becomes a DeviceError with its message or the fallback text, and the cache is kept; a success returns the audio inputs and stamps the cache |
| MicManagerClass.MicManager.StartRecording | packages/mic_manager/src/MicManager.ts:452-494 | an open stream is stopped first, and the request follows the constraint rules; a rejection becomes StreamError, is reported to onStreamError and is thrown (or the hook's own error is thrown); a success is held and either goes to the target's hooks (a throwing hook turns it into a reported StreamError) or to the default audio element, whose rejected play() is a StreamError |
| MicManagerClass.MicManager.Dispose | packages/mic_manager/src/MicManager.ts:824-856 | dispose stops recording, drops the widget, clears the cache and frees the instance flag |
| MicManagerClass.CreateDisposeCreate | packages/mic_manager/src/MicManager.ts:109-113 | a second creation is refused until the first manager is disposed, and then succeeds |
| MicManagerSingletons.UITransitions | packages/mic_manager/src/MicManager.1.ts:51-68 | no UI state leads to itself or back to Uninitialized; every state but Error may fail; recording starts only from Idle |
| MicManagerSingletons.UITableStricterBySetupToRecording | packages/mic_manager/src/MicManager.1.ts:51-68 | the UI table is the session manager's table less exactly one move: an uninitialised UI cannot start recording |
| MicManagerSingletons.UITableShape | packages/mic_manager/src/MicManager.1.ts:51-68 | no UI state changes to itself or back to Uninitialized, and Error leads only to Idle |
| MicManagerSingletons.Pick | packages/mic_manager/src/MicManager.1.ts:86-97 | a supplied non-empty text replaces the current one; an absent or empty text keeps it |
| MicManagerSingletons.InitTexts | packages/mic_manager/src/MicManager.1.ts:86-97 | for every state, the new text is the supplied one when non-empty and the current one otherwise |
| MicManagerSingletons.InitTextsPerState | packages/mic_manager/src/MicManager.1.ts:86-97 | after init, each state shows its supplied text when it is non-empty and keeps its current text otherwise |
| MicManagerSingletons.InitTextsIdempotent | packages/mic_manager/src/MicManager.1.ts:86-97 | initialising twice with the same texts is initialising once |
| MicManagerSingletons.InitTextsNeverEmpty | packages/mic_manager/src/MicManager.1.ts:44-49 | starting from the default emoji texts, no state is ever left without a text |
| MicManagerSingletons.RootOf | packages/mic_manager/src/MicManager.1.ts:85 | the given root element is used, and the document body when none is given |
| MicManagerSingletons.MicManagerUI.Make | packages/mic_manager/src/MicManager.1.ts:41-42 | a new UI starts Uninitialized |
| MicManagerSingletons.MicManagerStatics.Construct | packages/mic_manager/src/MicManager.1.ts:4-9 | construction is refused while an instance is stored, and otherwise yields a fresh manager |
| MicManagerSingletons.MicManagerStatics.GetInstance | packages/mic_manager/src/MicManager.1.ts:11-16 | the first call constructs and stores the instance; every later call returns the stored one |
| MicManagerSingletons.MicManagerEngineStatics.Construct | packages/mic_manager/src/MicManager.1.ts:104-109 | construction is refused while an engine is stored, and otherwise yields a fresh engine |
| MicManagerSingletons.MicManagerEngineStatics.GetInstance | packages/mic_manager/src/MicManager.1.ts:111-118 | the first call constructs and stores the engine; every later call returns the stored one |
| MicManagerSingletons.MicManagerUIStatics.Init | packages/mic_manager/src/MicManager.1.ts:84-98 | init sets the root element and merges the supplied state texts into the current ones |
| MicManagerSingletons.MicManagerUIStatics.Construct | packages/mic_manager/src/MicManager.1.ts:70-75 | construction is refused, and nothing changes, while a UI is stored; otherwise it runs init and yields an uninitialised UI |
| MicManagerSingletons.MicManagerUIStatics.GetInstance | packages/mic_manager/src/MicManager.1.ts:77-82 | the first call constructs and initialises the UI; later calls return it and ignore their parameters |
| MicManagerSingletons.FirstParamsWin | packages/mic_manager/src/MicManager.1.ts:77-82 | two calls with different parameters yield one UI, set up by the first call's parameters alone |
| EgressProcessor.Quantize | packages/gum2novasonic/src/nova-sonic-egress-audio-processor.ts:35-46 | every code fits a signed 16-bit integer, and a code is negative exactly when its sample is |
| EgressProcessor.QuantizeEndpoints | packages/gum2novasonic/src/nova-sonic-egress-audio-processor.ts:12-13 | 1 maps to 32767, -1 to -32768 and 0 to 0 |
| EgressProcessor.QuantizeSaturates | packages/gum2novasonic/src/nova-sonic-egress-audio-processor.ts:37-40 | samples at or beyond full scale saturate to the extreme codes |
| EgressProcessor.QuantizeRoundsDown | packages/gum2novasonic/src/nova-sonic-egress-audio-processor.ts:42-44 | rounding is downward: -1/65536 becomes -1, not 0 |
| EgressProcessor.QuantizeIsFloor | packages/gum2novasonic/src/nova-sonic-egress-audio-processor.ts:42-44 | an in-range code is the largest integer not above the scaled sample (32768 below zero, 32767 from zero up) |
| EgressProcessor.QuantizeMonotone | packages/gum2novasonic/src/nova-sonic-egress-audio-processor.ts:35-46 | a louder sample never yields a smaller code |
| EgressProcessor.Pcm16 | packages/gum2novasonic/src/nova-sonic-egress-audio-processor.ts:33 | the buffer has one element per sample |
| EgressProcessor.EncodePcm16 | packages/gum2novasonic/src/nova-sonic-egress-audio-processor.ts:30-46 | the loop writes, at every index, the code of that sample |
| EgressProcessor.EncodeMatchesPcm16 | packages/gum2novasonic/src/nova-sonic-egress-audio-processor.ts:33-46 | a buffer of that content is the specification buffer |
| EgressProcessor.NovaSonicEgressAudioProcessor.constructor | packages/gum2novasonic/src/nova-sonic-egress-audio-processor.ts:15-18 | a new processor has posted nothing |
| EgressProcessor.NovaSonicEgressAudioProcessor.Process | packages/gum2novasonic/src/nova-sonic-egress-audio-processor.ts:20-50 | without a port or without a first channel nothing is posted; otherwise exactly one buffer, the encoding of channel 0 of input 0, is posted; the processor always asks to stay alive |
| GumSink.Gum2NovaSonic.constructor | packages/gum2novasonic/src/GUM2NovaSonic.ts:16 | a new sink holds no stream |
| GumSink.Gum2NovaSonic.SetStreamTarget | packages/gum2novasonic/src/GUM2NovaSonic.ts:25-34 | the sink offers every optional hook, and none of them throws |
| GumSink.Gum2NovaSonic.SetStream | packages/gum2novasonic/src/GUM2NovaSonic.ts:36-46 | undefined is refused with "Stream from GUM cannot be undefined" and changes nothing; otherwise every track of the held stream is stopped, and the argument (a stream, or nothing for null) is held; every stream that was let go has had all its tracks stopped |
| GumSink.Gum2NovaSonic.Start | packages/gum2novasonic/src/GUM2NovaSonic.ts:47-61 | the lifecycle hooks only log, and leave the sink unchanged |
| GumSink.Gum2NovaSonic.Stop | packages/gum2novasonic/src/GUM2NovaSonic.ts:47-61 | unchanged sink |
| GumSink.Gum2NovaSonic.OnStreamStart | packages/gum2novasonic/src/GUM2NovaSonic.ts:47-61 | unchanged sink |
| GumSink.Gum2NovaSonic.OnStreamStop | packages/gum2novasonic/src/GUM2NovaSonic.ts:47-61 | unchanged sink |
| GumSink.Gum2NovaSonic.OnStreamError | packages/gum2novasonic/src/GUM2NovaSonic.ts:59-61 | unchanged sink |
| GumSink.SinkHearsWholeStart | packages/gum2novasonic/src/GUM2NovaSonic.ts:25-34 | handed to a manager, the sink hears setStream(stream), start, onStreamStart on every start |
| GumSink.SinkHearsWholeStop | packages/gum2novasonic/src/GUM2NovaSonic.ts:25-34 | and setStream(null), stop, onStreamStop on every stop |
| GumSink.StartThenStop | packages/gum2novasonic/src/GUM2NovaSonic.ts:36-46 | a start followed by a stop stops exactly the tracks of the started stream and leaves nothing held |
| StreamBridge.Route | packages/streambridge/src/server/streambridge.ts:12-278 | every entry stays keyed by its own id; every response is 200 or 400; no other connection is touched |
| StreamBridge.RouteConnect | packages/streambridge/src/server/streambridge.ts:18-21 | `$connect` answers 200 "Connected" and stores a connection with no stream under the id, replacing any earlier one |
| StreamBridge.RouteDisconnect | packages/streambridge/src/server/streambridge.ts:23-26 | `$disconnect` answers 200 "Disconnected" and removes the id from the table, whether or not it was there |
| StreamBridge.RouteChunkUnknownConnection | packages/streambridge/src/server/streambridge.ts:28-33 | a chunk for an id not in the table is answered 400 "Connection not found" and changes nothing |
| StreamBridge.RouteChunkStored | packages/streambridge/src/server/streambridge.ts:266-271 | a chunk for a stored id is answered 200 and its raw body becomes that connection's stream |
| StreamBridge.ChunkAfterConnect | packages/streambridge/src/server/streambridge.ts:18-33 | a chunk on a connected socket is accepted with "Audio chunk received" and becomes that connection's stream |
| StreamBridge.ChunkAfterDisconnect | packages/streambridge/src/server/streambridge.ts:23-33 | after a disconnect, a chunk on that id is answered 400 "Connection not found" and changes nothing |
| StreamBridge.ReconnectResetsStream | packages/streambridge/src/server/streambridge.ts:18-21 | reconnecting forgets the stream held under that id |
| StreamBridge.UnknownRouteChangesNothing | packages/streambridge/src/server/streambridge.ts:273-277 | any other route is answered 400 "Unknown route" and changes nothing |
| StreamBridge.Relay.constructor | packages/streambridge/src/server/streambridge.ts:10 | the relay starts with no connections |
| StreamBridge.Relay.Handler | packages/streambridge/src/server/streambridge.ts:12-278 | one handler call answers and updates the table as Route says |
| StreamBridge.DetectAudioFormat | packages/streambridge/src/server/streambridge.ts:95-133 | the answer is always one of wav, mp3, aac, flac, pcm |
| StreamBridge.WavRecognised | packages/streambridge/src/server/streambridge.ts:97-103 | a buffer of at least 12 bytes tagged RIFF at 0 and WAVE at 8 (low seven bits of each byte) is wav |
| StreamBridge.WavOnlyForRiffWave | packages/streambridge/src/server/streambridge.ts:97-103 | only a buffer of at least 12 bytes tagged RIFF at 0 and WAVE at 8 is wav |
| StreamBridge.Mp3IffSync | packages/streambridge/src/server/streambridge.ts:106-112 | a buffer is mp3 exactly when it has three or more bytes and starts with the 11-bit frame sync |
| StreamBridge.AacOnlyForTwoBytes | packages/streambridge/src/server/streambridge.ts:105-121 | aac is answered exactly for a two-byte buffer that starts with the ADTS sync |
| StreamBridge.FlacIffMarker | packages/streambridge/src/server/streambridge.ts:124-129 | a buffer is flac exactly when its first four bytes read fLaC (low seven bits of each byte) |
| StreamBridge.PcmIffNoHeader | packages/streambridge/src/server/streambridge.ts:131-132 | pcm is answered exactly when none of the WAV, MP3, AAC and FLAC tests passes |
| StreamBridge.FlacRecognised | packages/streambridge/src/server/streambridge.ts:124-129 | the bytes 66 4C 61 43 are flac |
| StreamBridge.U16LE | packages/streambridge/src/server/streambridge.ts:194 | a little-endian 16-bit read lies in 0..65535 |
| StreamBridge.U32LE | packages/streambridge/src/server/streambridge.ts:142 | a little-endian 32-bit read lies in 0..2^32-1 |
| StreamBridge.DetectSampleRate | packages/streambridge/src/server/streambridge.ts:136-185 | the rate lies in 0..2^32-1, and is 0 only when read from a RIFF header |
| StreamBridge.SampleRateWithoutRiff | packages/streambridge/src/server/streambridge.ts:145-184 | without a RIFF header the rate is always 44100, 48000 or 32000; the 12-entry AAC table is never reached |
| StreamBridge.SampleRateFromRiff | packages/streambridge/src/server/streambridge.ts:138-143 | with a RIFF header and 28 bytes, the rate is the little-endian word at offset 24 |
| StreamBridge.DetectChannels | packages/streambridge/src/server/streambridge.ts:188-221 | the count lies in 0..65535, and is 0 only when read from a RIFF header |
| StreamBridge.ChannelsFromRiff | packages/streambridge/src/server/streambridge.ts:190-195 | with a RIFF header and 24 bytes, the count is the little-endian half-word at offset 22 |
| StreamBridge.ChannelsWithoutRiff | packages/streambridge/src/server/streambridge.ts:197-220 | without a RIFF header the count is 1 or 2, and 1 exactly for an MP3 header in mono channel mode |
| StreamBridge.DetectAudioFormatAdtsFirst | packages/streambridge/src/server/streambridge.ts:105-121 | the corrected detector still answers one of the five formats |
| StreamBridge.AdtsFrameReportedAsMp3 | packages/streambridge/src/server/streambridge.ts:106-121 | as written: a seven-byte ADTS header (FF F1 50 80 02 1F FC) is reported as mp3 |
| StreamBridge.AdtsFirstClassifies | packages/streambridge/src/server/streambridge.ts:105-121 | corrected: every ADTS header is aac, and an MPEG audio frame header (layer bits non-zero) is still mp3 |

## Left out

- DOM work is not modelled: building the widget, the waveform canvas, the
  buttons and the settings list. Only the existence of the elements is
  kept, because the default audio element depends on it.
- Subscriptions to the state atom (`onStateChange`) are left out. Each
  committed state change is recorded in the event log instead.
- Console logging and version strings are left out.
- `GumSink.Gum2NovaSonic.SetStreamTarget`: the sink's `setStreamTarget`
  copies its methods into a plain record without binding them. A manager
  calling `setStream` through that record therefore updates the record's
  own `gumStream`, not the sink's. The model binds each hook to the sink,
  as the class evidently means.
- The dev page of gum2novasonic calls a `getStreamTarget` method that the
  sink does not have. That page is not part of this model.
- `attachSIOSocket` (Socket.IO wiring over the network) is left out.
- `GumSink.Gum2NovaSonic.Start`, `GumSink.Gum2NovaSonic.Stop`,
  `GumSink.Gum2NovaSonic.OnStreamStart`, `GumSink.Gum2NovaSonic.OnStreamStop`,
  `GumSink.Gum2NovaSonic.OnStreamError`: their console messages are not
  modelled.
- `MicManagerClass.MicManager.SetStreamTarget` and
  `MicManagerClass.MicManager.ClearStreamTarget`: hiding or showing the
  default audio element is display only and is not modelled.
- The permission stream that `getMicrophoneList` requests is never stopped
  by the code. The model records the request but keeps no handle to that
  stream.
- `stopWaveform` and the waveform animation frame are left out.
- `EgressProcessor.Quantize`: samples are exact reals. NaN, infinities and
  single-precision rounding of the product are not modelled.
- `StreamBridge.Route` does not model the 500 "Internal server error" path.
  Nothing in the modelled handler can throw, so that path is unreachable in
  the model.
- `StreamBridge.Route` does not model base64 decoding, or building the
  converted-buffer record that is overwritten at once.
- The relay's `convertAudioFormat` (an ffmpeg pipeline) and
  `transformToSonicBuffer` are never called. They depend on an external
  library and are left out.
- No code resamples audio or mixes it down, so nothing of that is modelled.
- The other packages (the caibridge server, the js-audio-tools UI, the
  micmgr UI) are not part of this model.
- `JfMicMgr.MicSession.StopRecording`: the model assumes every track's
  `stop()` returns. The code has no catch around its track loop, so a
  throwing `stop()` would end the loop with the later tracks still running
  and propagate to the caller. Browsers do not throw from
  `MediaStreamTrack.stop()`, so that path is not modelled.
- `JfMicMgr.MicSession.StartRecording`: its opening `stopRecording()` runs
  outside the `try`, so a throwing track `stop()` would escape it too. The
  model assumes, as for StopRecording, that `stop()` returns.
- `GumSink.Gum2NovaSonic.SetStream`: the model assumes every track's
  `stop()` returns. A throw there would propagate into the manager's
  teardown, whose catch would then skip the target's `stop` and
  `onStreamStop`. Since the sink's hooks are modelled as never throwing,
  its `setStream` cannot carry that failure into the manager's log.
- `MicManagerClass.MicManager.CreateMicUI`: the `getMicrophoneList()`
  call that `createMicUI` starts is not awaited. Its effect on the cache and
  on the list display comes later, at a moment the code does not fix, so it
  is not part of this method. The same fetch can be modelled by calling
  `GetMicrophoneList` afterwards. The waveform settings are display only.
- Every awaited platform call is modelled as one atomic step, so calls on
  one manager do not interleave. The code does let them interleave. For
  example, two overlapping `startRecording` calls on `MicManager` can both
  find no stream, at MicManager.ts:453, before either assigns one, at
  MicManager.ts:468. The first stream is then overwritten without being
  stopped. Such interleavings are not modelled.
- `JfMicMgr.MicSession.StartRecording`: the element's `play()` is not
  awaited by the code. A rejected play is therefore not caught there, and
  the model records only that play was called.

## Findings

| source | as written | input that shows it | evidently intended | confidence | as-written member | corrected member |
|---|---|---|---|---|---|---|
| packages/micmgr/src/jfmicmgr.ts:124 | after a successful enumeration, `changeState("Idle")` runs unconditionally. From Idle it throws, and the catch turns that into a DeviceError, although the cache has already been refreshed | a session lists microphones once (Uninitialized to Idle), then lists again 54321 ms later: the second call fails with "Invalid state change from Idle to Idle" | a refresh from Idle returns the fresh list and stays Idle | high, not executed | JfMicMgr.ExpiredRefreshFromIdle | JfMicMgr.MicSession.RefreshMicrophoneList |
| packages/streambridge/src/server/streambridge.ts:106-121 | the MP3 test (first byte FF, top three bits of the second set) runs before the AAC test, and every ADTS sync also passes it. So "aac" is answered only for a buffer of exactly two bytes | the ADTS header FF F1 50 80 02 1F FC is reported as "mp3" | ADTS headers (FF, then a byte of the form 1111 x00x, so with layer bits 00) are recognised as AAC before the MP3 test | medium, not executed | StreamBridge.AdtsFrameReportedAsMp3 | StreamBridge.AdtsFirstClassifies |
