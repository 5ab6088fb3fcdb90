# MQTT Microphone: the transport manager and its audio bridges, in Dafny

The Android app MQTT Microphone records speech, publishes it to an MQTT broker on a
"microphone" topic, and plays back audio that arrives on a second "dynamic" (speaker) topic.
This project models the three classes that do that work and proves properties of the model:

- `MQTTService` owns the broker connection. It holds the connection settings, the current
  HiveMQ client and the observable `connectionStatus` and `dynamic` (the latest inbound
  audio). It reacts to changes of the app's shared preferences: it rebuilds the client, or
  retargets a topic, or does nothing. Whatever the change, it then reconnects. It publishes
  only while connected.
- `VoicePlayer` writes each inbound payload to the scratch file `received_audio.3gp` and
  plays it with a `MediaPlayer`. It tracks `isPlaying`.
- `VoiceRecorder` records into the scratch file `record.3gp` with a `MediaRecorder`, and
  hands the finished file to `MQTTService.send`.

Each class is modelled twice.

- A module of pure functions over a state datatype (`MqttModel`, `PlaybackModel`,
  `CaptureModel`). Their contracts state what every operation does and which invariant
  it keeps.
- A Dafny class with the Kotlin fields (`Mqtt.MqttService`, `Playback.VoicePlayer`,
  `Capture.VoiceRecorder`). Each method updates its fields step by step, in the order the
  Kotlin code does. Each method is proved to leave the object in the state the matching
  model function gives.

The transport is abstract. A client is a handle number: each rebuild takes the next one,
which stands for the random client identifier. Every request made of the transport is
appended to a ghost log, in this form:

- `ConnectReq(handle)`
- `Publish(handle, topic, payload, qos)`
- `Subscribe(handle, topic, qos)`
- `Unsubscribe(handle, topic)`
- `Disconnect(handle)`

The ConnAck completion, the subscription callback, the player's completion listener and the
LiveData observer are methods that the environment calls. `MqttTraces` and
`PlaybackModel.Run` fold whole sequences of such events. The lemmas about those folds are
the system-level properties.

The model follows the code as written, including these behaviours a reader might not
expect:

- A rebuild does not unsubscribe or disconnect the old client. It is simply dropped
  (`MqttTraces.TeardownOnlyAtShutDown`).
- Changing the inbound topic subscribes the new topic without unsubscribing the old one.
- The change listener matches the key `"din_topic_name"` but reads `"dyn_topic_name"`.
  A change stored under `"dyn_topic_name"` is therefore ignored, apart from the reconnect.
- A server address read at start-up is used as stored. A changed one gets `"mqtt://"`
  put in front of it.
- A ConnAck is not checked against the client that connected. A late acknowledgement
  for an abandoned client still sets the status, and the subscription then goes to the
  current client (`MqttTraces.LateConnAckIsNotFiltered`).
- There is no `Failed(reason)` status, only "not connected".
- The player's completion listener clears `isPlaying` but leaves the scratch file in place.
- `sendRecord` never clears the `recorder` field.
- A `startRecord` during a session replaces the `recorder` field without stopping or
  releasing the running recorder. That recorder is simply dropped.

## Model

| member | source | states |
|---|---|---|
| `KotlinText.ToIntOrNull` | app/src/main/java/com/ghostwalker18/mqttmicrophone/MQTTService.kt:92 | `toInt()` on the port string gives a value only in the Kotlin `Int` range, and only for a string that starts with a digit or a sign |
| `KotlinText.ToIntOfDecimal` | app/src/main/java/com/ghostwalker18/mqttmicrophone/MQTTService.kt:45 | parsing the decimal form of any `Int` gives that `Int` back (`toInt` inverts `toString`) |
| `KotlinText.DefaultPortParses` | app/src/main/java/com/ghostwalker18/mqttmicrophone/MQTTService.kt:45 | the default port string "1883" parses to 1883 |
| `MqttModel.EmptyStoreUsesDefaultPort` | app/src/main/java/com/ghostwalker18/mqttmicrophone/MQTTService.kt:44-45 | on a store with no port setting the default parses, so the service can be constructed, and it then uses port 1883 |
| `MqttModel.BuildClient` | app/src/main/java/com/ghostwalker18/mqttmicrophone/MQTTService.kt:158-170 | the client is bound to the given host, port and identifier, and carries credentials iff both the username and the password are non-blank; the credentials are exactly those two strings |
| `MqttModel.Initial` | app/src/main/java/com/ghostwalker18/mqttmicrophone/MQTTService.kt:44-57 | after construction each of the six settings is the stored value or its default (address "0.0.0.0" unprefixed, port "1883" parsed, the rest empty), the first client has handle 0, nothing has arrived, the status is "connecting", exactly one `ConnectReq(0)` is logged, and the invariant holds |
| `MqttModel.Connect` | app/src/main/java/com/ghostwalker18/mqttmicrophone/MQTTService.kt:121-123 | the status becomes "connecting" and one `ConnectReq` for the current client is logged; nothing else changes; the invariant is kept |
| `MqttModel.SubscribeInbound` | app/src/main/java/com/ghostwalker18/mqttmicrophone/MQTTService.kt:143-153 | exactly one exactly-once `Subscribe` of the current inbound topic on the current client is logged; nothing else changes |
| `MqttModel.Reconfigure` | app/src/main/java/com/ghostwalker18/mqttmicrophone/MQTTService.kt:86-114 | a connection key changes only its own setting and moves to the next handle; the mic key changes only the mic topic; the din key sets the topic from "dyn_topic_name" and subscribes it on the same client; any other key changes nothing |
| `MqttModel.PreferenceChanged` | app/src/main/java/com/ghostwalker18/mqttmicrophone/MQTTService.kt:85-116 | per key as in `Reconfigure`; a rebuilt client is built from the new settings and its handle differs from every handle in the log; the last logged action is a `ConnectReq` for the then-current client; the status is "connecting"; only connects and subscribes are added; the invariant is kept |
| `MqttModel.ConnAckReceived` | app/src/main/java/com/ghostwalker18/mqttmicrophone/MQTTService.kt:123-137 | SUCCESS sets "connected" and logs one exactly-once `Subscribe` of the inbound topic on the current client; any other reason code sets "not connected" and logs nothing; nothing else changes |
| `MqttModel.MessageArrived` | app/src/main/java/com/ghostwalker18/mqttmicrophone/MQTTService.kt:147-151 | a message with a payload sets `dynamic` to that payload; one without changes nothing; no other field changes |
| `MqttModel.Send` | app/src/main/java/com/ghostwalker18/mqttmicrophone/MQTTService.kt:65-73 | while connected, exactly one `Publish(current handle, mic topic, payload, EXACTLY_ONCE)` is appended; otherwise the state is unchanged |
| `MqttModel.ShutDown` | app/src/main/java/com/ghostwalker18/mqttmicrophone/MQTTService.kt:78-83 | `Unsubscribe(dyn topic)` then `Disconnect` are logged for the current client, in that order, and the status is unchanged |
| `Mqtt.MqttService.constructor` | app/src/main/java/com/ghostwalker18/mqttmicrophone/MQTTService.kt:44-57 | the fields equal `MqttModel.Initial(prefs)` |
| `Mqtt.MqttService.Send` | app/src/main/java/com/ghostwalker18/mqttmicrophone/MQTTService.kt:65-73 | the new fields and log are `MqttModel.Send` of the old ones |
| `Mqtt.MqttService.ShutDown` | app/src/main/java/com/ghostwalker18/mqttmicrophone/MQTTService.kt:78-83 | the new fields and log are `MqttModel.ShutDown` of the old ones |
| `Mqtt.MqttService.RebuildClient` | app/src/main/java/com/ghostwalker18/mqttmicrophone/MQTTService.kt:158-170 | the current client becomes a client built from the current settings with the next handle |
| `Mqtt.MqttService.OnSharedPreferenceChanged` | app/src/main/java/com/ghostwalker18/mqttmicrophone/MQTTService.kt:85-116 | the new fields and log are `MqttModel.PreferenceChanged` of the old ones |
| `Mqtt.MqttService.Connect` | app/src/main/java/com/ghostwalker18/mqttmicrophone/MQTTService.kt:121-123 | the new fields and log are `MqttModel.Connect` of the old ones |
| `Mqtt.MqttService.OnConnAck` | app/src/main/java/com/ghostwalker18/mqttmicrophone/MQTTService.kt:123-137 | the new fields and log are `MqttModel.ConnAckReceived` of the old ones |
| `Mqtt.MqttService.SubToAudioInput` | app/src/main/java/com/ghostwalker18/mqttmicrophone/MQTTService.kt:143-153 | the new fields and log are `MqttModel.SubscribeInbound` of the old ones |
| `Mqtt.MqttService.OnMessage` | app/src/main/java/com/ghostwalker18/mqttmicrophone/MQTTService.kt:147-151 | the new fields are `MqttModel.MessageArrived` of the old ones |
| `MqttTraces.RunPreservesWellFormed` | app/src/main/java/com/ghostwalker18/mqttmicrophone/MQTTService.kt:85-170 | after any sequence of events, every logged action names a handle already built, every publish and subscribe is exactly-once, and the client is bound to the current settings |
| `MqttTraces.RunExtendsLog` | app/src/main/java/com/ghostwalker18/mqttmicrophone/MQTTService.kt:65-153 | the transport log only grows: every run keeps the earlier actions as a prefix |
| `MqttTraces.HandleCountsRebuilds` | app/src/main/java/com/ghostwalker18/mqttmicrophone/MQTTService.kt:86-102 | after any run, the client handle has advanced by exactly the number of connection-key changes |
| `MqttTraces.RunStatus` | app/src/main/java/com/ghostwalker18/mqttmicrophone/MQTTService.kt:115-137 | the status after any run is the one set by the latest preference change or ConnAck: "connecting", "connected" or "not connected" |
| `MqttTraces.ConnectedIffLatestConnAckSucceeded` | app/src/main/java/com/ghostwalker18/mqttmicrophone/MQTTService.kt:122-131 | the service ends connected iff the latest status-setting event was a SUCCESS ConnAck, or there was none and it was connected before |
| `MqttTraces.NoPublishBeforeSuccess` | app/src/main/java/com/ghostwalker18/mqttmicrophone/MQTTService.kt:65-73 | from a state that is not connected, no run without a SUCCESS ConnAck reaches "connected" or logs a publish, whatever sends it contains |
| `MqttTraces.TeardownOnlyAtShutDown` | app/src/main/java/com/ghostwalker18/mqttmicrophone/MQTTService.kt:78-116 | a run without a shutdown logs no unsubscribe and no disconnect, so rebuilds and topic changes never tear anything down |
| `MqttTraces.MicRetargetTakesEffectOnNextSend` | app/src/main/java/com/ghostwalker18/mqttmicrophone/MQTTService.kt:103-106 | after a mic-topic change and a successful reconnect, the same client publishes the next send on the new topic |
| `MqttTraces.LateConnAckIsNotFiltered` | app/src/main/java/com/ghostwalker18/mqttmicrophone/MQTTService.kt:123-136 | after a rebuild, a SUCCESS ConnAck that answers the abandoned client (its handle is in the event) still sets "connected" and subscribes on the new client |
| `PlaybackModel.Initial` | app/src/main/java/com/ghostwalker18/mqttmicrophone/VoicePlayer.kt:39-53 | a new bridge is not playing and has an idle player, and the cache file is whatever was there |
| `PlaybackModel.PayloadReceived` | app/src/main/java/com/ghostwalker18/mqttmicrophone/VoicePlayer.kt:59-67 | after an inbound payload the scratch file holds exactly that payload, the player is started on exactly that payload, and `isPlaying` is true, whatever was playing before |
| `PlaybackModel.PlaybackFinished` | app/src/main/java/com/ghostwalker18/mqttmicrophone/VoicePlayer.kt:50-52 | completion clears `isPlaying`, moves the player to PlaybackCompleted and leaves the file; the bridge is consistent afterwards |
| `PlaybackModel.StopPlaying` | app/src/main/java/com/ghostwalker18/mqttmicrophone/VoicePlayer.kt:73-79 | `isPlaying` is false and the file is absent; the player is stopped only if it was playing and is otherwise untouched |
| `PlaybackModel.ShutDown` | app/src/main/java/com/ghostwalker18/mqttmicrophone/VoicePlayer.kt:84-87 | the player is released and the scratch file is absent |
| `PlaybackModel.StopPlayingIsIdempotent` | app/src/main/java/com/ghostwalker18/mqttmicrophone/VoicePlayer.kt:73-79 | stopping twice leaves the same state as stopping once |
| `PlaybackModel.RunKeepsLatestPayload` | app/src/main/java/com/ghostwalker18/mqttmicrophone/VoicePlayer.kt:50-87 | after any feasible run the bridge is consistent; a scratch file still present holds the latest payload; a playing player plays the latest payload only |
| `Playback.VoicePlayer.constructor` | app/src/main/java/com/ghostwalker18/mqttmicrophone/VoicePlayer.kt:39-53 | the fields equal `PlaybackModel.Initial(leftover)` |
| `Playback.VoicePlayer.OnPayload` | app/src/main/java/com/ghostwalker18/mqttmicrophone/VoicePlayer.kt:59-67 | the new fields are `PlaybackModel.PayloadReceived` of the old ones, reached through reset, setDataSource, prepare and start |
| `Playback.VoicePlayer.OnCompletion` | app/src/main/java/com/ghostwalker18/mqttmicrophone/VoicePlayer.kt:50-52 | the new fields are `PlaybackModel.PlaybackFinished` of the old ones |
| `Playback.VoicePlayer.StopPlaying` | app/src/main/java/com/ghostwalker18/mqttmicrophone/VoicePlayer.kt:73-79 | the new fields are `PlaybackModel.StopPlaying` of the old ones |
| `Playback.VoicePlayer.ShutDown` | app/src/main/java/com/ghostwalker18/mqttmicrophone/VoicePlayer.kt:84-87 | the new fields are `PlaybackModel.ShutDown` of the old ones |
| `CaptureModel.Initial` | app/src/main/java/com/ghostwalker18/mqttmicrophone/VoiceRecorder.kt:42-43 | a new bridge has no recorder and finds whatever file the cache held |
| `CaptureModel.StartRecord` | app/src/main/java/com/ghostwalker18/mqttmicrophone/VoiceRecorder.kt:48-64 | without permission nothing changes; with it, the leftover file is gone and the recorder is a new instance, started, with an id above the replaced one's |
| `CaptureModel.SendRecord` | app/src/main/java/com/ghostwalker18/mqttmicrophone/VoiceRecorder.kt:69-75 | the bytes sent are the recording when there is a recorder, and otherwise the file's bytes; the recorder is stopped and released but stays in the field; the file is absent afterwards |
| `CaptureModel.SessionSendsItsRecording` | app/src/main/java/com/ghostwalker18/mqttmicrophone/VoiceRecorder.kt:48-75 | a session started with permission can be sent, and sends exactly what it recorded |
| `Capture.VoiceRecorder.constructor` | app/src/main/java/com/ghostwalker18/mqttmicrophone/VoiceRecorder.kt:42-43 | the fields equal `CaptureModel.Initial(leftover)` and the service is the one given |
| `Capture.VoiceRecorder.StartRecord` | app/src/main/java/com/ghostwalker18/mqttmicrophone/VoiceRecorder.kt:48-64 | the new fields are `CaptureModel.StartRecord` of the old ones, reached through `setAudioSource`, `setOutputFormat`, `setAudioEncoder`, `setOutputFile`, `prepare` and `start` in turn, each allowed in the recorder state it is called in |
| `Capture.VoiceRecorder.SendRecord` | app/src/main/java/com/ghostwalker18/mqttmicrophone/VoiceRecorder.kt:69-75 | the new fields are `CaptureModel.SendRecord` of the old ones, and the service's state is `MqttModel.Send` of its old state with exactly the bytes sent: one send, no other change |

## Left out

- Preference values are strings in a map. A missing key gives the default. A value stored as `null` or under another type is not modelled.
- The `NumberFormatException` that `toInt()` throws on a bad port string is not modelled: the port key is only handled when its value parses (`MqttModel.PortSettingParses`).
- `KotlinText.ToIntOrNull`: it accepts only ASCII digits. The JVM's `Character.digit` also accepts other Unicode decimal digits.
- The HiveMQ client is a handle number plus the host, port and credentials it was built with. The builder, the network, the futures and the threads are not modelled. The random UUID identifier is only modelled as "a new handle per build".
- The null `con` / non-null `throwable` path of the ConnAck completion is not modelled. The completion is an event carrying a reason code and the handle of the client it answers, which the service ignores.
- In the source, a ConnAck can only follow a connect request, and a message can only arrive on a subscribed topic. The model does not restrict when these events arrive.
- LiveData `postValue` deferral is modelled as direct assignment. Observers, lifecycle owners and the `startWorking` registration are not modelled. The observer body is the method `Playback.VoicePlayer.OnPayload`.
- The status strings are the three constructors of `MqttModel.Status`. String resources and localisation are left out.
- The password is kept as a string. Its UTF-8 encoding by `toByteArray()` is not modelled.
- `MediaPlayer` and `MediaRecorder` are reduced to their state machines. Audio attributes, sources, encoders, decoding, encoding and the API-level choice of recorder constructor are left out.
- The bytes a recording session produces are a parameter of `sendRecord`. They are written to the file when the recorder stops. While recording, the scratch file is modelled as absent.
- Calls that throw are excluded by preconditions, not modelled as errors:
  - calling the player after release;
  - `stop()` on a recorder that is not recording;
  - `readBytes()` on a missing file.
  The `prepare()` I/O failures are not modelled.
- `CaptureModel.StopRecorder` always succeeds. Android's `MediaRecorder.stop()` also throws a `RuntimeException` when no audio data has been received yet, for example when it is called straight after `start()`. No precondition can rule that out, because the model has no notion of elapsed recording time, so that failure is not modelled.
- The permission check is a boolean parameter of `startRecord`.
- `MainActivity` (UI wiring, permission prompts, menus) and `App` (theme and locale) are not part of this model.
