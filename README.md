# Voice session and application store of a chat client

This project models two parts of a chat client written in TypeScript and proves
properties of them in Dafny:

- **The voice session** (`src/lib/voiceChat.ts`, class `VoiceChat`). One object owns
  the mediasoup device, the send transport, the receive transports (a JavaScript
  `Map` keyed by transport id), the local producer, the consumers (a `Map` keyed by
  remote producer id), the captured microphone stream, and the `isMuted` and
  `isDeafened` flags. Signalling-server notifications arrive as calls to
  `LoadDevice`, `ConnectProducerTransport`, `ConnectConsumerTransport` and `Consume`.
  The user drives `JoinVoiceChannel`, `LeaveVoiceChannel`, `ToggleMute`,
  `ToggleDeafen` and `ChangeAudioDevice`. The model is the Dafny class
  `Voice.VoiceChat`. Its fields are those of the source with two changes: the
  `socket` field is replaced by `sent`, the log of messages the session's methods
  emit, and `store` stands for the `useStore` singleton the session writes into. Tracks, streams, the
  device, transports, the producer and the consumers are small objects in module
  `Media`. A track has an `enabled` flag and a `stopped` flag. A producer and a
  consumer each have a `closed` flag, and a producer also holds its current track.
- **The application store** (`src/store/useStore.ts`). Each action is a function
  from one `AppState` to the next in module `Store`. The store container that the
  voice session writes presence into is the class `Voice.StoreHandle`.

Each call into the browser, mediasoup-client or the signalling server becomes a
method argument that says how the call turned out. The arguments are
`getUserMedia`, `new Device()`, `device.load`, `createSendTransport`/`createRecvTransport`,
`produce`, `transport.consume`, `replaceTrack` and the server's answer to
`consume`. A call that resolved returns `true` or `Some(...)`; a call that threw
returns `false` or `None`. The messages that the session's own methods emit on the
socket (`consume`, `joinVoiceChannel`, `leaveVoiceChannel`) are recorded in the
field `sent`. Messages emitted by the transport listeners are not recorded. A JavaScript `Map` keeps its keys in insertion order, and
`consume` uses the oldest receive transport. Module `JsMap` models the `Map` as an
ordered key list plus a dictionary.

The model follows the code as written, including where it differs from the
intended design of the session (leave clears the flags; a failed join releases
what it acquired; late replies are discarded):

- `LeaveVoiceChannel` keeps `isMuted`, `isDeafened`, the device and all transports.
- `Consume` gives the new consumer an enabled track even while deafened.
- `JoinVoiceChannel` keeps the new stream when it returns early because the device
  or the send transport is missing, or because `produce` failed. It replaces an
  earlier stream without stopping it.
- `LoadDevice` stores the new device before loading it, so a failed load leaves a
  device that is not loaded.
- There is no join/leave state machine, no cancellation token and no error
  taxonomy. Errors are only logged, or they end an `async` handler early.

`Scenarios.MuteSurvivesRejoin` proves one consequence. After mute, leave and join,
`isMuted` is still true, but the newly captured microphone track is enabled.

## Model

| member | source | states |
|---|---|---|
| `JsMap.OrderedMap.Set` | src/lib/voiceChat.ts:90 | `Map.set` stores the value under the key, keeps every other entry, keeps the order of existing keys, and grows the size by one exactly when the key is new |
| `JsMap.OrderedMap.Values` | src/lib/voiceChat.ts:96 | `Array.from(map.values())` lists one value per key, in key order, and contains exactly the dictionary's values |
| `JsMap.OrderedMap.First` | src/lib/voiceChat.ts:96 | the transport `consume` uses is element 0 of `values()` |
| `JsMap.Empty` | src/lib/voiceChat.ts:148 | a new or cleared `Map` is well formed and has size 0 and no entries |
| `JsMap.SizeIsCount` | src/lib/voiceChat.ts:94 | `size` (`OrderedMap.Size`, the `consumerTransports.size` of the guard) equals the number of keys in the dictionary |
| `JsMap.SetKeepsFirst` | src/lib/voiceChat.ts:90-96 | setting a key changes the oldest value only when that key is the oldest key |
| `Store.InitialState` | src/store/useStore.ts:39-48 | the store starts with no current user, no users, no messages and no selection, plus four channels with distinct ids "1" to "4": two voice channels, then two text channels, all with no participants |
| `Store.SetCurrentUser` | src/store/useStore.ts:49 | `setCurrentUser` changes `currentUser` and no other field |
| `Store.AddChannel` | src/store/useStore.ts:50-52 | `addChannel` leaves the old channel list followed by the new channel, and no other field changes |
| `Store.AddMessage` | src/store/useStore.ts:53-55 | `addMessage` leaves the old message list followed by the new message, and no other field changes |
| `Store.SetSelectedChannel` | src/store/useStore.ts:56 | `setSelectedChannel` changes `selectedChannel` and no other field |
| `Store.SetStatus` | src/store/useStore.ts:58-60 | the `users.map` keeps length, order, ids and names; it sets both flags on exactly the users with the given id and leaves the other users as they were |
| `Store.UpdateUserStatus` | src/store/useStore.ts:57-61 | `updateUserStatus` does what `SetStatus` does to `users` (an omitted `isSpeaking` counts as `false`) and changes no other field |
| `Store.SpeakingDefaultsToFalse` | src/store/useStore.ts:57 | leaving out `isSpeaking` gives the same state as passing `false` |
| `Store.UnknownUserUnchanged` | src/store/useStore.ts:57-61 | an id that no user has leaves the state unchanged |
| `Store.LastUpdateWins` | src/store/useStore.ts:57-61 | two updates of the same user give the same state as the second update alone |
| `Store.UpdateIdempotent` | src/store/useStore.ts:57-61 | applying the same update twice gives the same state as applying it once |
| `Store.UpdatesCommute` | src/store/useStore.ts:57-61 | updates of two different users can be applied in either order |
| `Media.AudioTracks` | src/lib/voiceChat.ts:166 | `getAudioTracks()` returns exactly the audio tracks of the stream, and no track twice if the stream has none twice |
| `Media.MediaStream.Capture` | src/lib/voiceChat.ts:122 | an audio-only `getUserMedia` yields a stream with one new audio track from the requested source, enabled and not stopped |
| `Media.SetEnabled` | src/lib/voiceChat.ts:166-168 | the `forEach` sets `enabled` on every given track and stops none |
| `Media.StopAll` | src/lib/voiceChat.ts:151 | the `forEach` stops every given track and leaves `enabled` as it was |
| `Media.CloseAll` | src/lib/voiceChat.ts:147 | the `forEach` closes every given consumer |
| `Media.SetConsumersEnabled` | src/lib/voiceChat.ts:174-179 | the `forEach` sets `enabled` on the track of every consumer that has a track, and stops none |
| `Voice.StoreHandle.constructor` | src/store/useStore.ts:38-48 | `create(...)` makes a store holding `Store.InitialState()` |
| `Voice.StoreHandle.UpdateUserStatus` | src/lib/voiceChat.ts:116-117 | the session's presence update replaces the store's state with `Store.UpdateUserStatus` of it |
| `Voice.VoiceChat.constructor` | src/lib/voiceChat.ts:7-14 | a new session has no device, transports, producer, consumers or stream, both flags false, and has sent nothing |
| `Voice.VoiceChat.LoadDevice` | src/lib/voiceChat.ts:43-50 | when `new Device()` throws, `device` stays as it was. Otherwise `device` is a new device, even when `load` fails, and it is loaded exactly when `load` succeeds. Nothing else changes |
| `Voice.VoiceChat.ConnectProducerTransport` | src/lib/voiceChat.ts:52-55 | without a device nothing changes; with one, a new send transport with the server's id becomes `producerTransport`; nothing else changes |
| `Voice.VoiceChat.ConnectConsumerTransport` | src/lib/voiceChat.ts:76-91 | without a device nothing changes; with one, a new receive transport is set under `params.id` in `consumerTransports`; nothing else changes |
| `Voice.VoiceChat.Consume` | src/lib/voiceChat.ts:93-118 | without a device or a receive transport, or with a device that is not loaded (reading its RTP capabilities throws), nothing changes. Otherwise the `consume` request is sent. On success exactly one consumer, on the oldest transport, is set under `producerId`; its track is enabled even while deafened; the store marks `producerId` online and speaking. On failure the consumers and the store stay unchanged |
| `Voice.VoiceChat.JoinVoiceChannel` | src/lib/voiceChat.ts:120-139 | a failed capture changes nothing. A successful capture always replaces the stream, without stopping the old one. Only with a device, a send transport and a successful `produce`: a new producer on the new track, a join message, and the current user marked online and speaking. Otherwise the producer, the messages sent and the store stay unchanged |
| `Voice.VoiceChat.LeaveVoiceChannel` | src/lib/voiceChat.ts:141-161 | the producer and every consumer are closed; every track of the stream is stopped, and its `enabled` flag is kept; the old producer keeps its track; producer, consumers and stream are cleared; a leave message is sent; the current user is marked online and not speaking; the device, the transports and both flags are kept |
| `Voice.VoiceChat.ToggleMute` | src/lib/voiceChat.ts:163-170 | without a stream nothing changes. Otherwise `isMuted` flips, and every audio track of the stream is enabled exactly when not muted. Tracks stay unstopped, and the producer, the consumers' tracks and all other fields stay unchanged |
| `Voice.VoiceChat.ToggleDeafen` | src/lib/voiceChat.ts:172-180 | `isDeafened` flips, and every consumer's track is enabled exactly when not deafened. No consumer is added or removed, and the microphone tracks stay unchanged |
| `Voice.VoiceChat.ChangeAudioDevice` | src/lib/voiceChat.ts:182-201 | only for input with a producer, a successful capture and a successful `replaceTrack`: the producer gets the new track from `deviceId`, every old stream track is stopped, and the new stream replaces the old one. In every other case the stream, its tracks and the producer's track stay unchanged |
| `Scenarios.ToggleMuteTwice` | src/lib/voiceChat.ts:163-170 | muting twice restores `isMuted`. When the tracks matched the flag before, it also restores every track's `enabled`. The producer and its track are untouched |
| `Scenarios.LeaveTwice` | src/lib/voiceChat.ts:141-161 | after two leaves everything the first leave promises holds: producer and consumers closed, stream tracks stopped with `enabled` kept, the three fields cleared, device, transports and both flags kept. The second leave only adds one more leave message, and the store ends as after one leave |
| `Scenarios.JoinThenLeave` | src/lib/voiceChat.ts:120-161 | after a successful join and a leave, the producer the join created is closed and the track it captured is stopped. The session's producer, stream and consumers are cleared. Of the messages the session's methods emit, exactly a join message and a leave message were sent |
| `Scenarios.MuteSurvivesRejoin` | src/lib/voiceChat.ts:141-170 | after mute, leave and join, `isMuted` is true while the new microphone track is enabled |

## Left out

- The socket.io connection and the wiring of its listeners (src/lib/voiceChat.ts:16-41) are network I/O. Each listener is a method of `VoiceChat` that the environment may call.
- The `connect` and `produce` listeners that the code registers on the transports (src/lib/voiceChat.ts:57-73, 81-88) are left out. mediasoup-client calls them, and they emit `connectProducerTransport`, `produce` and `connectConsumerTransport` on the socket. These messages are not recorded in `sent`, and the listeners change no other field of the session. A successful `produce` in `JoinVoiceChannel` therefore implies a `produce` message that `sent` does not show.
- mediasoup-client, `getUserMedia` and the signalling server are foreign code. Only their outcome is modelled, as an argument. The router capabilities and RTP parameters they exchange are not modelled, and neither is what mediasoup does inside `close()`.
- The code awaits the result of `socket.emit('consume', ...)` as the server's reply. The model takes that reply as an argument. What socket.io's `emit` actually returns is library behaviour and is not part of this model.
- The local `new MediaStream([track])` in `consume` (src/lib/voiceChat.ts:114) is never used, and the log output of the `catch` blocks is not modelled.
- Interleaving of `async` handlers at their `await` points is left out. Each method runs to completion as one step.
- `ConnectProducerTransport` and `ConnectConsumerTransport` take transport creation as a free outcome (`created`). mediasoup-client refuses to create a transport on a device that is not loaded, and the model does not tie `created` to `device.loaded`, so it admits more runs than the library allows.
- Message `timestamp` is a JavaScript number; the model uses an integer.
- The React components, `src/lib/utils.ts` and `tailwind.config.js` are left out. They render the UI or style it, or they wrap unseen libraries, and they are not part of this model.
