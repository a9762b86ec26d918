# Camera streaming: relay server, viewer buffer and producer, in Dafny

This project models the three state machines of a phone-to-browser camera
streaming system and proves properties of them.

- **Relay server** (`camera-streaming-server/server.js`). It covers:
  - the bearer-token gateway: `POST /api/authenticate` and the device path of
    the socket handshake;
  - the session table that socket registration, the socket event handlers and
    the inactivity sweep maintain;
  - the `isActive` rule of `GET /api/devices`.

  Each handler is a pure step from a server state, the clock reading `now` and
  one event to the next state and the messages sent. "Every web client" means
  one message per browser connection. A new socket first passes the handshake
  against the server's token table and is registered only when admitted.
- **Viewer frame buffer** (`VideoStreamManager.js`). It covers:
  - a FIFO of at most three frames, with a capacity drop;
  - a render gate that hands at most one frame per interval to a two-phase
    decode (start, then the image's load or error callback);
  - a 200 ms staleness drop;
  - a 30-sample latency window and cumulative counters.
- **Producer service** (`CameraService.kt`). It covers:
  - the `isConnected`/`isStreaming` flags under socket callbacks, server
    commands and user actions;
  - the gate on sending frames;
  - the vendor decision `detectUvSwapNeeded`.

`Relay.Handle` and `CameraService.Step` only dispatch an event to its
handler. They carry no contract of their own: what they promise is stated by
the handlers they call and by `RelayProps.HandleValid`,
`CameraService.StepConsistent` and `CameraService.RunConsistent`.

Files:

| file | content |
|---|---|
| `util.dfy` | `Option`, JavaScript truthiness of an optional string, substring search, ASCII lower-casing |
| `auth.dfy` | token table, `/api/authenticate`, the socket handshake |
| `relay.dfy` | connections, sessions, socket event handlers, sweep, device list |
| `relay_props.dfy` | registry invariant and properties spanning handlers |
| `frame_buffer.dfy` | `VideoStreamManager` operations |
| `frame_buffer_props.dfy` | bounds, accounting and capacity-drop properties over runs of events |
| `camera_service.dfy` | producer flags and effects |
| `uv_swap.dfy` | `detectUvSwapNeeded` and an equivalent rule table |

Where the code and the intended design disagree, the model follows the code:

- A token is expired only when `now > expiresAt`, so a check at exactly the
  expiry instant still admits.
- `disconnect` deletes the device's session and announces nothing to browsers.
- `disconnect` deletes by device id without checking which socket the session
  names. When a device's older connection closes, the session that its newer,
  still live connection registered is deleted as well.
- `start-streaming`, `stop-streaming` and `streaming-state-update` do not
  refresh `lastActivity`. Only `camera-stream` does.
- `destroy` only empties the buffer. The render loop keeps running.
- A failed decode increments neither counter.
- Latency is measured from a frame's receipt, not from its capture.

## Model

| member | source | states |
|---|---|---|
| Auth.Status | camera-streaming-server/server.js:108-159 | each reply maps to its own HTTP status (200, 400, 500, 401), in both directions |
| Auth.Authenticate | camera-streaming-server/server.js:96-160 | first failure wins:<br>• a missing or empty field gives 400, reported before the configuration check, with which field is present;<br>• an unset secret gives 500;<br>• a wrong secret gives 401;<br>• otherwise the token, `expiresIn` 3600000 and the device id, each branch stated as an iff;<br>• success adds one entry `{deviceId, now, now + 3600000}` and leaves other tokens untouched;<br>• failures leave the table unchanged |
| Auth.VerifyDeviceToken | camera-streaming-server/server.js:230-257 | device handshake in order:<br>• no token;<br>• unknown token;<br>• `now > expiresAt` is refused and deletes that token;<br>• otherwise admitted with the token's device id and `isWebClient = false` |
| Auth.VerifyConnection | camera-streaming-server/server.js:182-258 | a user agent containing "Mozilla" takes the browser path: admitted as `web-frontend` exactly when a credential is present and accepted, without touching tokens; a missing credential is refused as "Firebase token required" and a rejected one as "Invalid Firebase token"; every other client takes the device path; an admitted connection is a browser exactly when its agent says Mozilla |
| Auth.IssueThenVerify | camera-streaming-server/server.js:136-143 | an issued token admits its device at every instant up to and including `issuedAt + 3600000`, and later is refused as expired and deleted |
| Auth.TwoTokensSameDevice | camera-streaming-server/server.js:136-143 | two authentications of one device leave two live tokens, both admitting it |
| Auth.ErrorTextMatchesStatus | camera-streaming-server/server.js:108-133 | two failure replies carry the same `error` text exactly when they carry the same status: a missing `deviceId` and a missing `deviceSecret` read alike |
| Auth.HandshakeMessageDistinct | camera-streaming-server/server.js:196-249 | each handshake refusal reason has its own error message |
| Relay.FindSocketByDeviceId | camera-streaming-server/server.js:538-545 | the first live non-browser connection with that device id; none exactly when no such connection exists |
| Relay.Broadcast | camera-streaming-server/server.js:410-414 | every browser connection gets the event, and nothing else is addressed |
| Relay.StreamingDevices | camera-streaming-server/server.js:282-289 | the status entries are exactly the streaming sessions, with their last frame |
| Relay.AdmitConnection | camera-streaming-server/server.js:182-294 | a new socket is checked against the server's token table:<br>• refused: nothing is registered and the socket alone receives the refusal message;<br>• admitted: it joins the connections with the handshake's identity; a browser first gets the list of streaming devices; then the welcome message goes out with its text, the device id, the browser flag and `now`, and no other message is sent;<br>• a browser never opens a session or touches a token;<br>• a device with a live token opens a fresh session under the token's device id;<br>• no token is ever added or altered, and the only one deleted is an expired token a device presents |
| Relay.Connect | camera-streaming-server/server.js:262-294 | a device connection replaces its device's session with a fresh idle one (`connectedAt = lastActivity = now`, not streaming, no frame); a browser leaves sessions alone and first receives the streaming-status list; both receive the welcome message last, and only they are addressed |
| Relay.SetStreaming | camera-streaming-server/server.js:297-358 | without a live device connection: only a "Device not found" command error to the requester, and no state change; otherwise the session flag is set (when a session exists), other sessions are unchanged, the command goes to the found connection, and `streaming-state-changed` goes to every browser |
| Relay.StateUpdate | camera-streaming-server/server.js:361-382 | the sender's own session flag (device only) is set, others are unchanged; the change goes to every browser |
| Relay.CameraStreamFrame | camera-streaming-server/server.js:385-415 | a device's session gets `lastActivity = now` and keeps only this frame, others are unchanged; every browser receives `{deviceId, frame, now}` even without a session |
| Relay.RequestSnapshotFrom | camera-streaming-server/server.js:418-461 | state unchanged, one reply:<br>• unknown device gives "Device not found";<br>• streaming gives `take-snapshot` with the request id, sent to the found device (or not-found when there is none);<br>• stopped with a non-empty cached frame gives that frame to the requester;<br>• otherwise "No frame available" |
| Relay.SnapshotDataFrom | camera-streaming-server/server.js:464-484 | state unchanged; the image goes to every browser |
| Relay.DisconnectConn | camera-streaming-server/server.js:511-522 | the connection is gone and the others stay; a device whose first connection stays is still found on it; a device's session is deleted and nothing else changes; nothing is sent |
| Relay.RemoveConnFindsFirstSurvivor | camera-streaming-server/server.js:538-545 | after a connection closes, each device is found on its first remaining connection in the old connection order |
| Relay.CleanupInactiveSessions | camera-streaming-server/server.js:675-690 | keeps exactly the sessions with `now - lastActivity <= 600000`, unchanged |
| Relay.ListDevices | camera-streaming-server/server.js:581-597 | one entry per session with `isActive` iff `now - lastActivity < 30000`, and a count equal to the number of sessions |
| RelayProps.InitialValid | camera-streaming-server/server.js:78-79 | the empty server satisfies the registry invariant (distinct socket ids; every session names a live device connection with its device id) |
| RelayProps.ConnectValid | camera-streaming-server/server.js:271-279 | registering a connection with an unused id keeps the invariant |
| RelayProps.AdmitValid | camera-streaming-server/server.js:182-279 | admitting or refusing a socket with an unused id keeps the invariant |
| RelayProps.AuthenticatedDeviceConnects | camera-streaming-server/server.js:136-143 | a device that authenticates at `t0` and connects with its token up to `t0 + 3600000` is registered with a fresh session on that socket; later it is refused with "Token expired", nothing is registered, and the token is deleted |
| RelayProps.DisconnectCommandsFirstSurvivor | camera-streaming-server/server.js:297-327 | after a connection closes, the next start or stop command for a device goes to its first remaining connection in connection order |
| RelayProps.DisconnectValid | camera-streaming-server/server.js:511-522 | a closing connection keeps the invariant |
| RelayProps.HandleValid | camera-streaming-server/server.js:297-522 | every socket event handler keeps the invariant |
| RelayProps.CleanupValid | camera-streaming-server/server.js:675-690 | the sweep keeps the invariant |
| RelayProps.SessionHasSocket | camera-streaming-server/server.js:538-545 | under the invariant every session's device is found |
| RelayProps.SnapshotDecision | camera-streaming-server/server.js:418-461 | under the invariant:<br>• "Device not found" iff no session;<br>• `take-snapshot` iff streaming, always sent to a connection of that device;<br>• a cached-frame reply goes to the requester with non-empty data |
| RelayProps.StopWhenStopped | camera-streaming-server/server.js:329-358 | stopping an already stopped device changes nothing, raises no error, and still tells every browser |
| RelayProps.CommandToUnknownDevice | camera-streaming-server/server.js:297-327 | a command for a device with no live device connection changes nothing and answers only the requester |
| RelayProps.FindSocketAppend | camera-streaming-server/server.js:538-545 | a connection added later never changes which connection is found for a device that already has one |
| RelayProps.CommandTargetsOldestConnection | camera-streaming-server/server.js:538-545 | on any valid server, when a device that already has a live connection connects again, its session names the new socket while a command goes to the older one |
| RelayProps.OldConnectionCloseDropsSession | camera-streaming-server/server.js:519-521 | on any valid server, when a device's connection closes while its session names another live connection of that device, the session is deleted although its socket stays connected |
| RelayProps.EmptyFrameIsNoFrame | camera-streaming-server/server.js:395-398 | an empty frame is cached, yet counts as no frame for a snapshot of the stopped device |
| RelayProps.LatestFrameWins | camera-streaming-server/server.js:388-399 | of two frames in a row only the second stays cached, stamped with its time |
| RelayProps.RegisterLastWriterWins | camera-streaming-server/server.js:271-279 | after any sequence of registrations, each at its own time, a device id has the fresh session of its latest registration, stamped with that registration's time; other ids keep theirs |
| RelayProps.CleanupIdempotent | camera-streaming-server/server.js:675-690 | sweeping twice at one instant equals sweeping once |
| RelayProps.ActiveSurvivesCleanup | camera-streaming-server/server.js:590 | a session reported active is not swept at that instant |
| RelayProps.DeviceCountMatches | camera-streaming-server/server.js:596 | `count` equals the number of listed devices |
| FrameBuffer.Init | camera-streaming-viewer/src/components/VideoStreamManager.js:8-18 | empty buffer, not processing, zero counters, empty history |
| FrameBuffer.AddFrame | camera-streaming-viewer/src/components/VideoStreamManager.js:25-41 | the new frame goes last; a full buffer first loses its oldest frame and counts one drop; otherwise nothing is dropped; the size stays at most 3; nothing else changes |
| FrameBuffer.ProcessNextFrame | camera-streaming-viewer/src/components/VideoStreamManager.js:61-76 | no change while processing or empty; otherwise exactly the head leaves; older than 200 ms means one drop and not processing; otherwise its decode starts with that frame in flight |
| FrameBuffer.RenderTick | camera-streaming-viewer/src/components/VideoStreamManager.js:44-58 | `processNextFrame` runs once and `lastFrameTime := now` only when `now - lastFrameTime >= 1000/30` and the buffer is non-empty; otherwise no change; at most one frame leaves |
| FrameBuffer.PushLatency | camera-streaming-viewer/src/components/VideoStreamManager.js:94-99 | the sample is appended; a window of 30 loses its oldest; it never exceeds 30 |
| FrameBuffer.CompleteDecode | camera-streaming-viewer/src/components/VideoStreamManager.js:80-113 | both callbacks clear the in-flight flag; a load records latency since the frame's timestamp and counts one processed; an error changes neither counter nor the history |
| FrameBuffer.ClearBuffer | camera-streaming-viewer/src/components/VideoStreamManager.js:134-137 | the buffer is empty; counters, history, tick time and an in-flight decode are kept |
| FrameBuffer.Destroy | camera-streaming-viewer/src/components/VideoStreamManager.js:155-158 | the buffer is empty; counters, history, the tick time and an in-flight decode are kept |
| FrameBuffer.GetStats | camera-streaming-viewer/src/components/VideoStreamManager.js:140-152 | `bufferSize` is the buffer length; the counters are reported as held |
| FrameBufferProps.StepValid | camera-streaming-viewer/src/components/VideoStreamManager.js:29-40 | every operation keeps buffer <= 3 and history <= 30, and never lowers a counter |
| FrameBufferProps.RunValid | camera-streaming-viewer/src/components/VideoStreamManager.js:25-158 | the same holds along any run of operations |
| FrameBufferProps.ReachableValid | camera-streaming-viewer/src/components/VideoStreamManager.js:3-22 | every state reachable from construction respects the bounds |
| FrameBufferProps.StepAccounted | camera-streaming-viewer/src/components/VideoStreamManager.js:25-137 | an arrival adds one to queued + in flight + dropped + processed; clears and failed decodes remove exactly what they discard |
| FrameBufferProps.RunAccounted | camera-streaming-viewer/src/components/VideoStreamManager.js:25-137 | over any run, every received frame is queued, in flight, dropped, processed, or discarded by a clear or failed decode |
| FrameBufferProps.AddAllKeepsNewest | camera-streaming-viewer/src/components/VideoStreamManager.js:29-40 | arrivals without rendering leave the newest three frames of everything received, in arrival order, and count every other one as dropped |
| FrameBufferProps.FiveFrames | camera-streaming-viewer/src/components/VideoStreamManager.js:29-40 | f1..f5 into an empty buffer leave [f3, f4, f5] and two drops |
| FrameBufferProps.RenderingOutlivesDestroy | camera-streaming-viewer/src/components/VideoStreamManager.js:155-158 | after `destroy`, a new frame is still picked up by the next due tick |
| FrameBufferProps.BusyTickConsumesSlot | camera-streaming-viewer/src/components/VideoStreamManager.js:49-52 | a due tick during a decode dequeues nothing but still resets the interval |
| FrameBufferProps.LatencyFromReceipt | camera-streaming-viewer/src/components/VideoStreamManager.js:36-40 | the latency recorded for a frame is completion time minus arrival time |
| CameraService.Init | android-streaming-app/app/src/main/java/com/example/camerastreamapp/CameraService.kt:72-77 | a new service is disconnected, not streaming, and has no token |
| CameraService.StartStreaming | android-streaming-app/app/src/main/java/com/example/camerastreamapp/CameraService.kt:631-650 | acts iff connected and not streaming: sets the flag and emits exactly one `streaming-state-update{true}`; otherwise no change and no emit |
| CameraService.StopStreaming | android-streaming-app/app/src/main/java/com/example/camerastreamapp/CameraService.kt:652-671 | acts iff streaming: clears the flag and emits one `streaming-state-update{false}`; otherwise no change; never leaves it streaming |
| CameraService.OnSocketConnect | android-streaming-app/app/src/main/java/com/example/camerastreamapp/CameraService.kt:559-567 | ends connected and streaming; one update when it was not streaming, none otherwise |
| CameraService.OnSocketDisconnect | android-streaming-app/app/src/main/java/com/example/camerastreamapp/CameraService.kt:569-577 | ends with both flags cleared and no update emitted |
| CameraService.ConnectToServer | android-streaming-app/app/src/main/java/com/example/camerastreamapp/CameraService.kt:695-709 | only when disconnected: forgets the token, clears the stored one and starts authentication; otherwise nothing |
| CameraService.DisconnectFromServer | android-streaming-app/app/src/main/java/com/example/camerastreamapp/CameraService.kt:711-718 | closes the socket and clears both flags without an update |
| CameraService.AnalyzeImage | android-streaming-app/app/src/main/java/com/example/camerastreamapp/CameraService.kt:177-182 | a frame is sent iff streaming, connected and the conversion produced data; at most one, with the device id; state unchanged |
| CameraService.StepConsistent | android-streaming-app/app/src/main/java/com/example/camerastreamapp/CameraService.kt:559-617 | every input keeps `isStreaming ==> isConnected` |
| CameraService.UpdateOnlyOnChange | android-streaming-app/app/src/main/java/com/example/camerastreamapp/CameraService.kt:631-671 | at most one state update per input, sent only when the flag changed, carrying the new value |
| CameraService.RunConsistent | android-streaming-app/app/src/main/java/com/example/camerastreamapp/CameraService.kt:559-718 | `isStreaming ==> isConnected` holds along any run from a consistent state |
| CameraService.StopIdempotent | android-streaming-app/app/src/main/java/com/example/camerastreamapp/CameraService.kt:652-671 | a second stop changes nothing and emits nothing |
| CameraService.ConnectAutoStarts | android-streaming-app/app/src/main/java/com/example/camerastreamapp/CameraService.kt:559-567 | from a new service, a socket connect ends streaming after exactly one update |
| UvSwap.DetectUvSwapNeeded | android-streaming-app/app/src/main/java/com/example/camerastreamapp/CameraService.kt:327-396 | after lower-casing the build fields, the decision agrees with the rule table on every fingerprint |
| UvSwap.LookupNoMatch | android-streaming-app/app/src/main/java/com/example/camerastreamapp/CameraService.kt:333-395 | a rule-table lookup with no matching rule answers false |
| UvSwap.LookupFirstMatch | android-streaming-app/app/src/main/java/com/example/camerastreamapp/CameraService.kt:333-395 | in a rule-table lookup, the first matching rule decides the answer |
| UvSwap.ChainMatchesTable | android-streaming-app/app/src/main/java/com/example/camerastreamapp/CameraService.kt:327-396 | on lower-cased fields, the vendor chain as written agrees with the rule table for all inputs |
| UvSwap.SamsungSwaps | android-streaming-app/app/src/main/java/com/example/camerastreamapp/CameraService.kt:335-338 | a manufacturer containing "samsung" in any ASCII case always swaps |
| UvSwap.OnePlusRule | android-streaming-app/app/src/main/java/com/example/camerastreamapp/CameraService.kt:341-350 | OnePlus swaps iff the model contains 7, 8, 9 or "nord", or sdk < 28 |
| UvSwap.StandardVendorsDoNotSwap | android-streaming-app/app/src/main/java/com/example/camerastreamapp/CameraService.kt:381-395 | when no earlier vendor matched, google/sony/motorola/nokia and unknown manufacturers do not swap |
| UvSwap.UnknownDoesNotSwap | android-streaming-app/app/src/main/java/com/example/camerastreamapp/CameraService.kt:390-395 | a fingerprint no vendor rule matches does not swap |
| UvSwap.NewerSdkNeverAddsSwap | android-streaming-app/app/src/main/java/com/example/camerastreamapp/CameraService.kt:333-395 | raising the SDK level never turns the swap on |

## Left out

- Express middleware (helmet, CORS, rate limiting, compression, logging): framework plumbing.
- Identity-provider verification and the user database lookup on the browser handshake path: foreign SDK calls, reduced to the boolean `credentialAccepted`. `/api/register-device` and `services/firebaseAdmin.js` are not part of this model.
- Random generation of tokens and snapshot request ids: each is a parameter (`drawn`, `requestId`).
- Timers: the one-hour `setTimeout` deletion of each token, and the `setInterval` runs of the sweep and the memory log. The clock is the explicit `now`. A token stays in the table until a handshake finds it expired. In the running server the one-hour timer usually deletes a token first, so a late handshake is then refused as an unknown token ("Authentication failed: Invalid or expired token"), not with "Token expired".
- `/api/health`, the debug tokens route, and the WebRTC offer/answer/ICE rebroadcast.
- The `frameTimestamps` map and its clean-up loop: nothing ever adds to it, so that loop never removes anything.
- Insertion order of the session table: the `streaming-status` list and the `/api/devices` list are sets.
- Payload fields the server passes through without reading (the spread of the request into `take-snapshot`, the device id a client puts in its payload), and payloads that are not strings.
- Several `Date.now()` or `performance.now()` readings within one handler are modelled as one reading. Viewer time is whole milliseconds, not a floating-point value.
- Relay.StateUpdate: the `isStreaming` payload of `streaming-state-update` is modelled as a boolean. A non-boolean value, which the source stores and relays as it is, is not modelled.
- Relay.Broadcast: states membership in both directions, but not that exactly one message per browser is sent in connection order.
- The viewer's floating-point `averageLatency` and `dropRate` (which divide by zero when both counters are 0), and `logPerformance`.
- Canvas drawing, `Image` decoding, `requestAnimationFrame` scheduling, and the `try`/`catch` around image creation.
- Camera binding, YUV-to-JPEG-to-Base64 conversion (a failed conversion is an absent frame), and the colour-plane rewrite that uses the swap decision.
- `authenticateWithServer` (HTTP), the connect-error retry with its delay, notifications, service callbacks, `cleanup`/`onDestroy`, and the snapshot reply.
- The analyzer runs on a camera thread that reads the flags without synchronisation. The model treats every input as atomic.
- `lowercase()` is modelled for ASCII letters only.
- The lifetime of the socket object. An emit on an absent socket is not modelled, because the flags that gate each emit are only set while a socket exists.
