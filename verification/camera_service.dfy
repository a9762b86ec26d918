/** The producing device's service (`CameraService`): the two flags
    `isConnected` and `isStreaming`, the stored auth token, and the effects
    each entry point or socket callback has on them. Effects are what the
    service asks of the outside world: socket emits, the auth request, the
    socket close and the stored-token removal. */
module CameraService {
  import opened Util

  datatype Producer = Producer(deviceId: string, isConnected: bool, isStreaming: bool,
                               authToken: Option<string>)

  datatype Effect =
    /** `streaming-state-update` emitted on the socket */
    | StateUpdate(isStreaming: bool, deviceId: string)
    /** `camera-stream` emitted on the socket */
    | FrameSent(frame: string, timestamp: int, deviceId: string)
    /** the stored `auth_token` preference is removed */
    | ClearStoredToken
    /** `authenticateWithServer` is launched */
    | RequestAuthentication
    /** `socket?.disconnect()` */
    | CloseSocket

  datatype Out = Out(state: Producer, effects: seq<Effect>)

  /** A freshly created service: not connected, not streaming, no token. */
  function Init(deviceId: string): (p: Producer)
    ensures !p.isConnected && !p.isStreaming && p.authToken.None? && p.deviceId == deviceId
  {
    Producer(deviceId, false, false, None)
  }

  /** The flag invariant: streaming only while connected. */
  predicate Consistent(p: Producer)
  {
    p.isStreaming ==> p.isConnected
  }

  function UpdatesIn(effects: seq<Effect>): nat
    decreases |effects|
  {
    if |effects| == 0 then 0 else (if effects[0].StateUpdate? then 1 else 0) + UpdatesIn(effects[1..])
  }

  /** `startStreaming`: acts only when connected and not yet streaming; it
      then sets the flag and tells the server, once. */
  function StartStreaming(p: Producer): (r: Out)
    ensures p.isConnected && !p.isStreaming ==>
              r.state == p.(isStreaming := true) && r.effects == [StateUpdate(true, p.deviceId)]
    ensures !(p.isConnected && !p.isStreaming) ==> r == Out(p, [])
    ensures Consistent(p) ==> Consistent(r.state)
  {
    if p.isConnected && !p.isStreaming then
      Out(p.(isStreaming := true), [StateUpdate(true, p.deviceId)])
    else
      Out(p, [])
  }

  /** `stopStreaming`: acts only while streaming; it then clears the flag
      and tells the server, once. */
  function StopStreaming(p: Producer): (r: Out)
    ensures p.isStreaming ==>
              r.state == p.(isStreaming := false) && r.effects == [StateUpdate(false, p.deviceId)]
    ensures !p.isStreaming ==> r == Out(p, [])
    ensures !r.state.isStreaming
    ensures Consistent(p) ==> Consistent(r.state)
  {
    if p.isStreaming then
      Out(p.(isStreaming := false), [StateUpdate(false, p.deviceId)])
    else
      Out(p, [])
  }

  /** The socket's EVENT_CONNECT callback: mark connected, then auto-start. */
  function OnSocketConnect(p: Producer): (r: Out)
    ensures r.state.isConnected && r.state.isStreaming
    ensures r.state.deviceId == p.deviceId && r.state.authToken == p.authToken
    ensures !p.isStreaming ==> r.effects == [StateUpdate(true, p.deviceId)]
    ensures p.isStreaming ==> r.effects == []
  {
    StartStreaming(p.(isConnected := true))
  }

  /** The socket's EVENT_DISCONNECT callback: both flags are cleared before
      `stopStreaming` runs, so that call finds nothing to stop and the
      server is not sent a state update. */
  function OnSocketDisconnect(p: Producer): (r: Out)
    ensures !r.state.isConnected && !r.state.isStreaming
    ensures r.state.deviceId == p.deviceId && r.state.authToken == p.authToken
    ensures r.effects == []
  {
    StopStreaming(p.(isConnected := false, isStreaming := false))
  }

  /** `connectToServer`: only when not connected, forget the stored token
      and authenticate afresh; otherwise nothing happens. */
  function ConnectToServer(p: Producer): (r: Out)
    ensures !p.isConnected ==>
              r.state == p.(authToken := None) && r.effects == [ClearStoredToken, RequestAuthentication]
    ensures p.isConnected ==> r == Out(p, [])
  {
    if !p.isConnected then Out(p.(authToken := None), [ClearStoredToken, RequestAuthentication])
    else Out(p, [])
  }

  /** `disconnectFromServer`: close the socket and clear both flags without
      telling the server about the streaming state. */
  function DisconnectFromServer(p: Producer): (r: Out)
    ensures !r.state.isConnected && !r.state.isStreaming
    ensures r.state.deviceId == p.deviceId && r.state.authToken == p.authToken
    ensures r.effects == [CloseSocket]
  {
    Out(p.(isConnected := false, isStreaming := false), [CloseSocket])
  }

  /** The camera analyzer for one captured image taken at `timestamp`:
      `encoded` is the Base64 JPEG, absent when conversion failed. A frame is
      sent only while both streaming and connected. */
  function AnalyzeImage(p: Producer, encoded: Option<string>, timestamp: int): (r: Out)
    ensures r.state == p
    ensures |r.effects| <= 1
    ensures |r.effects| == 1 <==> p.isStreaming && p.isConnected && encoded.Some?
    ensures |r.effects| == 1 ==> r.effects[0] == FrameSent(encoded.value, timestamp, p.deviceId)
  {
    if p.isStreaming && p.isConnected && encoded.Some? then
      Out(p, [FrameSent(encoded.value, timestamp, p.deviceId)])
    else
      Out(p, [])
  }

  /** The inputs the service reacts to. */
  datatype Event =
    | SocketConnected
    | SocketDisconnected
    | StartCommand
    | StopCommand
    | UserStart
    | UserStop
    | UserConnect
    | UserDisconnect
    | Image(encoded: Option<string>, timestamp: int)

  function Step(p: Producer, e: Event): Out
  {
    match e
    case SocketConnected => OnSocketConnect(p)
    case SocketDisconnected => OnSocketDisconnect(p)
    case StartCommand => StartStreaming(p)
    case StopCommand => StopStreaming(p)
    case UserStart => StartStreaming(p)
    case UserStop => StopStreaming(p)
    case UserConnect => ConnectToServer(p)
    case UserDisconnect => DisconnectFromServer(p)
    case Image(encoded, timestamp) => AnalyzeImage(p, encoded, timestamp)
  }

  /** Every input keeps `isStreaming ==> isConnected`. */
  lemma StepConsistent(p: Producer, e: Event)
    requires Consistent(p)
    ensures Consistent(Step(p, e).state)
  {
  }

  /** A state update is sent only when the streaming flag really changed,
      and it reports the new value; at most one is sent per input. */
  lemma UpdateOnlyOnChange(p: Producer, e: Event)
    ensures UpdatesIn(Step(p, e).effects) <= 1
    ensures forall x :: x in Step(p, e).effects && x.StateUpdate? ==>
              x.isStreaming == Step(p, e).state.isStreaming && x.isStreaming != p.isStreaming
              && x.deviceId == p.deviceId
  {
  }

  function Run(p: Producer, evs: seq<Event>): Producer
    decreases |evs|
  {
    if |evs| == 0 then p else Run(Step(p, evs[0]).state, evs[1..])
  }

  /** Every state reachable from a consistent one is consistent. */
  lemma {:induction false} RunConsistent(p: Producer, evs: seq<Event>)
    requires Consistent(p)
    ensures Consistent(Run(p, evs))
    decreases |evs|
  {
    if |evs| > 0 {
      StepConsistent(p, evs[0]);
      RunConsistent(Step(p, evs[0]).state, evs[1..]);
    }
  }

  /** `stopStreaming` is idempotent: a second call changes nothing and sends nothing. */
  lemma StopIdempotent(p: Producer)
    ensures StopStreaming(StopStreaming(p).state) == Out(StopStreaming(p).state, [])
  {
  }

  /** From an idle service, a socket connect ends streaming after exactly one
      update telling the server so. */
  lemma ConnectAutoStarts(deviceId: string)
    ensures OnSocketConnect(Init(deviceId)).state.isStreaming
    ensures OnSocketConnect(Init(deviceId)).effects == [StateUpdate(true, deviceId)]
  {
  }
}
