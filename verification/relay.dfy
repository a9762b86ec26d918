/** The server's session registry and relay: live socket connections, the
    per-device session table, and the socket event handlers, each written as
    a pure step from a server state, the clock reading `now` and one event to
    the next state and the messages sent. A message is addressed to one
    connection; "every web client" is one message per browser connection, in
    connection order. */
module Relay {
  import opened Util
  import opened Auth

  type ConnId = string

  /** A live socket: its transport id and the identity the handshake stamped on it. */
  datatype Conn = Conn(id: ConnId, deviceId: DeviceId, isWebClient: bool)

  /** One entry of `activeSessions`. */
  datatype Session = Session(socketId: ConnId, connectedAt: int, lastActivity: int,
                             isStreaming: bool, lastFrame: Option<string>)

  datatype Server = Server(tokens: TokenTable, sessions: map<DeviceId, Session>, conns: seq<Conn>)

  /** One element of the `streaming-status` device list. */
  datatype StatusEntry = StatusEntry(deviceId: DeviceId, isStreaming: bool, lastFrame: Option<string>)

  /** Server-to-client events. */
  datatype Outbound =
    | StreamingStatus(devices: set<StatusEntry>)
    | Connected(message: string, deviceId: DeviceId, isWebClient: bool, serverTime: int)
    | StartStreamingCommand
    | StopStreamingCommand
    | StreamingStateChanged(deviceId: DeviceId, isStreaming: bool)
    | CameraFeed(deviceId: DeviceId, frame: string, timestamp: int)
    | TakeSnapshot(deviceId: DeviceId, requestId: string)
    /** `snapshot-ready` relayed from a device's `snapshot-data` */
    | SnapshotReady(deviceId: DeviceId, imageData: string, timestamp: int)
    /** `snapshot-ready` answered from the cached frame, flagged `isLastFrame: true` */
    | LastFrameSnapshot(deviceId: DeviceId, imageData: string, timestamp: int)
    | SnapshotError(error: string, deviceId: DeviceId, detail: Option<string>)
    | CommandError(error: string, deviceId: DeviceId)
    /** the handshake refusal the client receives as `connect_error` */
    | ConnectError(message: string)

  datatype Msg = Msg(to: ConnId, event: Outbound)

  /** Client-to-server events, with the payload fields the server reads. */
  datatype Inbound =
    | StartStreaming(target: DeviceId)
    | StopStreaming(target: DeviceId)
    | StreamingStateUpdate(streaming: bool)
    | CameraStream(frame: string)
    | RequestSnapshot(target: DeviceId)
    | SnapshotData(imageData: string)
    | Disconnect

  datatype Step = Step(server: Server, out: seq<Msg>)

  const DeviceNotFound: string := "Device not found"
  const NoFrameAvailable: string := "No frame available"
  const NoFrameDetail: string := "Device has no current or last frame available"

  /** Sessions idle longer than this are swept (10 minutes). */
  const InactiveTimeout: int := 10 * 60 * 1000

  /** `/api/devices` reports a session active when it saw activity within this window. */
  const ActiveWindow: int := 30000

  // ---------------------------------------------------------------------------
  // Connections

  predicate IsDeviceConn(c: Conn, d: DeviceId)
  {
    c.deviceId == d && !c.isWebClient
  }

  /** `findSocketByDeviceId`: the first live non-browser connection carrying
      device id `d`, in connection order. */
  function FindSocketByDeviceId(conns: seq<Conn>, d: DeviceId): (r: Option<Conn>)
    ensures r.None? <==> forall c :: c in conns ==> !IsDeviceConn(c, d)
    ensures r.Some? ==> exists i :: 0 <= i < |conns| && conns[i] == r.value && IsDeviceConn(r.value, d)
                                     && forall j :: 0 <= j < i ==> !IsDeviceConn(conns[j], d)
  {
    if |conns| == 0 then None
    else if IsDeviceConn(conns[0], d) then Some(conns[0])
    else
      var r := FindSocketByDeviceId(conns[1..], d);
      assert forall c :: c in conns[1..] ==> c in conns;
      assert r.Some? ==> exists i :: 0 <= i < |conns[1..]| && conns[1..][i] == r.value
                                     && forall j :: 0 <= j < i ==> !IsDeviceConn(conns[1..][j], d);
      r
  }

  /** One message of event `e` to every browser connection, and to nothing else. */
  function Broadcast(conns: seq<Conn>, e: Outbound): (out: seq<Msg>)
    ensures |out| <= |conns|
    ensures forall m :: m in out ==> m.event == e && exists c :: c in conns && c.isWebClient && c.id == m.to
    ensures forall c :: c in conns && c.isWebClient ==> Msg(c.id, e) in out
  {
    if |conns| == 0 then []
    else
      var rest := Broadcast(conns[1..], e);
      assert forall c :: c in conns[1..] ==> c in conns;
      assert forall c :: c in conns ==> c == conns[0] || c in conns[1..];
      (if conns[0].isWebClient then [Msg(conns[0].id, e)] else []) + rest
  }

  /** The connections left after `c` closes. */
  function RemoveConn(conns: seq<Conn>, id: ConnId): (r: seq<Conn>)
    ensures forall c :: c in r <==> c in conns && c.id != id
    // the survivors keep their order: a device whose first connection stays
    // is still found on that connection
    ensures forall d :: FindSocketByDeviceId(conns, d).Some? && FindSocketByDeviceId(conns, d).value.id != id ==>
                          FindSocketByDeviceId(r, d) == FindSocketByDeviceId(conns, d)
  {
    if |conns| == 0 then []
    else if conns[0].id == id then RemoveConn(conns[1..], id)
    else
      var rest := RemoveConn(conns[1..], id);
      assert ([conns[0]] + rest)[1..] == rest;
      [conns[0]] + rest
  }

  /** After connection `id` closes, each device is found on its first
      remaining connection in the old connection order. */
  lemma {:induction false} RemoveConnFindsFirstSurvivor(conns: seq<Conn>, id: ConnId, d: DeviceId, i: nat)
    requires i < |conns| && IsDeviceConn(conns[i], d) && conns[i].id != id
    requires forall j :: 0 <= j < i ==> !IsDeviceConn(conns[j], d) || conns[j].id == id
    ensures FindSocketByDeviceId(RemoveConn(conns, id), d) == Some(conns[i])
    decreases i
  {
    if i > 0 {
      assert conns[1..][i - 1] == conns[i];
      assert forall j :: 0 <= j < i - 1 ==> conns[1..][j] == conns[j + 1];
      RemoveConnFindsFirstSurvivor(conns[1..], id, d, i - 1);
      if conns[0].id != id {
        assert ([conns[0]] + RemoveConn(conns[1..], id))[1..] == RemoveConn(conns[1..], id);
      }
    }
  }

  // ---------------------------------------------------------------------------
  // Registration

  /** The devices of the `streaming-status` reply: exactly the streaming sessions. */
  function StreamingDevices(sessions: map<DeviceId, Session>): (r: set<StatusEntry>)
    ensures forall e :: e in r <==>
              e.deviceId in sessions && sessions[e.deviceId].isStreaming
              && e == StatusEntry(e.deviceId, true, sessions[e.deviceId].lastFrame)
  {
    set d | d in sessions && sessions[d].isStreaming :: StatusEntry(d, true, sessions[d].lastFrame)
  }

  function WelcomeText(isWebClient: bool): string
  {
    if isWebClient then "Web frontend connected to camera stream server"
    else "Device successfully connected to camera stream server"
  }

  /** The `connection` handler for a socket `c` the handshake admitted. A
      device connection replaces any session of its device id with a fresh,
      idle one; a browser connection leaves the sessions alone and is told
      which devices are streaming. Both get the welcome message last. */
  function Connect(s: Server, now: int, c: Conn): (r: Step)
    ensures r.server.tokens == s.tokens
    ensures r.server.conns == s.conns + [c]
    ensures !c.isWebClient ==>
              r.server.sessions == s.sessions[c.deviceId := Session(c.id, now, now, false, None)]
    ensures c.isWebClient ==> r.server.sessions == s.sessions
    ensures c.isWebClient ==>
              |r.out| == 2 && r.out[0] == Msg(c.id, StreamingStatus(StreamingDevices(s.sessions)))
    ensures !c.isWebClient ==> |r.out| == 1
    ensures |r.out| > 0 && r.out[|r.out| - 1] == Msg(c.id, Connected(WelcomeText(c.isWebClient), c.deviceId, c.isWebClient, now))
    ensures forall m :: m in r.out ==> m.to == c.id
  {
    var sessions := if c.isWebClient then s.sessions
                    else s.sessions[c.deviceId := Session(c.id, now, now, false, None)];
    var status := if c.isWebClient then [Msg(c.id, StreamingStatus(StreamingDevices(sessions)))] else [];
    var welcome := Msg(c.id, Connected(WelcomeText(c.isWebClient), c.deviceId, c.isWebClient, now));
    Step(Server(s.tokens, sessions, s.conns + [c]), status + [welcome])
  }

  /** A new socket `id` arriving: the handshake middleware runs against the
      server's token table and, when it admits the socket, the `connection`
      handler registers it under the identity the handshake stamped on it.
      A refused socket never connects: it hears only the refusal, and the one
      state change is the deletion of an expired token it presented. */
  function AdmitConnection(s: Server, now: int, id: ConnId, userAgent: string,
                           firebaseToken: Option<string>, credentialAccepted: bool,
                           token: Option<string>): (r: Step)
    // no token is issued or altered by a handshake
    ensures forall t :: t in r.server.tokens ==> t in s.tokens && r.server.tokens[t] == s.tokens[t]
    // the one token ever deleted is the one a device presents after its expiry
    ensures r.server.tokens ==
              if !Contains(userAgent, "Mozilla") && Truthy(token) && token.value in s.tokens
                 && now > s.tokens[token.value].expiresAt
              then s.tokens - {token.value} else s.tokens
    // refused: nothing is registered and only the refusal is sent, to the socket alone
    ensures var v := VerifyConnection(s.tokens, now, userAgent, firebaseToken, credentialAccepted, token);
            v.result.Refused? ==>
              && r.server.conns == s.conns && r.server.sessions == s.sessions
              && r.out == [Msg(id, ConnectError(HandshakeMessage(v.result.error)))]
    // admitted: the socket joins the live connections with the handshake's identity
    ensures var v := VerifyConnection(s.tokens, now, userAgent, firebaseToken, credentialAccepted, token);
            v.result.Admitted? ==>
              && r.server.tokens == s.tokens
              && r.server.conns == s.conns + [Conn(id, v.result.identity.deviceId, Contains(userAgent, "Mozilla"))]
              && |r.out| > 0 && r.out[|r.out| - 1].event.Connected?
    // and it is welcomed last under that identity, a browser after the list of
    // streaming devices
    ensures var v := VerifyConnection(s.tokens, now, userAgent, firebaseToken, credentialAccepted, token);
            var web := Contains(userAgent, "Mozilla");
            v.result.Admitted? ==>
              && |r.out| == (if web then 2 else 1)
              && r.out[|r.out| - 1] == Msg(id, Connected(WelcomeText(web), v.result.identity.deviceId, web, now))
              && (web ==> r.out[0] == Msg(id, StreamingStatus(StreamingDevices(s.sessions))))
    // a browser never opens a session; an admitted device opens a fresh one
    // under the device id its token was issued to
    ensures Contains(userAgent, "Mozilla") ==> r.server.sessions == s.sessions && r.server.tokens == s.tokens
    ensures !Contains(userAgent, "Mozilla") && Truthy(token) && token.value in s.tokens
            && now <= s.tokens[token.value].expiresAt ==>
              r.server.sessions == s.sessions[s.tokens[token.value].deviceId := Session(id, now, now, false, None)]
    ensures forall m :: m in r.out ==> m.to == id
  {
    var v := VerifyConnection(s.tokens, now, userAgent, firebaseToken, credentialAccepted, token);
    match v.result
    case Refused(e) => Step(s.(tokens := v.tokens), [Msg(id, ConnectError(HandshakeMessage(e)))])
    case Admitted(who) => Connect(s.(tokens := v.tokens), now, Conn(id, who.deviceId, who.isWebClient))
  }

  // ---------------------------------------------------------------------------
  // Event handlers

  /** `start-streaming` (`on`) and `stop-streaming` (`!on`) from `from`,
      aimed at device `d`. Without a live device connection for `d` only the
      requester hears back; otherwise the cached flag is set (when a session
      exists), the command goes to the device's connection and every browser
      is told the new state. */
  function SetStreaming(s: Server, from: Conn, d: DeviceId, on: bool): (r: Step)
    ensures FindSocketByDeviceId(s.conns, d).None? ==>
              r == Step(s, [Msg(from.id, CommandError(DeviceNotFound, d))])
    ensures FindSocketByDeviceId(s.conns, d).Some? ==>
              && r.server.tokens == s.tokens && r.server.conns == s.conns
              && r.server.sessions.Keys == s.sessions.Keys
              && (d in s.sessions ==> r.server.sessions[d] == s.sessions[d].(isStreaming := on))
              && (forall e :: e in s.sessions && e != d ==> r.server.sessions[e] == s.sessions[e])
              && |r.out| >= 1
              && r.out[0] == Msg(FindSocketByDeviceId(s.conns, d).value.id,
                                 if on then StartStreamingCommand else StopStreamingCommand)
              && r.out[1..] == Broadcast(s.conns, StreamingStateChanged(d, on))
  {
    match FindSocketByDeviceId(s.conns, d)
    case None => Step(s, [Msg(from.id, CommandError(DeviceNotFound, d))])
    case Some(target) =>
      var sessions := if d in s.sessions then s.sessions[d := s.sessions[d].(isStreaming := on)]
                      else s.sessions;
      var command := if on then StartStreamingCommand else StopStreamingCommand;
      Step(s.(sessions := sessions),
           [Msg(target.id, command)] + Broadcast(s.conns, StreamingStateChanged(d, on)))
  }

  /** `streaming-state-update` from `from`: a device updates its own cached
      flag; the new state is announced to every browser whoever sent it. */
  function StateUpdate(s: Server, from: Conn, streaming: bool): (r: Step)
    ensures r.server.tokens == s.tokens && r.server.conns == s.conns
    ensures r.server.sessions.Keys == s.sessions.Keys
    ensures !from.isWebClient && from.deviceId in s.sessions ==>
              r.server.sessions[from.deviceId] == s.sessions[from.deviceId].(isStreaming := streaming)
    ensures forall e :: e in s.sessions && (e != from.deviceId || from.isWebClient) ==>
              r.server.sessions[e] == s.sessions[e]
    ensures r.out == Broadcast(s.conns, StreamingStateChanged(from.deviceId, streaming))
  {
    var sessions := if !from.isWebClient && from.deviceId in s.sessions
                    then s.sessions[from.deviceId := s.sessions[from.deviceId].(isStreaming := streaming)]
                    else s.sessions;
    Step(s.(sessions := sessions), Broadcast(s.conns, StreamingStateChanged(from.deviceId, streaming)))
  }

  /** `camera-stream` from `from`: a device's session keeps only this frame
      and is stamped active; the frame goes to every browser even when the
      sender has no session. */
  function CameraStreamFrame(s: Server, now: int, from: Conn, frame: string): (r: Step)
    ensures r.server.tokens == s.tokens && r.server.conns == s.conns
    ensures r.server.sessions.Keys == s.sessions.Keys
    ensures !from.isWebClient && from.deviceId in s.sessions ==>
              r.server.sessions[from.deviceId]
              == s.sessions[from.deviceId].(lastActivity := now, lastFrame := Some(frame))
    ensures forall e :: e in s.sessions && (e != from.deviceId || from.isWebClient) ==>
              r.server.sessions[e] == s.sessions[e]
    ensures r.out == Broadcast(s.conns, CameraFeed(from.deviceId, frame, now))
  {
    var sessions := if !from.isWebClient && from.deviceId in s.sessions
                    then s.sessions[from.deviceId := s.sessions[from.deviceId].(lastActivity := now, lastFrame := Some(frame))]
                    else s.sessions;
    Step(s.(sessions := sessions), Broadcast(s.conns, CameraFeed(from.deviceId, frame, now)))
  }

  /** `request-snapshot` from `from` for device `d`; `requestId` is the
      random correlation id the server draws. Never changes the state. */
  function RequestSnapshotFrom(s: Server, now: int, from: Conn, d: DeviceId, requestId: string): (r: Step)
    ensures r.server == s
    ensures |r.out| == 1
    ensures d !in s.sessions ==> r.out[0] == Msg(from.id, SnapshotError(DeviceNotFound, d, None))
    ensures d in s.sessions && s.sessions[d].isStreaming && FindSocketByDeviceId(s.conns, d).Some? ==>
              r.out[0] == Msg(FindSocketByDeviceId(s.conns, d).value.id, TakeSnapshot(d, requestId))
    ensures d in s.sessions && s.sessions[d].isStreaming && FindSocketByDeviceId(s.conns, d).None? ==>
              r.out[0] == Msg(from.id, SnapshotError(DeviceNotFound, d, None))
    ensures d in s.sessions && !s.sessions[d].isStreaming && Truthy(s.sessions[d].lastFrame) ==>
              r.out[0] == Msg(from.id, LastFrameSnapshot(d, s.sessions[d].lastFrame.value, now))
    ensures d in s.sessions && !s.sessions[d].isStreaming && !Truthy(s.sessions[d].lastFrame) ==>
              r.out[0] == Msg(from.id, SnapshotError(NoFrameAvailable, d, Some(NoFrameDetail)))
  {
    if d !in s.sessions then
      Step(s, [Msg(from.id, SnapshotError(DeviceNotFound, d, None))])
    else
      var session := s.sessions[d];
      if session.isStreaming then
        match FindSocketByDeviceId(s.conns, d)
        case Some(target) => Step(s, [Msg(target.id, TakeSnapshot(d, requestId))])
        case None => Step(s, [Msg(from.id, SnapshotError(DeviceNotFound, d, None))])
      else if Truthy(session.lastFrame) then
        Step(s, [Msg(from.id, LastFrameSnapshot(d, session.lastFrame.value, now))])
      else
        Step(s, [Msg(from.id, SnapshotError(NoFrameAvailable, d, Some(NoFrameDetail)))])
  }

  /** `snapshot-data` from `from`: relayed to every browser, state untouched. */
  function SnapshotDataFrom(s: Server, now: int, from: Conn, imageData: string): (r: Step)
    ensures r.server == s
    ensures r.out == Broadcast(s.conns, SnapshotReady(from.deviceId, imageData, now))
  {
    Step(s, Broadcast(s.conns, SnapshotReady(from.deviceId, imageData, now)))
  }

  /** `disconnect` of `from`: the connection goes away and, for a device, the
      session of its device id is deleted. Nothing is sent to anyone. */
  function DisconnectConn(s: Server, from: Conn): (r: Step)
    ensures r.out == []
    ensures r.server.tokens == s.tokens
    ensures forall c :: c in r.server.conns <==> c in s.conns && c.id != from.id
    ensures forall d :: FindSocketByDeviceId(s.conns, d).Some? && FindSocketByDeviceId(s.conns, d).value.id != from.id ==>
                          FindSocketByDeviceId(r.server.conns, d) == FindSocketByDeviceId(s.conns, d)
    ensures !from.isWebClient ==> r.server.sessions == s.sessions - {from.deviceId}
    ensures from.isWebClient ==> r.server.sessions == s.sessions
  {
    var sessions := if from.isWebClient then s.sessions else s.sessions - {from.deviceId};
    Step(Server(s.tokens, sessions, RemoveConn(s.conns, from.id)), [])
  }

  /** Dispatch of one event arriving on connection `from`. `requestId` is
      the correlation id drawn for a snapshot request (unused otherwise). */
  function Handle(s: Server, now: int, from: Conn, ev: Inbound, requestId: string): Step
  {
    match ev
    case StartStreaming(d) => SetStreaming(s, from, d, true)
    case StopStreaming(d) => SetStreaming(s, from, d, false)
    case StreamingStateUpdate(v) => StateUpdate(s, from, v)
    case CameraStream(frame) => CameraStreamFrame(s, now, from, frame)
    case RequestSnapshot(d) => RequestSnapshotFrom(s, now, from, d, requestId)
    case SnapshotData(img) => SnapshotDataFrom(s, now, from, img)
    case Disconnect => DisconnectConn(s, from)
  }

  // ---------------------------------------------------------------------------
  // Periodic sweep and device listing

  predicate Stale(now: int, x: Session)
  {
    now - x.lastActivity > InactiveTimeout
  }

  /** `cleanupInactiveSessions` run at `now`: removes exactly the sessions
      idle for longer than ten minutes and leaves every other one as it was. */
  function CleanupInactiveSessions(s: Server, now: int): (r: Server)
    ensures r.tokens == s.tokens && r.conns == s.conns
    ensures forall d :: d in r.sessions <==> d in s.sessions && !Stale(now, s.sessions[d])
    ensures forall d :: d in r.sessions ==> r.sessions[d] == s.sessions[d]
  {
    s.(sessions := map d | d in s.sessions && !Stale(now, s.sessions[d]) :: s.sessions[d])
  }

  /** The `isActive` rule of `/api/devices`. */
  predicate IsActive(now: int, x: Session)
  {
    now - x.lastActivity < ActiveWindow
  }

  /** One element of the `/api/devices` list. */
  datatype DeviceInfo = DeviceInfo(deviceId: DeviceId, connectedAt: int, lastActivity: int,
                                   socketId: ConnId, isActive: bool)

  datatype DeviceList = DeviceList(devices: set<DeviceInfo>, count: nat)

  function Info(now: int, d: DeviceId, x: Session): DeviceInfo
  {
    DeviceInfo(d, x.connectedAt, x.lastActivity, x.socketId, IsActive(now, x))
  }

  /** `GET /api/devices` at `now`: one entry per session, and a count. */
  function ListDevices(s: Server, now: int): (r: DeviceList)
    ensures forall i :: i in r.devices <==> i.deviceId in s.sessions && i == Info(now, i.deviceId, s.sessions[i.deviceId])
    ensures r.count == |s.sessions|
  {
    DeviceList(set d | d in s.sessions :: Info(now, d, s.sessions[d]), |s.sessions|)
  }
}
