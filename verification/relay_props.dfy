/** Properties of the relay that span several handlers: the registry
    invariant every handler keeps, what it buys the snapshot and command
    paths, last-writer-wins registration, the sweep and the device list. */
module RelayProps {
  import opened Util
  import opened Auth
  import opened Relay

  /** No two distinct live connections share a socket id. */
  ghost predicate DistinctIds(conns: seq<Conn>)
  {
    forall a, b :: a in conns && b in conns && a.id == b.id ==> a == b
  }

  /** Every session belongs to a live device connection: the socket its
      `socketId` names is connected and carries that session's device id. */
  ghost predicate SessionsOwned(s: Server)
  {
    forall d :: d in s.sessions ==>
      exists c :: c in s.conns && c.id == s.sessions[d].socketId && IsDeviceConn(c, d)
  }

  ghost predicate Valid(s: Server)
  {
    DistinctIds(s.conns) && SessionsOwned(s)
  }

  /** The empty server is valid. */
  lemma InitialValid(tokens: TokenTable)
    ensures Valid(Server(tokens, map[], []))
  {
  }

  /** Handlers that keep the connections, the session keys and every
      session's socket id keep the invariant. */
  lemma SameShapeValid(s: Server, r: Server)
    requires Valid(s)
    requires r.conns == s.conns && r.sessions.Keys == s.sessions.Keys
    requires forall d :: d in s.sessions ==> r.sessions[d].socketId == s.sessions[d].socketId
    ensures Valid(r)
  {
    forall d | d in r.sessions
      ensures exists c :: c in r.conns && c.id == r.sessions[d].socketId && IsDeviceConn(c, d)
    {
      var c :| c in s.conns && c.id == s.sessions[d].socketId && IsDeviceConn(c, d);
      assert c in r.conns;
    }
  }

  /** Registering a connection whose id the transport has not used keeps the invariant. */
  lemma ConnectValid(s: Server, now: int, c: Conn)
    requires Valid(s)
    requires forall x :: x in s.conns ==> x.id != c.id
    ensures Valid(Connect(s, now, c).server)
  {
    var r := Connect(s, now, c).server;
    assert forall x :: x in r.conns ==> x in s.conns || x == c;
    forall d | d in r.sessions
      ensures exists x :: x in r.conns && x.id == r.sessions[d].socketId && IsDeviceConn(x, d)
    {
      if !c.isWebClient && d == c.deviceId {
        assert c in r.conns;
      } else {
        var x :| x in s.conns && x.id == s.sessions[d].socketId && IsDeviceConn(x, d);
        assert x in r.conns;
      }
    }
  }

  /** A connection closing keeps the invariant: the only session that could
      lose its socket is the one of the closing device, and that one is deleted. */
  lemma DisconnectValid(s: Server, from: Conn)
    requires Valid(s) && from in s.conns
    ensures Valid(DisconnectConn(s, from).server)
  {
    var r := DisconnectConn(s, from).server;
    forall d | d in r.sessions
      ensures exists x :: x in r.conns && x.id == r.sessions[d].socketId && IsDeviceConn(x, d)
    {
      var x :| x in s.conns && x.id == s.sessions[d].socketId && IsDeviceConn(x, d);
      assert x != from;
      assert x.id != from.id;
      assert x in r.conns;
    }
  }

  lemma SetStreamingValid(s: Server, from: Conn, d: DeviceId, on: bool)
    requires Valid(s)
    ensures Valid(SetStreaming(s, from, d, on).server)
  {
    SameShapeValid(s, SetStreaming(s, from, d, on).server);
  }

  lemma StateUpdateValid(s: Server, from: Conn, v: bool)
    requires Valid(s)
    ensures Valid(StateUpdate(s, from, v).server)
  {
    SameShapeValid(s, StateUpdate(s, from, v).server);
  }

  lemma CameraStreamValid(s: Server, now: int, from: Conn, frame: string)
    requires Valid(s)
    ensures Valid(CameraStreamFrame(s, now, from, frame).server)
  {
    SameShapeValid(s, CameraStreamFrame(s, now, from, frame).server);
  }

  /** Every event handler keeps the invariant. */
  lemma HandleValid(s: Server, now: int, from: Conn, ev: Inbound, requestId: string)
    requires Valid(s) && from in s.conns
    ensures Valid(Handle(s, now, from, ev, requestId).server)
  {
    match ev
    case StartStreaming(d) => SetStreamingValid(s, from, d, true);
    case StopStreaming(d) => SetStreamingValid(s, from, d, false);
    case StreamingStateUpdate(v) => StateUpdateValid(s, from, v);
    case CameraStream(frame) => CameraStreamValid(s, now, from, frame);
    case RequestSnapshot(_) =>
    case SnapshotData(_) =>
    case Disconnect => DisconnectValid(s, from);
  }

  /** Admitting a socket whose id the transport has not used keeps the
      invariant, and so does refusing it. */
  lemma AdmitValid(s: Server, now: int, id: ConnId, userAgent: string,
                   firebaseToken: Option<string>, credentialAccepted: bool, token: Option<string>)
    requires Valid(s)
    requires forall x :: x in s.conns ==> x.id != id
    ensures Valid(AdmitConnection(s, now, id, userAgent, firebaseToken, credentialAccepted, token).server)
  {
    var v := VerifyConnection(s.tokens, now, userAgent, firebaseToken, credentialAccepted, token);
    var r := AdmitConnection(s, now, id, userAgent, firebaseToken, credentialAccepted, token).server;
    match v.result
    case Refused(_) => SameShapeValid(s, r);
    case Admitted(who) =>
      SameShapeValid(s, s.(tokens := v.tokens));
      ConnectValid(s.(tokens := v.tokens), now, Conn(id, who.deviceId, who.isWebClient));
  }

  /** From credentials to a session: a device that authenticates at `t0` and
      opens a socket with the token it was given, up to and including the
      token's expiry instant, is registered under its device id on that
      socket; after that instant the socket is refused as expired, nothing is
      registered and the token is gone. */
  lemma AuthenticatedDeviceConnects(s: Server, secret: string, deviceId: DeviceId, t0: int, drawn: Token,
                                    now: int, id: ConnId, userAgent: string)
    requires secret != "" && deviceId != "" && drawn != ""
    requires !Contains(userAgent, "Mozilla")
    ensures var a := Authenticate(s.tokens, Some(secret), AuthRequest(Some(deviceId), Some(secret)), t0, drawn);
            var r := AdmitConnection(s.(tokens := a.tokens), now, id, userAgent, None, false, Some(a.reply.token));
            && (now <= t0 + TokenTtl ==>
                  && r.server.conns == s.conns + [Conn(id, deviceId, false)]
                  && deviceId in r.server.sessions
                  && r.server.sessions[deviceId] == Session(id, now, now, false, None))
            && (now > t0 + TokenTtl ==>
                  && r.server.conns == s.conns && r.server.sessions == s.sessions
                  && r.out == [Msg(id, ConnectError("Token expired"))]
                  && drawn !in r.server.tokens)
  {
    IssueThenVerify(s.tokens, secret, deviceId, t0, drawn, now);
  }

  /** The sweep keeps the invariant. */
  lemma CleanupValid(s: Server, now: int)
    requires Valid(s)
    ensures Valid(CleanupInactiveSessions(s, now))
  {
    SameShapeValid(s, s);
    var r := CleanupInactiveSessions(s, now);
    forall d | d in r.sessions
      ensures exists x :: x in r.conns && x.id == r.sessions[d].socketId && IsDeviceConn(x, d)
    {
      var x :| x in s.conns && x.id == s.sessions[d].socketId && IsDeviceConn(x, d);
    }
  }

  /** In a valid server every session's device can be found. */
  lemma SessionHasSocket(s: Server, d: DeviceId)
    requires Valid(s) && d in s.sessions
    ensures FindSocketByDeviceId(s.conns, d).Some?
  {
    var x :| x in s.conns && x.id == s.sessions[d].socketId && IsDeviceConn(x, d);
  }

  /** In a valid server `request-snapshot` is a four-way decision: unknown
      device, forward to the streaming device, cached last frame, or no
      frame; the streaming branch never fails for want of a socket. */
  lemma SnapshotDecision(s: Server, now: int, from: Conn, d: DeviceId, requestId: string)
    requires Valid(s)
    ensures var m := RequestSnapshotFrom(s, now, from, d, requestId).out[0];
            && (d !in s.sessions <==> m == Msg(from.id, SnapshotError(DeviceNotFound, d, None)))
            && (d in s.sessions && s.sessions[d].isStreaming <==> m.event == TakeSnapshot(d, requestId))
            && (d in s.sessions && s.sessions[d].isStreaming ==>
                  exists c :: c in s.conns && IsDeviceConn(c, d) && m.to == c.id)
            && (m.event.LastFrameSnapshot? ==> m.to == from.id && m.event.imageData != "")
  {
    if d in s.sessions && s.sessions[d].isStreaming {
      SessionHasSocket(s, d);
      var c := FindSocketByDeviceId(s.conns, d).value;
      assert c in s.conns;
    }
  }

  /** `stop-streaming` on a device that is already stopped changes nothing,
      raises no error and still announces the state to every browser. */
  lemma StopWhenStopped(s: Server, from: Conn, d: DeviceId)
    requires FindSocketByDeviceId(s.conns, d).Some?
    requires d in s.sessions && !s.sessions[d].isStreaming
    ensures SetStreaming(s, from, d, false).server == s
    ensures forall c :: c in s.conns && c.isWebClient ==>
              Msg(c.id, StreamingStateChanged(d, false)) in SetStreaming(s, from, d, false).out
    ensures forall m :: m in SetStreaming(s, from, d, false).out ==> !m.event.CommandError?
  {
    var r := SetStreaming(s, from, d, false);
    assert r.server.sessions == s.sessions;
    assert forall m :: m in r.out ==> m == r.out[0] || m in r.out[1..];
  }

  /** A start or stop command for a device without a live device connection
      touches nothing and answers only the requester. */
  lemma CommandToUnknownDevice(s: Server, from: Conn, d: DeviceId, on: bool)
    requires forall c :: c in s.conns ==> !IsDeviceConn(c, d)
    ensures SetStreaming(s, from, d, on).server == s
    ensures SetStreaming(s, from, d, on).out == [Msg(from.id, CommandError(DeviceNotFound, d))]
  {
  }

  /** A connection appended after a device's first live connection does
      not change which connection is found for it. */
  lemma {:induction false} FindSocketAppend(conns: seq<Conn>, c: Conn, d: DeviceId)
    requires FindSocketByDeviceId(conns, d).Some?
    ensures FindSocketByDeviceId(conns + [c], d) == FindSocketByDeviceId(conns, d)
  {
    if !IsDeviceConn(conns[0], d) {
      assert (conns + [c])[1..] == conns[1..] + [c];
      FindSocketAppend(conns[1..], c, d);
    }
  }

  /** Commands go to the device's oldest live connection, while the session
      records the newest one: once a device already has a live connection,
      connecting it again moves its session to the new socket, but a later
      start or stop command still goes to the old one. */
  lemma CommandTargetsOldestConnection(s: Server, now: int, c: Conn, viewer: Conn, on: bool)
    requires Valid(s) && !c.isWebClient
    requires forall x :: x in s.conns ==> x.id != c.id
    requires FindSocketByDeviceId(s.conns, c.deviceId).Some?
    ensures var r := Connect(s, now, c).server;
            var first := FindSocketByDeviceId(s.conns, c.deviceId).value;
            && r.sessions[c.deviceId].socketId == c.id
            && first.id != c.id
            && SetStreaming(r, viewer, c.deviceId, on).out[0]
               == Msg(first.id, if on then StartStreamingCommand else StopStreamingCommand)
  {
    FindSocketAppend(s.conns, c, c.deviceId);
  }

  /** A frame relayed with an empty payload is cached, but JavaScript treats
      the empty string as falsy, so a snapshot request on the stopped device
      answers "No frame available". */
  lemma EmptyFrameIsNoFrame(s: Server, now: int, from: Conn, dev: Conn, requestId: string)
    requires !dev.isWebClient && dev.deviceId in s.sessions && !s.sessions[dev.deviceId].isStreaming
    ensures var s1 := CameraStreamFrame(s, now, dev, "").server;
            && s1.sessions[dev.deviceId].lastFrame == Some("")
            && RequestSnapshotFrom(s1, now, from, dev.deviceId, requestId).out
               == [Msg(from.id, SnapshotError(NoFrameAvailable, dev.deviceId, Some(NoFrameDetail)))]
  {
  }

  /** Only the latest frame is kept: two frames in a row leave the second cached. */
  lemma LatestFrameWins(s: Server, t1: int, t2: int, dev: Conn, f1: string, f2: string)
    requires !dev.isWebClient && dev.deviceId in s.sessions
    ensures var s2 := CameraStreamFrame(CameraStreamFrame(s, t1, dev, f1).server, t2, dev, f2).server;
            s2.sessions[dev.deviceId].lastFrame == Some(f2) && s2.sessions[dev.deviceId].lastActivity == t2
  {
  }

  /** After a connection closes, the next start or stop command for a device
      goes to that device's first remaining connection in connection order:
      of three connections a, b, c of one device, closing a sends the next
      command to b. */
  lemma DisconnectCommandsFirstSurvivor(s: Server, from: Conn, viewer: Conn, d: DeviceId, on: bool, i: nat)
    requires i < |s.conns| && IsDeviceConn(s.conns[i], d) && s.conns[i].id != from.id
    requires forall j :: 0 <= j < i ==> !IsDeviceConn(s.conns[j], d) || s.conns[j].id == from.id
    ensures var r := DisconnectConn(s, from).server;
            && FindSocketByDeviceId(r.conns, d) == Some(s.conns[i])
            && SetStreaming(r, viewer, d, on).out[0]
               == Msg(s.conns[i].id, if on then StartStreamingCommand else StopStreamingCommand)
  {
    RemoveConnFindsFirstSurvivor(s.conns, from.id, d, i);
  }

  /** `disconnect` deletes the session by device id without checking which
      socket it names: when a device's connection closes while its session
      names another, still live connection of the same device, the session
      goes although its socket stays connected. */
  lemma OldConnectionCloseDropsSession(s: Server, from: Conn)
    requires Valid(s) && from in s.conns && !from.isWebClient
    requires from.deviceId in s.sessions && s.sessions[from.deviceId].socketId != from.id
    ensures var r := DisconnectConn(s, from).server;
            && from.deviceId !in r.sessions
            && exists c :: c in r.conns && c.id == s.sessions[from.deviceId].socketId
                           && IsDeviceConn(c, from.deviceId)
  {
    var r := DisconnectConn(s, from).server;
    var c :| c in s.conns && c.id == s.sessions[from.deviceId].socketId && IsDeviceConn(c, from.deviceId);
    assert c in r.conns;
  }

  // ---------------------------------------------------------------------------
  // Registration is last-writer-wins

  /** Registration of the connections `cs` one after another, each at its own time. */
  function ConnectAll(s: Server, cs: seq<(Conn, int)>): Server
    decreases |cs|
  {
    if |cs| == 0 then s else ConnectAll(Connect(s, cs[0].1, cs[0].0).server, cs[1..])
  }

  /** The last device registration for `d` in `cs`, with its time. */
  function LastDeviceConn(cs: seq<(Conn, int)>, d: DeviceId): Option<(Conn, int)>
    decreases |cs|
  {
    if |cs| == 0 then None
    else match LastDeviceConn(cs[1..], d)
         case Some(c) => Some(c)
         case None => if IsDeviceConn(cs[0].0, d) then Some(cs[0]) else None
  }

  /** What one registration at `now` does to the session of device id `d`. */
  lemma ConnectSessionOf(s: Server, now: int, c: Conn, d: DeviceId)
    ensures var r := Connect(s, now, c).server;
            && (IsDeviceConn(c, d) ==> d in r.sessions && r.sessions[d] == Session(c.id, now, now, false, None))
            && (!IsDeviceConn(c, d) ==> (d in r.sessions <==> d in s.sessions)
                                        && (d in s.sessions ==> r.sessions[d] == s.sessions[d]))
  {
  }

  /** After any sequence of registrations, at any times, a device id that
      registered has exactly the fresh session of its most recent
      registration, stamped with that registration's time; other device ids
      keep what they had. */
  lemma {:induction false} RegisterLastWriterWins(s: Server, cs: seq<(Conn, int)>, d: DeviceId)
    ensures var r := ConnectAll(s, cs);
            match LastDeviceConn(cs, d)
            case Some(ct) => d in r.sessions && r.sessions[d] == Session(ct.0.id, ct.1, ct.1, false, None)
            case None => (d in r.sessions <==> d in s.sessions)
                         && (d in s.sessions ==> r.sessions[d] == s.sessions[d])
    decreases |cs|
  {
    if |cs| > 0 {
      var s1 := Connect(s, cs[0].1, cs[0].0).server;
      ConnectSessionOf(s, cs[0].1, cs[0].0, d);
      RegisterLastWriterWins(s1, cs[1..], d);
    }
  }

  // ---------------------------------------------------------------------------
  // Sweep and device list

  /** The sweep is idempotent at a fixed instant. */
  lemma CleanupIdempotent(s: Server, now: int)
    ensures CleanupInactiveSessions(CleanupInactiveSessions(s, now), now) == CleanupInactiveSessions(s, now)
  {
    var r := CleanupInactiveSessions(s, now);
    assert CleanupInactiveSessions(r, now).sessions == r.sessions;
  }

  /** A session `/api/devices` reports active is never swept at that instant,
      and a swept one is never reported active. */
  lemma ActiveSurvivesCleanup(s: Server, now: int, d: DeviceId)
    requires d in s.sessions
    ensures IsActive(now, s.sessions[d]) ==> d in CleanupInactiveSessions(s, now).sessions
    ensures d !in CleanupInactiveSessions(s, now).sessions ==> !IsActive(now, s.sessions[d])
  {
  }

  /** The list of sessions as a set of entries, keyed by distinct device ids,
      has as many elements as there are sessions. */
  lemma {:induction false} InfoSetSize(m: map<DeviceId, Session>, now: int)
    ensures |set d | d in m :: Info(now, d, m[d])| == |m|
    decreases |m|
  {
    if |m| > 0 {
      var k :| k in m;
      var m' := map d | d in m && d != k :: m[d];
      assert m'.Keys == m.Keys - {k};
      InfoSetSize(m', now);
      var big := set d | d in m :: Info(now, d, m[d]);
      var small := set d | d in m' :: Info(now, d, m'[d]);
      forall i | i in big ensures i in small + {Info(now, k, m[k])} {
        var d :| d in m && i == Info(now, d, m[d]);
        if d != k { assert i == Info(now, d, m'[d]); }
      }
      forall i | i in small + {Info(now, k, m[k])} ensures i in big {
        if i in small {
          var d :| d in m' && i == Info(now, d, m'[d]);
          assert i == Info(now, d, m[d]);
        }
      }
      assert big == small + {Info(now, k, m[k])};
      assert Info(now, k, m[k]) !in small;
    }
  }

  /** The `count` of `/api/devices` is the length of its device list. */
  lemma DeviceCountMatches(s: Server, now: int)
    ensures |ListDevices(s, now).devices| == ListDevices(s, now).count
  {
    InfoSetSize(s.sessions, now);
  }
}
