/** The device half of the server's authentication gateway: the token table,
    the `/api/authenticate` endpoint that issues bearer tokens against the
    shared device secret, and the handshake check that admits a socket
    connection (the token path for devices, and the browser path whose
    identity-provider call is reduced to a boolean verdict). */
module Auth {
  import opened Util

  type DeviceId = string
  type Token = string

  /** Token lifetime: one hour in milliseconds; it is also the `expiresIn`
      value the endpoint reports. */
  const TokenTtl: int := 60 * 60 * 1000

  /** The device id every authenticated browser connection carries. */
  const WebFrontendId: DeviceId := "web-frontend"

  datatype TokenData = TokenData(deviceId: DeviceId, issuedAt: int, expiresAt: int)

  /** `authTokens`: token string to the device it was issued to. */
  type TokenTable = map<Token, TokenData>

  /** The JSON body of `POST /api/authenticate`; a field may be missing. */
  datatype AuthRequest = AuthRequest(deviceId: Option<string>, deviceSecret: Option<string>)

  /** The reply of `POST /api/authenticate`, one constructor per branch. */
  datatype AuthReply =
    | Issued(token: Token, expiresIn: int, deviceId: DeviceId)
    | MissingFields(hasDeviceId: bool, hasSecret: bool)
    | Misconfigured
    | Unauthorized

  datatype AuthOutcome = AuthOutcome(tokens: TokenTable, reply: AuthReply)

  /** HTTP status of each reply. */
  function Status(r: AuthReply): (code: int)
    ensures code == 200 <==> r.Issued?
    ensures code == 400 <==> r.MissingFields?
    ensures code == 500 <==> r.Misconfigured?
    ensures code == 401 <==> r.Unauthorized?
  {
    match r
    case Issued(_, _, _) => 200
    case MissingFields(_, _) => 400
    case Misconfigured => 500
    case Unauthorized => 401
  }

  /** The `error` field of each failure reply. */
  function ErrorText(r: AuthReply): string
    requires !r.Issued?
  {
    match r
    case MissingFields(_, _) => "Missing deviceId or deviceSecret"
    case Misconfigured => "Server configuration error: DEVICE_SECRET not set"
    case Unauthorized => "Unauthorized device"
  }

  /** A failure reply's `error` text tells exactly as much as its status
      code: the three failures read differently, but a missing `deviceId`
      and a missing `deviceSecret` read alike. */
  lemma ErrorTextMatchesStatus(a: AuthReply, b: AuthReply)
    requires !a.Issued? && !b.Issued?
    ensures ErrorText(a) == ErrorText(b) <==> Status(a) == Status(b)
  {
  }

  /** `POST /api/authenticate` at time `now`. `configured` is the server's
      `DEVICE_SECRET` environment value and `drawn` the random token the
      server draws for this request. The checks run in a fixed order and the
      first failing one decides the reply; only a success touches the table. */
  function Authenticate(tokens: TokenTable, configured: Option<string>, req: AuthRequest,
                        now: int, drawn: Token): (r: AuthOutcome)
    // a missing field is reported before anything else is looked at
    ensures r.reply.MissingFields? <==> !Truthy(req.deviceId) || !Truthy(req.deviceSecret)
    ensures r.reply.MissingFields? ==>
              r.reply.hasDeviceId == Truthy(req.deviceId) && r.reply.hasSecret == Truthy(req.deviceSecret)
    // an unset server secret fails closed, but only once both fields are present
    ensures r.reply.Misconfigured? <==>
              Truthy(req.deviceId) && Truthy(req.deviceSecret) && !Truthy(configured)
    ensures r.reply.Unauthorized? <==>
              Truthy(req.deviceId) && Truthy(req.deviceSecret) && Truthy(configured)
              && req.deviceSecret.value != configured.value
    ensures r.reply.Issued? <==>
              Truthy(req.deviceId) && Truthy(req.deviceSecret) && Truthy(configured)
              && req.deviceSecret.value == configured.value
    ensures r.reply.Issued? ==>
              r.reply == Issued(drawn, 3600000, req.deviceId.value)
              && drawn in r.tokens
              && r.tokens[drawn] == TokenData(req.deviceId.value, now, now + 3600000)
    // a success adds (or, on a collision of the random value, overwrites) exactly one entry
    ensures r.reply.Issued? ==>
              r.tokens.Keys == tokens.Keys + {drawn}
              && forall t :: t in tokens && t != drawn ==> r.tokens[t] == tokens[t]
    ensures r.reply.Issued? && drawn !in tokens ==> |r.tokens| == |tokens| + 1
    ensures !r.reply.Issued? ==> r.tokens == tokens
  {
    if !Truthy(req.deviceId) || !Truthy(req.deviceSecret) then
      AuthOutcome(tokens, MissingFields(Truthy(req.deviceId), Truthy(req.deviceSecret)))
    else if !Truthy(configured) then
      AuthOutcome(tokens, Misconfigured)
    else if req.deviceSecret.value != configured.value then
      AuthOutcome(tokens, Unauthorized)
    else
      var data := TokenData(req.deviceId.value, now, now + TokenTtl);
      AuthOutcome(tokens[drawn := data], Issued(drawn, TokenTtl, req.deviceId.value))
  }

  /** Why a socket handshake is refused. */
  datatype HandshakeError =
    | FirebaseTokenRequired
    | InvalidFirebaseToken
    | NoToken
    | InvalidToken
    | TokenExpired

  /** The message of the error passed to `next` for each refusal. */
  function HandshakeMessage(e: HandshakeError): string
  {
    match e
    case FirebaseTokenRequired => "Authentication failed: Firebase token required"
    case InvalidFirebaseToken => "Authentication failed: Invalid Firebase token"
    case NoToken => "Authentication failed: No token provided"
    case InvalidToken => "Authentication failed: Invalid or expired token"
    case TokenExpired => "Token expired"
  }

  /** Every refusal reason has its own message, so a refused client can tell
      a missing token from an unknown one and from an expired one. */
  lemma HandshakeMessageDistinct(a: HandshakeError, b: HandshakeError)
    ensures HandshakeMessage(a) == HandshakeMessage(b) <==> a == b
  {
  }

  /** Who an admitted connection is: the device id stamped on the socket and
      whether it is a browser viewer. */
  datatype Identity = Identity(deviceId: DeviceId, isWebClient: bool)

  datatype HandshakeResult = Admitted(identity: Identity) | Refused(error: HandshakeError)

  datatype VerifyOutcome = VerifyOutcome(tokens: TokenTable, result: HandshakeResult)

  /** The device path of the handshake: the presented token must be known and
      not yet past its expiry instant; an expired token is deleted on sight. */
  function VerifyDeviceToken(tokens: TokenTable, now: int, token: Option<string>): (r: VerifyOutcome)
    ensures !Truthy(token) ==> r == VerifyOutcome(tokens, Refused(NoToken))
    ensures Truthy(token) && token.value !in tokens ==> r == VerifyOutcome(tokens, Refused(InvalidToken))
    // expiry is strict: a check at exactly `expiresAt` still admits
    ensures Truthy(token) && token.value in tokens && now > tokens[token.value].expiresAt ==>
              r == VerifyOutcome(tokens - {token.value}, Refused(TokenExpired))
    ensures Truthy(token) && token.value in tokens && now <= tokens[token.value].expiresAt ==>
              r == VerifyOutcome(tokens, Admitted(Identity(tokens[token.value].deviceId, false)))
    ensures r.result.Admitted? ==> !r.result.identity.isWebClient
  {
    if !Truthy(token) then
      VerifyOutcome(tokens, Refused(NoToken))
    else if token.value !in tokens then
      VerifyOutcome(tokens, Refused(InvalidToken))
    else if now > tokens[token.value].expiresAt then
      VerifyOutcome(tokens - {token.value}, Refused(TokenExpired))
    else
      VerifyOutcome(tokens, Admitted(Identity(tokens[token.value].deviceId, false)))
  }

  /** The whole handshake middleware. A user agent containing "Mozilla" takes
      the browser path, which needs an identity credential; whether the
      identity provider and user database accept it is the input
      `credentialAccepted`. Every other client takes the device-token path. */
  function VerifyConnection(tokens: TokenTable, now: int, userAgent: string,
                            firebaseToken: Option<string>, credentialAccepted: bool,
                            token: Option<string>): (r: VerifyOutcome)
    ensures Contains(userAgent, "Mozilla") ==> r.tokens == tokens
    ensures Contains(userAgent, "Mozilla") ==>
              (r.result.Admitted? <==> Truthy(firebaseToken) && credentialAccepted)
    ensures Contains(userAgent, "Mozilla") && r.result.Admitted? ==>
              r.result.identity == Identity(WebFrontendId, true)
    // the missing credential is reported before the rejected one
    ensures Contains(userAgent, "Mozilla") && !Truthy(firebaseToken) ==>
              r.result == Refused(FirebaseTokenRequired)
    ensures Contains(userAgent, "Mozilla") && Truthy(firebaseToken) && !credentialAccepted ==>
              r.result == Refused(InvalidFirebaseToken)
    ensures !Contains(userAgent, "Mozilla") ==> r == VerifyDeviceToken(tokens, now, token)
    // a browser is never admitted as a device, nor a device as a browser
    ensures r.result.Admitted? ==> (r.result.identity.isWebClient <==> Contains(userAgent, "Mozilla"))
  {
    if Contains(userAgent, "Mozilla") then
      if !Truthy(firebaseToken) then VerifyOutcome(tokens, Refused(FirebaseTokenRequired))
      else if !credentialAccepted then VerifyOutcome(tokens, Refused(InvalidFirebaseToken))
      else VerifyOutcome(tokens, Admitted(Identity(WebFrontendId, true)))
    else
      VerifyDeviceToken(tokens, now, token)
  }

  /** A token issued at `t0` admits its device at every instant up to and
      including `t0 + TokenTtl`, and is refused as expired (and deleted) at
      every later instant. */
  lemma IssueThenVerify(tokens: TokenTable, secret: string, deviceId: string, t0: int,
                        drawn: Token, now: int)
    requires secret != "" && deviceId != "" && drawn != ""
    ensures var a := Authenticate(tokens, Some(secret), AuthRequest(Some(deviceId), Some(secret)), t0, drawn);
            var v := VerifyDeviceToken(a.tokens, now, Some(a.reply.token));
            && a.reply.Issued?
            && (now <= t0 + TokenTtl ==> v.result == Admitted(Identity(deviceId, false)) && v.tokens == a.tokens)
            && (now > t0 + TokenTtl ==> v.result == Refused(TokenExpired) && drawn !in v.tokens)
  {
  }

  /** Several live tokens may name the same device: authenticating twice
      leaves both tokens usable. */
  lemma TwoTokensSameDevice(tokens: TokenTable, secret: string, deviceId: string, t0: int, t1: int,
                            f0: Token, f1: Token, now: int)
    requires secret != "" && deviceId != "" && f0 != "" && f1 != "" && f0 != f1
    requires now <= t0 + TokenTtl && now <= t1 + TokenTtl
    ensures var req := AuthRequest(Some(deviceId), Some(secret));
            var a0 := Authenticate(tokens, Some(secret), req, t0, f0);
            var a1 := Authenticate(a0.tokens, Some(secret), req, t1, f1);
            && VerifyDeviceToken(a1.tokens, now, Some(f0)).result == Admitted(Identity(deviceId, false))
            && VerifyDeviceToken(a1.tokens, now, Some(f1)).result == Admitted(Identity(deviceId, false))
  {
  }
}
