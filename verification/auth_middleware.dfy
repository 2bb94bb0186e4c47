/** `authMiddleware`: read the bearer token, verify it, attach a platform session to the request
    (a pending stored record if there is one, else one rebuilt from the token), and continue. */
module AuthMiddleware {
  import opened Js
  import opened Telegram
  import opened Jwt
  import opened Sessions
  import Auth

  /** Where the attached session came from. */
  datatype Origin =
    | StoredRecord(record: SessionRecord)
    | Rebuilt(phoneNumber: string, sessionString: string, timestamp: int)

  /** `req.telegramSession`: the session's fields, with `sessionId` set from the token. */
  datatype AttachedSession = AttachedSession(origin: Origin, sessionId: string)

  datatype Decision = Deny(status: int, error: string) | Attach(session: AttachedSession)

  /** `req.header("Authorization")?.replace("Bearer ", "")`. */
  function BearerToken(header: Option<string>): (r: Option<string>)
    ensures r.None? <==> header.None?
    ensures r.Some? ==> |r.value| <= |header.value|
    // a header in the bearer scheme yields what follows the scheme word
    ensures header.Some? && StartsWith(header.value, "Bearer ") ==> r == Some(header.value[|"Bearer "|..])
  {
    match header
    case None => None
    case Some(h) =>
      ReplaceFirstPrefix(h, "Bearer ");
      Some(ReplaceFirst(h, "Bearer ", ""))
  }

  /** The `catch` block: the reply chosen by the thrown error's `name`. */
  function CatchReply(error: JsError): (d: Decision)
    ensures d.Deny?
    ensures error.name == Some("JsonWebTokenError") ==> d == Deny(401, "Invalid token")
    ensures error.name == Some("TokenExpiredError") ==> d == Deny(401, "Token expired")
    ensures d.status == 401 <==> error.name == Some("JsonWebTokenError") || error.name == Some("TokenExpiredError")
    ensures d.status != 401 ==> d == Deny(500, "Authentication failed")
  {
    if error.name == Some("JsonWebTokenError") then Deny(401, "Invalid token")
    else if error.name == Some("TokenExpiredError") then Deny(401, "Token expired")
    else Deny(500, "Authentication failed")
  }

  /** The middleware's outcome for one request. `verify` is `jwt.verify` with the server secret,
      `store` the login records, `client` the platform (only `connect` is used) and `now` the clock. */
  function Decide(header: Option<string>, verify: string -> Result<TokenPayload, JsError>,
                  store: map<string, SessionRecord>, client: Client, now: int): (d: Decision)
    // no token: 401 "Access token is required"
    ensures !Truthy(BearerToken(header)) <==> d == Deny(401, "Access token is required")
    // a token the verifier refuses: the reply its error's name selects
    ensures Truthy(BearerToken(header)) && verify(BearerToken(header).value).Err? ==>
              d == CatchReply(verify(BearerToken(header).value).error)
    // attached: the token verified, and the session id is always the token's
    ensures d.Attach? ==>
              && Truthy(BearerToken(header))
              && verify(BearerToken(header).value).Ok?
              && d.session.sessionId == verify(BearerToken(header).value).value.sessionId
    // a pending record for that id is reused; otherwise the session is rebuilt from the token
    ensures d.Attach? ==>
              var p := verify(BearerToken(header).value).value;
              match FindPending(store, p.sessionId)
              case Some(rec) => d.session.origin == StoredRecord(rec)
              case None => d.session.origin == Rebuilt(p.phoneNumber, p.sessionString, now)
    // verified but neither reusable nor reconnectable: 500
    ensures Truthy(BearerToken(header)) && verify(BearerToken(header).value).Ok? ==>
              var p := verify(BearerToken(header).value).value;
              d.Deny? <==> FindPending(store, p.sessionId).None? && client.connect(p.sessionString).Some?
    // a failed reconnect is answered by the `catch` block, by the thrown error's name
    ensures Truthy(BearerToken(header)) && verify(BearerToken(header).value).Ok? ==>
              var p := verify(BearerToken(header).value).value;
              FindPending(store, p.sessionId).None? && client.connect(p.sessionString).Some? ==>
                d == CatchReply(client.connect(p.sessionString).value)
  {
    var token := BearerToken(header);
    if !Truthy(token) then Deny(401, "Access token is required")
    else
      match verify(token.value)
      case Err(e) => CatchReply(e)
      case Ok(decoded) =>
        match FindPending(store, decoded.sessionId)
        case Some(rec) => Attach(AttachedSession(StoredRecord(rec), decoded.sessionId))
        case None =>
          match client.connect(decoded.sessionString)
          case Some(e) => CatchReply(e)
          case None => Attach(AttachedSession(Rebuilt(decoded.phoneNumber, decoded.sessionString, now), decoded.sessionId))
  }

  /** A header `"Bearer " + t` yields the token `t`, even when `t` itself holds `"Bearer "`;
      a header without the scheme word is used whole. */
  lemma BearerTokenCases(t: string, raw: string)
    requires forall j :: !OccursAt(raw, "Bearer ", j)
    ensures BearerToken(Some("Bearer " + t)) == Some(t)
    ensures BearerToken(Some(raw)) == Some(raw)
  {
    ReplaceFirstAtStart("Bearer ", t);
    ReplaceFirstAbsent(raw, "Bearer ", "");
  }

  /** The header `"Bearer "` alone leaves an empty token and is refused like a missing header. */
  lemma SchemeWithoutTokenRefused(verify: string -> Result<TokenPayload, JsError>,
                                  store: map<string, SessionRecord>, client: Client, now: int)
    ensures Decide(Some("Bearer "), verify, store, client, now) == Deny(401, "Access token is required")
  {
    ReplaceFirstAtStart("Bearer ", "");
  }

  /** End to end: the token issued by a successful verify authenticates later requests by rebuilding
      the session from the token, because the record it names is no longer pending; the attached
      session carries the stored phone number and the id of the verified record. */
  lemma IssuedTokenRebuildsSession(sessions: map<string, SessionRecord>, sessionId: Option<string>,
                                   code: Option<string>, password: Option<string>, client: Client,
                                   sign: (TokenPayload, string) -> Result<string, JsError>, expiresEnv: Option<string>,
                                   verify: string -> Result<TokenPayload, JsError>, now: int)
    requires forall p, e :: sign(p, e).Ok? ==> verify(sign(p, e).value) == Ok(p)
    requires var step := Auth.VerifyCodeStep(sessions, sessionId, code, password, client, sign, expiresEnv);
             step.reply.Authenticated? && step.reply.token != "" &&
             client.connect(step.reply.user.sessionString).None?
    ensures var step := Auth.VerifyCodeStep(sessions, sessionId, code, password, client, sign, expiresEnv);
            Decide(Some("Bearer " + step.reply.token), verify, step.sessions, client, now) ==
              Attach(AttachedSession(Rebuilt(sessions[sessionId.value].phoneNumber, step.reply.user.sessionString, now),
                                     sessionId.value))
  {
    var step := Auth.VerifyCodeStep(sessions, sessionId, code, password, client, sign, expiresEnv);
    ReplaceFirstAtStart("Bearer ", step.reply.token);
    assert BearerToken(Some("Bearer " + step.reply.token)) == Some(step.reply.token);
  }

  /** The request and response of one exchange, and the `next` continuation. */
  class Exchange {
    /** `req.header("Authorization")` */
    const authorization: Option<string>
    /** `req.telegramSession` */
    var telegramSession: Option<AttachedSession>
    /** The status and `error` text of the JSON response sent, if any. */
    var response: Option<(int, string)>
    /** One entry per call of `next`: the session attached to the request at that moment. */
    var nextCalls: seq<Option<AttachedSession>>

    constructor (authorization: Option<string>)
      ensures this.authorization == authorization
      ensures telegramSession == None && response == None && nextCalls == []
    {
      this.authorization := authorization;
      telegramSession := None;
      response := None;
      nextCalls := [];
    }

    method Next()
      modifies this
      ensures nextCalls == old(nextCalls) + [telegramSession]
      ensures telegramSession == old(telegramSession) && response == old(response)
    {
      nextCalls := nextCalls + [telegramSession];
    }

    method Send(status: int, error: string)
      modifies this
      ensures response == Some((status, error))
      ensures telegramSession == old(telegramSession) && nextCalls == old(nextCalls)
    {
      response := Some((status, error));
    }
  }

  /** `authMiddleware(req, res, next)` against the login records held by `auth`. */
  method Authenticate(ex: Exchange, auth: Auth.AuthController, verify: string -> Result<TokenPayload, JsError>,
                      client: Client, now: int)
    modifies ex
    ensures match Decide(ex.authorization, verify, auth.sessions, client, now)
            case Deny(status, error) =>
              && ex.response == Some((status, error))
              && ex.telegramSession == old(ex.telegramSession)
              && ex.nextCalls == old(ex.nextCalls)
            case Attach(attached) =>
              // the session is attached first, then `next` runs exactly once and sees it
              && ex.telegramSession == Some(attached)
              && ex.nextCalls == old(ex.nextCalls) + [Some(attached)]
              && ex.response == old(ex.response)
  {
    var token := BearerToken(ex.authorization);
    if !Truthy(token) {
      ex.Send(401, "Access token is required");
      return;
    }
    var verified := verify(token.value);
    if verified.Err? {
      var d := CatchReply(verified.error);
      ex.Send(d.status, d.error);
      return;
    }
    var decoded := verified.value;
    var session: Origin;
    var found := auth.GetSession(decoded.sessionId);
    if found.Some? {
      session := StoredRecord(found.value);
    } else {
      var connectError := client.connect(decoded.sessionString);
      if connectError.Some? {
        var d := CatchReply(connectError.value);
        ex.Send(d.status, d.error);
        return;
      }
      session := Rebuilt(decoded.phoneNumber, decoded.sessionString, now);
    }
    ex.telegramSession := Some(AttachedSession(session, decoded.sessionId));
    ex.Next();
  }
}
