/** The two-phase login: `startAuth` asks the platform for a code and stores a pending record;
    `verifyCode` signs in with that code, issues a bearer token and marks the record verified. */
module Auth {
  import opened Js
  import opened Telegram
  import opened Jwt
  import opened Sessions

  /** The reply of `startAuth`: a JSON response, or an error handed to `next`. */
  datatype StartReply =
    | StartRejected(status: int, error: string)
    | CodeSent(sessionId: string, message: string, nextStep: string)
    | StartFailed(cause: JsError)

  datatype UserSummary = UserSummary(phoneNumber: string, sessionString: string)

  /** The reply of `verifyCode`: a JSON response, or an error handed to `next`. */
  datatype VerifyReply =
    | VerifyRejected(status: int, error: string)
    | Authenticated(token: string, sessionId: string, message: string, user: UserSummary, result: User)
    | VerifyFailed(cause: JsError)

  /** One operation's effect: its reply, the collection afterwards, and the platform calls it made. */
  datatype Step<R> = Step(reply: R, sessions: map<string, SessionRecord>, calls: seq<Call>)

  /** A collection change that keeps every record (with its id and phone number) and never turns a
      verified record back into a pending one. */
  ghost predicate Evolves(before: map<string, SessionRecord>, after: map<string, SessionRecord>) {
    forall id :: id in before ==>
      && id in after
      && after[id].sessionId == before[id].sessionId
      && after[id].phoneNumber == before[id].phoneNumber
      && (!before[id].isPending ==> !after[id].isPending)
  }

  /** The password handed to sign-in: `password || ""`. */
  function PasswordOrEmpty(password: Option<string>): (r: string)
    ensures Truthy(password) ==> r == password.value
    ensures !Truthy(password) ==> r == ""
  {
    OrElse(password, "")
  }

  /** `startAuth` with body field `phoneNumber`, fresh id `freshId` (from `uuidv4`) at time `now`. */
  function StartAuthStep(sessions: map<string, SessionRecord>, phoneNumber: Option<string>,
                         freshId: string, now: int, client: Client): (r: Step<StartReply>)
    // a missing or empty number: 400, no call, no record
    ensures !Truthy(phoneNumber) <==> r.reply == StartRejected(400, "Phone number is required")
    ensures !Truthy(phoneNumber) ==> r.sessions == sessions && r.calls == []
    // otherwise a fresh client connects; a failed connect is passed on and nothing else is tried
    ensures Truthy(phoneNumber) && client.connect("").Some? ==>
              r.reply == StartFailed(client.connect("").value) && r.calls == [Connect("")]
    // after a connect the code goes to the number stripped of non-digits
    ensures Truthy(phoneNumber) && client.connect("").None? ==>
              r.calls == [Connect(""), SendCode(StripNonDigits(phoneNumber.value))]
    ensures Truthy(phoneNumber) && client.connect("").None? ==>
              var sent := client.sendCode(StripNonDigits(phoneNumber.value));
              // a refused code request is passed on
              && (sent.Err? ==> r.reply == StartFailed(sent.error))
              // a record without an id or session string fails validation
              && (sent.Ok? && (freshId == "" || sent.value.savedSession == "") ==> r.reply == StartFailed(ValidationFailed))
              // an id already taken is refused by the unique index
              && (sent.Ok? && freshId != "" && sent.value.savedSession != "" && freshId in sessions ==>
                    r.reply == StartFailed(DuplicateSessionId))
    // the code is sent and recorded exactly when the platform cooperates and the fresh record is accepted
    ensures r.reply.CodeSent? <==>
              && Truthy(phoneNumber) && client.connect("").None?
              && var sent := client.sendCode(StripNonDigits(phoneNumber.value));
                 && sent.Ok? && freshId != "" && sent.value.savedSession != "" && freshId !in sessions
    // success adds exactly one pending record under the fresh id, keeping the unstripped number
    ensures r.reply.CodeSent? ==>
              && freshId !in sessions
              && r.reply == CodeSent(freshId, "SMS code sent to your phone", "verify")
              && |r.calls| == 2
              && var sent := client.sendCode(StripNonDigits(phoneNumber.value));
                 && sent.Ok?
                 && r.sessions == sessions[freshId := SessionRecord(freshId, phoneNumber.value,
                      sent.value.savedSession, now, true, Some(sent.value.phoneCodeHash))]
    // any failure leaves the collection as it was
    ensures !r.reply.CodeSent? ==> r.sessions == sessions
    ensures KeyedById(sessions) ==> KeyedById(r.sessions)
    ensures Evolves(sessions, r.sessions)
  {
    if !Truthy(phoneNumber) then
      Step(StartRejected(400, "Phone number is required"), sessions, [])
    else
      match client.connect("")
      case Some(e) => Step(StartFailed(e), sessions, [Connect("")])
      case None =>
        var clean := StripNonDigits(phoneNumber.value);
        var calls := [Connect(""), SendCode(clean)];
        match client.sendCode(clean)
        case Err(e) => Step(StartFailed(e), sessions, calls)
        case Ok(sent) =>
          var doc := SessionDoc(Some(freshId), phoneNumber, Some(sent.savedSession), None, Some(true),
                                Some(sent.phoneCodeHash));
          match Create(sessions, doc, now)
          case Err(e) => Step(StartFailed(e), sessions, calls)
          case Ok(updated) => Step(CodeSent(freshId, "SMS code sent to your phone", "verify"), updated, calls)
  }

  /** `verifyCode` with body fields `sessionId`, `code`, `password`; `sign` is `jwt.sign` with the
      server secret, which throws when it cannot sign (no `JWT_SECRET` set, say), and `expiresEnv` is
      `JWT_EXPIRES_IN`. */
  function VerifyCodeStep(sessions: map<string, SessionRecord>, sessionId: Option<string>, code: Option<string>,
                          password: Option<string>, client: Client,
                          sign: (TokenPayload, string) -> Result<string, JsError>, expiresEnv: Option<string>): (r: Step<VerifyReply>)
    // missing id or code: 400, nothing else happens
    ensures !Truthy(sessionId) || !Truthy(code) <==> r.reply == VerifyRejected(400, "Session ID and code are required")
    ensures !Truthy(sessionId) || !Truthy(code) ==> r.sessions == sessions && r.calls == []
    // 404 exactly when the id names no pending record
    ensures r.reply == VerifyRejected(404, "Invalid or expired session") <==>
              Truthy(sessionId) && Truthy(code) && FindPending(sessions, sessionId.value).None?
    ensures r.reply == VerifyRejected(404, "Invalid or expired session") ==> r.sessions == sessions && r.calls == []
    // sign-in runs on the stored session and phone number, with the password defaulting to "";
    // each failure of connect, sign-in or token signing is passed on with its own error
    ensures Truthy(sessionId) && Truthy(code) && FindPending(sessions, sessionId.value).Some? ==>
              var rec := sessions[sessionId.value];
              var request := SignInRequest(rec.sessionString, rec.phoneNumber, code.value, PasswordOrEmpty(password));
              match client.connect(rec.sessionString)
              case Some(e) => r.reply == VerifyFailed(e) && r.calls == [Connect(rec.sessionString)]
              case None =>
                && r.calls == [Connect(rec.sessionString), SignIn(request)]
                && match client.signIn(request)
                   case Err(e) => r.reply == VerifyFailed(e)
                   case Ok(signed) =>
                     match sign(TokenPayload(signed.savedSession, rec.phoneNumber, sessionId.value), ExpiresIn(expiresEnv))
                     case Err(e) => r.reply == VerifyFailed(e)
                     case Ok(_) => r.reply.Authenticated?
    // success: only the matching record changes, to verified with the client's new session string
    ensures r.reply.Authenticated? ==>
              && FindPending(sessions, sessionId.value).Some?
              && |r.calls| == 2
              && var rec := sessions[sessionId.value];
                 var signed := client.signIn(r.calls[1].request);
                 && signed.Ok?
                 && r.sessions == sessions[sessionId.value := rec.(sessionString := signed.value.savedSession, isPending := false)]
                 && sign(TokenPayload(signed.value.savedSession, rec.phoneNumber, sessionId.value), ExpiresIn(expiresEnv))
                      == Ok(r.reply.token)
                 && r.reply.sessionId == sessionId.value
                 && r.reply.user == UserSummary(rec.phoneNumber, signed.value.savedSession)
                 && r.reply.message == "Authentication successful"
                 && r.reply.result == signed.value.user
    // a failed connect or sign-in keeps the record pending for another attempt
    ensures !r.reply.Authenticated? ==> r.sessions == sessions
    ensures KeyedById(sessions) ==> KeyedById(r.sessions)
    ensures Evolves(sessions, r.sessions)
  {
    if !Truthy(sessionId) || !Truthy(code) then
      Step(VerifyRejected(400, "Session ID and code are required"), sessions, [])
    else
      match FindPending(sessions, sessionId.value)
      case None => Step(VerifyRejected(404, "Invalid or expired session"), sessions, [])
      case Some(rec) =>
        match client.connect(rec.sessionString)
        case Some(e) => Step(VerifyFailed(e), sessions, [Connect(rec.sessionString)])
        case None =>
          var request := SignInRequest(rec.sessionString, rec.phoneNumber, code.value, PasswordOrEmpty(password));
          var calls := [Connect(rec.sessionString), SignIn(request)];
          match client.signIn(request)
          case Err(e) => Step(VerifyFailed(e), sessions, calls)
          case Ok(signed) =>
            match sign(TokenPayload(signed.savedSession, rec.phoneNumber, sessionId.value), ExpiresIn(expiresEnv))
            case Err(e) => Step(VerifyFailed(e), sessions, calls)
            case Ok(token) =>
              var updated := rec.(sessionString := signed.savedSession, isPending := false);
              Step(Authenticated(token, sessionId.value, "Authentication successful",
                                 UserSummary(rec.phoneNumber, signed.savedSession), signed.user),
                   sessions[sessionId.value := updated], calls)
  }

  /** Verify is not idempotent: once a verify has succeeded, a second one for the same id is refused
      with 404, whatever code, password or platform answers it brings. */
  lemma SecondVerifyNotFound(sessions: map<string, SessionRecord>, sessionId: Option<string>, code: Option<string>,
                             password: Option<string>, client: Client, sign: (TokenPayload, string) -> Result<string, JsError>,
                             expiresEnv: Option<string>, code2: Option<string>, password2: Option<string>,
                             client2: Client, sign2: (TokenPayload, string) -> Result<string, JsError>, expiresEnv2: Option<string>)
    requires VerifyCodeStep(sessions, sessionId, code, password, client, sign, expiresEnv).reply.Authenticated?
    requires Truthy(code2)
    ensures var first := VerifyCodeStep(sessions, sessionId, code, password, client, sign, expiresEnv);
            var second := VerifyCodeStep(first.sessions, sessionId, code2, password2, client2, sign2, expiresEnv2);
            second.reply == VerifyRejected(404, "Invalid or expired session") && second.sessions == first.sessions
  {
    var first := VerifyCodeStep(sessions, sessionId, code, password, client, sign, expiresEnv);
    assert first.sessions[sessionId.value].isPending == false;
  }

  /** A verify for the id that a start has just issued finds that record: the start-verify sequence
      reaches sign-in with the phone number the caller first gave, unstripped. */
  lemma StartThenVerifySignsInStoredNumber(sessions: map<string, SessionRecord>, phoneNumber: Option<string>,
                                           freshId: string, now: int, client: Client, code: Option<string>,
                                           password: Option<string>, sign: (TokenPayload, string) -> Result<string, JsError>,
                                           expiresEnv: Option<string>)
    requires StartAuthStep(sessions, phoneNumber, freshId, now, client).reply.CodeSent?
    requires Truthy(code)
    requires client.connect(client.sendCode(StripNonDigits(phoneNumber.value)).value.savedSession).None?
    ensures var started := StartAuthStep(sessions, phoneNumber, freshId, now, client);
            var verified := VerifyCodeStep(started.sessions, Some(started.reply.sessionId), code, password,
                                           client, sign, expiresEnv);
            && |verified.calls| == 2
            && verified.calls[1].request.phoneNumber == phoneNumber.value
            && verified.calls[1].request.password == PasswordOrEmpty(password)
  {
    var started := StartAuthStep(sessions, phoneNumber, freshId, now, client);
    assert FindPending(started.sessions, freshId).Some?;
  }

  /** The collection of login records, updated in place by the two steps. */
  class AuthController {
    var sessions: map<string, SessionRecord>

    ghost predicate Valid()
      reads this
    {
      KeyedById(sessions)
    }

    constructor ()
      ensures Valid() && sessions == map[]
    {
      sessions := map[];
    }

    /** `startAuth(req, res, next)`. */
    method StartAuth(phoneNumber: Option<string>, freshId: string, now: int, client: Client)
      returns (reply: StartReply, calls: seq<Call>)
      requires Valid()
      modifies this
      ensures Valid()
      ensures Step(reply, sessions, calls) == StartAuthStep(old(sessions), phoneNumber, freshId, now, client)
      ensures Evolves(old(sessions), sessions)
    {
      if !Truthy(phoneNumber) {
        return StartRejected(400, "Phone number is required"), [];
      }
      var sessionId := freshId;
      calls := [Connect("")];
      var connectError := client.connect("");
      if connectError.Some? {
        return StartFailed(connectError.value), calls;
      }
      var cleanPhoneNumber := StripNonDigits(phoneNumber.value);
      calls := calls + [SendCode(cleanPhoneNumber)];
      var result := client.sendCode(cleanPhoneNumber);
      if result.Err? {
        return StartFailed(result.error), calls;
      }
      var created := Create(sessions, SessionDoc(Some(sessionId), phoneNumber, Some(result.value.savedSession),
                                                 None, Some(true), Some(result.value.phoneCodeHash)), now);
      if created.Err? {
        return StartFailed(created.error), calls;
      }
      sessions := created.value;
      reply := CodeSent(sessionId, "SMS code sent to your phone", "verify");
    }

    /** `verifyCode(req, res, next)`. */
    method VerifyCode(sessionId: Option<string>, code: Option<string>, password: Option<string>, client: Client,
                      sign: (TokenPayload, string) -> Result<string, JsError>, expiresEnv: Option<string>)
      returns (reply: VerifyReply, calls: seq<Call>)
      requires Valid()
      modifies this
      ensures Valid()
      ensures Step(reply, sessions, calls) == VerifyCodeStep(old(sessions), sessionId, code, password, client, sign, expiresEnv)
      ensures Evolves(old(sessions), sessions)
    {
      if !Truthy(sessionId) || !Truthy(code) {
        return VerifyRejected(400, "Session ID and code are required"), [];
      }
      var session := GetSession(sessionId.value);
      if session.None? {
        return VerifyRejected(404, "Invalid or expired session"), [];
      }
      var rec := session.value;
      calls := [Connect(rec.sessionString)];
      var connectError := client.connect(rec.sessionString);
      if connectError.Some? {
        return VerifyFailed(connectError.value), calls;
      }
      var request := SignInRequest(rec.sessionString, rec.phoneNumber, code.value, PasswordOrEmpty(password));
      calls := calls + [SignIn(request)];
      var result := client.signIn(request);
      if result.Err? {
        return VerifyFailed(result.error), calls;
      }
      var sessionString := result.value.savedSession;
      var token := sign(TokenPayload(sessionString, rec.phoneNumber, sessionId.value), ExpiresIn(expiresEnv));
      if token.Err? {
        return VerifyFailed(token.error), calls;
      }
      sessions := sessions[sessionId.value := sessions[sessionId.value].(sessionString := sessionString, isPending := false)];
      reply := Authenticated(token.value, sessionId.value, "Authentication successful",
                             UserSummary(rec.phoneNumber, sessionString), result.value.user);
    }

    /** `getSession(sessionId)`: the record only while it is pending. */
    method GetSession(sessionId: string) returns (session: Option<SessionRecord>)
      ensures session.Some? <==> sessionId in sessions && sessions[sessionId].isPending
      ensures session.Some? ==> session.value == sessions[sessionId]
    {
      if sessionId in sessions && sessions[sessionId].isPending {
        session := Some(sessions[sessionId]);
      } else {
        session := None;
      }
    }

    /** The TTL monitor of the collection running at time `now`. */
    method ExpireSessions(now: int)
      requires Valid()
      modifies this
      ensures Valid()
      ensures sessions == SweepExpired(old(sessions), now)
    {
      sessions := SweepExpired(sessions, now);
    }
  }
}
