/**
 * Helpers of the service-account routes
 * (apps/backend/src/routes/api/saccounts/helpers.ts): reading a required
 * environment variable, the storage key of a login flow, the account summary
 * sent to the dashboard and the recognition of Telegram's "password needed"
 * error.
 */
module SaccountHelpers {
  import opened Wrappers
  import opened JsValues
  import opened JsText
  import opened SaccountsValidators
  import opened ValidatorBasics

  /**
   * `mustEnv(name)`: the variable's value; an unset or empty variable throws
   * (the error as `${error}` renders it).
   */
  function MustEnv(env: map<string, string>, name: string): (r: Outcome<string>)
    ensures r.Returned? <==> name in env && env[name] != ""
    ensures r.Returned? ==> r.value == env[name]
    ensures r.Threw? ==> r.error == "Error: Missing env: " + name
  {
    if name in env && env[name] != "" then Returned(env[name]) else Threw("Error: Missing env: " + name)
  }

  const FlowStoragePrefix: string := "storage/stats-agent-flow:"

  /** `makeStorageKeyForFlow`: the fixed prefix followed by the flow id. */
  function StorageKeyForFlow(flowId: string): (k: string)
    ensures |k| == |FlowStoragePrefix| + |flowId|
    ensures k[..|FlowStoragePrefix|] == FlowStoragePrefix && k[|FlowStoragePrefix|..] == flowId
  {
    FlowStoragePrefix + flowId
  }

  /** Distinct flows get distinct storage keys: the flow id can be read back from its key. */
  lemma StorageKeysDistinct(a: string, b: string)
    requires a != b
    ensures StorageKeyForFlow(a) != StorageKeyForFlow(b)
  {
    assert StorageKeyForFlow(a)[|FlowStoragePrefix|..] == a;
    assert StorageKeyForFlow(b)[|FlowStoragePrefix|..] == b;
  }

  /** The Telegram account behind a client (`tg.getMe()`). */
  datatype TgUser = TgUser(id: int, firstName: Option<string>, lastName: Option<string>,
                           username: Option<string>, isPremium: bool)

  /** `meDto`: a missing first name becomes `""`; a missing last name or username stays null. */
  function MeDto(u: TgUser): (me: Me)
    ensures me.id == u.id as real && me.lastName == u.lastName && me.username == u.username
    ensures u.firstName.Some? ==> me.firstName == u.firstName.value
    ensures u.firstName.None? ==> me.firstName == ""
  {
    Me(u.id as real, u.firstName.OrElse(""), u.lastName, u.username)
  }

  function NullableJson(s: Option<string>): JsValue
  {
    if s.Some? then Str(s.value) else Null
  }

  /** The account summary as the JSON object the route sends. */
  function MeJson(me: Me): JsValue
  {
    Obj([("id", Num(me.id)), ("firstName", Str(me.firstName)),
         ("lastName", NullableJson(me.lastName)), ("username", NullableJson(me.username))])
  }

  /** What `meDto` produces is accepted by the dashboard's `MeDto` schema and read back unchanged. */
  lemma MeDtoAccepted(u: TgUser)
    ensures ParseMe(MeJson(MeDto(u))) == Some(MeDto(u))
  {
    var me := MeDto(u);
    var v := MeJson(me);
    var f := v.fields;
    assert F(v, "id") == Num(me.id) by { FourFields(f, "id"); }
    assert F(v, "firstName") == Str(me.firstName) by { FourFields(f, "firstName"); }
    assert F(v, "lastName") == NullableJson(me.lastName) by { FourFields(f, "lastName"); }
    assert F(v, "username") == NullableJson(me.username) by { FourFields(f, "username"); }
    ParseMeOf(v, me);
  }

  const PasswordNeeded: string := "SESSION_PASSWORD_NEEDED"

  /** `isPasswordNeededError`: the error's text contains `SESSION_PASSWORD_NEEDED`. */
  function IsPasswordNeededError(error: string): (b: bool)
    ensures b <==> exists i :: OccursAt(error, PasswordNeeded, i)
  {
    var found := IndexOf(error, PasswordNeeded);
    if found.None? then
      assert forall i: nat :: !OccursAt(error, PasswordNeeded, i) by {
        forall i: nat ensures !OccursAt(error, PasswordNeeded, i) {
          if i > |error| {
            assert !(i + |PasswordNeeded| <= |error|);
          }
        }
      }
      false
    else true
  }
}

/**
 * The service-account login routes
 * (apps/backend/src/routes/api/saccounts/handlers.ts): a phone login flow is
 * started (`waiting_code`), the code is submitted, and a signed-in account
 * is stored as an active stats-agent session (`done`). Telegram is reached
 * through function parameters; the flow and session UUIDs and the clock are
 * inputs.
 */
module SaccountHandlers {
  import opened Wrappers
  import opened JsValues
  import opened JsText
  import opened Schema
  import opened Db
  import opened Helpers
  import opened SaccountsValidators
  import opened SaccountHelpers

  /** A flow expires 15 minutes after it starts. */
  const FlowLifetime: int := 15 * 60 * 1000

  const PhoneRefused: string := "cannot use this phone right now"
  const FlowNotFound: string := "not found"
  const BadMode: string := "bad mode"
  const BadStatus: string := "bad status"
  const FlowExpired: string := "expired"
  const SignInFailed: string := "sign in failed"
  const WrongPassword: string := "wrong password"
  /** `${error}` of the error thrown when the flow lacks its phone or code hash. */
  const NoPhoneOrHash: string := "Error: no phone or hash"

  /** No flow waits for a password: no route ever writes that status. */
  ghost predicate NoFlowAwaitsPassword(flows: map<string, LoginFlow>)
  {
    forall k :: k in flows ==> flows[k].status != WaitingPassword
  }

  // ---------------------------------------------------------------- starting a flow

  /** What `tg.sendCode` answers: the kind of code sent with its hash and length, or a throw. */
  datatype SendCodeResult = SentCode(codeType: string, phoneCodeHash: string, length: int) | SendCodeThrew(error: string)

  datatype FlowStarted = FlowStarted(flowId: string, step: string, length: int, expiresAt: int)

  /** The flow stored for a sent code. */
  function PhoneFlow(flowId: string, phone: string, phoneCodeHash: string, now: int): (f: LoginFlow)
    ensures f.id == flowId && f.mode == Phone && f.status == WaitingCode && f.storageKey == StorageKeyForFlow(flowId)
    ensures f.phone == Some(phone) && f.phoneCodeHash == Some(phoneCodeHash)
    ensures f.expiresAt - f.createdAt == FlowLifetime && f.createdAt == f.updatedAt == now
  {
    LoginFlow(flowId, Phone, WaitingCode, StorageKeyForFlow(flowId), Some(phone), Some(phoneCodeHash),
              now + FlowLifetime, now, now)
  }

  /** Neither the flow id nor its storage key is taken: the insert meets the table's constraints. */
  predicate FreshFlow(flows: map<string, LoginFlow>, flowId: string)
  {
    flowId !in flows && forall k :: k in flows ==> flows[k].storageKey != StorageKeyForFlow(flowId)
  }

  /**
   * `handleStartFlow`: the body needs a phone (its `.parse` and the JSON
   * decoding run outside any `try`, so a refusal is the framework's 500, as
   * is a throw from Telegram or the insert). A code of type `user` is
   * refused with an error sent with status 200 and nothing stored;
   * otherwise exactly one phone flow waiting for its code is stored.
   */
  method StartFlow(db: Database, json: Option<JsValue>, flowId: string, now: int,
                   sendCode: string -> SendCodeResult) returns (r: Reply<FlowStarted>)
    requires db.Valid()
    modifies db`loginFlows
    ensures db.Valid()
    ensures r.Failure? ==> db.loginFlows == old(db.loginFlows)
    ensures NoFlowAwaitsPassword(old(db.loginFlows)) ==> NoFlowAwaitsPassword(db.loginFlows)
    ensures (json.None? || ParseStartFlowBody(json.value).None?) ==> r == Failure(500, InternalServerError)
    ensures json.Some? && ParseStartFlowBody(json.value).Some? ==>
              var phone := ParseStartFlowBody(json.value).value;
              var sent := sendCode(phone);
              (sent.SendCodeThrew? ==> r == Failure(500, InternalServerError))
              && (sent.SentCode? && sent.codeType == "user" ==> r == Failure(200, PhoneRefused))
              && (sent.SentCode? && sent.codeType != "user" && !FreshFlow(old(db.loginFlows), flowId) ==>
                    r == Failure(500, InternalServerError))
              && (r.Success? <==> sent.SentCode? && sent.codeType != "user" && FreshFlow(old(db.loginFlows), flowId))
              && (r.Success? ==>
                    r.data == FlowStarted(flowId, "enter_code", sent.length, now + FlowLifetime)
                    && db.loginFlows == old(db.loginFlows)[flowId := PhoneFlow(flowId, phone, sent.phoneCodeHash, now)])
  {
    if json.None? {
      return Failure(500, InternalServerError);
    }
    var phone := ParseStartFlowBody(json.value);
    if phone.None? {
      return Failure(500, InternalServerError);
    }
    var sent := sendCode(phone.value);
    if sent.SendCodeThrew? {
      return Failure(500, InternalServerError);
    }
    if sent.codeType == "user" {
      return Failure(200, PhoneRefused);
    }
    if !FreshFlow(db.loginFlows, flowId) {
      return Failure(500, InternalServerError);
    }
    db.InsertLoginFlow(PhoneFlow(flowId, phone.value, sent.phoneCodeHash, now));
    r := Success(FlowStarted(flowId, "enter_code", sent.length, now + FlowLifetime));
  }

  // ---------------------------------------------------------------- submitting the code

  /** A flow that may still take a code or password: a phone flow in `status`, not yet expired. */
  predicate Admissible(f: LoginFlow, status: LoginStatus, now: int)
  {
    f.mode == Phone && f.status == status && !(f.expiresAt < now)
  }

  /** JavaScript truthiness of a nullable text column. */
  predicate Present(s: Option<string>)
  {
    s.Some? && s.value != ""
  }

  /** What `tg.signIn` (or `tg.checkPassword`) leads to: the signed-in account, or a throw. */
  datatype SignInResult = SignedIn(me: TgUser) | SignInThrew(error: string)

  /** The session stored for the account a flow signed in. */
  function AgentSession(id: string, storageKey: string, me: TgUser, now: int): (s: TgSession)
    ensures s.id == id && s.storageKey == storageKey && s.status == Active && s.sessionType == StatsAgent
    ensures s.tgUserId == IntToString(me.id) && s.sessionLabel == Some("Agent " + IntToString(me.id))
    ensures s.tgFirstName == MeDto(me).firstName && s.tgLastName == me.lastName && s.tgUsername == me.username
  {
    TgSession(id, StatsAgent, Active, Some("Agent " + IntToString(me.id)), storageKey, IntToString(me.id),
              me.username, me.firstName.OrElse(""), me.lastName, me.isPremium, now)
  }

  /** The session insert meets the table's constraints. */
  predicate FreshSession(sessions: map<string, TgSession>, id: string, storageKey: string)
  {
    id !in sessions && forall k :: k in sessions ==> sessions[k].storageKey != storageKey
  }

  /**
   * The part of `handleSubmitCode` after the flow checks: sign in with the
   * stored phone and hash. A password-needed error answers `enter_password`
   * and changes nothing; any other failure is a 400; a signed-in account is
   * stored as one active session and the flow is `done`.
   */
  method SignInWithCode(db: Database, flowId: string, code: string, now: int, sessionId: string,
                        signIn: (string, string, string) -> SignInResult) returns (r: Reply<SubmitCodeResponse>)
    requires db.Valid() && flowId in db.loginFlows
    modifies db`loginFlows, db`sessions
    ensures db.Valid()
    ensures !(r.Success? && r.data.CodeDone?) ==> db.loginFlows == old(db.loginFlows) && db.sessions == old(db.sessions)
    ensures var f := old(db.loginFlows)[flowId];
            (!(Present(f.phone) && Present(f.phoneCodeHash)) ==> r == Failure(400, SignInFailed))
            && (Present(f.phone) && Present(f.phoneCodeHash) ==>
                  var result := signIn(f.phone.value, f.phoneCodeHash.value, code);
                  (result.SignInThrew? && IsPasswordNeededError(result.error) ==> r == Success(EnterPassword))
                  && (result.SignInThrew? && !IsPasswordNeededError(result.error) ==> r == Failure(400, SignInFailed))
                  && (result.SignedIn? && !FreshSession(old(db.sessions), sessionId, f.storageKey) ==>
                        r == Failure(500, InternalServerError))
                  && (result.SignedIn? && FreshSession(old(db.sessions), sessionId, f.storageKey) ==>
                        r == Success(CodeDone(MeDto(result.me)))
                        && db.sessions == old(db.sessions)[sessionId := AgentSession(sessionId, f.storageKey, result.me, now)]
                        && db.loginFlows == old(db.loginFlows)[flowId := f.(status := Done, updatedAt := now)]))
  {
    var f := db.loginFlows[flowId];
    if !(Present(f.phone) && Present(f.phoneCodeHash)) {
      // The thrown "no phone or hash" error is not the password-needed one.
      assert !IsPasswordNeededError(NoPhoneOrHash) by {
        forall i ensures !OccursAt(NoPhoneOrHash, PasswordNeeded, i) {
          assert |NoPhoneOrHash| == |PasswordNeeded| == 23;
          assert NoPhoneOrHash[0] != PasswordNeeded[0];
        }
      }
      return Failure(400, SignInFailed);
    }
    var result := signIn(f.phone.value, f.phoneCodeHash.value, code);
    if result.SignInThrew? {
      if IsPasswordNeededError(result.error) {
        return Success(EnterPassword);
      }
      return Failure(400, SignInFailed);
    }
    if !FreshSession(db.sessions, sessionId, f.storageKey) {
      return Failure(500, InternalServerError);
    }
    db.InsertSession(AgentSession(sessionId, f.storageKey, result.me, now));
    assert db.KeysValid() && db.FlowsKeyed();
    db.UpdateLoginFlow(f.(status := Done, updatedAt := now));
    r := Success(CodeDone(MeDto(result.me)));
  }

  /**
   * `handleSubmitCode`: the flow id and the code must parse (outside any
   * `try`: the framework's 500 otherwise); then, in order, 404 for an
   * unknown flow and 400 for a flow that is not a phone flow, not waiting
   * for its code, or past its expiry (a flow is still valid at the instant
   * it expires); then the sign-in.
   */
  method SubmitCode(db: Database, params: map<string, string>, json: Option<JsValue>, now: int, sessionId: string,
                    signIn: (string, string, string) -> SignInResult) returns (r: Reply<SubmitCodeResponse>)
    requires db.Valid()
    modifies db`loginFlows, db`sessions
    ensures db.Valid()
    ensures !(r.Success? && r.data.CodeDone?) ==> db.loginFlows == old(db.loginFlows) && db.sessions == old(db.sessions)
    ensures NoFlowAwaitsPassword(old(db.loginFlows)) ==> NoFlowAwaitsPassword(db.loginFlows)
    ensures (ParseFlowIdParam(params).None? || json.None? || ParseSubmitCodeBody(json.value).None?) ==>
              r == Failure(500, InternalServerError)
    ensures ParseFlowIdParam(params).Some? && json.Some? && ParseSubmitCodeBody(json.value).Some? ==>
              var flowId := ParseFlowIdParam(params).value;
              (flowId !in old(db.loginFlows) ==> r == Failure(404, FlowNotFound))
              && (flowId in old(db.loginFlows) ==>
                    var f := old(db.loginFlows)[flowId];
                    (f.mode != Phone ==> r == Failure(400, BadMode))
                    && (f.mode == Phone && f.status != WaitingCode ==> r == Failure(400, BadStatus))
                    && (f.mode == Phone && f.status == WaitingCode && f.expiresAt < now ==> r == Failure(400, FlowExpired)))
    ensures r.Success? && r.data.CodeDone? ==>
              var flowId := ParseFlowIdParam(params).value;
              flowId in old(db.loginFlows) && Admissible(old(db.loginFlows)[flowId], WaitingCode, now)
              && db.loginFlows == old(db.loginFlows)[flowId := old(db.loginFlows)[flowId].(status := Done, updatedAt := now)]
              && sessionId !in old(db.sessions) && db.sessions.Keys == old(db.sessions).Keys + {sessionId}
              && db.sessions[sessionId].status == Active && db.sessions[sessionId].storageKey == old(db.loginFlows)[flowId].storageKey
  {
    var flowId := ParseFlowIdParam(params);
    if flowId.None? || json.None? {
      return Failure(500, InternalServerError);
    }
    var code := ParseSubmitCodeBody(json.value);
    if code.None? {
      return Failure(500, InternalServerError);
    }
    if flowId.value !in db.loginFlows {
      return Failure(404, FlowNotFound);
    }
    var f := db.loginFlows[flowId.value];
    if f.mode != Phone {
      return Failure(400, BadMode);
    }
    if f.status != WaitingCode {
      return Failure(400, BadStatus);
    }
    if f.expiresAt < now {
      return Failure(400, FlowExpired);
    }
    r := SignInWithCode(db, flowId.value, code.value, now, sessionId, signIn);
  }

  // ---------------------------------------------------------------- submitting the password

  /**
   * The answers of `handleSubmitPassword`. Its flow checks answer a bare
   * `{ error }` object rather than the error envelope.
   */
  datatype PasswordAnswer = PasswordDone(me: Me) | Refused(code: nat, message: string) | Bare(code: nat, error: string)

  /**
   * `handleSubmitPassword`: like the code step, but the flow must wait for
   * a password. A wrong password is a 400; a right one marks the flow
   * `done` and, unlike the code step, stores no session. Because no route
   * writes `waiting_password`, every flow the routes create is refused.
   */
  method SubmitPassword(db: Database, params: map<string, string>, json: Option<JsValue>, now: int,
                        checkPassword: (string, string) -> SignInResult) returns (r: PasswordAnswer)
    requires db.Valid()
    modifies db`loginFlows
    ensures db.Valid()
    ensures !r.PasswordDone? ==> db.loginFlows == old(db.loginFlows)
    ensures NoFlowAwaitsPassword(old(db.loginFlows)) ==> !r.PasswordDone? && NoFlowAwaitsPassword(db.loginFlows)
    ensures (ParseFlowIdParam(params).None? || json.None? || ParseSubmitPasswordBody(json.value).None?) ==>
              r == Refused(500, InternalServerError)
    ensures ParseFlowIdParam(params).Some? && json.Some? && ParseSubmitPasswordBody(json.value).Some? ==>
              var flowId := ParseFlowIdParam(params).value;
              var password := ParseSubmitPasswordBody(json.value).value;
              (flowId !in old(db.loginFlows) ==> r == Bare(404, FlowNotFound))
              && (flowId in old(db.loginFlows) ==>
                    var f := old(db.loginFlows)[flowId];
                    (f.mode != Phone ==> r == Bare(400, BadMode))
                    && (f.mode == Phone && f.status != WaitingPassword ==> r == Bare(400, BadStatus))
                    && (f.mode == Phone && f.status == WaitingPassword && f.expiresAt < now ==> r == Bare(400, FlowExpired))
                    && (Admissible(f, WaitingPassword, now) && checkPassword(f.storageKey, password).SignInThrew? ==>
                          r == Refused(400, WrongPassword))
                    && (Admissible(f, WaitingPassword, now) && checkPassword(f.storageKey, password).SignedIn? ==>
                          r == PasswordDone(MeDto(checkPassword(f.storageKey, password).me))
                          && db.loginFlows == old(db.loginFlows)[flowId := f.(status := Done, updatedAt := now)]))
  {
    var flowId := ParseFlowIdParam(params);
    if flowId.None? || json.None? {
      return Refused(500, InternalServerError);
    }
    var password := ParseSubmitPasswordBody(json.value);
    if password.None? {
      return Refused(500, InternalServerError);
    }
    if flowId.value !in db.loginFlows {
      return Bare(404, FlowNotFound);
    }
    var f := db.loginFlows[flowId.value];
    if f.mode != Phone {
      return Bare(400, BadMode);
    }
    if f.status != WaitingPassword {
      return Bare(400, BadStatus);
    }
    if f.expiresAt < now {
      return Bare(400, FlowExpired);
    }
    var result := checkPassword(f.storageKey, password.value);
    if result.SignInThrew? {
      return Refused(400, WrongPassword);
    }
    assert db.KeysValid() && db.FlowsKeyed();
    db.UpdateLoginFlow(f.(status := Done, updatedAt := now));
    r := PasswordDone(MeDto(result.me));
  }
}
