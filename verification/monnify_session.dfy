/** The Monnify adapter's configuration and its bearer-token session: the
    login exchange (`authenticate`) and the lazy refresh guard run before every
    call (`ensureAuthenticated`). The clock is read twice on the refresh path,
    once for the expiry check and once after the login reply arrives; both
    readings, and the login reply itself, are inputs. */
module MonnifySession {
  import opened Results
  import opened Js
  import opened Http

  /** The adapter's fields, read from the process environment once. */
  datatype Config = Config(apiKey: Value, secretKey: Value, baseUrl: Value, contractCode: Value)

  const SandboxUrl := "https://sandbox.monnify.com"

  /** The constructor: keys and contract code come straight from the
      environment, and the base URL falls back to the sandbox when its
      variable is unset or empty. */
  function Configure(env: map<string, string>): (cfg: Config)
    ensures Truthy(cfg.baseUrl)
    ensures "MONNIFY_BASE_URL" in env && env["MONNIFY_BASE_URL"] != "" ==> cfg.baseUrl == Str(env["MONNIFY_BASE_URL"])
    ensures !("MONNIFY_BASE_URL" in env && env["MONNIFY_BASE_URL"] != "") ==> cfg.baseUrl == Str(SandboxUrl)
    ensures cfg.apiKey == (if "MONNIFY_API_KEY" in env then Str(env["MONNIFY_API_KEY"]) else Undefined)
    ensures cfg.secretKey == (if "MONNIFY_SECRET_KEY" in env then Str(env["MONNIFY_SECRET_KEY"]) else Undefined)
    ensures cfg.contractCode ==
      (if "MONNIFY_CONTRACT_CODE" in env then Str(env["MONNIFY_CONTRACT_CODE"]) else Undefined)
  {
    Config(
      EnvVar(env, "MONNIFY_API_KEY"),
      EnvVar(env, "MONNIFY_SECRET_KEY"),
      Or(EnvVar(env, "MONNIFY_BASE_URL"), Str(SandboxUrl)),
      EnvVar(env, "MONNIFY_CONTRACT_CODE"))
  }

  /** The bearer token and the instant (milliseconds) it stops being used.
      `tokenExpiry` is `None` while it still holds its initial `null`. */
  datatype Session = Session(accessToken: Value, tokenExpiry: Option<Number>)

  /** Both fields start out `null`. */
  const Initial := Session(Null, None)

  /** `now >= this.tokenExpiry`, where `null` coerces to 0 and NaN compares false. */
  predicate Expired(now: int, expiry: Option<Number>) {
    match expiry
    case None => now >= 0
    case Some(x) => AtLeast(now, x)
  }

  /** The guard of `ensureAuthenticated`: no usable token, or its expiry reached. */
  predicate NeedsAuth(s: Session, now: int) {
    !Truthy(s.accessToken) || Expired(now, s.tokenExpiry)
  }

  /** The state, the requests sent, and the value returned or error thrown. */
  datatype Step<+T> = Step(session: Session, sent: seq<Request>, result: Result<T, Fault>)

  const AuthFailed := "Failed to authenticate with Monnify"

  /** The login call: HTTP Basic over `apiKey:secretKey`, with an empty JSON body. */
  function LoginRequest(cfg: Config, base64: string -> string): Request {
    Request(
      POST,
      ToStr(cfg.baseUrl) + "/api/v1/auth/login",
      map["Authorization" := Str("Basic " + base64(ToStr(cfg.apiKey) + ":" + ToStr(cfg.secretKey))),
          "Content-Type" := JsonContent],
      Some(Obj(map[])))
  }

  /** The body a login reply carries its token in, when it has one. */
  function LoginBody(reply: Reply): Value {
    match reply
    case Answered(data) => Field(data, "responseBody")
    case _ => Undefined
  }

  /** Whether a login reply gets as far as storing its token: a 2xx reply
      whose `responseCode` is the string "0" and whose `responseBody` can be
      read from. */
  predicate TokenStored(reply: Reply) {
    && reply.Answered?
    && Field(reply.data, "responseCode") == Str("0")
    && !Nullish(LoginBody(reply))
  }

  /** Whether a login succeeds: the token is stored and `expiresIn * 1000`
      does not throw. */
  predicate LoginAccepted(reply: Reply) {
    TokenStored(reply) && Convertible(Field(LoginBody(reply), "expiresIn"))
  }

  /** `authenticate()`, with `now` the clock reading taken after the reply.
      Every failure, whatever its cause, is re-thrown as the one fixed error.
      The token is assigned before the expiry is computed, so a reply whose
      `expiresIn` cannot be converted leaves the new token behind next to the
      old expiry; every other failure leaves the session as it was. */
  function Authenticate(cfg: Config, base64: string -> string, s: Session, reply: Reply, now: int): (st: Step<Value>)
    ensures st.sent == [LoginRequest(cfg, base64)]
    ensures st.result.Success? <==> LoginAccepted(reply)
    ensures st.result.Failure? ==>
      && st.result.error == Error(AuthFailed)
      && st.session == (if TokenStored(reply) then s.(accessToken := Field(LoginBody(reply), "accessToken")) else s)
    ensures st.result.Success? ==>
      && st.result.value == Field(LoginBody(reply), "accessToken")
      && st.session.accessToken == st.result.value
      && st.session.tokenExpiry == Some(Plus(now, Times(ToNumber(Field(LoginBody(reply), "expiresIn")).value, 1000)))
  {
    var sent := [LoginRequest(cfg, base64)];
    var failed := Step(s, sent, Failure(Error(AuthFailed)));
    match reply
    case Answered(data) =>
      if Nullish(data) || Field(data, "responseCode") != Str("0") then failed
      else
        var body := Field(data, "responseBody");
        if Nullish(body) then failed
        else
          var token := Field(body, "accessToken");
          var lifetime := ToNumber(Field(body, "expiresIn"));
          if lifetime.Failure? then Step(s.(accessToken := token), sent, Failure(Error(AuthFailed)))
          else Step(Session(token, Some(Plus(now, Times(lifetime.value, 1000)))), sent, Success(token))
    case _ => failed
  }

  /** One run of the refresh guard: the instant it checks the expiry at, and,
      should it log in, the login reply and the instant that reply arrived. */
  datatype AuthExchange = AuthExchange(checkedAt: int, reply: Reply, repliedAt: int)

  /** `ensureAuthenticated()`: logs in exactly when the guard holds; otherwise
      sends nothing and changes nothing. */
  function EnsureAuthenticated(cfg: Config, base64: string -> string, s: Session, x: AuthExchange): (st: Step<()>)
    ensures !NeedsAuth(s, x.checkedAt) ==> st == Step(s, [], Success(()))
    ensures NeedsAuth(s, x.checkedAt) ==>
      var a := Authenticate(cfg, base64, s, x.reply, x.repliedAt);
      && st.sent == [LoginRequest(cfg, base64)]
      && st.session == a.session
      && (st.result.Success? <==> a.result.Success?)
    ensures st.result.Failure? ==> st.result.error == Error(AuthFailed) && st.session.tokenExpiry == s.tokenExpiry
  {
    if NeedsAuth(s, x.checkedAt) then
      var a := Authenticate(cfg, base64, s, x.reply, x.repliedAt);
      Step(a.session, a.sent, if a.result.Success? then Success(()) else Failure(a.result.error))
    else
      Step(s, [], Success(()))
  }

  /** A token obtained with a truthy value and a positive lifetime of
      `lifetime` seconds is reused, without another login, by every guard that
      checks before `lifetime` seconds have passed — in particular by one
      checking at the very instant the login completed. */
  lemma NoLoginWithinLifetime(cfg: Config, base64: string -> string, s: Session, reply: Reply, now: int,
                              lifetime: int, x: AuthExchange)
    requires LoginAccepted(reply)
    requires Truthy(Field(LoginBody(reply), "accessToken"))
    requires ToNumber(Field(LoginBody(reply), "expiresIn")) == Success(Finite(lifetime)) && lifetime > 0
    requires now <= x.checkedAt < now + lifetime * 1000
    ensures var a := Authenticate(cfg, base64, s, reply, now);
            EnsureAuthenticated(cfg, base64, a.session, x) == Step(a.session, [], Success(()))
  {
  }

  /** A login that returns no usable token (a missing or empty `accessToken`)
      is repeated by the very next guard, whatever the clock says. */
  lemma FalsyTokenForcesLogin(cfg: Config, base64: string -> string, s: Session, reply: Reply, now: int,
                              x: AuthExchange)
    requires LoginAccepted(reply)
    requires !Truthy(Field(LoginBody(reply), "accessToken"))
    ensures var a := Authenticate(cfg, base64, s, reply, now);
            EnsureAuthenticated(cfg, base64, a.session, x).sent == [LoginRequest(cfg, base64)]
  {
  }

  /** A login whose `expiresIn` is missing, an object or a word stores a NaN
      expiry, and `now >= NaN` is false: a truthy token obtained that way is
      never refreshed by the guard again. */
  lemma NaNExpiryNeverRefreshes(cfg: Config, base64: string -> string, s: Session, reply: Reply, now: int,
                                x: AuthExchange)
    requires LoginAccepted(reply)
    requires Truthy(Field(LoginBody(reply), "accessToken"))
    requires NotANumeral(Field(LoginBody(reply), "expiresIn"))
    ensures var a := Authenticate(cfg, base64, s, reply, now);
            EnsureAuthenticated(cfg, base64, a.session, x).sent == []
  {
    NotANumeralIsNaN(Field(LoginBody(reply), "expiresIn"));
  }

  /** A refresh that fails leaves the expiry that triggered it in place, so
      the next guard, checking no earlier, logs in again — even when the
      failed login did store a fresh token. */
  lemma FailedRefreshRetries(cfg: Config, base64: string -> string, s: Session, x: AuthExchange, y: AuthExchange)
    requires Expired(x.checkedAt, s.tokenExpiry)
    requires EnsureAuthenticated(cfg, base64, s, x).result.Failure?
    requires x.checkedAt <= y.checkedAt
    ensures var first := EnsureAuthenticated(cfg, base64, s, x);
            EnsureAuthenticated(cfg, base64, first.session, y).sent == [LoginRequest(cfg, base64)]
  {
  }

  // ---------------------------------------------------------------------------
  // Repeated guards

  /** A sequence of guarded calls: the final session and how many logins they sent. */
  function Guards(cfg: Config, base64: string -> string, s: Session, xs: seq<AuthExchange>): (Session, nat)
    decreases |xs|
  {
    if xs == [] then (s, 0)
    else
      var st := EnsureAuthenticated(cfg, base64, s, xs[0]);
      var rest := Guards(cfg, base64, st.session, xs[1..]);
      (rest.0, |st.sent| + rest.1)
  }

  /** However many calls are made, none logs in while the token is still valid
      at the instant it checks, and the session is left untouched. */
  lemma {:induction false} NoLoginWhileValid(cfg: Config, base64: string -> string, s: Session, xs: seq<AuthExchange>)
    requires forall i :: 0 <= i < |xs| ==> !NeedsAuth(s, xs[i].checkedAt)
    ensures Guards(cfg, base64, s, xs) == (s, 0)
  {
    if xs != [] {
      NoLoginWhileValid(cfg, base64, s, xs[1..]);
    }
  }

  /** At most one login while a valid token exists: if every call after the
      first checks while the token the first call left behind is still valid,
      the whole sequence logs in at most once, and only the first call can. */
  lemma AtMostOneLogin(cfg: Config, base64: string -> string, s: Session, xs: seq<AuthExchange>)
    requires |xs| >= 1
    requires var first := EnsureAuthenticated(cfg, base64, s, xs[0]);
             forall i :: 1 <= i < |xs| ==> !NeedsAuth(first.session, xs[i].checkedAt)
    ensures Guards(cfg, base64, s, xs).1 <= 1
    ensures Guards(cfg, base64, s, xs).1 == (if NeedsAuth(s, xs[0].checkedAt) then 1 else 0)
  {
    var first := EnsureAuthenticated(cfg, base64, s, xs[0]);
    forall i | 0 <= i < |xs[1..]| ensures !NeedsAuth(first.session, xs[1..][i].checkedAt) {
      assert xs[1..][i] == xs[i + 1];
    }
    NoLoginWhileValid(cfg, base64, first.session, xs[1..]);
  }
}
