/**
 The registration-or-login and login use cases, as transitions over the users
 table, the session cache and a logical clock. Each transition returns the
 response, the state after it, and the calls it made on the store and the cache
 in order. Hashing, password verification, signing, token ids and every
 infrastructure failure are inputs (an Env).
 */
module Usecase {
  import opened Fault
  import opened Model
  import opened Jwt
  import opened Repository
  import opened SessionCache

  const CacheKeyPrefix: string := "login:"

  /** How long a cached session stays reusable. */
  const SessionTtl: int := 10 * Minute

  /** The session cache key of an email. */
  function CacheKey(email: string): string
  {
    CacheKeyPrefix + email
  }

  /** Distinct emails never share a session entry. */
  lemma CacheKeyInjective(a: string, b: string)
    ensures CacheKey(a) == CacheKey(b) <==> a == b
  {
    if CacheKey(a) == CacheKey(b) {
      assert a == CacheKey(a)[6..];
      assert b == CacheKey(b)[6..];
    }
  }

  function CacheCheckFailedMessage(key: string): string
  {
    "failed to check Redis key existence for '" + key + "'"
  }

  function CacheReadFailedMessage(key: string): string
  {
    "failed to retrieve access token from Redis for key '" + key + "'"
  }

  function CachedValueNotStringMessage(key: string): string
  {
    "cached access token is not a string for key '" + key + "'"
  }

  /** The password-mismatch message formats the (nil) lookup error. */
  const LoginFailedMessage: string := "failed to login: <nil>"

  /** The service's external state. */
  datatype State = State(users: Table, cache: Cache, clock: int)

  /** Everything the environment decides during one request. */
  datatype Env = Env(
    cacheExistsFails: bool,
    cacheGetFails: bool,
    cacheSetError: Option<Fault>,
    countFails: bool,
    insert: InsertEnv,
    lookupFails: bool,
    hash: string -> string,
    verify: (string, string) -> bool,
    access: Draw,
    refresh: Draw,
    sign: Signer)

  /** A call on the session cache or the user repository. */
  datatype Call =
    | CacheExists(key: string)
    | CacheGet(key: string)
    | CacheSet(key: string, value: string, ttl: int)
    | NameCount(name: string)
    | UserInsert(user: RegisterUser)
    | UserLookup(req: UserDetailRequest)
  {
    predicate IsCacheCall()
    {
      CacheExists? || CacheGet? || CacheSet?
    }
  }

  datatype Outcome = Outcome(response: Result<LoginResponse>, state: State, calls: seq<Call>)

  predicate TouchesCache(calls: seq<Call>)
  {
    exists i :: 0 <= i < |calls| && calls[i].IsCacheCall()
  }

  predicate Inserts(calls: seq<Call>)
  {
    exists i :: 0 <= i < |calls| && calls[i].UserInsert?
  }

  predicate WritesCache(calls: seq<Call>)
  {
    exists i :: 0 <= i < |calls| && calls[i].CacheSet?
  }

  /** An issued access and refresh token. */
  datatype Tokens = Tokens(access: Token, refresh: Token)

  /** Issues the access token, then the refresh token, for a user. */
  function IssueTokens(u: User, id: Uuid, env: Env): (r: Result<Tokens>)
    ensures r.Err? ==> r.fault.kind == Unprocessable
    ensures r.Ok? ==> var a, f := r.value.access.payload, r.value.refresh.payload;
      && a.name == u.name && a.email == u.email && a.userId == id.text
      && f.name == u.name && f.email == u.email && f.userId == id.text
      && a.expiresAt == NumericDate(env.access.now) + 30 * Minute
      && f.expiresAt == NumericDate(env.refresh.now) + 72 * Hour
      && env.sign("secret", a) == Some(r.value.access.text)
      && env.sign("secret", f) == Some(r.value.refresh.text)
  {
    match CreateAccessToken(u.name, u.email, id.text, env.access, env.sign)
    case Err(e) => Err(e)
    case Ok(access) =>
      match CreateRefreshToken(u.name, u.email, id.text, env.refresh, env.sign)
      case Err(e) => Err(e)
      case Ok(refresh) => Ok(Tokens(access, refresh))
  }

  /** The full session response: password redacted, both tokens and expiries. */
  function FullSession(u: User, t: Tokens): (r: LoginResponse)
    ensures r.userData.password == "" && r.userData.(password := u.password) == u
    ensures r.accessToken == t.access.text && r.refreshToken == t.refresh.text
    ensures r.accessTokenExpiresAt == Some(t.access.payload.expiresAt)
    ensures r.refreshTokenExpiresAt == Some(t.refresh.payload.expiresAt)
  {
    LoginResponse(u.(password := ""), t.access.text, Some(t.access.payload.expiresAt),
                  t.refresh.text, Some(t.refresh.payload.expiresAt))
  }

  /** A session was issued and cached: the response carries the cleared user,
      both expiries of the two draws, and the cache holds its access token under
      `key` for the session lifetime, written by the last call. */
  predicate SessionWritten(cache0: Cache, clock: int, key: string, env: Env, out: Outcome)
  {
    && out.response.Ok?
    && out.response.value.userData.password == ""
    && out.response.value.accessTokenExpiresAt == Some(NumericDate(env.access.now) + 30 * Minute)
    && out.response.value.refreshTokenExpiresAt == Some(NumericDate(env.refresh.now) + 72 * Hour)
    && out.state.cache == Set(cache0, key, out.response.value.accessToken, SessionTtl, clock)
    && |out.calls| > 0 && out.calls[|out.calls| - 1] == CacheSet(key, out.response.value.accessToken, SessionTtl)
  }

  // ---------------------------------------------------------------------------
  // UserRegister
  // ---------------------------------------------------------------------------

  /** Register-or-login: reuse a live cached session for the email, otherwise
      create the user when the name is free (or fetch the user by the submitted
      email when it is taken), issue both tokens and cache the access token. */
  function UserRegister(st: State, body: RegisterUser, env: Env): (out: Outcome)
    ensures out.state.clock == st.clock
    ensures |out.calls| >= 1 && out.calls[0] == CacheExists(CacheKey(body.email))
    ensures env.cacheExistsFails ==> out.response.Err? && out.response.fault.kind == InternalServer
                                     && out.state == st && |out.calls| == 1
  {
    var key := CacheKey(body.email);
    if env.cacheExistsFails then
      Outcome(Err(Fault(InternalServer, CacheCheckFailedMessage(key))), st, [CacheExists(key)])
    else if Live(st.cache, key, st.clock) then
      CachedSession(st, body, env)
    else
      FreshSession(st, body, env)
  }

  /** The fast path: the cached access token, with the user fetched by email. */
  function CachedSession(st: State, body: RegisterUser, env: Env): (out: Outcome)
    requires Live(st.cache, CacheKey(body.email), st.clock)
    ensures out.state == st
    ensures |out.calls| >= 2 && out.calls[..2] == [CacheExists(CacheKey(body.email)), CacheGet(CacheKey(body.email))]
  {
    var key := CacheKey(body.email);
    var calls := [CacheExists(key), CacheGet(key)];
    if env.cacheGetFails then
      Outcome(Err(Fault(InternalServer, CacheReadFailedMessage(key))), st, calls)
    else
      match st.cache[key].value
      case NonStr =>
        Outcome(Err(Fault(InternalServer, CachedValueNotStringMessage(key))), st, calls)
      case Str(token) =>
        var req := ByEmail(body.email);
        match GetUserDetail(st.users, req, env.lookupFails)
        case Err(e) => Outcome(Err(e), st, calls + [UserLookup(req)])
        case Ok(u) => Outcome(Ok(LoginResponse(u, token, None, "", None)), st, calls + [UserLookup(req)])
  }

  /** The slow path, after a cache miss: the existence check by name decides
      between creating the user and fetching it by the submitted email. */
  function FreshSession(st: State, body: RegisterUser, env: Env): (out: Outcome)
    ensures out.state.clock == st.clock
    ensures |out.calls| >= 2 && out.calls[..2] == [CacheExists(CacheKey(body.email)), NameCount(body.name)]
    ensures out.response.Ok? ==> SessionWritten(st.cache, st.clock, CacheKey(body.email), env, out)
  {
    var calls := [CacheExists(CacheKey(body.email)), NameCount(body.name)];
    match UserExistsByName(st.users, body.name, env.countFails)
    case Err(e) => Outcome(Err(e), st, calls)
    case Ok(taken) =>
      if !taken then NewUserSession(st, body, env, calls)
      else ExistingUserSession(st, body, env, calls)
  }

  /** The registration body with the password replaced by its hash. */
  function Hashed(body: RegisterUser, env: Env): (r: RegisterUser)
    ensures r.name == body.name && r.email == body.email
    ensures r.password == env.hash(body.password)
  {
    body.(password := env.hash(body.password))
  }

  /** The name is free: insert the user with the hashed password, fetch it back
      by the returned id, and issue the session. */
  function NewUserSession(st: State, body: RegisterUser, env: Env, calls: seq<Call>): (out: Outcome)
    requires |calls| == 2
    ensures out.state.clock == st.clock
    ensures out.state.users == InsertUser(st.users, Hashed(body, env), env.insert).table
    ensures |out.calls| >= 3 && out.calls[..2] == calls && out.calls[2] == UserInsert(Hashed(body, env))
    ensures out.response.Ok? ==> SessionWritten(st.cache, st.clock, CacheKey(body.email), env, out)
  {
    var hashed := Hashed(body, env);
    var ins := InsertUser(st.users, hashed, env.insert);
    var st1 := st.(users := ins.table);
    var calls1 := calls + [UserInsert(hashed)];
    match ins.result
    case Err(e) => Outcome(Err(e), st1, calls1)
    case Ok(id) =>
      var req := ById(id);
      match GetUserDetail(st1.users, req, env.lookupFails)
      case Err(e) => Outcome(Err(e), st1, calls1 + [UserLookup(req)])
      case Ok(u) => IssueSession(st1, u, id, CacheKey(body.email), env, calls1 + [UserLookup(req)])
  }

  /** The name is taken: fetch the user by the submitted email (not by the name)
      and issue the session; nothing is inserted. */
  function ExistingUserSession(st: State, body: RegisterUser, env: Env, calls: seq<Call>): (out: Outcome)
    requires |calls| == 2
    ensures out.state.users == st.users && out.state.clock == st.clock
    ensures |out.calls| >= 3 && out.calls[..2] == calls && out.calls[2] == UserLookup(ByEmail(body.email))
    ensures out.response.Ok? ==> SessionWritten(st.cache, st.clock, CacheKey(body.email), env, out)
  {
    var req := ByEmail(body.email);
    match GetUserDetail(st.users, req, env.lookupFails)
    case Err(e) => Outcome(Err(e), st, calls + [UserLookup(req)])
    case Ok(u) => IssueSession(st, u, u.id, CacheKey(body.email), env, calls + [UserLookup(req)])
  }

  /** Issue both tokens, cache the access token, and answer with the full session. */
  function IssueSession(st: State, u: User, id: Uuid, key: string, env: Env, calls: seq<Call>): (out: Outcome)
    ensures out.state.users == st.users && out.state.clock == st.clock
    ensures IssueTokens(u, id, env).Err? ==> out.calls == calls
    ensures IssueTokens(u, id, env).Ok? ==> out.calls == calls + [CacheSet(key, IssueTokens(u, id, env).value.access.text, SessionTtl)]
    ensures out.response.Err? ==> out.state == st
    ensures IssueTokens(u, id, env).Err? ==> out.response == Err(IssueTokens(u, id, env).fault)
    ensures IssueTokens(u, id, env).Ok? && env.cacheSetError.Some? ==> out.response == Err(env.cacheSetError.value)
    ensures out.response.Ok? ==> (IssueTokens(u, id, env).Ok?
                                  && out.response.value == FullSession(u, IssueTokens(u, id, env).value)
                                  && SessionWritten(st.cache, st.clock, key, env, out))
  {
    match IssueTokens(u, id, env)
    case Err(e) => Outcome(Err(e), st, calls)
    case Ok(t) =>
      var calls' := calls + [CacheSet(key, t.access.text, SessionTtl)];
      match env.cacheSetError
      case Some(e) => Outcome(Err(e), st, calls')
      case None =>
        Outcome(Ok(FullSession(u, t)), st.(cache := Set(st.cache, key, t.access.text, SessionTtl, st.clock)), calls')
  }

  // ---------------------------------------------------------------------------
  // UserRegister: properties
  // ---------------------------------------------------------------------------

  /** A failing or non-string cache read is an InternalServer error, not a miss:
      nothing else is called and nothing changes. */
  lemma RegisterCacheReadFailure(st: State, body: RegisterUser, env: Env)
    requires !env.cacheExistsFails && Live(st.cache, CacheKey(body.email), st.clock)
    requires env.cacheGetFails || st.cache[CacheKey(body.email)].value.NonStr?
    ensures var out := UserRegister(st, body, env);
      && out.response.Err? && out.response.fault.kind == InternalServer && out.response.fault.kind.Status() == 500
      && out.state == st
      && out.calls == [CacheExists(CacheKey(body.email)), CacheGet(CacheKey(body.email))]
  {
  }

  /** On a cache hit the cached string is the access token; no tokens are
      issued, no expiry is reported, nothing is inserted or written, and the user
      is returned exactly as fetched by email, password hash included. A failed
      lookup is returned unchanged. */
  lemma RegisterCacheHit(st: State, body: RegisterUser, env: Env)
    requires !env.cacheExistsFails && Live(st.cache, CacheKey(body.email), st.clock)
    requires !env.cacheGetFails && st.cache[CacheKey(body.email)].value.Str?
    ensures var out := UserRegister(st, body, env);
            var lookup := GetUserDetail(st.users, ByEmail(body.email), env.lookupFails);
      && out.state == st
      && out.calls == [CacheExists(CacheKey(body.email)), CacheGet(CacheKey(body.email)), UserLookup(ByEmail(body.email))]
      && (lookup.Err? ==> out.response == Err(lookup.fault))
      && (lookup.Ok? ==> out.response == Ok(LoginResponse(lookup.value, st.cache[CacheKey(body.email)].value.text, None, "", None)))
      && (lookup.Ok? ==> out.response.value.userData.password == lookup.value.password)
  {
  }

  /** After a miss, the user is inserted exactly when no user has the submitted
      name, with the hash of the plaintext as its password; when the name is
      taken the user is fetched by the submitted email and the table is left as
      it was. */
  lemma RegisterMissInsertsIffNameFree(st: State, body: RegisterUser, env: Env)
    requires !env.cacheExistsFails && !Live(st.cache, CacheKey(body.email), st.clock) && !env.countFails
    ensures var out := UserRegister(st, body, env);
      && out.calls[1] == NameCount(body.name)
      && (Inserts(out.calls) <==> !NameTaken(st.users, body.name))
      && (!NameTaken(st.users, body.name) ==>
            out.calls[2] == UserInsert(RegisterUser(body.name, body.email, env.hash(body.password))))
      && (NameTaken(st.users, body.name) ==>
            out.calls[2] == UserLookup(ByEmail(body.email)) && out.state.users == st.users)
  {
    var calls := [CacheExists(CacheKey(body.email)), NameCount(body.name)];
    if NameTaken(st.users, body.name) {
      NoInsertAfterLookup(st, body, env, calls);
    } else {
      var out := UserRegister(st, body, env);
      assert out.calls[2].UserInsert?;
    }
  }

  /** The taken-name branch never inserts. */
  lemma NoInsertAfterLookup(st: State, body: RegisterUser, env: Env, calls: seq<Call>)
    requires calls == [CacheExists(CacheKey(body.email)), NameCount(body.name)]
    ensures !Inserts(ExistingUserSession(st, body, env, calls).calls)
  {
    var out := ExistingUserSession(st, body, env, calls);
    forall i | 0 <= i < |out.calls|
      ensures !out.calls[i].UserInsert?
    {
      if i >= 3 {
        assert out.calls[i].CacheSet?;
      }
    }
  }

  /** A failed registration never changes the session cache. */
  lemma RegisterFailureKeepsCache(st: State, body: RegisterUser, env: Env)
    ensures var out := UserRegister(st, body, env);
      out.response.Err? ==> out.state.cache == st.cache
  {
  }

  /** The store only ever grows by at most the one inserted row, so its
      constraints are kept. */
  lemma RegisterKeepsValid(st: State, body: RegisterUser, env: Env)
    ensures var out := UserRegister(st, body, env);
      && st.users <= out.state.users && |out.state.users| <= |st.users| + 1
      && (Valid(st.users) ==> Valid(out.state.users))
  {
  }

  /** No rollback: once the insert succeeds, the new row stays in the store even
      when the lookup, token issuance or the cache write fails afterwards. */
  lemma RegisterInsertIsKept(st: State, body: RegisterUser, env: Env)
    requires !env.cacheExistsFails && !Live(st.cache, CacheKey(body.email), st.clock)
    requires !env.countFails && !NameTaken(st.users, body.name)
    requires InsertUser(st.users, Hashed(body, env), env.insert).result.Ok?
    ensures var out := UserRegister(st, body, env);
      out.state.users == st.users + [User(env.insert.newId, env.hash(body.password), body.name, body.email,
                                          env.insert.now, env.insert.now)]
  {
  }

  /** After a successful registration that missed the cache, the cache holds
      exactly the returned access token under the email's key for ten minutes,
      the password is cleared, both expiries are reported, and the refresh token
      outlives the access token. */
  lemma RegisterFreshSuccess(st: State, body: RegisterUser, env: Env)
    requires !Live(st.cache, CacheKey(body.email), st.clock)
    requires UserRegister(st, body, env).response.Ok?
    ensures var out := UserRegister(st, body, env);
            var r := out.response.value;
      && out.state.cache[CacheKey(body.email)] == Entry(Str(r.accessToken), st.clock + 10 * Minute)
      && out.state.cache == Set(st.cache, CacheKey(body.email), r.accessToken, SessionTtl, st.clock)
      && (forall k :: k != CacheKey(body.email) ==> (k in out.state.cache <==> k in st.cache))
      && (forall k :: k != CacheKey(body.email) && k in st.cache ==> out.state.cache[k] == st.cache[k])
      && r.userData.password == ""
      && r.accessTokenExpiresAt.Some? && r.refreshTokenExpiresAt.Some?
      && (env.access.now <= env.refresh.now ==> r.accessTokenExpiresAt.value < r.refreshTokenExpiresAt.value)
      && WritesCache(out.calls)
  {
    var out := UserRegister(st, body, env);
    assert SessionWritten(st.cache, st.clock, CacheKey(body.email), env, out);
    assert out.calls[|out.calls| - 1].CacheSet?;
    if env.access.now <= env.refresh.now {
      NumericDateMonotone(env.access.now, env.refresh.now);
    }
  }

  /** A second registration with the same email within the ten minutes takes the
      cached path: it reads the cache instead of checking the name, and when it
      succeeds it returns the first call's access token with no refresh token and
      no expiries. */
  lemma RegisterAgainWithinTtlHitsCache(st: State, body: RegisterUser, env: Env, again: RegisterUser, env': Env, later: int)
    requires !Live(st.cache, CacheKey(body.email), st.clock)
    requires UserRegister(st, body, env).response.Ok?
    requires again.email == body.email && !env'.cacheExistsFails
    requires st.clock <= later < st.clock + SessionTtl
    ensures var first := UserRegister(st, body, env);
            var second := UserRegister(first.state.(clock := later), again, env');
      && second.calls[1] == CacheGet(CacheKey(body.email))
      && (!env'.cacheGetFails && second.response.Ok? ==>
            && second.response.value.accessToken == first.response.value.accessToken
            && second.response.value.accessTokenExpiresAt.None?
            && second.response.value.refreshTokenExpiresAt.None?
            && second.response.value.refreshToken == "")
  {
    var first := UserRegister(st, body, env);
    RegisterFreshSuccess(st, body, env);
    if !env'.cacheGetFails {
      RegisterCacheHit(first.state.(clock := later), again, env');
    }
  }

  /** Once the ten minutes have passed, the same registration takes the slow path
      again and checks the name. */
  lemma RegisterAgainAfterTtlIsFresh(st: State, body: RegisterUser, env: Env, again: RegisterUser, env': Env, later: int)
    requires !Live(st.cache, CacheKey(body.email), st.clock)
    requires UserRegister(st, body, env).response.Ok?
    requires again.email == body.email && !env'.cacheExistsFails
    requires later >= st.clock + SessionTtl
    ensures var st' := UserRegister(st, body, env).state.(clock := later);
      UserRegister(st', again, env').calls[1] == NameCount(again.name)
  {
    RegisterFreshSuccess(st, body, env);
    var st' := UserRegister(st, body, env).state.(clock := later);
    assert !Live(st'.cache, CacheKey(again.email), st'.clock);
    MissChecksName(st', again, env');
  }

  /** A cache miss goes on to the existence check by name. */
  lemma MissChecksName(st: State, body: RegisterUser, env: Env)
    requires !env.cacheExistsFails && !Live(st.cache, CacheKey(body.email), st.clock)
    ensures UserRegister(st, body, env).calls[1] == NameCount(body.name)
  {
  }

  /** When the name is taken by a user whose email differs from the submitted
      one, and no user has the submitted email, registration fails with
      NotFound and inserts nothing: the existing user is looked up by email, not
      by name. */
  lemma RegisterTakenNameUnknownEmail(st: State, body: RegisterUser, env: Env)
    requires !env.cacheExistsFails && !Live(st.cache, CacheKey(body.email), st.clock)
    requires !env.countFails && !env.lookupFails && NameTaken(st.users, body.name) && body.email != ""
    requires forall i :: 0 <= i < |st.users| ==> st.users[i].email != body.email
    ensures var out := UserRegister(st, body, env);
      && out.response == Err(Fault(NotFound, NotFoundMessage))
      && out.response.fault.kind.Status() == 404
      && out.state == st && !Inserts(out.calls)
  {
    var calls := [CacheExists(CacheKey(body.email)), NameCount(body.name)];
    NoInsertAfterLookup(st, body, env, calls);
    assert !SomeMatch(st.users, ByEmail(body.email));
  }

  // ---------------------------------------------------------------------------
  // UserLogin
  // ---------------------------------------------------------------------------

  /** Login: fetch the user by email, verify the password against the stored
      hash, and issue both tokens. The cache and the store are never touched
      beyond the one lookup. */
  function UserLogin(st: State, body: LoginRequest, env: Env): (out: Outcome)
    ensures out.state == st
    ensures out.calls == [UserLookup(ByEmail(body.email))]
    ensures !TouchesCache(out.calls) && !Inserts(out.calls)
  {
    var req := ByEmail(body.email);
    var calls := [UserLookup(req)];
    match GetUserDetail(st.users, req, env.lookupFails)
    case Err(e) => Outcome(Err(e), st, calls)
    case Ok(u) =>
      if !env.verify(u.password, body.password) then
        Outcome(Err(Fault(Unprocessable, LoginFailedMessage)), st, calls)
      else
        match IssueTokens(u, u.id, env)
        case Err(e) => Outcome(Err(e), st, calls)
        case Ok(t) => Outcome(Ok(FullSession(u, t)), st, calls)
  }

  /** The login outcome in terms of its lookup: a lookup error is returned as is,
      a mismatching password is Unprocessable (422), and a success is the full
      session of the fetched user, with the password cleared, both tokens for its
      id and both expiries. */
  lemma LoginOutcome(st: State, body: LoginRequest, env: Env)
    ensures var out := UserLogin(st, body, env);
            var lookup := GetUserDetail(st.users, ByEmail(body.email), env.lookupFails);
      && (lookup.Err? ==> out.response == Err(lookup.fault))
      && (lookup.Ok? && !env.verify(lookup.value.password, body.password) ==>
            out.response == Err(Fault(Unprocessable, LoginFailedMessage)) && out.response.fault.kind.Status() == 422)
      && (out.response.Ok? <==> (lookup.Ok? && env.verify(lookup.value.password, body.password)
                                && IssueTokens(lookup.value, lookup.value.id, env).Ok?))
      && (out.response.Ok? ==>
            var r := out.response.value;
            && r == FullSession(lookup.value, IssueTokens(lookup.value, lookup.value.id, env).value)
            && r.userData.password == "" && r.userData.id == lookup.value.id
            && r.accessTokenExpiresAt.Some? && r.refreshTokenExpiresAt.Some?)
  {
  }

  /** A user registered through the slow path can then log in with the same
      email and password, when the verifier accepts the hash of a password for
      that password, no earlier user has the email, and nothing fails. */
  lemma RegisterThenLogin(st: State, body: RegisterUser, env: Env, env': Env)
    requires !env.cacheExistsFails && !Live(st.cache, CacheKey(body.email), st.clock)
    requires !env.countFails && !NameTaken(st.users, body.name) && body.email != ""
    requires forall i :: 0 <= i < |st.users| ==> st.users[i].email != body.email
    requires InsertUser(st.users, Hashed(body, env), env.insert).result.Ok?
    requires !env'.lookupFails && env'.verify(env.hash(body.password), body.password)
    requires env'.access.tokenId.Some? && env'.refresh.tokenId.Some?
    requires forall k: string, p: Payload :: env'.sign(k, p).Some?
    ensures var st' := UserRegister(st, body, env).state;
            var out := UserLogin(st', LoginRequest(body.email, body.password), env');
      && out.response.Ok?
      && out.response.value.userData.id == env.insert.newId
      && out.response.value.userData.name == body.name
  {
    var st' := UserRegister(st, body, env).state;
    RegisterInsertIsKept(st, body, env);
    var row := User(env.insert.newId, env.hash(body.password), body.name, body.email, env.insert.now, env.insert.now);
    assert st'.users == st.users + [row];
    var n := |st.users|;
    assert st'.users[n] == row;
    assert Matches(row, ByEmail(body.email));
    assert SomeMatch(st'.users, ByEmail(body.email));
    var u := GetUserDetail(st'.users, ByEmail(body.email), false).value;
    assert u == row by {
      assert IsFirstMatch(st'.users, ByEmail(body.email), u);
    }
  }
}
