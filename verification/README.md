# User service core: register-or-login, login, and their helpers

A Dafny model of the core of a small Go user-account service:

- **UserRegister**, the register-or-login flow. It reuses a cached access token for an email while the cache entry lives. Otherwise it checks whether the name exists. It then either hashes the password and inserts the user, or fetches the user by the submitted email. It issues an access and a refresh token and caches the access token for ten minutes.
- **UserLogin**. It fetches the user by email, verifies the password against the stored hash and issues both tokens. It never touches the cache.
- The **user repository** these flows call: `InsertUser` inside a transaction; `GetUserDetail`, which builds a `WHERE` clause from whichever of id, name and email are given, with placeholders `$1..$n`; and `UserExistsByName`, a count by name.
- **Token issuance**. The claims are built from the clock, a fixed duration, a constant issuer and subject, and a random token id, and are then signed. Also modelled is **bearer-token extraction** from an `Authorization` header.
- The **base-path normalisation** used when the API routes are grouped.

Both use cases are pure transitions. They take a `State`: the users table as a sequence of rows in scan order, the session cache as a map from key to value and expiry, and a clock. They return an `Outcome`: the response, the state after the call, and the calls made on the store and the cache, in order.

Everything the environment decides is an input (`Env`):
- the failure of each store or cache call
- the id and timestamp the database assigns
- password hashing and verification
- HS256 signing
- the random token ids
- the clock reading of each token issuance

Times are nanoseconds, as in Go's `time.Duration`. Token claim times are truncated to whole seconds, as the JWT library stores them.

Modules, leaves first:
- `Fault`: error kinds with their HTTP status, `Result`, `Option`
- `Text`: `strings.Split`/`Join`/`TrimPrefix`, decimal formatting
- `Model`: records and time units
- `Routes`
- `Jwt`
- `SessionCache`
- `Repository`
- `Usecase`

## Model

| member | source | states |
|---|---|---|
| Fault.Kind.Status | repository/user/user.go:28-137 | Every error kind renders as a 4xx or 5xx status, and only InternalServer is a 5xx: BadRequest 400, Unauthorized 401, NotFound 404, Conflict 409, Unprocessable 422, InternalServer 500. |
| Fault.StatusIdentifiesKind | repository/user/user.go:28-137 | Two kinds render the same status iff they are the same kind. |
| Routes.NormalizeBasePath | routes/routes.go:30-35 | The group prefix always starts with `/`. It is exactly `/` iff the setting is empty or `/`. A setting that already starts with `/` is kept as is. Any other setting gets `/` prepended. |
| Routes.NormalizeIdempotent | routes/routes.go:30-35 | Normalising a normalised base path changes nothing. |
| Routes.NormalizeExamples | routes/routes.go:31-34 | `""` and `"/"` become `"/"`; `"api"` and `"/api"` become `"/api"`; `"//api"` stays `"//api"`, because only one leading slash is trimmed. |
| Text.Split | helper/jwt/jwt.go:90 | A split always has at least one piece, and no piece contains the separator. |
| Text.JoinSplit | helper/jwt/jwt.go:90 | Joining the pieces of a split with the separator gives back the original string. |
| Text.SplitHasTwoPieces | helper/jwt/jwt.go:90-99 | A split has a second piece iff the separator occurs in the string. |
| Text.SplitHead | helper/jwt/jwt.go:90 | The first piece is the text before the first separator. |
| Text.SplitTail | helper/jwt/jwt.go:90 | The pieces after the first are the split of the text after the first separator. |
| Text.Join | repository/user/user.go:92 | Joining no pieces gives the empty string. Otherwise the result starts with the first piece, followed by the separator when there is more than one piece. |
| Text.TrimPrefix | routes/routes.go:34 | With the prefix present, the prefix followed by the result is the input. Without it, the input is returned unchanged. |
| Text.Decimal | repository/user/user.go:67 | `%d` of a natural number is a non-empty string of digits with no leading zero. |
| Text.DecimalRoundTrip | repository/user/user.go:67 | Reading the digits of `%d` back gives the number, so distinct placeholders render differently. |
| Jwt.NumericDate | helper/jwt/jwt.go:73-75 | A claim time is a whole second, at most one second before the instant it stamps. |
| Jwt.NumericDateShift | helper/jwt/jwt.go:63-75 | Truncating `now + duration` equals truncating `now` and then adding a whole-second duration. |
| Jwt.NewPayload | helper/jwt/jwt.go:52-78 | A payload exists iff the token id was drawn, and a failed draw is Unprocessable. Name, email and user id are copied verbatim. Issuer is `user_login` and subject is `go-escape`. Issued-at equals not-before, which is `now` truncated to the second. Expiry is issued-at plus the duration. |
| Jwt.GenerateToken | helper/jwt/jwt.go:34-50 | A token exists iff both the id draw and the signing succeed; every failure is Unprocessable. The token carries the built payload and the text the signer returns for the key `secret`. |
| Jwt.CreateAccessToken | helper/jwt/jwt.go:26-28 | The access token expires 30 minutes after its truncated issue time. |
| Jwt.CreateRefreshToken | helper/jwt/jwt.go:30-32 | The refresh token expires 72 hours after its truncated issue time. |
| Jwt.RefreshOutlivesAccess | helper/jwt/jwt.go:14-15 | A refresh token issued no earlier than an access token expires strictly later. |
| Jwt.GetTokenFromHeader | helper/jwt/jwt.go:80-100 | The code as written. An empty header is Unauthorized "token not found". A non-empty header without a space indexes past the end of the split. A header with a space yields the text between its first and second spaces. |
| Jwt.EmptySplitGuardIsDead | helper/jwt/jwt.go:90-97 | The split is never empty, and no header is ever rejected as "token invalid": that branch cannot be taken. |
| Jwt.HeaderWithoutSpaceIsOutOfRange | helper/jwt/jwt.go:99 | `Bearer` alone and a bare token both index out of range. |
| Jwt.GetBearerToken | helper/jwt/jwt.go:80-100 | The corrected extraction never indexes out of range. A non-empty header without a space is Unauthorized "token invalid". A token is extracted iff the header has a space, and then it is the same token the code as written extracts. |
| Jwt.BearerRoundTrip | helper/jwt/jwt.go:90-99 | `"Bearer " + t` extracts `t` for every non-empty token without spaces. |
| SessionCache.Set | usecases/user/user.go:120 | After SET, the key holds the string with expiry `clock + ttl` and is live when the TTL is positive. Every other key is untouched. |
| SessionCache.SetExpiresAfterTtl | usecases/user/user.go:120 | A key set with a positive TTL is live exactly until the TTL has elapsed. |
| Repository.InsertUser | repository/user/user.go:28-57 | The insert succeeds iff begin, statement and commit succeed and the row violates no uniqueness constraint. Success returns the new id and appends exactly the new row. A failure leaves the table as it was. A begin failure is Conflict (409); every other failure is Unprocessable (422). The table's constraints are kept. |
| Repository.NewRow | repository/user/user.go:39-44 | The inserted row carries the id the database returns and the given password. Its creation and update times are the same instant. A lookup by that id, the submitted name and the submitted email matches it. |
| Repository.BuildFilter | repository/user/user.go:64-90 | One condition and one argument per given field, at most three. The next placeholder is one past the last. There are no conditions iff no field is given. |
| Repository.BuildFilterBinds | repository/user/user.go:64-82 | Condition i uses placeholder `$(i+1)`, and argument i is the value the request gives for that condition's column. |
| Repository.BuildFilterOrdered | repository/user/user.go:66-82 | Conditions come in the fixed column order id, name, email. |
| Repository.BuildFilterCovers | repository/user/user.go:66-82 | Every field the request gives has a condition on its column. |
| Repository.ConditionText | repository/user/user.go:67-79 | A condition renders as its column name, then ` = $`, then only digits that read back as its placeholder number. |
| Repository.ConditionTexts | repository/user/user.go:67-79 | One rendered condition per condition, in the same order. |
| Repository.DetailQuery | repository/user/user.go:84-92 | The query is BadRequest "at least one filter ..." iff no field is given; otherwise it starts with the `SELECT ... WHERE ` prefix. |
| Repository.DetailQueryById | repository/user/user.go:60-92 | A lookup by id alone is `... WHERE id = $1`. |
| Repository.DetailQueryByEmail | repository/user/user.go:60-92 | A lookup by email alone is `... WHERE email = $1`. |
| Repository.DetailQueryAllFields | repository/user/user.go:60-92 | With all three fields the clause is `id = $1 AND name = $2 AND email = $3`. |
| Repository.FilterSelectsMatches | repository/user/user.go:92-96 | A row satisfies the built conditions with their bound arguments iff every given field equals the row's. |
| Repository.FirstMatch | repository/user/user.go:96-103 | The single-row query returns the first row in scan order that satisfies the filter, or none when no row does. |
| Repository.GetUserDetail | repository/user/user.go:59-122 | No field given gives BadRequest (400) without querying. A failed query gives InternalServer (500). Otherwise it succeeds iff some row matches, and the result is the first matching row; no match is NotFound (404). |
| Repository.LookupById | repository/user/user.go:59-122 | In a valid table a lookup by a row's id returns that row. |
| Repository.InsertThenLookup | repository/user/user.go:28-122 | The row an insert writes is what a lookup of the returned id finds. |
| Repository.CountByName | repository/user/user.go:125-128 | The count of users with a name never exceeds the number of rows. |
| Repository.CountAppend | repository/user/user.go:125-128 | Appending a row raises the count of its own name by one and leaves every other name's count as it was. |
| Repository.CountPositiveIffTaken | repository/user/user.go:124-137 | The count of users with a name is positive iff some user has the name. |
| Repository.UserExistsByName | repository/user/user.go:124-138 | The result is an error iff the count fails, and the error is InternalServer. Otherwise it is true iff a user has the name. |
| Usecase.CacheKeyInjective | usecases/user/user.go:38 | The cache key is `login:` + email; distinct emails never share a key. |
| Usecase.IssueTokens | usecases/user/user.go:110-118 | Both tokens carry the user's name and email and the given id. The access token expires at truncated-now + 30 min and the refresh token at truncated-now + 72 h. Both texts are what the signer returned. Failures are Unprocessable. |
| Usecase.Hashed | usecases/user/user.go:86 | The inserted body keeps the submitted name and email, and its password is the hash of the plaintext. |
| Usecase.FullSession | usecases/user/user.go:124-132 | The session response clears the password and keeps every other field of the user. It reports both token texts and both tokens' expiry times. |
| Usecase.UserRegister | usecases/user/user.go:36-133 | The first call is the existence check on the email's key. A failed check is InternalServer: it is not treated as a miss, nothing else is called and nothing changes. |
| Usecase.CachedSession | usecases/user/user.go:46-74 | The fast path leaves store and cache unchanged and reads the cache after the existence check. |
| Usecase.FreshSession | usecases/user/user.go:76-108 | After a miss the name is checked. A success leaves the cleared user, both expiries, and the access token cached under the key for ten minutes. |
| Usecase.NewUserSession | usecases/user/user.go:85-99 | A free name leads to the insert of the body with its password hashed. The store afterwards is the insert's table, whatever happens next. |
| Usecase.ExistingUserSession | usecases/user/user.go:100-108 | A taken name leads to a lookup by the submitted email and leaves the store as it was. |
| Usecase.IssueSession | usecases/user/user.go:110-132 | A token failure is returned and nothing is written. Otherwise the cache is written, and a write error is returned verbatim with the cache unchanged. A success answers with the full session, its access token cached for ten minutes. |
| Usecase.RegisterCacheReadFailure | usecases/user/user.go:47-63 | A live key whose read fails or holds a non-string is InternalServer (500). Nothing else is called and nothing changes. |
| Usecase.RegisterCacheHit | usecases/user/user.go:46-74 | On a hit the access token is the cached string. There is no refresh token and no expiry. Nothing is inserted or written. The user is exactly as fetched by email, password hash included. A lookup error is returned unchanged. |
| Usecase.RegisterMissInsertsIffNameFree | usecases/user/user.go:76-108 | After a miss, the insert happens iff no user has the name, and it stores the hash of the plaintext. A taken name fetches by the submitted email and leaves the store unchanged. |
| Usecase.NoInsertAfterLookup | usecases/user/user.go:100-108 | The taken-name branch never inserts. |
| Usecase.RegisterFailureKeepsCache | usecases/user/user.go:36-133 | A failed registration never changes the cache. |
| Usecase.RegisterKeepsValid | usecases/user/user.go:76-108 | The store only grows, by at most one row, and its constraints are kept. |
| Usecase.RegisterInsertIsKept | usecases/user/user.go:88-122 | No rollback: after a successful insert the new row stays even when the lookup, token issuance or cache write fails later. |
| Usecase.RegisterFreshSuccess | usecases/user/user.go:110-132 | After a successful miss the cache is the old cache with exactly the returned access token set under the email's key for ten minutes. Every other key keeps its presence and its value. The password is cleared, both expiries are set, and the refresh expiry is later when it was drawn no earlier. |
| Usecase.RegisterAgainWithinTtlHitsCache | usecases/user/user.go:40-120 | A second registration with the same email within ten minutes takes the cached path. When its read and lookup succeed, it returns the first call's access token, with no refresh token and no expiries. |
| Usecase.RegisterAgainAfterTtlIsFresh | usecases/user/user.go:40-120 | After ten minutes the same registration checks the name again. |
| Usecase.MissChecksName | usecases/user/user.go:76 | A miss proceeds to the existence check by name. |
| Usecase.RegisterTakenNameUnknownEmail | usecases/user/user.go:100-106 | A taken name with an email no user has gives NotFound (404). Nothing is inserted and nothing changes. |
| Usecase.UserLogin | usecases/user/user.go:135-166 | Login makes exactly one call, the lookup by email. It never touches the cache or inserts, and it leaves the state unchanged. |
| Usecase.LoginOutcome | usecases/user/user.go:135-166 | A lookup error is returned unchanged, and a password mismatch is Unprocessable (422). Success happens iff the lookup, the verification and the token issuance all succeed. The response then has the password cleared, both tokens for the user's id and both expiries. |
| Usecase.RegisterThenLogin | usecases/user/user.go:36-166 | A user created by registration can log in with the same email and password when nothing fails and the verifier accepts the hash of a password for it. |

## Left out

- Error messages: where the code appends the text of a driver, Redis or library error to a message (`: %v`), only the fixed text before it is modelled.
- Password hashing and verification: both live in `middlewares`, which is not part of this model. They are the `Env.hash` and `Env.verify` oracles. In the code hashing has no error result, so no hashing failure is modelled.
- HS256 signing is the `Env.sign` oracle, and `uuid.NewRandom` and `time.Now` are the `Draw` of each token. Token parsing and validation (`GetClaims`) are not modelled.
- PostgreSQL and Redis are not modelled: no connection pools, no transactions beyond their three outcomes, no Redis value encoding beyond string / non-string. A failed cache SET is taken to store nothing.
- Concurrency: the check-then-insert race between two registrations is not modelled. Each transition runs alone, and the table's uniqueness constraint rejects a duplicate name in `InsertUser`.
- Not modelled: the HTTP handlers, request binding and response rendering; the product use case; process start-up; the route tables; and the `fault` package. Error kinds are a datatype with their HTTP status codes.
- Strings are sequences of characters, while Go's strings are sequences of bytes. Splitting on `' '` and trimming `"/"` give the same pieces either way, since both separators are single ASCII bytes.
- Repository.DetailQuery: the contract states only the error case and the `SELECT` prefix. The full query text is stated by DetailQueryById, DetailQueryByEmail and DetailQueryAllFields for the shapes the core builds. What the conditions mean is stated by FilterSelectsMatches.
- Usecase.UserRegister: its own contract covers only the existence-check step. Each branch is stated by the Register* lemmas and the branch functions.
- The code and the design disagree in three places, and the model follows the code:
  - A uniqueness violation on insert is Unprocessable (422), not Conflict.
  - On a cache hit the user is returned with the password hash, not blanked.
  - With an empty email, every lookup by email has no filter at all and is BadRequest (400) rather than NotFound. This covers the cached path and the taken-name branch of registration, and the lookup of `UserLogin` (usecases/user/user.go:136).

## Findings

| source | as written | input that shows it | evidently intended | confidence | as-written member | corrected member |
|---|---|---|---|---|---|---|
| helper/jwt/jwt.go:90-99 | guards only against an empty split, which `strings.Split` never returns, then reads the second piece | an `Authorization` header of `Bearer` or a bare token, with no space | reject a header with fewer than two pieces as Unauthorized "token invalid" | high; not executed | Jwt.GetTokenFromHeader, Jwt.HeaderWithoutSpaceIsOutOfRange | Jwt.GetBearerToken |
