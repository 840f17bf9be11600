/**
 The records the core passes around: users, the request bodies of registration and
 login, the lookup filter and the session response, plus the time units the core
 computes with. Times are integers counting nanoseconds since the Unix epoch, and
 durations count nanoseconds, as Go's time.Duration does.
 */
module Model {
  import opened Fault

  const Second: int := 1_000_000_000
  const Minute: int := 60 * Second
  const Hour: int := 60 * Minute

  /** A UUID, identified by its canonical 36-character text form. */
  datatype Uuid = Uuid(text: string)

  /** uuid.Nil, the all-zero UUID that stands for "no id given". */
  const NilUuid := Uuid("00000000-0000-0000-0000-000000000000")

  /** A row of the users table. `password` holds the password hash. */
  datatype User = User(id: Uuid, password: string, name: string, email: string, createdAt: int, updatedAt: int)

  /** The registration body; `password` is plaintext until the core hashes it. */
  datatype RegisterUser = RegisterUser(name: string, email: string, password: string)

  /** The login body. */
  datatype LoginRequest = LoginRequest(email: string, password: string)

  /** A lookup filter: the nil id and the empty strings mean "not given". */
  datatype UserDetailRequest = UserDetailRequest(userId: Uuid, name: string, email: string)

  /** Lookup by id alone. */
  function ById(id: Uuid): UserDetailRequest
  {
    UserDetailRequest(id, "", "")
  }

  /** Lookup by email alone. */
  function ByEmail(email: string): UserDetailRequest
  {
    UserDetailRequest(NilUuid, "", email)
  }

  /** The session response. The refresh token is the empty string and the two
      expiry times are absent when no tokens were issued. */
  datatype LoginResponse = LoginResponse(
    userData: User,
    accessToken: string,
    accessTokenExpiresAt: Option<int>,
    refreshToken: string,
    refreshTokenExpiresAt: Option<int>)
}
