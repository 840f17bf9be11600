/**
 Token issuance and bearer-token extraction. Signing is an oracle: a function from
 key and claims to the signed token text, or None when signing fails. The random
 token id and the clock reading of each issuance are inputs (a Draw).
 */
module Jwt {
  import opened Fault
  import opened Model
  import opened Text

  /** Lifetime of an access token. */
  const TokenExpiry: int := 30 * Minute
  /** Lifetime of a refresh token. */
  const RefreshTokenExpiry: int := 72 * Hour
  /** The process-wide HMAC key. */
  const SignedKey: string := "secret"
  const TokenIssuer: string := "user_login"
  const TokenSubject: string := "go-escape"

  const TokenIdFailedMessage: string := "failed to generate token ID"
  const SigningFailedMessage: string := "failed signing JWT token"
  const TokenNotFoundMessage: string := "token not found"
  const TokenInvalidMessage: string := "token invalid"

  /** The claims of a token, flattened: the three identity claims followed by
      the registered claims. Times are whole seconds, in nanoseconds. */
  datatype Payload = Payload(
    name: string,
    email: string,
    userId: string,
    issuer: string,
    subject: string,
    id: string,
    issuedAt: int,
    notBefore: int,
    expiresAt: int)

  /** What the environment supplies to one issuance: the outcome of drawing a
      random token id (None when the generator fails) and the clock reading. */
  datatype Draw = Draw(tokenId: Option<string>, now: int)

  /** HS256 signing of a payload with a key; None when signing fails. */
  type Signer = (string, Payload) -> Option<string>

  /** A signed token and the payload it carries. */
  datatype Token = Token(text: string, payload: Payload)

  /** A claim time: the instant truncated down to a whole second, as the JWT
      library stores every numeric date. */
  function NumericDate(t: int): (d: int)
    ensures d % Second == 0
    ensures d <= t < d + Second
  {
    (t / Second) * Second
  }

  /** Truncating commutes with adding a whole number of seconds. */
  lemma NumericDateShift(t: int, duration: int)
    requires duration % Second == 0
    ensures NumericDate(t + duration) == NumericDate(t) + duration
  {
    var k := duration / Second;
    assert duration == k * Second;
    var q := t / Second;
    var r := t % Second;
    assert t + duration == (q + k) * Second + r;
    assert (t + duration) / Second == q + k;
  }

  /** Truncation is monotone. */
  lemma NumericDateMonotone(s: int, t: int)
    requires s <= t
    ensures NumericDate(s) <= NumericDate(t)
  {
  }

  /** The payload of a new token for the given identity and lifetime. */
  function NewPayload(name: string, email: string, userId: string, duration: int, draw: Draw): (r: Result<Payload>)
    requires duration % Second == 0
    ensures r.Ok? <==> draw.tokenId.Some?
    ensures r.Err? ==> r.fault.kind == Unprocessable
    ensures r.Ok? ==> var p := r.value;
      && p.name == name && p.email == email && p.userId == userId
      && p.issuer == "user_login" && p.subject == "go-escape"
      && p.id == draw.tokenId.value
      && p.issuedAt == p.notBefore == NumericDate(draw.now)
      && p.issuedAt % Second == 0 && p.issuedAt <= draw.now < p.issuedAt + Second
      && p.expiresAt == p.issuedAt + duration
  {
    match draw.tokenId
    case None => Err(Fault(Unprocessable, TokenIdFailedMessage))
    case Some(id) =>
      var now := draw.now;
      var exp := now + duration;
      NumericDateShift(now, duration);
      Ok(Payload(name, email, userId, TokenIssuer, TokenSubject, id, NumericDate(now), NumericDate(now), NumericDate(exp)))
  }

  /** Builds the payload and signs it with the process key. */
  function GenerateToken(name: string, email: string, userId: string, duration: int, draw: Draw, sign: Signer): (r: Result<Token>)
    requires duration % Second == 0
    ensures r.Ok? <==> (draw.tokenId.Some?
                        && sign("secret", NewPayload(name, email, userId, duration, draw).value).Some?)
    ensures r.Err? ==> r.fault.kind == Unprocessable
    ensures r.Ok? ==> (r.value.payload == NewPayload(name, email, userId, duration, draw).value
                       && r.value.text == sign("secret", r.value.payload).value)
  {
    match NewPayload(name, email, userId, duration, draw)
    case Err(e) => Err(e)
    case Ok(payload) =>
      match sign(SignedKey, payload)
      case None => Err(Fault(Unprocessable, SigningFailedMessage))
      case Some(token) => Ok(Token(token, payload))
  }

  /** A 30-minute access token. */
  function CreateAccessToken(name: string, email: string, userId: string, draw: Draw, sign: Signer): (r: Result<Token>)
    ensures r.Ok? ==> r.value.payload.expiresAt == NumericDate(draw.now) + 30 * 60 * Second
  {
    GenerateToken(name, email, userId, TokenExpiry, draw, sign)
  }

  /** A 72-hour refresh token. */
  function CreateRefreshToken(name: string, email: string, userId: string, draw: Draw, sign: Signer): (r: Result<Token>)
    ensures r.Ok? ==> r.value.payload.expiresAt == NumericDate(draw.now) + 72 * 60 * 60 * Second
  {
    GenerateToken(name, email, userId, RefreshTokenExpiry, draw, sign)
  }

  /** A refresh token issued no earlier than an access token outlives it. */
  lemma RefreshOutlivesAccess(name: string, email: string, userId: string, access: Draw, refresh: Draw, sign: Signer)
    requires access.now <= refresh.now
    requires CreateAccessToken(name, email, userId, access, sign).Ok?
    requires CreateRefreshToken(name, email, userId, refresh, sign).Ok?
    ensures CreateAccessToken(name, email, userId, access, sign).value.payload.expiresAt
          < CreateRefreshToken(name, email, userId, refresh, sign).value.payload.expiresAt
  {
    NumericDateMonotone(access.now, refresh.now);
  }

  /** What reading the bearer token from a request can end in. `IndexOutOfRange`
      is the run-time panic of indexing past the end of the split header. */
  datatype Extraction = Extracted(token: string) | Rejected(fault: Fault) | IndexOutOfRange

  /** The token in an Authorization header, as the source computes it: the second
      space-separated field, whatever the first one is. */
  function GetTokenFromHeader(header: string): (r: Extraction)
    ensures header == "" <==> r == Rejected(Fault(Unauthorized, TokenNotFoundMessage))
    ensures header != "" && ' ' !in header <==> r.IndexOutOfRange?
    ensures ' ' in header <==> r.Extracted?
    ensures r.Extracted? ==> r.token == Field(header[FirstIndex(header, ' ') + 1..], ' ')
  {
    if header == "" then Rejected(Fault(Unauthorized, TokenNotFoundMessage))
    else
      var parts := Split(header, ' ');
      if |parts| == 0 then Rejected(Fault(Unauthorized, TokenInvalidMessage))
      else
        SplitHasTwoPieces(header, ' ');
        if |parts| < 2 then IndexOutOfRange
        else
          SplitTail(header, ' ');
          SplitHead(header[FirstIndex(header, ' ') + 1..], ' ');
          assert parts[1] == parts[1..][0];
          Extracted(parts[1])
  }

  /** The guard on an empty split can never fire: a split has at least one piece. */
  lemma EmptySplitGuardIsDead(header: string)
    ensures |Split(header, ' ')| != 0
    ensures GetTokenFromHeader(header) != Rejected(Fault(Unauthorized, TokenInvalidMessage))
  {
  }

  /** A header without a space (a bare token, or "Bearer" alone) is indexed out of range. */
  lemma HeaderWithoutSpaceIsOutOfRange()
    ensures GetTokenFromHeader("Bearer") == IndexOutOfRange
    ensures GetTokenFromHeader("abc.def.ghi") == IndexOutOfRange
  {
    assert ' ' !in "Bearer";
    assert ' ' !in "abc.def.ghi";
  }

  /** The extraction with the length check the source evidently intends: a header
      with fewer than two fields is rejected as an invalid token. */
  function GetBearerToken(header: string): (r: Extraction)
    ensures !r.IndexOutOfRange?
    ensures header == "" ==> r == Rejected(Fault(Unauthorized, TokenNotFoundMessage))
    ensures header != "" && ' ' !in header ==> r == Rejected(Fault(Unauthorized, TokenInvalidMessage))
    ensures r.Extracted? <==> ' ' in header
    ensures r.Extracted? ==> GetTokenFromHeader(header) == r
  {
    if header == "" then Rejected(Fault(Unauthorized, TokenNotFoundMessage))
    else
      var parts := Split(header, ' ');
      SplitHasTwoPieces(header, ' ');
      if |parts| < 2 then Rejected(Fault(Unauthorized, TokenInvalidMessage))
      else Extracted(parts[1])
  }

  /** A non-empty token without spaces, sent after "Bearer ", is extracted
      unchanged. */
  lemma BearerRoundTrip(token: string)
    requires token != "" && ' ' !in token
    ensures GetBearerToken("Bearer " + token) == Extracted(token)
  {
    var h := "Bearer " + token;
    assert h[6] == ' ';
    assert ' ' !in h[..6];
    assert FirstIndex(h, ' ') == 6;
    assert h[7..] == token;
  }
}
