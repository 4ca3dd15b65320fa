/** The authentication middleware: bearer tokens, the admin check, optional
    authentication, session validation and the per-user rate limiter.
    Token signing and its cryptographic check are parameters (`encode`,
    `decode`); the clock is a parameter too. */
module Auth {
  import opened Wrappers
  import opened Strings

  datatype Role = UserRole | AdminRole

  /** The JWT payload, which is also what `req.user` holds. */
  datatype Claims = Claims(id: string, email: string, role: Role)

  /** A signed token's content: the payload and the registered claims the
      server sets and checks. `expiresAt` is in seconds, like `exp`. */
  datatype SignedClaims = SignedClaims(payload: Claims, issuer: string, audience: string, expiresAt: int)

  const Issuer := "tag-carrot"
  const Audience := "tag-carrot-users"

  /** `generateToken`: the claims signed at time `now`, valid for `expiresIn` seconds. */
  function GenerateToken(payload: Claims, now: int, expiresIn: int): (r: SignedClaims)
    ensures r.payload == payload && r.issuer == Issuer && r.audience == Audience
    ensures r.expiresAt - now == expiresIn
  {
    SignedClaims(payload, Issuer, Audience, now + expiresIn)
  }

  /** `verifyToken`: `decode` stands for the signature check; the token is
      accepted when its issuer and audience are the server's own and it has
      not expired (a token is expired from the second `exp` on). */
  function VerifyToken(token: string, decode: string -> Option<SignedClaims>, now: int): (r: Option<Claims>)
    ensures r.Some? <==>
      decode(token).Some? && decode(token).value.issuer == Issuer &&
      decode(token).value.audience == Audience && now < decode(token).value.expiresAt
    ensures r.Some? ==> r.value == decode(token).value.payload
  {
    match decode(token)
    case None => None
    case Some(sc) =>
      if sc.issuer == Issuer && sc.audience == Audience && now < sc.expiresAt then Some(sc.payload) else None
  }

  /** A token the server issued verifies, with its own payload, exactly until
      it expires; `encode` and `decode` are assumed only to be inverse on it. */
  lemma GeneratedTokenVerifies(payload: Claims, issuedAt: int, expiresIn: int, now: int,
                               encode: SignedClaims -> string, decode: string -> Option<SignedClaims>)
    requires decode(encode(GenerateToken(payload, issuedAt, expiresIn))) == Some(GenerateToken(payload, issuedAt, expiresIn))
    ensures VerifyToken(encode(GenerateToken(payload, issuedAt, expiresIn)), decode, now).Some? <==> now < issuedAt + expiresIn
    ensures now < issuedAt + expiresIn ==>
      VerifyToken(encode(GenerateToken(payload, issuedAt, expiresIn)), decode, now) == Some(payload)
  {
  }

  // ---------------------------------------------------------------- responses

  datatype Response = Response(status: int, error: string, code: string, retryAfter: Option<int>)

  /** What a middleware does: call `next()` with `req.user` set to `user`, or answer. */
  datatype Outcome = Next(user: Option<Claims>) | Reply(response: Response)

  const BearerPrefix := "Bearer "

  /** The token of an `Authorization: Bearer <token>` header. */
  function BearerToken(header: Option<string>): (r: Option<string>)
    ensures r.Some? <==> header.Some? && StartsWith(header.value, BearerPrefix)
    ensures r.Some? ==> header.value == BearerPrefix + r.value
  {
    if header.Some? && StartsWith(header.value, BearerPrefix) then Some(header.value[7..]) else None
  }

  lemma BearerRoundTrip(token: string)
    ensures BearerToken(Some(BearerPrefix + token)) == Some(token)
  {
    assert (BearerPrefix + token)[..7] == BearerPrefix;
    assert (BearerPrefix + token)[7..] == token;
  }

  /** `authenticate`. */
  function Authenticate(header: Option<string>, verify: string -> Option<Claims>): (r: Outcome)
    ensures r.Next? <==> BearerToken(header).Some? && verify(BearerToken(header).value).Some?
    ensures r.Next? ==> r.user == verify(BearerToken(header).value)
    ensures r.Reply? ==> r.response.status == 401
    ensures r.Reply? ==> (r.response.code == "AUTH_TOKEN_MISSING" <==> BearerToken(header).None?)
    ensures BearerToken(header).None? ==> r.Reply? && r.response.error == "Authorization token required"
    ensures r.Reply? && BearerToken(header).Some? ==>
      r.response.code == "AUTH_TOKEN_INVALID" && r.response.error == "Invalid or expired token"
  {
    match BearerToken(header)
    case None => Reply(Response(401, "Authorization token required", "AUTH_TOKEN_MISSING", None))
    case Some(token) =>
      match verify(token)
      case None => Reply(Response(401, "Invalid or expired token", "AUTH_TOKEN_INVALID", None))
      case Some(claims) => Next(Some(claims))
  }

  /** `requireAdmin`: it leaves `req.user` as it is. */
  function RequireAdmin(user: Option<Claims>): (r: Outcome)
    ensures r.Next? <==> user.Some? && user.value.role == AdminRole
    ensures r.Next? ==> r.user == user
    ensures r.Reply? ==> (r.response.status == 401 <==> user.None?)
    ensures r.Reply? ==> (r.response.status == 403 <==> user.Some?)
    ensures user.None? ==> r.Reply? && r.response.code == "AUTH_REQUIRED" && r.response.error == "Authentication required"
    ensures user.Some? && user.value.role != AdminRole ==>
      r.Reply? && r.response.code == "AUTH_INSUFFICIENT_PERMISSIONS" && r.response.error == "Admin access required"
  {
    if user.None? then Reply(Response(401, "Authentication required", "AUTH_REQUIRED", None))
    else if user.value.role != AdminRole then Reply(Response(403, "Admin access required", "AUTH_INSUFFICIENT_PERMISSIONS", None))
    else Next(user)
  }

  /** The admin routes run `authenticate` and then `requireAdmin`. */
  function AdminChain(header: Option<string>, verify: string -> Option<Claims>): Outcome {
    match Authenticate(header, verify)
    case Reply(res) => Reply(res)
    case Next(user) => RequireAdmin(user)
  }

  /** An admin route is reached exactly with a bearer token that verifies to
      an admin's claims; a verified non-admin gets 403, anyone else 401. */
  lemma AdminChainIff(header: Option<string>, verify: string -> Option<Claims>)
    ensures AdminChain(header, verify).Next? <==>
      BearerToken(header).Some? && verify(BearerToken(header).value).Some? &&
      verify(BearerToken(header).value).value.role == AdminRole
    ensures AdminChain(header, verify).Reply? ==>
      (AdminChain(header, verify).response.status == 403 <==>
        BearerToken(header).Some? && verify(BearerToken(header).value).Some?)
  {
  }

  /** `optionalAuthenticate`: always calls `next()`; gives the new `req.user`,
      which keeps its earlier value when there is no valid bearer token. */
  function OptionalAuthenticate(header: Option<string>, user: Option<Claims>, verify: string -> Option<Claims>): (r: Option<Claims>)
    ensures BearerToken(header).Some? && verify(BearerToken(header).value).Some? ==> r == verify(BearerToken(header).value)
    ensures !(BearerToken(header).Some? && verify(BearerToken(header).value).Some?) ==> r == user
  {
    match BearerToken(header)
    case None => user
    case Some(token) =>
      match verify(token)
      case None => user
      case Some(claims) => Some(claims)
  }

  /** `validateSession` */
  function ValidateSession(header: Option<string>, user: Option<Claims>, verify: string -> Option<Claims>): (r: Outcome)
    ensures r.Reply? <==>
      user.Some? && BearerToken(header).Some? &&
      (verify(BearerToken(header).value).None? || verify(BearerToken(header).value).value.id != user.value.id)
    ensures r.Next? ==> r.user == user
    ensures r.Reply? ==> r.response.status == 401 && r.response.code == "SESSION_INVALID"
  {
    if user.None? then Next(user)
    else
      match BearerToken(header)
      case None => Next(user)
      case Some(token) =>
        var decoded := verify(token);
        if decoded.None? || decoded.value.id != user.value.id then
          Reply(Response(401, "Session invalid", "SESSION_INVALID", None))
        else Next(user)
  }

  /** A request that `authenticate` let through, with the user it set, is
      never turned away by `validateSession` checking the same header. */
  lemma AuthenticatedSessionIsValid(header: Option<string>, verify: string -> Option<Claims>)
    requires Authenticate(header, verify).Next?
    ensures ValidateSession(header, Authenticate(header, verify).user, verify) == Next(Authenticate(header, verify).user)
  {
  }

  /** A freshly issued token, sent as a bearer header before it expires,
      authenticates as its own payload. */
  lemma IssuedTokenAuthenticates(payload: Claims, issuedAt: int, expiresIn: int, now: int,
                                 encode: SignedClaims -> string, decode: string -> Option<SignedClaims>)
    requires decode(encode(GenerateToken(payload, issuedAt, expiresIn))) == Some(GenerateToken(payload, issuedAt, expiresIn))
    requires now < issuedAt + expiresIn
    ensures Authenticate(Some(BearerPrefix + encode(GenerateToken(payload, issuedAt, expiresIn))),
                         t => VerifyToken(t, decode, now)) == Next(Some(payload))
  {
    BearerRoundTrip(encode(GenerateToken(payload, issuedAt, expiresIn)));
    GeneratedTokenVerifies(payload, issuedAt, expiresIn, now, encode, decode);
  }

  // ---------------------------------------------------------------- rate limiting

  /** `Math.ceil(d / q)` for a positive divisor. */
  function CeilDiv(d: int, q: int): (r: int)
    requires q > 0
    ensures q * (r - 1) < d <= q * r
  {
    -((-d) / q)
  }

  /** One user's window: the requests counted so far and when the window ends (ms). */
  datatype Entry = Entry(count: int, resetTime: int)

  datatype Decision = Allowed | Limited(retryAfter: int)

  /** The limiter's decision for a request by `id` at `now`, and its new table. */
  function RateLimitStep(m: map<string, Entry>, maxRequests: int, windowMs: int, id: string, now: int): (r: (Decision, map<string, Entry>))
    ensures r.1.Keys == m.Keys + {id}
    ensures forall u :: u in m && u != id ==> r.1[u] == m[u]
    ensures r.0.Limited? <==> id in m && now <= m[id].resetTime && m[id].count >= maxRequests
  {
    if id !in m || now > m[id].resetTime then (Allowed, m[id := Entry(1, now + windowMs)])
    else if m[id].count >= maxRequests then (Limited(CeilDiv(m[id].resetTime - now, 1000)), m)
    else (Allowed, m[id := Entry(m[id].count + 1, m[id].resetTime)])
  }

  /** Every counted window holds between 1 and max(1, maxRequests) requests. */
  predicate CountsBounded(m: map<string, Entry>, maxRequests: int) {
    forall u :: u in m ==> 1 <= m[u].count <= (if maxRequests < 1 then 1 else maxRequests)
  }

  lemma StepKeepsCountsBounded(m: map<string, Entry>, maxRequests: int, windowMs: int, id: string, now: int)
    requires CountsBounded(m, maxRequests)
    ensures CountsBounded(RateLimitStep(m, maxRequests, windowMs, id, now).1, maxRequests)
  {
  }

  /** A refused request changes nothing and is told to wait, in whole seconds
      rounded up, until its window ends; an accepted request inside the
      window counts one more and keeps the window's end. */
  lemma StepEffect(m: map<string, Entry>, maxRequests: int, windowMs: int, id: string, now: int)
    ensures var (d, m') := RateLimitStep(m, maxRequests, windowMs, id, now);
      (d.Limited? ==>
         m' == m && d.retryAfter >= 0 &&
         1000 * (d.retryAfter - 1) < m[id].resetTime - now <= 1000 * d.retryAfter) &&
      (d.Allowed? && id in m && now <= m[id].resetTime ==>
         m'[id] == Entry(m[id].count + 1, m[id].resetTime)) &&
      (d.Allowed? && (id !in m || now > m[id].resetTime) ==> m'[id] == Entry(1, now + windowMs))
  {
  }

  /** Replays requests by one user at the given times; gives the table after
      them and how many were let through. */
  function Replay(m: map<string, Entry>, maxRequests: int, windowMs: int, id: string, times: seq<int>): (r: (map<string, Entry>, nat))
    ensures r.1 <= |times|
    decreases |times|
  {
    if |times| == 0 then (m, 0)
    else
      var (d, m1) := RateLimitStep(m, maxRequests, windowMs, id, times[0]);
      var (m2, n) := Replay(m1, maxRequests, windowMs, id, times[1..]);
      (m2, n + (if d.Allowed? then 1 else 0))
  }

  /** Within one window a user gets at most `maxRequests` requests through in
      all: the ones already counted plus those let through now. */
  lemma {:induction false} ReplayWithinWindow(m: map<string, Entry>, maxRequests: int, windowMs: int, id: string, times: seq<int>)
    requires id in m
    requires forall i :: 0 <= i < |times| ==> times[i] <= m[id].resetTime
    ensures var (m', n) := Replay(m, maxRequests, windowMs, id, times);
      id in m' && m'[id].resetTime == m[id].resetTime &&
      n <= (if maxRequests - m[id].count < 0 then 0 else maxRequests - m[id].count)
  {
    if |times| > 0 {
      var (d, m1) := RateLimitStep(m, maxRequests, windowMs, id, times[0]);
      assert m1[id].resetTime == m[id].resetTime;
      assert forall i :: 0 <= i < |times[1..]| ==> times[1..][i] == times[i + 1];
      ReplayWithinWindow(m1, maxRequests, windowMs, id, times[1..]);
      if d.Allowed? {
        assert m1[id].count == m[id].count + 1;
      } else {
        assert m1 == m;
      }
    }
  }

  /** The closure `rateLimitByUser(maxRequests, windowMs)` returns, with the
      table it captures. */
  class UserRateLimiter {
    const maxRequests: int
    const windowMs: int
    var userRequests: map<string, Entry>

    constructor (maxRequests: int, windowMs: int)
      ensures this.maxRequests == maxRequests && this.windowMs == windowMs
      ensures userRequests == map[]
    {
      this.maxRequests := maxRequests;
      this.windowMs := windowMs;
      userRequests := map[];
    }

    /** Handles one request by `user` at `now` (ms). Anonymous requests pass untouched. */
    method Handle(user: Option<Claims>, now: int) returns (r: Outcome)
      modifies this
      ensures user.None? ==> r == Next(None) && userRequests == old(userRequests)
      ensures user.Some? ==>
        var (d, m) := RateLimitStep(old(userRequests), maxRequests, windowMs, user.value.id, now);
        userRequests == m &&
        r == (if d.Allowed? then Next(user)
              else Reply(Response(429, "Too many requests", "RATE_LIMIT_EXCEEDED", Some(d.retryAfter))))
    {
      if user.None? {
        return Next(None);
      }
      var userId := user.value.id;
      var userLimit := if userId in userRequests then Some(userRequests[userId]) else None;
      if userLimit.None? || now > userLimit.value.resetTime {
        userRequests := userRequests[userId := Entry(1, now + windowMs)];
        return Next(user);
      }
      if userLimit.value.count >= maxRequests {
        var retryAfter := CeilDiv(userLimit.value.resetTime - now, 1000);
        return Reply(Response(429, "Too many requests", "RATE_LIMIT_EXCEEDED", Some(retryAfter)));
      }
      userRequests := userRequests[userId := Entry(userLimit.value.count + 1, userLimit.value.resetTime)];
      r := Next(user);
    }
  }
}
