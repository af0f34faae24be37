/**
 * Access tokens and the request-user dependencies: the claims of a new
 * access token, the error mapping of token decoding, the current user looked
 * up from the token's `id` claim, and the role guards. Signing, verifying and
 * the expiry clock of the JWT library are outside the model: the decoder's
 * verdict is an input.
 */
module Security {
  import opened Wrappers
  import opened PyJson
  import opened Http
  import opened Db

  const ExpClaim := "exp"
  const TokenExpired := "Token has expired"
  const InvalidToken := "Invalid token"

  /**
   * The claims create_access_token encodes: a copy of the caller's data with
   * the expiry claim (section 4.1.4 of RFC 7519) set to now plus the lifetime.
   * The caller's dict is a value here, so it is never changed.
   */
  function AccessTokenClaims(data: seq<(string, Json)>, now: int, expireMinutes: int): (r: seq<(string, Json)>)
    ensures Get(r, ExpClaim) == Some(JInt(now + expireMinutes * 60))
    ensures forall k :: k != ExpClaim ==> Get(r, k) == Get(data, k)
  {
    var r := Set(data, ExpClaim, JInt(now + expireMinutes * 60));
    GetSetSame(data, ExpClaim, JInt(now + expireMinutes * 60));
    forall k | k != ExpClaim ensures Get(r, k) == Get(data, k) {
      GetSetOther(data, ExpClaim, k, JInt(now + expireMinutes * 60));
    }
    r
  }

  /** What the JWT library reports for a token. */
  datatype Decoded = Valid(payload: seq<(string, Json)>) | ExpiredSignature | OtherJwtError

  /** decode_access_token: the payload, or ValueError with the message for an expired or bad token. */
  function DecodeAccessToken(d: Decoded): (r: Result<seq<(string, Json)>, string>)
    ensures r.Ok? <==> d.Valid?
    ensures r.Ok? ==> r.value == d.payload
    ensures d.ExpiredSignature? ==> r == Err(TokenExpired)
    ensures d.OtherJwtError? ==> r == Err(InvalidToken)
  {
    match d
    case Valid(p) => Ok(p)
    case ExpiredSignature => Err(TokenExpired)
    case OtherJwtError => Err(InvalidToken)
  }

  /**
   * get_current_user: every failure is a 401 — a bad token (with the decoder's
   * message), a payload without an `id` (or a null one), or an id no user has.
   */
  function GetCurrentUser(d: Decoded, users: seq<UserRow>): (r: Result<UserRow, HttpError>)
    ensures r.Err? ==> r.error.status == Unauthorized
    ensures r.Ok? ==> r.value in users && d.Valid? && Get(d.payload, "id") == Some(JInt(r.value.id))
  {
    match DecodeAccessToken(d)
    case Err(msg) => Err(HttpError(Unauthorized, msg))
    case Ok(payload) =>
      var id := Get(payload, "id");
      if id.None? || id.value == JNull then Err(HttpError(Unauthorized, "Invalid authentication credentials"))
      else if !id.value.JInt? then Err(HttpError(Unauthorized, "User not found"))
      else match FirstUserWithId(users, id.value.i)
        case None => Err(HttpError(Unauthorized, "User not found"))
        case Some(u) => Ok(u)
  }

  /** A valid token whose id names an existing user always authenticates. */
  lemma KnownIdAuthenticates(payload: seq<(string, Json)>, users: seq<UserRow>, i: nat)
    requires i < |users| && Get(payload, "id") == Some(JInt(users[i].id))
    ensures GetCurrentUser(Valid(payload), users).Ok?
    ensures GetCurrentUser(Valid(payload), users).value.id == users[i].id
  {
  }

  /** get_current_hr_user: the user passes exactly when their role is hr, otherwise 403. */
  function RequireHr(u: UserRow): (r: Result<UserRow, HttpError>)
    ensures r.Ok? <==> u.role == HrRole
    ensures r.Ok? ==> r.value == u
    ensures r.Err? ==> r.error.status == Forbidden
  {
    if u.role != HrRole then Err(HttpError(Forbidden, "HR role required")) else Ok(u)
  }

  /** get_current_applicant_user: the user passes exactly when their role is applicant, otherwise 403. */
  function RequireApplicant(u: UserRow): (r: Result<UserRow, HttpError>)
    ensures r.Ok? <==> u.role == ApplicantRole
    ensures r.Ok? ==> r.value == u
    ensures r.Err? ==> r.error.status == Forbidden
  {
    if u.role != ApplicantRole then Err(HttpError(Forbidden, "Applicant role required")) else Ok(u)
  }

  /** The dependency chain of an HR endpoint: authentication first (401), then the role (403). */
  function CurrentHrUser(d: Decoded, users: seq<UserRow>): (r: Result<UserRow, HttpError>)
    ensures r.Ok? ==> r.value.role == HrRole && r.value in users
    ensures GetCurrentUser(d, users).Err? ==> r.Err? && r.error.status == Unauthorized
    ensures GetCurrentUser(d, users).Ok? ==> (r.Ok? <==> GetCurrentUser(d, users).value.role == HrRole)
  {
    match GetCurrentUser(d, users)
    case Err(e) => Err(e)
    case Ok(u) => RequireHr(u)
  }

  /** The dependency chain of an applicant-only endpoint. */
  function CurrentApplicantUser(d: Decoded, users: seq<UserRow>): (r: Result<UserRow, HttpError>)
    ensures r.Ok? ==> r.value.role == ApplicantRole && r.value in users
    ensures GetCurrentUser(d, users).Err? ==> r.Err? && r.error.status == Unauthorized
    ensures GetCurrentUser(d, users).Ok? ==> (r.Ok? <==> GetCurrentUser(d, users).value.role == ApplicantRole)
  {
    match GetCurrentUser(d, users)
    case Err(e) => Err(e)
    case Ok(u) => RequireApplicant(u)
  }

  /** No user passes both role guards. */
  lemma GuardsExclusive(u: UserRow)
    ensures !(RequireHr(u).Ok? && RequireApplicant(u).Ok?)
  {
  }
}
