/** Passwords, access tokens and the request dependencies that turn a bearer
    token into the acting user. The hash functions and the token signature
    are parameters: a `Hasher` and a `TokenCodec`. */
module Access {
  import opened Values

  const MaxPasswordLength := 128
  const MinPasswordLength := 8
  const AccessTokenExpireMinutes := 30

  /** The SHA-256 pre-hash, the salted bcrypt hash and the bcrypt check. */
  datatype Hasher = Hasher(
    prehash: string -> string,
    bcrypt: (string, string) -> string,
    check: (string, string) -> bool)

  /** bcrypt accepts what it hashed, whatever the salt. */
  ghost predicate Consistent(h: Hasher)
  {
    forall x, salt :: h.check(x, h.bcrypt(x, salt))
  }

  /** The length bounds `hash_password` and the registration validator enforce. */
  predicate AcceptedLength(password: string)
  {
    MinPasswordLength <= |password| <= MaxPasswordLength
  }

  /** `hash_password`; the `ValueError` on a bad length is a `Failure`. */
  function HashPassword(h: Hasher, password: string, salt: string): (r: Result<string>)
    ensures r.Ok? <==> AcceptedLength(password)
  {
    if |password| < MinPasswordLength then Failure(Unprocessable)
    else if |password| > MaxPasswordLength then Failure(Unprocessable)
    else Ok(h.bcrypt(h.prehash(password), salt))
  }

  /** `verify_password` */
  predicate VerifyPassword(h: Hasher, plain: string, hashed: string)
  {
    h.check(h.prehash(plain), hashed)
  }

  /** Both sides pre-hash the same way: a password verifies against its own
      hash, and against it any password with the same pre-hash verifies. */
  lemma HashThenVerify(h: Hasher, password: string, other: string, salt: string)
    requires Consistent(h) && AcceptedLength(password)
    ensures VerifyPassword(h, password, HashPassword(h, password, salt).value)
    ensures h.prehash(other) == h.prehash(password) ==> VerifyPassword(h, other, HashPassword(h, password, salt).value)
  {
    assert h.check(h.prehash(password), h.bcrypt(h.prehash(password), salt));
  }

  /** JWT signing and checking with the secret key; `decode` is `None` where
      `jwt.decode` raises `JWTError` (a bad signature, an expired token, a
      `sub` claim that is not a string). */
  datatype TokenCodec = TokenCodec(encode: Item -> string, decode: string -> Option<Item>)

  /** A token the codec signed decodes to the claims it was signed with. */
  ghost predicate RoundTrips(c: TokenCodec)
  {
    forall claims :: c.decode(c.encode(claims)) == Some(claims)
  }

  /** The claims `create_access_token` signs: the data with `exp` set to `now`
      plus `expires` seconds, or plus 30 minutes when no (or a zero) delta is
      given. Times are seconds. */
  function Claims(data: Item, now: int, expires: Option<int>): (r: Item)
    ensures forall a :: a in data && a != "exp" ==> a in r && r[a] == data[a]
    ensures "exp" in r && r["exp"].Int?
    ensures r["exp"].i == now + if expires.Some? && expires.value != 0 then expires.value else AccessTokenExpireMinutes * 60
  {
    var expire := if expires.Some? && expires.value != 0 then now + expires.value else now + AccessTokenExpireMinutes * 60;
    data["exp" := Int(expire)]
  }

  function CreateAccessToken(c: TokenCodec, data: Item, now: int, expires: Option<int>): string
  {
    c.encode(Claims(data, now, expires))
  }

  /** `decode_token`: 401 where the token does not decode. */
  function DecodeToken(c: TokenCodec, token: string): (r: Result<Item>)
    ensures r.Ok? <==> c.decode(token).Some?
    ensures r.Failure? ==> r.status == Unauthorized
  {
    match c.decode(token)
    case None => Failure(Unauthorized)
    case Some(payload) => Ok(payload)
  }

  /** The dict `get_current_user` returns. */
  datatype Principal = Principal(userId: string, email: Value, role: Value)

  /** `current_user` as the endpoints index it. */
  function PrincipalItem(p: Principal): (r: Item)
    ensures "user_id" in r && r["user_id"] == Str(p.userId)
    ensures "role" in r && r["role"] == p.role
  {
    map["user_id" := Str(p.userId), "email" := p.email, "role" := p.role]
  }

  /** `get_current_user`: 401 when the token does not decode or carries no
      `sub`; the role defaults to `user`. */
  function GetCurrentUser(c: TokenCodec, token: string): (r: Result<Principal>)
    ensures r.Failure? ==> r.status == Unauthorized
    ensures r.Ok? <==> c.decode(token).Some? && Get(c.decode(token).value, "sub", Null).Str?
    ensures r.Ok? ==> r.value.userId == c.decode(token).value["sub"].s
    ensures r.Ok? ==> r.value.role == Get(c.decode(token).value, "role", Str("user"))
  {
    match DecodeToken(c, token)
    case Failure(status) => Failure(status)
    case Ok(payload) =>
      match Get(payload, "sub", Null)
      case Str(sub) => Ok(Principal(sub, Get(payload, "email", Null), Get(payload, "role", Str("user"))))
      case _ => Failure(Unauthorized)
  }

  /** `get_current_admin`, after `get_current_user`: its failure, else 403
      unless the role is exactly `admin`. */
  function GetCurrentAdmin(user: Result<Principal>): (r: Result<Principal>)
    ensures r.Ok? <==> user.Ok? && user.value.role == Str("admin")
    ensures r.Ok? ==> r.value == user.value
    ensures r.Failure? ==> r.status == if user.Failure? then user.status else Forbidden
  {
    match user
    case Failure(status) => Failure(status)
    case Ok(p) => if p.role != Str("admin") then Failure(Forbidden) else Ok(p)
  }

  /** `get_optional_user`: anonymous when no credentials were sent or they
      fail authentication; otherwise the same user `get_current_user` gives. */
  function GetOptionalUser(c: TokenCodec, token: Option<string>): (r: Option<Principal>)
    ensures token.None? ==> r.None?
    ensures token.Some? ==> (r.Some? <==> GetCurrentUser(c, token.value).Ok?)
    ensures r.Some? ==> r.value == GetCurrentUser(c, token.value).value
  {
    if token.None? then None
    else match GetCurrentUser(c, token.value)
      case Failure(_) => None
      case Ok(p) => Some(p)
  }

  /** A token signed for `data` authenticates its `sub`, with its role or
      `user` when it has none; it passes the admin dependency exactly when
      that role is `admin`. */
  lemma TokenAuthenticates(c: TokenCodec, data: Item, now: int, expires: Option<int>, userId: string)
    requires RoundTrips(c)
    requires "sub" in data && data["sub"] == Str(userId)
    ensures var user := GetCurrentUser(c, CreateAccessToken(c, data, now, expires));
      && user.Ok? && user.value.userId == userId
      && user.value.role == Get(data, "role", Str("user"))
      && (GetCurrentAdmin(user).Ok? <==> Get(data, "role", Str("user")) == Str("admin"))
  {
    var claims := Claims(data, now, expires);
    assert c.decode(c.encode(claims)) == Some(claims);
    assert Get(claims, "role", Str("user")) == Get(data, "role", Str("user"));
  }
}
