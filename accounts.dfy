/** The account endpoints: registration, login, the caller's own record, the
    user list and the admin-only role change. Emails are compared after
    `normalize_email`; the password hash never leaves the server. */
module Accounts {
  import opened Values
  import opened Keys
  import opened Seqs
  import opened Store
  import opened Catalog
  import opened Access

  // ----- normalize_email -----

  /** `str.isspace()` */
  predicate IsSpace(c: char)
  {
    || '\U{9}' <= c <= '\U{D}'
    || '\U{1C}' <= c <= '\U{20}'
    || c == '\U{85}' || c == '\U{A0}' || c == '\U{1680}'
    || '\U{2000}' <= c <= '\U{200A}'
    || c == '\U{2028}' || c == '\U{2029}' || c == '\U{202F}' || c == '\U{205F}' || c == '\U{3000}'
  }

  predicate IsUpper(c: char)
  {
    'A' <= c <= 'Z'
  }

  function LowerChar(c: char): (r: char)
    ensures !IsUpper(r)
    ensures IsSpace(r) == IsSpace(c)
    ensures !IsUpper(c) ==> r == c
  {
    if IsUpper(c) then (c as int + 32) as char else c
  }

  /** `str.lower()` on letters A to Z. */
  function Lower(s: string): (r: string)
    ensures |r| == |s|
  {
    if s == [] then [] else [LowerChar(s[0])] + Lower(s[1..])
  }

  lemma {:induction false} LowerFacts(s: string)
    ensures forall i :: 0 <= i < |s| ==> Lower(s)[i] == LowerChar(s[i])
  {
    if s != [] {
      LowerFacts(s[1..]);
      assert forall i :: 1 <= i < |s| ==> Lower(s)[i] == Lower(s[1..])[i - 1];
    }
  }

  /** Text without capital letters is its own lower case. */
  lemma {:induction false} LowerKeeps(s: string)
    requires forall i :: 0 <= i < |s| ==> !IsUpper(s[i])
    ensures Lower(s) == s
  {
    if s != [] {
      LowerKeeps(s[1..]);
      assert [s[0]] + s[1..] == s;
    }
  }

  /** Neither end is whitespace. */
  predicate Trimmed(s: string)
  {
    s == [] || (!IsSpace(s[0]) && !IsSpace(s[|s| - 1]))
  }

  /** `str.strip()`: whitespace is cut from both ends. */
  function Strip(s: string): string
    decreases |s|
  {
    if s != [] && IsSpace(s[0]) then Strip(s[1..])
    else if s != [] && IsSpace(s[|s| - 1]) then Strip(s[..|s| - 1])
    else s
  }

  /** `strip` leaves no whitespace at either end. */
  lemma {:induction false} StripTrimmed(s: string)
    ensures Trimmed(Strip(s))
    decreases |s|
  {
    if s != [] && IsSpace(s[0]) {
      StripTrimmed(s[1..]);
    } else if s != [] && IsSpace(s[|s| - 1]) {
      StripTrimmed(s[..|s| - 1]);
    }
  }

  /** `strip` cuts only whitespace: the result is `s[i..j]`, with nothing but
      whitespace before `i` and from `j` on. */
  lemma {:induction false} StripBounds(s: string) returns (i: nat, j: nat)
    ensures i <= j <= |s| && Strip(s) == s[i..j]
    ensures forall m :: 0 <= m < i ==> IsSpace(s[m])
    ensures forall m :: j <= m < |s| ==> IsSpace(s[m])
    decreases |s|
  {
    if s != [] && IsSpace(s[0]) {
      var tail := s[1..];
      var i', j' := StripBounds(tail);
      i, j := i' + 1, j' + 1;
      assert tail[i'..j'] == s[i..j];
      forall m | 0 <= m < |tail| ensures tail[m] == s[m + 1] { }
    } else if s != [] && IsSpace(s[|s| - 1]) {
      var init := s[..|s| - 1];
      i, j := StripBounds(init);
      assert init[i..j] == s[i..j];
    } else {
      i, j := 0, |s|;
    }
  }

  /** `normalize_email`: `email.lower().strip()`. */
  function NormalizeEmail(email: string): string
  {
    Strip(Lower(email))
  }

  /** The normalised email has no capital letter and no whitespace at
      either end. */
  lemma NormalizeEmailShape(email: string)
    ensures var r := NormalizeEmail(email);
      (forall i :: 0 <= i < |r| ==> !IsUpper(r[i])) && Trimmed(r)
  {
    var lowered := Lower(email);
    LowerFacts(email);
    StripTrimmed(lowered);
    var r := NormalizeEmail(email);
    var i, j := StripBounds(lowered);
    forall m | 0 <= m < |r| ensures !IsUpper(r[m]) {
      assert r[m] == lowered[i + m];
    }
  }

  /** The normalised email is the lower-cased email with only whitespace cut
      from either end. */
  lemma NormalizeEmailCutsSpace(email: string)
    ensures var r := NormalizeEmail(email);
      exists i, j :: 0 <= i <= j <= |email| && r == Lower(email)[i..j]
        && (forall m :: 0 <= m < i ==> IsSpace(email[m]))
        && (forall m :: j <= m < |email| ==> IsSpace(email[m]))
  {
    var lowered := Lower(email);
    LowerFacts(email);
    var i, j := StripBounds(lowered);
    assert forall m :: 0 <= m < |email| ==> IsSpace(lowered[m]) == IsSpace(email[m]);
  }

  /** Normalising twice is normalising once. */
  lemma NormalizeEmailIdempotent(email: string)
    ensures NormalizeEmail(NormalizeEmail(email)) == NormalizeEmail(email)
  {
    var r := NormalizeEmail(email);
    NormalizeEmailShape(email);
    LowerKeeps(r);
  }

  // ----- check_email_exists -----

  /** A user item, as the scans' `entity_type = 'user'` filter selects it. */
  predicate IsUser(x: Item)
  {
    Get(x, "entity_type", Null) == Str("user")
  }

  function Users(rows: seq<Item>): seq<Item>
  {
    Filter(rows, IsUser)
  }

  /** `user.get('email', '')`; `None` where it is not text and
      `normalize_email` raises. */
  function EmailOf(u: Item): Option<string>
  {
    match Get(u, "email", Str(""))
    case Str(s) => Some(s)
    case _ => None
  }

  /** The user's email normalises to `normalized`. */
  predicate HasEmail(u: Item, normalized: string)
  {
    EmailOf(u).Some? && NormalizeEmail(EmailOf(u).value) == normalized
  }

  /** The scan loop of `check_email_exists`, user by user: `true` at the
      first match, a `Failure` at the first email that cannot be normalised. */
  function EmailSearch(users: seq<Item>, normalized: string): Result<bool>
  {
    if users == [] then Ok(false)
    else if EmailOf(users[0]).None? then Failure(ServerError)
    else if NormalizeEmail(EmailOf(users[0]).value) == normalized then Ok(true)
    else EmailSearch(users[1..], normalized)
  }

  /** `check_email_exists`: a failed search counts as "not registered". */
  predicate EmailExists(rows: seq<Item>, email: string)
  {
    EmailSearch(Users(rows), NormalizeEmail(email)) == Ok(true)
  }

  method CheckEmailExists(table: Table, email: string) returns (found: bool)
    requires table.Valid()
    ensures found == EmailExists(table.Rows(), email)
  {
    var normalized := NormalizeEmail(email);
    var users := Filter(table.Rows(), IsUser);
    var i := 0;
    while i < |users|
      invariant 0 <= i <= |users|
      invariant EmailSearch(users, normalized) == EmailSearch(users[i..], normalized)
    {
      assert users[i..][1..] == users[i + 1..];
      var email := Get(users[i], "email", Str(""));
      if !email.Str? {
        return false;
      }
      if NormalizeEmail(email.s) == normalized {
        return true;
      }
      i := i + 1;
    }
    return false;
  }

  /** Every user email in the table is text. */
  ghost predicate ReadableEmails(items: map<Key, Item>)
  {
    forall k :: k in items && IsUser(items[k]) ==> EmailOf(items[k]).Some?
  }

  /** No user in the table has an email that normalises to `normalized`. */
  ghost predicate NoUserWithEmail(items: map<Key, Item>, normalized: string)
  {
    forall k :: k in items && IsUser(items[k]) ==> !HasEmail(items[k], normalized)
  }

  /** Every user's email is text and can be normalised. */
  predicate EmailsReadable(users: seq<Item>)
  {
    forall i :: 0 <= i < |users| ==> EmailOf(users[i]).Some?
  }

  /** The search answers `true` only for an email some user has; over
      readable emails, exactly then. */
  lemma {:induction false} EmailSearchFinds(users: seq<Item>, normalized: string)
    ensures EmailSearch(users, normalized) == Ok(true) ==> exists u :: u in users && HasEmail(u, normalized)
    ensures EmailsReadable(users) ==>
      (EmailSearch(users, normalized) == Ok(true) <==> exists u :: u in users && HasEmail(u, normalized))
  {
    if users != [] {
      var tail := users[1..];
      EmailSearchFinds(tail, normalized);
      assert forall u :: u in tail ==> u in users;
      assert users[0] in users;
      if EmailsReadable(users) {
        assert EmailsReadable(tail) by {
          forall i | 0 <= i < |tail| ensures EmailOf(tail[i]).Some? {
            assert tail[i] == users[i + 1];
          }
        }
        if exists u :: u in users && HasEmail(u, normalized) {
          var u :| u in users && HasEmail(u, normalized);
          if u != users[0] {
            assert u in tail;
          }
        }
      }
    }
  }

  /** An email is reported as registered only when some user's email
      normalises to the same text; while every user email is text, exactly
      then. */
  lemma EmailExistsMeaning(table: Table, email: string)
    requires table.Valid()
    ensures EmailExists(table.Rows(), email) ==> !NoUserWithEmail(table.items, NormalizeEmail(email))
    ensures ReadableEmails(table.items) ==> (EmailExists(table.Rows(), email) <==> !NoUserWithEmail(table.items, NormalizeEmail(email)))
  {
    var n := NormalizeEmail(email);
    var users := Users(table.Rows());
    forall u | u in users ensures exists k :: k in table.items && table.items[k] == u && IsUser(u) {
      InRows(table, u);
    }
    EmailSearchFinds(users, n);
    if ReadableEmails(table.items) {
      assert forall i :: 0 <= i < |users| ==> EmailOf(users[i]).Some? by {
        forall i | 0 <= i < |users| ensures EmailOf(users[i]).Some? {
          assert users[i] in users;
        }
      }
    }
    if !NoUserWithEmail(table.items, n) {
      var k :| k in table.items && IsUser(table.items[k]) && HasEmail(table.items[k], n);
      InRows(table, table.items[k]);
      assert table.items[k] in users;
    }
  }

  // ----- register -----

  /** The request body `UserRegister`. */
  datatype UserRegister = UserRegister(email: string, password: string, name: string, languagePreference: string)

  /** The request body `UserLogin`. */
  datatype UserLogin = UserLogin(email: string, password: string)

  /** `TokenResponse` */
  datatype TokenResponse = TokenResponse(accessToken: string, tokenType: string, user: Item)

  /** The user row `register` writes: normalised email, role `user`, active. */
  function NewUserItem(userId: string, data: UserRegister, hashed: string, now: string): (r: Item)
    ensures KeyedBy(r, KeyOf(UserRow(userId)))
    ensures IsUser(r) && HasEmail(r, NormalizeEmail(data.email))
    ensures "user_id" in r && r["user_id"] == Str(userId)
    ensures "email" in r && r["email"] == Str(NormalizeEmail(data.email))
    ensures "password_hash" in r && r["password_hash"] == Str(hashed)
    ensures "role" in r && r["role"] == Str("user")
    ensures "is_active" in r && r["is_active"] == Bool(true)
  {
    NormalizeEmailIdempotent(data.email);
    map[
      "PK" := Str(UserPrefix + userId),
      "SK" := Str(Metadata),
      "entity_type" := Str("user"),
      "user_id" := Str(userId),
      "email" := Str(NormalizeEmail(data.email)),
      "name" := Str(data.name),
      "password_hash" := Str(hashed),
      "language_preference" := Str(data.languagePreference),
      "role" := Str("user"),
      "is_active" := Bool(true),
      "created_at" := Str(now),
      "updated_at" := Str(now)]
  }

  /** The claims of a new user's token. */
  function NewUserClaims(userId: string, data: UserRegister): Item
  {
    map["sub" := Str(userId), "email" := Str(NormalizeEmail(data.email)), "role" := Str("user")]
  }

  /** `register`, with the generated id `userId`, the clock `now` (as text
      and in seconds) and the bcrypt salt: 422 for a password outside 8 to
      128 characters, 400 when the email is already registered; nothing is
      written then. Otherwise the user is stored and returned, without the
      hash, with a token for it. */
  method Register(table: Table, data: UserRegister, userId: string, now: string, nowSeconds: int, h: Hasher, salt: string, c: TokenCodec)
    returns (r: Result<TokenResponse>)
    requires table.Valid()
    modifies table
    ensures table.Valid()
    ensures !AcceptedLength(data.password) ==> r == Failure(Unprocessable) && unchanged(table)
    ensures AcceptedLength(data.password) && EmailExists(old(table.Rows()), data.email) ==> r == Failure(BadRequest) && unchanged(table)
    ensures AcceptedLength(data.password) && !EmailExists(old(table.Rows()), data.email) ==>
      var item := NewUserItem(userId, data, HashPassword(h, data.password, salt).value, now);
      var key := KeyOf(UserRow(userId));
      && table.items == old(table.items)[key := item]
      && table.order == (if key in old(table.items) then old(table.order) else old(table.order) + [key])
      && r == Ok(TokenResponse(CreateAccessToken(c, NewUserClaims(userId, data), nowSeconds, None), "bearer", Without(item, "password_hash")))
  {
    if |data.password| < MinPasswordLength || |data.password| > MaxPasswordLength {
      return Failure(Unprocessable);
    }
    var normalized := NormalizeEmail(data.email);
    var registered := CheckEmailExists(table, normalized);
    NormalizeEmailIdempotent(data.email);
    if registered {
      return Failure(BadRequest);
    }
    var hashed := HashPassword(h, data.password, salt);
    var item := NewUserItem(userId, data, hashed.value, now);
    table.Put(item);
    var token := CreateAccessToken(c, map["sub" := Str(userId), "email" := Str(normalized), "role" := Str("user")], nowSeconds, None);
    r := Ok(TokenResponse(token, "bearer", Without(item, "password_hash")));
  }

  // ----- login -----

  /** `[u for u in all_users if ...][0]`: the first user whose email
      normalises to `normalized`. */
  function FirstMatch(users: seq<Item>, normalized: string): (r: Option<Item>)
    ensures r.Some? ==> r.value in users && HasEmail(r.value, normalized)
    ensures r.Some? ==> exists i :: 0 <= i < |users| && users[i] == r.value && forall j :: 0 <= j < i ==> !HasEmail(users[j], normalized)
    ensures r.None? ==> forall u :: u in users ==> !HasEmail(u, normalized)
  {
    if users == [] then None
    else if HasEmail(users[0], normalized) then Some(users[0])
    else
      var r := FirstMatch(users[1..], normalized);
      assert forall u :: u in users ==> u == users[0] || u in users[1..];
      assert r.Some? ==> exists i :: 0 <= i < |users| && users[i] == r.value && forall j :: 0 <= j < i ==> !HasEmail(users[j], normalized) by {
        if r.Some? {
          var i :| 0 <= i < |users[1..]| && users[1..][i] == r.value && forall j :: 0 <= j < i ==> !HasEmail(users[1..][j], normalized);
          assert users[i + 1] == r.value;
          forall j | 0 <= j < i + 1 ensures !HasEmail(users[j], normalized) {
            if j > 0 { assert users[j] == users[1..][j - 1]; }
          }
        }
      }
      r
  }

  /** `login`: the first user whose email matches; 401 when there is none or
      the password does not verify, then 403 when the account is not active;
      500 where the comprehension or a lookup raises. */
  function Login(rows: seq<Item>, creds: UserLogin, h: Hasher, c: TokenCodec, nowSeconds: int): (r: Result<TokenResponse>)
    ensures r.Ok? ==> "password_hash" !in r.value.user
    ensures r.Ok? ==>
      exists u :: u in Users(rows) && HasEmail(u, NormalizeEmail(creds.email))
        && Get(u, "password_hash", Str("")).Str? && VerifyPassword(h, creds.password, Get(u, "password_hash", Str("")).s)
        && Truthy(Get(u, "is_active", Bool(false)))
        && r.value.user == Without(u, "password_hash")
    ensures r.Ok? ==>
      var m := FirstMatch(Users(rows), NormalizeEmail(creds.email));
      m.Some? && r.value.user == Without(m.value, "password_hash")
  {
    var users := Users(rows);
    if !EmailsReadable(users) then Failure(ServerError)
    else match FirstMatch(users, NormalizeEmail(creds.email))
      case None => Failure(Unauthorized)
      case Some(user) =>
        match Get(user, "password_hash", Str(""))
        case Str(hashed) =>
          if !VerifyPassword(h, creds.password, hashed) then Failure(Unauthorized)
          else if !Truthy(Get(user, "is_active", Bool(false))) then Failure(Forbidden)
          else if "user_id" !in user || "email" !in user then Failure(ServerError)
          else
            var claims := map["sub" := user["user_id"], "email" := user["email"], "role" := Get(user, "role", Str("user"))];
            Ok(TokenResponse(CreateAccessToken(c, claims, nowSeconds, None), "bearer", Without(user, "password_hash")))
        case _ => Failure(ServerError)
  }

  /** An unknown email gets 401; the first matching user alone decides the
      rest: a password that does not verify against its hash is 401, and a
      verified password on an inactive account is 403. The inactive-account
      403 comes only after the password was accepted. */
  lemma LoginOrder(rows: seq<Item>, creds: UserLogin, h: Hasher, c: TokenCodec, nowSeconds: int)
    ensures EmailsReadable(Users(rows)) && (forall u :: u in Users(rows) ==> !HasEmail(u, NormalizeEmail(creds.email))) ==>
      Login(rows, creds, h, c, nowSeconds) == Failure(Unauthorized)
    ensures var m := FirstMatch(Users(rows), NormalizeEmail(creds.email));
      EmailsReadable(Users(rows)) && m.Some? && Get(m.value, "password_hash", Str("")).Str? ==>
        && (!VerifyPassword(h, creds.password, Get(m.value, "password_hash", Str("")).s) ==>
              Login(rows, creds, h, c, nowSeconds) == Failure(Unauthorized))
        && (VerifyPassword(h, creds.password, Get(m.value, "password_hash", Str("")).s) && !Truthy(Get(m.value, "is_active", Bool(false))) ==>
              Login(rows, creds, h, c, nowSeconds) == Failure(Forbidden))
    ensures Login(rows, creds, h, c, nowSeconds) == Failure(Forbidden) ==>
      exists u :: u in Users(rows) && HasEmail(u, NormalizeEmail(creds.email))
        && Get(u, "password_hash", Str("")).Str? && VerifyPassword(h, creds.password, Get(u, "password_hash", Str("")).s)
        && !Truthy(Get(u, "is_active", Bool(false)))
  {
    var m := FirstMatch(Users(rows), NormalizeEmail(creds.email));
  }

  /** A user stored where no other user had its normalised email is the
      one login finds. */
  lemma OnlyMatch(t: Table, before: map<Key, Item>, key: Key, item: Item, normalized: string)
    requires t.Valid() && t.items == before[key := item]
    requires ReadableEmails(before) && NoUserWithEmail(before, normalized)
    requires IsUser(item) && HasEmail(item, normalized)
    ensures EmailsReadable(Users(t.Rows()))
    ensures FirstMatch(Users(t.Rows()), normalized) == Some(item)
  {
    var users := Users(t.Rows());
    forall i | 0 <= i < |users| ensures EmailOf(users[i]).Some? {
      assert users[i] in users;
      InRows(t, users[i]);
    }
    assert key in t.items && t.items[key] == item;
    InRows(t, item);
    assert item in users;
    var m := FirstMatch(users, normalized);
    InRows(t, m.value);
  }

  /** A user registered while no other user had the same normalised email
      logs in with the same password and any spelling of the email that
      normalises the same, and gets their own record back. */
  lemma RegisterThenLogin(t: Table, before: map<Key, Item>, userId: string, data: UserRegister, now: string, h: Hasher, salt: string,
                          c: TokenCodec, creds: UserLogin, later: int)
    requires t.Valid() && Consistent(h) && AcceptedLength(data.password)
    requires ReadableEmails(before) && NoUserWithEmail(before, NormalizeEmail(data.email))
    requires t.items == before[KeyOf(UserRow(userId)) := NewUserItem(userId, data, HashPassword(h, data.password, salt).value, now)]
    requires NormalizeEmail(creds.email) == NormalizeEmail(data.email) && creds.password == data.password
    ensures var item := NewUserItem(userId, data, HashPassword(h, data.password, salt).value, now);
      Login(t.Rows(), creds, h, c, later)
        == Ok(TokenResponse(CreateAccessToken(c, NewUserClaims(userId, data), later, None), "bearer", Without(item, "password_hash")))
  {
    var hashed := HashPassword(h, data.password, salt).value;
    var item := NewUserItem(userId, data, hashed, now);
    OnlyMatch(t, before, KeyOf(UserRow(userId)), item, NormalizeEmail(data.email));
    HashThenVerify(h, data.password, data.password, salt);
    NewUserSignsIn(userId, data, hashed, now);
  }

  /** What `login` reads from a freshly registered user: its hash, an active
      account, and the claims `register` signed. */
  lemma NewUserSignsIn(userId: string, data: UserRegister, hashed: string, now: string)
    ensures var item := NewUserItem(userId, data, hashed, now);
      && Get(item, "password_hash", Str("")) == Str(hashed)
      && Truthy(Get(item, "is_active", Bool(false)))
      && "user_id" in item && "email" in item
      && map["sub" := item["user_id"], "email" := item["email"], "role" := Get(item, "role", Str("user"))] == NewUserClaims(userId, data)
  {
    var item := NewUserItem(userId, data, hashed, now);
    assert map["sub" := item["user_id"], "email" := item["email"], "role" := Get(item, "role", Str("user"))] == NewUserClaims(userId, data);
  }

  // ----- me, list_all_users -----

  /** `get_current_user_info`: the caller's own user row, without the hash;
      404 when it is gone. */
  function Me(items: map<Key, Item>, p: Principal): (r: Result<Item>)
    ensures r.Failure? <==> Lookup(items, KeyOf(UserRow(p.userId))).None?
    ensures r.Failure? ==> r.status == NotFound
    ensures r.Ok? ==> "password_hash" !in r.value && r.value == Without(items[KeyOf(UserRow(p.userId))], "password_hash")
  {
    match Lookup(items, KeyOf(UserRow(p.userId)))
    case None => Failure(NotFound)
    case Some(user) => Ok(Without(user, "password_hash"))
  }

  /** The token `register` hands out authenticates the new user as a plain
      user, and `/me` with it returns the registered record without the hash. */
  lemma RegisterThenMe(items: map<Key, Item>, userId: string, data: UserRegister, hashed: string, now: string, c: TokenCodec,
                       nowSeconds: int)
    requires RoundTrips(c)
    ensures var user := GetCurrentUser(c, CreateAccessToken(c, NewUserClaims(userId, data), nowSeconds, None));
      var item := NewUserItem(userId, data, hashed, now);
      && user.Ok? && user.value.userId == userId && user.value.role == Str("user")
      && GetCurrentAdmin(user) == Failure(Forbidden)
      && Me(items[KeyOf(UserRow(userId)) := item], user.value) == Ok(Without(item, "password_hash"))
  {
    TokenAuthenticates(c, NewUserClaims(userId, data), nowSeconds, None, userId);
  }

  /** The response of `list_all_users`. */
  datatype UserListing = UserListing(total: nat, users: seq<Item>)

  /** Every user row without its hash, in scan order. */
  function CleanUsers(users: seq<Item>): (r: seq<Item>)
    ensures |r| == |users|
    ensures forall i :: 0 <= i < |users| ==> "password_hash" !in r[i] && r[i] == Without(users[i], "password_hash")
  {
    if users == [] then [] else CleanUsers(users[..|users| - 1]) + [Without(users[|users| - 1], "password_hash")]
  }

  /** `list_all_users`: `total` counts the user rows. */
  method ListAllUsers(table: Table) returns (r: UserListing)
    requires table.Valid()
    ensures r.users == CleanUsers(Users(table.Rows()))
    ensures r.total == |Users(table.Rows())|
  {
    var users := Filter(table.Rows(), IsUser);
    var clean: seq<Item> := [];
    var i := 0;
    while i < |users|
      invariant 0 <= i <= |users|
      invariant clean == CleanUsers(users[..i])
    {
      assert users[..i + 1][..i] == users[..i];
      clean := clean + [Without(users[i], "password_hash")];
      i := i + 1;
    }
    assert users[..i] == users;
    r := UserListing(|clean|, clean);
  }

  // ----- update_user_role -----

  /** The response of `update_user_role`. */
  datatype RoleChange = RoleChange(message: string, user: Item)

  /** The user row with the new role and modification time. */
  function WithRole(user: Item, role: string, now: string): (r: Item)
    ensures "role" in r && r["role"] == Str(role)
    ensures "updated_at" in r && r["updated_at"] == Str(now)
    ensures forall a :: a in user && a != "role" && a != "updated_at" ==> a in r && r[a] == user[a]
    ensures forall a :: a in r ==> a in user || a == "role" || a == "updated_at"
  {
    user["role" := Str(role)]["updated_at" := Str(now)]
  }

  /** `update_user_role` behind the admin dependency `admin`: its failure
      first, then 400 for a role other than `user` or `admin`, 404 for a
      missing user, 400 for an admin demoting themselves; otherwise the row
      gets the role and the time. */
  function RoleUpdate(items: map<Key, Item>, userId: string, role: string, admin: Result<Principal>, now: string): (r: Result<RoleChange>)
    ensures admin.Failure? ==> r == Failure(admin.status)
    ensures admin.Ok? && role != "user" && role != "admin" ==> r == Failure(BadRequest)
    ensures admin.Ok? && (role == "user" || role == "admin") ==>
      && (Lookup(items, KeyOf(UserRow(userId))).None? ==> r == Failure(NotFound))
      && (Lookup(items, KeyOf(UserRow(userId))).Some? && admin.value.userId == userId && role == "user" ==> r == Failure(BadRequest))
    ensures r.Ok? ==>
      && admin.Ok? && KeyOf(UserRow(userId)) in items && (admin.value.userId == userId ==> role == "admin")
      && r.value.user == Without(WithRole(items[KeyOf(UserRow(userId))], role, now), "password_hash")
  {
    if admin.Failure? then Failure(admin.status)
    else if role != "user" && role != "admin" then Failure(BadRequest)
    else match Lookup(items, KeyOf(UserRow(userId)))
      case None => Failure(NotFound)
      case Some(user) =>
        if admin.value.userId == userId && role == "user" then Failure(BadRequest)
        else Ok(RoleChange("User role updated to '" + role + "'", Without(WithRole(user, role, now), "password_hash")))
  }

  /** The endpoint, authenticated by `token`. */
  method UpdateUserRole(table: Table, userId: string, role: string, c: TokenCodec, token: string, now: string) returns (r: Result<RoleChange>)
    requires table.Valid()
    modifies table
    ensures table.Valid()
    ensures r == RoleUpdate(old(table.items), userId, role, GetCurrentAdmin(GetCurrentUser(c, token)), now)
    ensures r.Ok? ==> table.items == old(table.items)[KeyOf(UserRow(userId)) := WithRole(old(table.items)[KeyOf(UserRow(userId))], role, now)]
    ensures r.Ok? ==> table.order == old(table.order)
    ensures r.Failure? ==> unchanged(table)
  {
    var admin := GetCurrentAdmin(GetCurrentUser(c, token));
    if admin.Failure? {
      return Failure(admin.status);
    }
    if role != "user" && role != "admin" {
      return Failure(BadRequest);
    }
    var key := KeyOf(UserRow(userId));
    if key !in table.items || table.items[key] == map[] {
      return Failure(NotFound);
    }
    if admin.value.userId == userId && role == "user" {
      return Failure(BadRequest);
    }
    var user := WithRole(table.items[key], role, now);
    table.Put(user);
    r := Ok(RoleChange("User role updated to '" + role + "'", Without(user, "password_hash")));
  }

  /** Only an admin token changes a role, an admin never loses their own
      admin role this way, and repeating the change (same time) stores the
      same row. */
  lemma RoleUpdateFacts(items: map<Key, Item>, userId: string, role: string, c: TokenCodec, token: string, now: string)
    requires RoleUpdate(items, userId, role, GetCurrentAdmin(GetCurrentUser(c, token)), now).Ok?
    ensures var caller := GetCurrentUser(c, token);
      && caller.Ok? && caller.value.role == Str("admin")
      && (caller.value.userId == userId ==> role == "admin")
    ensures var key := KeyOf(UserRow(userId));
      var once := WithRole(items[key], role, now);
      RoleUpdate(items[key := once], userId, role, GetCurrentAdmin(GetCurrentUser(c, token)), now)
        == RoleUpdate(items, userId, role, GetCurrentAdmin(GetCurrentUser(c, token)), now)
      && WithRole(once, role, now) == once
  {
    var key := KeyOf(UserRow(userId));
    var once := WithRole(items[key], role, now);
    assert WithRole(once, role, now) == once;
  }
}
