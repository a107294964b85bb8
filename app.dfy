/**
 * The request handlers of main.py over one backend state: the durable user
 * and contact tables, the session cache, the set of tokens the system has
 * signed, the outbox of mails handed to the mail sender, the id counters
 * the store assigns, and the clock.
 */
module App {
  import opened Wrappers
  import opened Passwords
  import opened Models
  import opened Tokens

  // ---------------------------------------------------------------- responses

  datatype HttpError = HttpError(status: int, detail: string)
  datatype Result<T> = Ok(value: T) | Err(error: HttpError)

  datatype TokenResponse = TokenResponse(accessToken: Jwt, tokenType: string)
  datatype AvatarResponse = AvatarResponse(message: string, avatarUrl: string)

  const INVALID_TOKEN_401: HttpError := HttpError(401, "Invalid token")
  const INVALID_CREDENTIALS_401: HttpError := HttpError(401, "Invalid credentials")
  const NOT_VERIFIED_401: HttpError := HttpError(401, "Email not verified")
  const INVALID_AUTH_CREDENTIALS_401: HttpError := HttpError(401, "Invalid authentication credentials")
  const NOT_ADMIN_403: HttpError := HttpError(403, "Not enough permissions")
  const AVATAR_NOT_ADMIN_403: HttpError := HttpError(403, "Only admin users can change their avatar")
  const CONTACT_NOT_FOUND_404: HttpError := HttpError(404, "Contact not found")
  const USER_NOT_FOUND_404: HttpError := HttpError(404, "User not found")
  const USER_EXISTS_409: HttpError := HttpError(409, "User already exists")
  const VERIFY_INVALID_400: HttpError := HttpError(400, "Invalid token")
  const RESET_BAD_TYPE_400: HttpError := HttpError(400, "Invalid token type")
  const RESET_BAD_TOKEN_400: HttpError := HttpError(400, "Invalid or expired token")
  /** What the framework answers when a handler raises an exception it does not catch (a mail the SMTP server refuses). */
  const UNHANDLED_500: HttpError := HttpError(500, "Internal Server Error")

  const REGISTERED_MESSAGE: string := "User registered successfully. Please check your email to verify your account."
  const VERIFIED_MESSAGE: string := "Email verified successfully"
  const RESET_SENT_MESSAGE: string := "Password reset email sent. Please check your email."
  const RESET_DONE_MESSAGE: string := "Password has been reset successfully"
  const AVATAR_UPDATED_MESSAGE: string := "Avatar updated successfully"
  const AVATAR_ERROR_PREFIX: string := "Error uploading avatar: "
  /** The message of the AttributeError raised by `.value` on a str. */
  const STR_HAS_NO_VALUE: string := "'str' object has no attribute 'value'"
  const BEARER: string := "bearer"

  // ---------------------------------------------------------------- collaborators

  /** What the media host's upload gives: the public URL, or the error it raised. */
  datatype UploadOutcome = Uploaded(secureUrl: string) | UploadFailed(reason: string)

  datatype MailKind = VerificationMail | PasswordResetMail
  /** A mail handed to the SMTP server: recipient, purpose and the token its link carries. */
  datatype Mail = Mail(to: string, kind: MailKind, token: Jwt)

  // ---------------------------------------------------------------- session cache

  /** Cache entries live for 30 minutes. */
  const CACHE_TTL_SECONDS: int := 30 * SECONDS_PER_MINUTE
  const CACHE_KEY_PREFIX: string := "user:"

  /**
   * The JSON snapshot written to the cache. `role` and `avatarUrl` are None
   * when the writer left those keys out (every writer but the avatar update).
   */
  datatype Snapshot = Snapshot(
    id: int,
    email: string,
    hashedPassword: Digest,
    isVerified: bool,
    role: Option<UserRole>,
    avatarUrl: Option<string>)

  datatype CacheEntry = CacheEntry(snapshot: Snapshot, expiresAt: int)

  function CacheKey(email: string): string
  {
    CACHE_KEY_PREFIX + email
  }

  lemma CacheKeyInjective(a: string, b: string)
    ensures CacheKey(a) == CacheKey(b) <==> a == b
  {
    if CacheKey(a) == CacheKey(b) {
      assert a == CacheKey(a)[|CACHE_KEY_PREFIX|..];
      assert b == CacheKey(b)[|CACHE_KEY_PREFIX|..];
    }
  }

  /** `f"{sub}"` for the subject claim: a missing claim renders as "None". */
  function SubjectText(sub: Option<string>): (t: string)
    ensures sub.Some? ==> t == sub.value
    ensures sub.None? ==> t == "None"
  {
    match sub
    case Some(s) => s
    case None => "None"
  }

  /** `redis_client.get(key)`: present and not yet expired at `now`. */
  function CacheGet(cache: map<string, CacheEntry>, key: string, now: int): (r: Option<Snapshot>)
    ensures r.Some? <==> key in cache && now < cache[key].expiresAt
    ensures r.Some? ==> r.value == cache[key].snapshot
  {
    if key in cache && now < cache[key].expiresAt then Some(cache[key].snapshot) else None
  }

  /** The four-field snapshot of the resolver, login and password reset. */
  function SnapshotOf(u: User): (s: Snapshot)
    ensures s.id == u.id && s.email == u.email
    ensures s.hashedPassword == u.hashedPassword && s.isVerified == u.isVerified
    ensures s.role == None && s.avatarUrl == None
  {
    Snapshot(u.id, u.email, u.hashedPassword, u.isVerified, None, None)
  }

  /** The six-field snapshot of the avatar update, which also carries role and avatar URL. */
  function AvatarSnapshotOf(u: User): (s: Snapshot)
    ensures s.id == u.id && s.email == u.email
    ensures s.hashedPassword == u.hashedPassword && s.isVerified == u.isVerified
    ensures s.role == u.role && s.avatarUrl == u.avatarUrl
  {
    Snapshot(u.id, u.email, u.hashedPassword, u.isVerified, u.role, u.avatarUrl)
  }

  /**
   * The user the resolver builds on a cache hit: only id, email, hash and
   * verified flag are read back, so the result has no role, no avatar and
   * no active flag whatever the snapshot holds, and never passes the role gate.
   */
  function UserFromSnapshot(s: Snapshot): (u: User)
    ensures u.id == s.id && u.email == s.email
    ensures u.hashedPassword == s.hashedPassword && u.isVerified == s.isVerified
    ensures u.role == None && u.avatarUrl == None && u.isActive == None
    ensures !IsAdmin(u)
  {
    User(s.id, s.email, s.hashedPassword, None, s.isVerified, None, None)
  }

  /** A hit on a snapshot of `u` agrees with `u` on identity and credentials but drops its role and avatar. */
  lemma HitRebuildAgrees(u: User, avatarPath: bool)
    ensures var h := UserFromSnapshot(if avatarPath then AvatarSnapshotOf(u) else SnapshotOf(u));
      && h.id == u.id && h.email == u.email
      && h.hashedPassword == u.hashedPassword && h.isVerified == u.isVerified
      && h.role == None && h.avatarUrl == None
      && (IsAdmin(u) ==> h != u)
  {
  }

  // ---------------------------------------------------------------- role gate

  /** `role == UserRole.ADMIN` on a user the resolver hands over (main.py:397 and 484 test its negation). */
  predicate IsAdmin(u: User)
    ensures IsAdmin(u) <==> RoleEquals(LoadedRole(u.role), ADMIN)
  {
    u.role == Some(ADMIN)
  }

  /** get_current_admin: the user unchanged if the role is ADMIN, else 403. */
  function GetCurrentAdmin(u: User): (r: Result<User>)
    ensures r.Ok? <==> u.role == Some(ADMIN)
    ensures r.Ok? ==> r.value == u
    ensures r.Err? ==> r.error == NOT_ADMIN_403
  {
    if u.role != Some(ADMIN) then Err(NOT_ADMIN_403) else Ok(u)
  }

  // ---------------------------------------------------------------- credential store

  /**
   * get_user: the row whose email equals the subject. A missing subject
   * matches no row (email IS NULL). Rows are keyed by their email.
   */
  function FindUser(users: map<string, User>, sub: Option<string>): (r: Option<User>)
    ensures r.Some? <==> sub.Some? && sub.value in users
    ensures r.Some? ==> r.value == users[sub.value]
  {
    match sub
    case Some(e) => if e in users then Some(users[e]) else None
    case None => None
  }

  /** authenticate_user: the stored user, unless the email is unknown or the password does not verify. */
  function AuthenticateUser(users: map<string, User>, email: string, password: string): (r: Option<User>)
    ensures r.None? <==> email !in users || !Verify(password, users[email].hashedPassword)
    ensures r.Some? ==> r.value == users[email]
  {
    var user := FindUser(users, Some(email));
    if user.None? || !Verify(password, user.value.hashedPassword) then None else user
  }

  // ---------------------------------------------------------------- contact field copy

  /** The ContactCreate fields, as the names `dict()` yields. */
  datatype ContactField = FirstName | LastName | Email | Phone | Birthday | AdditionalInfo
  datatype FieldValue = Text(text: string) | Nullable(value: Option<string>)

  /** A value of the right kind for the field: only additional_info is optional. */
  predicate Fits(f: ContactField, v: FieldValue)
  {
    v.Nullable? <==> f == AdditionalInfo
  }

  /** `getattr(data, f)`. */
  function Attr(data: ContactCreate, f: ContactField): (v: FieldValue)
    ensures Fits(f, v)
  {
    match f
    case FirstName => Text(data.firstName)
    case LastName => Text(data.lastName)
    case Email => Text(data.email)
    case Phone => Text(data.phone)
    case Birthday => Text(data.birthday)
    case AdditionalInfo => Nullable(data.additionalInfo)
  }

  /** Two ContactCreate values with the same attributes are equal. */
  lemma AttrsDetermine(a: ContactCreate, b: ContactCreate)
    requires forall f :: Attr(a, f) == Attr(b, f)
    ensures a == b
  {
    assert Attr(a, FirstName) == Attr(b, FirstName);
    assert Attr(a, LastName) == Attr(b, LastName);
    assert Attr(a, Email) == Attr(b, Email);
    assert Attr(a, Phone) == Attr(b, Phone);
    assert Attr(a, Birthday) == Attr(b, Birthday);
    assert Attr(a, AdditionalInfo) == Attr(b, AdditionalInfo);
  }

  /** `contact_data.dict().items()`: each field once, with its value. */
  function ModelDump(data: ContactCreate): (items: seq<(ContactField, FieldValue)>)
    ensures |items| == 6
    ensures forall i :: 0 <= i < |items| ==> items[i].1 == Attr(data, items[i].0)
    ensures forall i, j :: 0 <= i < j < |items| ==> items[i].0 != items[j].0
    ensures forall f :: FieldIndex(f) < |items| && items[FieldIndex(f)].0 == f
  {
    var items := [(FirstName, Attr(data, FirstName)), (LastName, Attr(data, LastName)),
                  (Email, Attr(data, Email)), (Phone, Attr(data, Phone)),
                  (Birthday, Attr(data, Birthday)), (AdditionalInfo, Attr(data, AdditionalInfo))];
    assert forall f :: items[FieldIndex(f)].0 == f;
    items
  }

  /** Where `f` comes in `dict()` order. */
  function FieldIndex(f: ContactField): nat
  {
    match f
    case FirstName => 0
    case LastName => 1
    case Email => 2
    case Phone => 3
    case Birthday => 4
    case AdditionalInfo => 5
  }

  /** `setattr(contact, f, v)`: that one attribute changes. */
  function SetAttr(c: Contact, f: ContactField, v: FieldValue): (d: Contact)
    requires Fits(f, v)
    ensures Attr(Fields(d), f) == v
    ensures forall g :: g != f ==> Attr(Fields(d), g) == Attr(Fields(c), g)
    ensures d.id == c.id && d.ownerId == c.ownerId
  {
    match f
    case FirstName => c.(firstName := v.text)
    case LastName => c.(lastName := v.text)
    case Email => c.(email := v.text)
    case Phone => c.(phone := v.text)
    case Birthday => c.(birthday := v.text)
    case AdditionalInfo => c.(additionalInfo := v.value)
  }

  /**
   * The loop of update_contact: every ContactCreate field of `data` is
   * written into the contact; its id and owner stay.
   */
  method ApplyContactData(contact: Contact, data: ContactCreate) returns (updated: Contact)
    ensures Fields(updated) == data
    ensures updated.id == contact.id && updated.ownerId == contact.ownerId
  {
    var items := ModelDump(data);
    updated := contact;
    for i := 0 to |items|
      invariant updated.id == contact.id && updated.ownerId == contact.ownerId
      invariant forall j :: 0 <= j < i ==> Attr(Fields(updated), items[j].0) == items[j].1
    {
      updated := SetAttr(updated, items[i].0, items[i].1);
    }
    forall f
      ensures Attr(Fields(updated), f) == Attr(data, f)
    {
      assert items[FieldIndex(f)].0 == f;
    }
    AttrsDetermine(Fields(updated), data);
  }

  // ---------------------------------------------------------------- state invariants

  /** A stored user has this email and this id. */
  predicate HasIdentity(users: map<string, User>, email: string, id: int)
  {
    email in users && users[email].id == id
  }

  /** Some stored user has this id: what `owner_id` refers to. */
  ghost predicate IsUserId(users: map<string, User>, id: int)
  {
    exists e :: e in users && users[e].id == id
  }

  /** Rows are keyed by their (unique) email, carry their column defaults, and have distinct ids below the counter. */
  ghost predicate UsersValid(users: map<string, User>, nextUserId: int)
  {
    && (forall e :: e in users ==>
          users[e].email == e && IsStoredShape(users[e]) && 0 < users[e].id < nextUserId)
    && (forall e, f :: e in users && f in users && users[e].id == users[f].id ==> e == f)
  }

  /** Rows are keyed by their id, below the counter, and each is owned by a stored user. */
  ghost predicate ContactsValid(contacts: map<int, Contact>, users: map<string, User>, nextContactId: int)
  {
    forall id :: id in contacts ==>
      contacts[id].id == id && 0 < id < nextContactId && IsUserId(users, contacts[id].ownerId)
  }

  /** Each snapshot sits under its own email and carries that stored user's id. */
  ghost predicate CacheValid(cache: map<string, CacheEntry>, users: map<string, User>)
  {
    forall k :: k in cache ==>
      k == cache[k].snapshot.email && HasIdentity(users, cache[k].snapshot.email, cache[k].snapshot.id)
  }

  class Backend {
    /** The user table, keyed by email (the column is unique). */
    var users: map<string, User>
    /** The contact table, keyed by id. */
    var contacts: map<int, Contact>
    /**
     * The session cache. Its entries are stored under CacheKey(e) = "user:" + e;
     * since that prefixing is injective (CacheKeyInjective), the map is keyed by e.
     */
    var cache: map<string, CacheEntry>
    /** Every token the system has signed. */
    var issued: set<Jwt>
    /** Every mail the SMTP server accepted, in order. */
    var outbox: seq<Mail>
    /** The ids the store assigns to the next user and the next contact. */
    var nextUserId: int
    var nextContactId: int
    /** The clock, in seconds. */
    var now: int
    /** ACCESS_TOKEN_EXPIRE_MINUTES, read once at start-up. */
    const accessTokenExpireMinutes: int

    ghost predicate Valid()
      reads this
    {
      && 0 < nextUserId && 0 < nextContactId
      && UsersValid(users, nextUserId)
      && ContactsValid(contacts, users, nextContactId)
      && CacheValid(cache, users)
    }

    /**
     * What the resolver can hand a handler: a stored user's identity, and
     * the stored row itself whenever the role is present.
     */
    ghost predicate IsResolvedIdentity(u: User)
      reads this
    {
      HasIdentity(users, u.email, u.id) && (u.role.Some? ==> u == users[u.email])
    }

    constructor (expireMinutes: int, startTime: int)
      ensures Valid()
      ensures users == map[] && contacts == map[] && cache == map[]
      ensures issued == {} && outbox == []
      ensures now == startTime && accessTokenExpireMinutes == expireMinutes
    {
      users, contacts, cache := map[], map[], map[];
      issued, outbox := {}, [];
      nextUserId, nextContactId := 1, 1;
      now := startTime;
      accessTokenExpireMinutes := expireMinutes;
    }

    /** Time passes. */
    method AdvanceClock(seconds: nat)
      requires Valid()
      modifies this`now
      ensures Valid()
      ensures now == old(now) + seconds
    {
      now := now + seconds;
    }

    /** jwt.decode: the claims of a token the system signed, while `now` is before its expiry. */
    function Decode(token: Jwt): (r: Option<map<string, string>>)
      reads this
      ensures r.Some? <==> token in issued && now < token.exp
      ensures r.Some? ==> r.value == token.claims
    {
      if token in issued && now < token.exp then Some(token.claims) else None
    }

    /** create_access_token, with the signing recorded. */
    method IssueToken(data: map<string, string>, expiresDelta: Option<int>) returns (t: Jwt)
      requires Valid()
      modifies this`issued
      ensures Valid()
      ensures t == CreateAccessToken(data, expiresDelta, now, accessTokenExpireMinutes)
      ensures issued == old(issued) + {t}
      ensures now < t.exp ==> Decode(t) == Some(t.claims)
    {
      t := CreateAccessToken(data, expiresDelta, now, accessTokenExpireMinutes);
      issued := issued + {t};
    }

    /**
     * get_current_user: decode, then the cache, then the store. A hit writes
     * nothing; a miss that finds the user writes its snapshot for 30 minutes.
     * The purpose tag of the token is not looked at.
     */
    method GetCurrentUser(token: Jwt) returns (r: Result<User>)
      requires Valid()
      modifies this`cache
      ensures Valid()
      ensures Decode(token).None? ==> r == Err(INVALID_TOKEN_401) && cache == old(cache)
      ensures Decode(token).Some? ==>
        var sub := Claim(Decode(token).value, SUB_CLAIM);
        var key := SubjectText(sub);
        match CacheGet(old(cache), key, now)
        case Some(s) => r == Ok(UserFromSnapshot(s)) && cache == old(cache)
        case None =>
          match FindUser(users, sub)
          case None => r == Err(INVALID_TOKEN_401) && cache == old(cache)
          case Some(u) => r == Ok(u) && cache == old(cache)[key := CacheEntry(SnapshotOf(u), now + CACHE_TTL_SECONDS)]
      ensures r.Ok? ==> && Decode(token).Some?
                        && r.value.email == SubjectText(Claim(Decode(token).value, SUB_CLAIM))
                        && IsResolvedIdentity(r.value)
    {
      var payload := Decode(token);
      if payload.None? {
        return Err(INVALID_TOKEN_401);
      }
      var sub := Claim(payload.value, SUB_CLAIM);
      var key := SubjectText(sub);
      var hit := CacheGet(cache, key, now);
      if hit.Some? {
        return Ok(UserFromSnapshot(hit.value));
      }
      var found := FindUser(users, sub);
      if found.None? {
        return Err(INVALID_TOKEN_401);
      }
      var u := found.value;
      cache := cache[key := CacheEntry(SnapshotOf(u), now + CACHE_TTL_SECONDS)];
      r := Ok(u);
    }

    /** read_users_me: decode, then the store only; the cache is neither read nor written. */
    method ReadUsersMe(token: Jwt) returns (r: Result<User>)
      ensures Decode(token).None? ==> r == Err(INVALID_TOKEN_401)
      ensures Decode(token).Some? ==>
        var found := FindUser(users, Claim(Decode(token).value, SUB_CLAIM));
        (found.None? ==> r == Err(INVALID_AUTH_CREDENTIALS_401)) && (found.Some? ==> r == Ok(found.value))
    {
      var payload := Decode(token);
      if payload.None? {
        return Err(INVALID_TOKEN_401);
      }
      var found := FindUser(users, Claim(payload.value, SUB_CLAIM));
      if found.None? {
        return Err(INVALID_AUTH_CREDENTIALS_401);
      }
      r := Ok(found.value);
    }

    /**
     * register_user: 409 if the email is taken; otherwise one unverified
     * user, ADMIN iff `isAdmin`, and a verification token for that email.
     * If the SMTP server refuses the mail the request fails with 500, but
     * the user stays registered.
     */
    method Register(email: string, password: string, isAdmin: bool, salt: nat, mailAccepted: bool)
      returns (r: Result<string>)
      requires Valid()
      modifies this`users, this`nextUserId, this`issued, this`outbox
      ensures Valid()
      ensures email in old(users) ==>
        && r == Err(USER_EXISTS_409)
        && users == old(users) && nextUserId == old(nextUserId)
        && issued == old(issued) && outbox == old(outbox)
      ensures email !in old(users) ==>
        var token := CreateAccessToken(map[SUB_CLAIM := email], None, now, accessTokenExpireMinutes);
        && users == old(users)[email := InsertedUser(old(nextUserId), email, Hash(password, salt),
                                                     Some(false), Some(if isAdmin then ADMIN else USER))]
        && nextUserId == old(nextUserId) + 1
        && issued == old(issued) + {token}
        && (mailAccepted ==> outbox == old(outbox) + [Mail(email, VerificationMail, token)] && r == Ok(REGISTERED_MESSAGE))
        && (!mailAccepted ==> outbox == old(outbox) && r == Err(UNHANDLED_500))
    {
      if FindUser(users, Some(email)).Some? {
        return Err(USER_EXISTS_409);
      }
      var user := InsertedUser(nextUserId, email, Hash(password, salt),
                               Some(false), Some(if isAdmin then ADMIN else USER));
      ghost var before := users;
      users := users[email := user];
      nextUserId := nextUserId + 1;
      forall id | id in contacts
        ensures IsUserId(users, contacts[id].ownerId)
      {
        var e :| e in before && before[e].id == contacts[id].ownerId;
        assert users[e] == before[e];
      }
      var token := IssueToken(map[SUB_CLAIM := email], None);
      if !mailAccepted {
        return Err(UNHANDLED_500);
      }
      outbox := outbox + [Mail(email, VerificationMail, token)];
      r := Ok(REGISTERED_MESSAGE);
    }

    /**
     * verify_email: 400 on a token that does not decode or names no user;
     * otherwise that one user becomes verified. The purpose tag is not looked at.
     */
    method VerifyEmail(token: Jwt) returns (r: Result<string>)
      requires Valid()
      modifies this`users
      ensures Valid()
      ensures Decode(token).None? ==> r == Err(VERIFY_INVALID_400) && users == old(users)
      ensures Decode(token).Some? ==>
        var sub := Claim(Decode(token).value, SUB_CLAIM);
        && (FindUser(old(users), sub).None? ==> r == Err(VERIFY_INVALID_400) && users == old(users))
        && (FindUser(old(users), sub).Some? ==>
              && r == Ok(VERIFIED_MESSAGE)
              && users == old(users)[sub.value := old(users)[sub.value].(isVerified := true)])
    {
      var payload := Decode(token);
      if payload.None? {
        return Err(VERIFY_INVALID_400);
      }
      var sub := Claim(payload.value, SUB_CLAIM);
      var found := FindUser(users, sub);
      if found.None? {
        return Err(VERIFY_INVALID_400);
      }
      ghost var before := users;
      users := users[sub.value := found.value.(isVerified := true)];
      forall id | id in contacts
        ensures IsUserId(users, contacts[id].ownerId)
      {
        var e :| e in before && before[e].id == contacts[id].ownerId;
        assert users[e].id == before[e].id;
      }
      r := Ok(VERIFIED_MESSAGE);
    }

    /**
     * update_avatar as written. The gate passes an ADMIN row, whose role the
     * store loads as text. The URL is then set on the in-memory object only,
     * since the users table has no avatar_url column, so the commit writes
     * nothing; `current_user.role.value` raises AttributeError on the text,
     * and the handler's own `except` answers 500 before the cache is written.
     * No table and no cache entry changes on any path.
     */
    method UpdateAvatarAsWritten(currentUser: User, upload: UploadOutcome) returns (r: Result<AvatarResponse>)
      requires Valid() && IsResolvedIdentity(currentUser)
      ensures users == old(users) && cache == old(cache)
      ensures !IsAdmin(currentUser) ==> r == Err(AVATAR_NOT_ADMIN_403)
      ensures IsAdmin(currentUser) && upload.UploadFailed? ==>
        r == Err(HttpError(500, AVATAR_ERROR_PREFIX + upload.reason))
      ensures IsAdmin(currentUser) && upload.Uploaded? ==>
        r == Err(HttpError(500, AVATAR_ERROR_PREFIX + STR_HAS_NO_VALUE))
    {
      var role := LoadedRole(currentUser.role);
      if !RoleEquals(role, ADMIN) {
        return Err(AVATAR_NOT_ADMIN_403);
      }
      match upload
      case UploadFailed(reason) =>
        r := Err(HttpError(500, AVATAR_ERROR_PREFIX + reason));
      case Uploaded(_) =>
        match RoleValueAttribute(role)
        case None =>
          r := Err(HttpError(500, AVATAR_ERROR_PREFIX + STR_HAS_NO_VALUE));
    }

    /**
     * update_avatar as evidently intended, with the role written to the
     * snapshot as its value text: 403 unless ADMIN; 500 if the upload fails;
     * otherwise the avatar URL is stored and a six-field snapshot is cached.
     */
    method UpdateAvatar(currentUser: User, upload: UploadOutcome) returns (r: Result<AvatarResponse>)
      requires Valid() && IsResolvedIdentity(currentUser)
      modifies this`users, this`cache
      ensures Valid()
      ensures !IsAdmin(currentUser) ==>
        r == Err(AVATAR_NOT_ADMIN_403) && users == old(users) && cache == old(cache)
      ensures IsAdmin(currentUser) && upload.UploadFailed? ==>
        && r == Err(HttpError(500, AVATAR_ERROR_PREFIX + upload.reason))
        && users == old(users) && cache == old(cache)
      ensures IsAdmin(currentUser) && upload.Uploaded? ==>
        var u := currentUser.(avatarUrl := Some(upload.secureUrl));
        && r == Ok(AvatarResponse(AVATAR_UPDATED_MESSAGE, upload.secureUrl))
        && users == old(users)[currentUser.email := u]
        && cache == old(cache)[currentUser.email := CacheEntry(AvatarSnapshotOf(u), now + CACHE_TTL_SECONDS)]
    {
      if currentUser.role != Some(ADMIN) {
        return Err(AVATAR_NOT_ADMIN_403);
      }
      match upload
      case UploadFailed(reason) =>
        r := Err(HttpError(500, AVATAR_ERROR_PREFIX + reason));
      case Uploaded(url) =>
        var u := currentUser.(avatarUrl := Some(url));
        ghost var before := users;
        users := users[currentUser.email := u];
        cache := cache[u.email := CacheEntry(AvatarSnapshotOf(u), now + CACHE_TTL_SECONDS)];
        forall id | id in contacts
          ensures IsUserId(users, contacts[id].ownerId)
        {
          var e :| e in before && before[e].id == contacts[id].ownerId;
          assert users[e].id == before[e].id;
        }
        r := Ok(AvatarResponse(AVATAR_UPDATED_MESSAGE, url));
    }

    /**
     * login: 401 "Invalid credentials" when authentication fails, checked
     * before 401 "Email not verified"; otherwise the snapshot is cached and
     * a bearer token for the user's email is issued.
     */
    method Login(username: string, password: string) returns (r: Result<TokenResponse>)
      requires Valid()
      modifies this`cache, this`issued
      ensures Valid()
      ensures AuthenticateUser(users, username, password).None? ==>
        r == Err(INVALID_CREDENTIALS_401) && cache == old(cache) && issued == old(issued)
      ensures AuthenticateUser(users, username, password).Some? &&
              !AuthenticateUser(users, username, password).value.isVerified ==>
        r == Err(NOT_VERIFIED_401) && cache == old(cache) && issued == old(issued)
      ensures AuthenticateUser(users, username, password).Some? &&
              AuthenticateUser(users, username, password).value.isVerified ==>
        var u := AuthenticateUser(users, username, password).value;
        var token := CreateAccessToken(map[SUB_CLAIM := u.email], None, now, accessTokenExpireMinutes);
        && r == Ok(TokenResponse(token, BEARER))
        && cache == old(cache)[u.email := CacheEntry(SnapshotOf(u), now + CACHE_TTL_SECONDS)]
        && issued == old(issued) + {token}
    {
      var user := AuthenticateUser(users, username, password);
      if user.None? {
        return Err(INVALID_CREDENTIALS_401);
      }
      var u := user.value;
      if !u.isVerified {
        return Err(NOT_VERIFIED_401);
      }
      cache := cache[u.email := CacheEntry(SnapshotOf(u), now + CACHE_TTL_SECONDS)];
      var token := IssueToken(map[SUB_CLAIM := u.email], None);
      r := Ok(TokenResponse(token, BEARER));
    }

    /**
     * forgot_password: 404 for an unknown email; otherwise a token tagged
     * "password_reset" that expires in 15 minutes, mailed to the user.
     */
    method ForgotPassword(email: string, mailAccepted: bool) returns (r: Result<string>)
      requires Valid()
      modifies this`issued, this`outbox
      ensures Valid()
      ensures email !in users ==> r == Err(USER_NOT_FOUND_404) && issued == old(issued) && outbox == old(outbox)
      ensures email in users ==>
        var token := CreateAccessToken(map[SUB_CLAIM := email, TYPE_CLAIM := PASSWORD_RESET_TYPE],
                                       Some(RESET_TOKEN_MINUTES * SECONDS_PER_MINUTE), now, accessTokenExpireMinutes);
        && issued == old(issued) + {token}
        && (mailAccepted ==> outbox == old(outbox) + [Mail(email, PasswordResetMail, token)] && r == Ok(RESET_SENT_MESSAGE))
        && (!mailAccepted ==> outbox == old(outbox) && r == Err(UNHANDLED_500))
    {
      if FindUser(users, Some(email)).None? {
        return Err(USER_NOT_FOUND_404);
      }
      var token := IssueToken(map[SUB_CLAIM := email, TYPE_CLAIM := PASSWORD_RESET_TYPE],
                              Some(RESET_TOKEN_MINUTES * SECONDS_PER_MINUTE));
      if !mailAccepted {
        return Err(UNHANDLED_500);
      }
      outbox := outbox + [Mail(email, PasswordResetMail, token)];
      r := Ok(RESET_SENT_MESSAGE);
    }

    /**
     * reset_password: 400 if the token does not decode, 400 if its purpose
     * tag is not "password_reset" (both before the store is touched), 404 for
     * an unknown subject; otherwise only the hash changes and the snapshot is
     * refreshed.
     */
    method ResetPassword(token: Jwt, newPassword: string, salt: nat) returns (r: Result<string>)
      requires Valid()
      modifies this`users, this`cache
      ensures Valid()
      ensures Decode(token).None? ==>
        r == Err(RESET_BAD_TOKEN_400) && users == old(users) && cache == old(cache)
      ensures Decode(token).Some? && Claim(Decode(token).value, TYPE_CLAIM) != Some(PASSWORD_RESET_TYPE) ==>
        r == Err(RESET_BAD_TYPE_400) && users == old(users) && cache == old(cache)
      ensures Decode(token).Some? && Claim(Decode(token).value, TYPE_CLAIM) == Some(PASSWORD_RESET_TYPE) ==>
        var sub := Claim(Decode(token).value, SUB_CLAIM);
        && (FindUser(old(users), sub).None? ==>
              r == Err(USER_NOT_FOUND_404) && users == old(users) && cache == old(cache))
        && (FindUser(old(users), sub).Some? ==>
              var u := old(users)[sub.value].(hashedPassword := Hash(newPassword, salt));
              && r == Ok(RESET_DONE_MESSAGE)
              && users == old(users)[sub.value := u]
              && cache == old(cache)[sub.value := CacheEntry(SnapshotOf(u), now + CACHE_TTL_SECONDS)])
    {
      var payload := Decode(token);
      if payload.None? {
        return Err(RESET_BAD_TOKEN_400);
      }
      var sub := Claim(payload.value, SUB_CLAIM);
      if Claim(payload.value, TYPE_CLAIM) != Some(PASSWORD_RESET_TYPE) {
        return Err(RESET_BAD_TYPE_400);
      }
      var found := FindUser(users, sub);
      if found.None? {
        return Err(USER_NOT_FOUND_404);
      }
      var u := found.value.(hashedPassword := Hash(newPassword, salt));
      ghost var before := users;
      users := users[sub.value := u];
      cache := cache[sub.value := CacheEntry(SnapshotOf(u), now + CACHE_TTL_SECONDS)];
      forall id | id in contacts
        ensures IsUserId(users, contacts[id].ownerId)
      {
        var e :| e in before && before[e].id == contacts[id].ownerId;
        assert users[e].id == before[e].id;
      }
      r := Ok(RESET_DONE_MESSAGE);
    }

    // ------------------------------------------------------------ contacts

    /** `db.query(Contact).filter(Contact.id == id, Contact.owner_id == ownerId).first()`. */
    function OwnedContact(id: int, ownerId: int): (r: Option<Contact>)
      reads this
      ensures r.Some? <==> id in contacts && contacts[id].ownerId == ownerId
      ensures r.Some? ==> r.value == contacts[id]
    {
      if id in contacts && contacts[id].ownerId == ownerId then Some(contacts[id]) else None
    }

    /** create_contact: a new row with a fresh id, owned by the current user. */
    method CreateContact(currentUser: User, data: ContactCreate) returns (r: ContactResponse)
      requires Valid() && IsResolvedIdentity(currentUser)
      modifies this`contacts, this`nextContactId
      ensures Valid()
      ensures old(nextContactId) !in old(contacts)
      ensures contacts == old(contacts)[old(nextContactId) := NewContact(old(nextContactId), data, currentUser.id)]
      ensures nextContactId == old(nextContactId) + 1
      ensures r == ResponseOf(data, old(nextContactId))
    {
      var c := NewContact(nextContactId, data, currentUser.id);
      assert users[currentUser.email].id == currentUser.id;
      contacts := contacts[nextContactId := c];
      nextContactId := nextContactId + 1;
      r := ToResponse(c);
    }

    /** read_contacts: exactly the contacts the current user owns. */
    method ReadContacts(currentUser: User) returns (rs: set<ContactResponse>)
      ensures forall r :: r in rs <==>
        exists id :: id in contacts && contacts[id].ownerId == currentUser.id && r == ToResponse(contacts[id])
    {
      rs := set id | id in contacts && contacts[id].ownerId == currentUser.id :: ToResponse(contacts[id]);
    }

    /** read_contact: the contact if it exists and is owned by the current user, else 404. */
    method ReadContact(currentUser: User, id: int) returns (r: Result<ContactResponse>)
      ensures r.Ok? <==> id in contacts && contacts[id].ownerId == currentUser.id
      ensures r.Ok? ==> r.value == ToResponse(contacts[id])
      ensures r.Err? ==> r.error == CONTACT_NOT_FOUND_404
    {
      var contact := OwnedContact(id, currentUser.id);
      if contact.None? {
        return Err(CONTACT_NOT_FOUND_404);
      }
      r := Ok(ToResponse(contact.value));
    }

    /** update_contact: 404 unless owned; otherwise every ContactCreate field is overwritten, id and owner kept. */
    method UpdateContact(currentUser: User, id: int, data: ContactCreate) returns (r: Result<ContactResponse>)
      requires Valid()
      modifies this`contacts
      ensures Valid()
      ensures old(OwnedContact(id, currentUser.id)).None? ==>
        r == Err(CONTACT_NOT_FOUND_404) && contacts == old(contacts)
      ensures old(OwnedContact(id, currentUser.id)).Some? ==>
        var c := NewContact(id, data, currentUser.id);
        && contacts == old(contacts)[id := c]
        && r == Ok(ResponseOf(data, id))
    {
      var contact := OwnedContact(id, currentUser.id);
      if contact.None? {
        return Err(CONTACT_NOT_FOUND_404);
      }
      var updated := ApplyContactData(contact.value, data);
      assert updated == NewContact(id, data, currentUser.id);
      contacts := contacts[id := updated];
      r := Ok(ToResponse(updated));
    }

    /** delete_contact: 404 unless owned; otherwise the row is removed and returned. */
    method DeleteContact(currentUser: User, id: int) returns (r: Result<ContactResponse>)
      requires Valid()
      modifies this`contacts
      ensures Valid()
      ensures old(OwnedContact(id, currentUser.id)).None? ==>
        r == Err(CONTACT_NOT_FOUND_404) && contacts == old(contacts)
      ensures old(OwnedContact(id, currentUser.id)).Some? ==>
        r == Ok(ToResponse(old(contacts)[id])) && contacts == old(contacts) - {id}
    {
      var contact := OwnedContact(id, currentUser.id);
      if contact.None? {
        return Err(CONTACT_NOT_FOUND_404);
      }
      contacts := contacts - {id};
      r := Ok(ToResponse(contact.value));
    }
  }
}
