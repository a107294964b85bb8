/**
 * Clients of App.Backend: request sequences whose outcome follows from the
 * handlers' contracts alone, one method per behaviour of the flows.
 */
module Scenarios {
  import opened Wrappers
  import opened Passwords
  import opened Models
  import opened Tokens
  import opened App

  /** The token of the last mail handed to the SMTP server. */
  function LastMailToken(outbox: seq<Mail>): Jwt
    requires |outbox| > 0
  {
    outbox[|outbox| - 1].token
  }

  /** A token is valid until its expiry and rejected from then on. */
  method TokenExpires(b: Backend, email: string, lifetime: int) returns (before: Option<map<string, string>>, after: Option<map<string, string>>)
    requires b.Valid() && lifetime > 0
    modifies b
    ensures before.Some? && Claim(before.value, SUB_CLAIM) == Some(email)
    ensures after.None?
  {
    var t := b.IssueToken(map[SUB_CLAIM := email], Some(lifetime));
    SubjectCarried(email, Some(lifetime), old(b.now), b.accessTokenExpireMinutes);
    before := b.Decode(t);
    b.AdvanceClock(lifetime);
    after := b.Decode(t);
  }

  /** Registering the same email twice: the second attempt gets 409 and adds nobody. */
  method RegisterTwice(b: Backend, email: string, p1: string, p2: string, admin: bool, s1: nat, s2: nat)
    returns (first: Result<string>, second: Result<string>)
    requires b.Valid() && email !in b.users
    modifies b
    ensures first == Ok(REGISTERED_MESSAGE)
    ensures second == Err(USER_EXISTS_409)
    ensures b.users.Keys == old(b.users.Keys) + {email}
    ensures Verify(p1, b.users[email].hashedPassword) && !b.users[email].isVerified
  {
    first := b.Register(email, p1, admin, s1, true);
    second := b.Register(email, p2, false, s2, true);
  }

  /**
   * Before verification, the right password gets "Email not verified" and a
   * wrong one "Invalid credentials": the password is checked first.
   */
  method LoginBeforeVerification(b: Backend, email: string, password: string, wrong: string, salt: nat)
    returns (right: Result<TokenResponse>, bad: Result<TokenResponse>)
    requires b.Valid() && email !in b.users && wrong != password
    modifies b
    ensures right == Err(NOT_VERIFIED_401)
    ensures bad == Err(INVALID_CREDENTIALS_401)
  {
    var reg := b.Register(email, password, false, salt, true);
    right := b.Login(email, password);
    bad := b.Login(email, wrong);
  }

  /**
   * Two resolutions of one token at the same instant: the second is a cache
   * hit that writes nothing, and both agree on id and email.
   */
  method MissThenHit(b: Backend, token: Jwt) returns (first: Result<User>, second: Result<User>)
    requires b.Valid()
    modifies b
    ensures first.Ok? ==> second.Ok? && second.value.id == first.value.id && second.value.email == first.value.email
    ensures first.Err? ==> second == first
  {
    first := b.GetCurrentUser(token);
    ghost var mid := b.cache;
    second := b.GetCurrentUser(token);
    assert b.cache == mid;
  }

  /**
   * The whole flow: register, verify with the mailed token, log in, resolve
   * the bearer token, create a contact; another owner gets 404 for it; after
   * a delete its owner gets 404 too.
   */
  method EndToEnd(b: Backend, email: string, password: string, salt: nat, data: ContactCreate, stranger: User)
    returns (created: ContactResponse, strangerRead: Result<ContactResponse>, ownRead: Result<ContactResponse>,
             deleted: Result<ContactResponse>, afterDelete: Result<ContactResponse>)
    requires b.Valid() && email !in b.users && b.accessTokenExpireMinutes > 0
    requires stranger.id != b.nextUserId
    modifies b
    ensures created == ResponseOf(data, created.id)
    ensures strangerRead == Err(CONTACT_NOT_FOUND_404)
    ensures ownRead == Ok(created)
    ensures deleted == Ok(created)
    ensures afterDelete == Err(CONTACT_NOT_FOUND_404)
  {
    var userId := b.nextUserId;
    var reg := b.Register(email, password, false, salt, true);
    var verificationToken := LastMailToken(b.outbox);
    SubjectCarried(email, None, b.now, b.accessTokenExpireMinutes);
    var verified := b.VerifyEmail(verificationToken);
    assert verified.Ok?;
    var login := b.Login(email, password);
    assert login.Ok?;
    SubjectCarried(email, None, b.now, b.accessTokenExpireMinutes);
    var me := b.GetCurrentUser(login.value.accessToken);
    assert me.Ok? && me.value.id == userId;
    created := b.CreateContact(me.value, data);
    strangerRead := b.ReadContact(stranger, created.id);
    ownRead := b.ReadContact(me.value, created.id);
    deleted := b.DeleteContact(me.value, created.id);
    afterDelete := b.ReadContact(me.value, created.id);
  }

  /** Updating a contact keeps its id and replaces every field; a read then returns the new fields. */
  method UpdateThenRead(b: Backend, owner: User, id: int, data: ContactCreate)
    returns (updated: Result<ContactResponse>, read: Result<ContactResponse>)
    requires b.Valid() && id in b.contacts && b.contacts[id].ownerId == owner.id
    modifies b
    ensures updated == Ok(ResponseOf(data, id))
    ensures read == updated
  {
    updated := b.UpdateContact(owner, id, data);
    read := b.ReadContact(owner, id);
  }

  /** Verifying twice with one token: the second call succeeds and changes nothing. */
  method VerifyTwice(b: Backend, token: Jwt)
    returns (first: Result<string>, second: Result<string>, ghost afterFirst: map<string, User>)
    requires b.Valid()
    modifies b
    ensures second == first
    ensures b.users == afterFirst
    ensures b.users.Keys == old(b.users.Keys)
  {
    first := b.VerifyEmail(token);
    afterFirst := b.users;
    second := b.VerifyEmail(token);
  }

  /** Deleting an owned contact: the delete returns it, and a read of the same id then gets 404. */
  method DeleteThenRead(b: Backend, owner: User, id: int)
    returns (deleted: Result<ContactResponse>, read: Result<ContactResponse>)
    requires b.Valid() && id in b.contacts && b.contacts[id].ownerId == owner.id
    modifies b
    ensures deleted == Ok(ToResponse(old(b.contacts[id])))
    ensures read == Err(CONTACT_NOT_FOUND_404)
    ensures id !in b.contacts
  {
    deleted := b.DeleteContact(owner, id);
    read := b.ReadContact(owner, id);
  }

  /**
   * The purpose tag is only looked at by the reset redeem: a reset token is
   * also accepted as a bearer token and as a verification token.
   */
  method ResetTokenAccepted(b: Backend, email: string)
    returns (asBearer: Result<User>, asVerification: Result<string>)
    requires b.Valid() && email in b.users
    modifies b
    ensures asBearer.Ok? && asBearer.value.email == email
    ensures asVerification == Ok(VERIFIED_MESSAGE)
  {
    var sent := b.ForgotPassword(email, true);
    var resetToken := LastMailToken(b.outbox);
    ResetTokenShape(email, b.now, b.accessTokenExpireMinutes);
    asBearer := b.GetCurrentUser(resetToken);
    asVerification := b.VerifyEmail(resetToken);
  }

  /**
   * The verification token is an ordinary bearer token: before verifying,
   * a new user can already be resolved with it.
   */
  method VerificationTokenIsBearer(b: Backend, email: string, password: string, salt: nat)
    returns (me: Result<User>)
    requires b.Valid() && email !in b.users && b.accessTokenExpireMinutes > 0
    modifies b
    ensures me.Ok? && me.value.email == email && !me.value.isVerified
  {
    var reg := b.Register(email, password, false, salt, true);
    var verificationToken := LastMailToken(b.outbox);
    SubjectCarried(email, None, b.now, b.accessTokenExpireMinutes);
    me := b.GetCurrentUser(verificationToken);
  }

  /** The reset redeem refuses a login token, which carries no purpose tag. */
  method LoginTokenRefusedByReset(b: Backend, email: string, password: string, newPassword: string, salt: nat)
    returns (redeem: Result<string>)
    requires b.Valid() && email in b.users && b.users[email].isVerified && b.accessTokenExpireMinutes > 0
    requires Verify(password, b.users[email].hashedPassword)
    modifies b
    ensures redeem == Err(RESET_BAD_TYPE_400)
    ensures email in b.users && Verify(password, b.users[email].hashedPassword)
  {
    var login := b.Login(email, password);
    SubjectCarried(email, None, b.now, b.accessTokenExpireMinutes);
    redeem := b.ResetPassword(login.value.accessToken, newPassword, salt);
  }

  /** After a reset, the new password authenticates and the old one does not. */
  method ResetThenLogin(b: Backend, email: string, oldPassword: string, newPassword: string, salt: nat)
    returns (withNew: Result<TokenResponse>, withOld: Result<TokenResponse>)
    requires b.Valid() && email in b.users && b.users[email].isVerified && oldPassword != newPassword
    modifies b
    ensures withNew.Ok? && withNew.value.tokenType == BEARER
    ensures withOld == Err(INVALID_CREDENTIALS_401)
  {
    var sent := b.ForgotPassword(email, true);
    var resetToken := LastMailToken(b.outbox);
    ResetTokenShape(email, b.now, b.accessTokenExpireMinutes);
    var reset := b.ResetPassword(resetToken, newPassword, salt);
    withNew := b.Login(email, newPassword);
    withOld := b.Login(email, oldPassword);
  }

  /**
   * An administrator who has just logged in is resolved from the cache
   * without a role, so both the role gate and the avatar update refuse them.
   */
  method AdminRefusedAfterLogin(b: Backend, email: string, password: string, upload: UploadOutcome)
    returns (gate: Result<User>, avatar: Result<AvatarResponse>)
    requires b.Valid() && email in b.users && b.users[email].isVerified && IsAdmin(b.users[email])
    requires Verify(password, b.users[email].hashedPassword) && b.accessTokenExpireMinutes > 0
    modifies b
    ensures gate == Err(NOT_ADMIN_403)
    ensures avatar == Err(AVATAR_NOT_ADMIN_403)
  {
    var login := b.Login(email, password);
    SubjectCarried(email, None, b.now, b.accessTokenExpireMinutes);
    var me := b.GetCurrentUser(login.value.accessToken);
    gate := GetCurrentAdmin(me.value);
    avatar := b.UpdateAvatar(me.value, upload);
  }

  /**
   * An administrator resolved from the store may change the avatar; the
   * cache then holds a snapshot with role and URL, yet the next resolution
   * of the same token reads neither back.
   */
  method AvatarNotReadBack(b: Backend, token: Jwt, url: string)
    returns (me: Result<User>, avatar: Result<AvatarResponse>, again: Result<User>)
    requires b.Valid() && b.Decode(token).Some?
    requires var sub := Claim(b.Decode(token).value, SUB_CLAIM);
      sub.Some? && sub.value !in b.cache && sub.value in b.users && IsAdmin(b.users[sub.value])
    modifies b
    ensures avatar == Ok(AvatarResponse(AVATAR_UPDATED_MESSAGE, url))
    ensures me.Ok? && me.value.email in b.cache && b.cache[me.value.email].snapshot.avatarUrl == Some(url)
    ensures again.Ok? && again.value.avatarUrl == None && again.value.role == None
  {
    ghost var e := Claim(b.Decode(token).value, SUB_CLAIM).value;
    me := b.GetCurrentUser(token);
    assert me == Ok(b.users[e]);
    avatar := b.UpdateAvatar(me.value, Uploaded(url));
    assert e in b.cache;
    again := b.GetCurrentUser(token);
  }

  /**
   * As written, an administrator resolved from the store gets 500 from the
   * avatar update; no row changes and the cache keeps the resolver's
   * four-field snapshot.
   */
  method AvatarFailsAsWritten(b: Backend, token: Jwt, url: string)
    returns (me: Result<User>, avatar: Result<AvatarResponse>)
    requires b.Valid() && b.Decode(token).Some?
    requires var sub := Claim(b.Decode(token).value, SUB_CLAIM);
      sub.Some? && sub.value !in b.cache && sub.value in b.users && IsAdmin(b.users[sub.value])
    modifies b
    ensures avatar == Err(HttpError(500, AVATAR_ERROR_PREFIX + STR_HAS_NO_VALUE))
    ensures b.users == old(b.users)
    ensures me.Ok? && me.value.email in b.cache && b.cache[me.value.email].snapshot.role == None
  {
    ghost var e := Claim(b.Decode(token).value, SUB_CLAIM).value;
    me := b.GetCurrentUser(token);
    assert me == Ok(b.users[e]);
    avatar := b.UpdateAvatarAsWritten(me.value, Uploaded(url));
  }
}
