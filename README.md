# Contact-management backend: authentication, session cache and owner-scoped contacts

This project models the core of a contact-management web backend. Users register with email and password, verify their email with a mailed token, log in for a bearer token, reset their password with a purpose-tagged token, and manage their own contacts. It also models the session cache that the resolver of the bearer token reads before the user table.

The state is one object, `App.Backend`:

- `users`: the user table, keyed by email, which is unique.
- `contacts`: the contact table, keyed by id.
- `cache`: the Redis session cache. An entry is a snapshot plus its expiry time.
- `issued`: the tokens the system has signed.
- `outbox`: the mails the SMTP server accepted.
- two id counters, and the clock `now` in seconds.

Each HTTP handler is a method of `Backend`. It returns `Ok(body)` or `Err(HttpError(status, detail))` with the handler's own status codes and messages. Its `modifies` clause names exactly the tables it may write. Its `ensures` clauses give the new value of each of those tables and the response, case by case, in the order the handler checks. Every handler keeps `Valid()`:

- each user row sits under its own email, has distinct id and carries its column defaults;
- each contact sits under its own id and is owned by a stored user;
- each cache snapshot sits under its own email and carries that stored user's id.

Modules:

- `Wrappers`: `Option`.
- `Passwords`: the hasher. The bcrypt digest is abstracted as a salt plus what was hashed, and is only read through `Verify`.
- `Models`: the records of models.py.
- `Tokens`: `create_access_token`. A token is its claim map (`sub`, `type`) and its `exp` (RFC 7519, sections 4.1.2 and 4.1.4). A token is valid when the system issued it and `now < exp`.
- `App`: the cache snapshots, the role gate, the store lookups, the field-copy loop of the contact update, and the `Backend` class.
- `Scenarios`: client methods that run request sequences against `Backend`. Their outcomes follow from the handlers' contracts alone.

The code has two quirks that the model keeps:

- On a cache hit, the resolver rebuilds the user from only id, email, hash and verified flag. The rebuilt user therefore has no role, and never passes the role gate.
- Only the reset redeem looks at the token's `type` claim.

In these places the documented design and the code differ, and the model follows the code:

- A password-reset token is also accepted as a bearer token and as a verification token (`Scenarios.ResetTokenAccepted`). The verification token is also an ordinary 30-minute bearer token, so an unverified user can already be resolved with it (`Scenarios.VerificationTokenIsBearer`).
- An ADMIN who has just logged in is resolved from the cache without a role. For the cache entry's 30 minutes, both the role gate and the avatar update answer 403 (`Scenarios.AdminRefusedAfterLogin`).
- If the SMTP server refuses the verification mail, registration fails with 500, and the user stays registered (`App.Backend.Register`).

The code has three defects, listed under "## Findings". Each has a member that models the code as written. The rest of the model uses the corrected behaviour:

- Creating a contact always fails, because the Contact table has no `additional_info` column.
- An avatar update that passes the role gate always ends in 500. The stored role is text, which has no `.value`.
- The users table has no `avatar_url` column, so an avatar URL is never stored. The model's `avatarUrl` field stands for the added column.

## Model

| member | source | states |
|---|---|---|
| `Passwords.Hash` | main.py:117-141 | the digest of `p` verifies `p` and no other plaintext |
| `Models.RoleValue` | models.py:11-16 | USER has value "user" and ADMIN has value "admin", both ways |
| `Models.RoleFromValue` | models.py:11-16 | a string names a role exactly when it is "user" or "admin", and then names the role with that value |
| `Models.RoleValueRoundTrip` | models.py:11-16 | reading back a role's value gives the role |
| `Models.LoadedRole` | models.py:41 | a row loaded from the `String` role column holds its role's value as text; a user built without a role holds none |
| `Models.RoleValueAttribute` | main.py:499 | `.value` exists exactly on an enumeration member, and is that member's value |
| `Models.LoadedRoleComparesAsEnum` | main.py:484 | on a loaded user, `role == member` holds exactly when the stored role is that member, because UserRole subclasses str |
| `Models.LoadedRoleHasNoValue` | main.py:499 | a loaded user's role never has `.value` |
| `Models.InsertedUser` | models.py:36-44 | an inserted row has is_active true, no avatar, is_verified false unless given true, and role value "user" unless a role is given |
| `Models.AdditionalInfoDefaultsToNone` | models.py:89-94 | a ContactCreate built without additional_info has None there |
| `Models.NewContact` | main.py:256 | the new row carries exactly the request's fields, the given id and the given owner |
| `Models.ResponseOf` | models.py:97-104 | a response carries exactly the given ContactCreate fields and id |
| `Models.ToResponse` | models.py:97-107 | a contact's response carries the contact's ContactCreate fields and its id |
| `Models.ResponseIsCreatePlusId` | models.py:97-104 | every response is its ContactCreate fields plus its id, and nothing else |
| `Models.ToResponseIgnoresOwner` | models.py:97-104 | the response does not reveal the owner |
| `Models.FirstInvalidKeyword` | main.py:256 | the constructor accepts the keywords exactly when every one is an attribute; otherwise it refuses the first keyword that is not |
| `Models.CreateContactRejectedAsWritten` | models.py:63-74 | as declared, the Contact class refuses the keyword arguments of every create request, at `additional_info` |
| `Models.CreateContactAcceptedCorrected` | main.py:256 | with an additional_info column, every create request is accepted and its response is the request plus the id |
| `Tokens.Lifetime` | main.py:97 | the given delta, unless it is absent or zero, in which case ACCESS_TOKEN_EXPIRE_MINUTES minutes |
| `Tokens.DefaultLifetimeIsThirtyMinutes` | main.py:37 | with ACCESS_TOKEN_EXPIRE_MINUTES unset, a token issued without a non-zero delta lives 1800 seconds |
| `Tokens.CreateAccessToken` | main.py:96-98 | exp is now plus the lifetime; every input claim except "exp" is carried unchanged, and no other claim is added |
| `Tokens.Claim` | main.py:184 | `payload.get(name)`: present exactly when the claim is, with its value |
| `Tokens.SubjectCarried` | tests/test_auth.py:6-10 | a token for `{"sub": email}` decodes to that subject and has no purpose tag |
| `Tokens.ResetTokenShape` | main.py:597-600 | the reset token carries the email, the tag "password_reset" and exp now + 15 minutes |
| `App.CacheKeyInjective` | main.py:187 | two emails get the same cache key exactly when they are equal |
| `App.SubjectText` | main.py:187 | the cache key text is the subject, or "None" when the token has no subject |
| `App.CacheGet` | main.py:187-188 | a hit exactly when the key is present and its 30-minute TTL has not run out |
| `App.SnapshotOf` | main.py:204-209 | the snapshot holds the user's id, email, hash and verified flag, with no role or avatar key |
| `App.AvatarSnapshotOf` | main.py:494-501 | the avatar snapshot also holds the role and the avatar URL |
| `App.UserFromSnapshot` | main.py:189-196 | the rebuilt user has the snapshot's four fields, no role, no avatar and no active flag, and is not an admin |
| `App.HitRebuildAgrees` | main.py:189-209 | rebuilding from either snapshot of a user keeps id, email, hash and verified flag, and always yields no role and no avatar, even from the six-field snapshot |
| `App.IsAdmin` | main.py:484 | the model's admin test agrees with Python's `role == UserRole.ADMIN` on the user the resolver hands over |
| `App.GetCurrentAdmin` | main.py:397-399 | passes exactly when the role is ADMIN, and then returns the user unchanged; otherwise 403 "Not enough permissions" |
| `App.FindUser` | main.py:103-114 | the row of the subject's email, if stored; a missing subject finds no row |
| `App.AuthenticateUser` | main.py:156-159 | no user exactly when the email is unknown or the password fails verification; otherwise the stored user |
| `App.ModelDump` | main.py:321 | each ContactCreate field exactly once, with its value |
| `App.SetAttr` | main.py:322 | the named attribute takes the value and every other attribute, the id and the owner stay |
| `App.ApplyContactData` | main.py:321-322 | after the loop, every ContactCreate field equals the request's, and the id and owner are kept |
| `App.Backend.constructor` | main.py:35-37 | an empty store, empty cache and no issued tokens, with the configured token lifetime |
| `App.Backend.AdvanceClock` | main.py:97 | the clock moves forward by the given seconds |
| `App.Backend.Decode` | main.py:183 | a token decodes exactly when the system issued it and it has not expired, and yields its claims |
| `App.Backend.IssueToken` | main.py:85-100 | the token is create_access_token's and is recorded as signed, so it decodes until its expiry |
| `App.Backend.GetCurrentUser` | main.py:162-218 | 401 on a bad token; on a hit, the rebuilt user with no write; on a miss with no such user, 401 with no write; on a miss with the user present, the stored user and its snapshot written for 30 minutes; the resolved id and email are the stored user's on both paths |
| `App.Backend.ReadUsersMe` | main.py:373-381 | 401 "Invalid token" on a bad token, 401 "Invalid authentication credentials" for an unknown subject, else the stored user; the cache is not used |
| `App.Backend.Register` | main.py:418-436 | 409 and nothing changed if the email exists; otherwise exactly one new unverified user, ADMIN iff is_admin, and a verification token whose sub is that email, mailed or answered with 500 |
| `App.Backend.VerifyEmail` | main.py:454-464 | 400 on a bad token or unknown subject with nothing changed; otherwise only the subject's row changes, to verified |
| `App.Backend.UpdateAvatarAsWritten` | main.py:484-510 | 403 unless the loaded role equals ADMIN, or 500 on a failed upload; otherwise `.value` fails with 500 "Error uploading avatar: 'str' object has no attribute 'value'"; on every path the users table and the cache are unchanged, since the URL is set on no column |
| `App.Backend.UpdateAvatar` | main.py:484-510 | the intended handler, on a users table with an avatar_url column: 403 unless ADMIN and 500 on a failed upload, both with no change; otherwise the avatar URL is stored and the six-field snapshot is cached |
| `App.Backend.Login` | main.py:529-551 | 401 "Invalid credentials" when authentication fails, checked before 401 "Email not verified"; otherwise the user's snapshot is cached and a bearer token with sub = the user's email is issued |
| `App.Backend.ForgotPassword` | main.py:592-605 | 404 for an unknown email; otherwise a token tagged "password_reset" with a 15-minute lifetime, mailed or answered with 500 |
| `App.Backend.ResetPassword` | main.py:623-654 | 400 on a bad token and 400 on a wrong purpose tag, both before the store is read; 404 for an unknown subject; otherwise only the hash changes and the snapshot is refreshed |
| `App.Backend.OwnedContact` | main.py:294 | the contact exactly when the id exists and the given user owns it |
| `App.Backend.CreateContact` | main.py:256-260 | one new row under a fresh id, with the request's fields and owner_id = the current user's id |
| `App.Backend.ReadContacts` | main.py:275 | exactly the contacts whose owner is the current user |
| `App.Backend.ReadContact` | main.py:294-297 | the contact when it exists and is owned by the current user, else 404 "Contact not found" |
| `App.Backend.UpdateContact` | main.py:318-325 | 404 with no change unless owned; otherwise only that row changes, every ContactCreate field is overwritten, and the id and owner are kept |
| `App.Backend.DeleteContact` | main.py:344-349 | 404 with no change unless owned; otherwise exactly that row is removed and returned |
| `Scenarios.TokenExpires` | main.py:96-100 | an issued token yields its subject before its lifetime has elapsed and is rejected once it has |
| `Scenarios.RegisterTwice` | tests/test_auth.py:26-32 | a second registration of an email is answered with 409 "User already exists" and adds nobody |
| `Scenarios.LoginBeforeVerification` | main.py:529-535 | before verification, the right password gets "Email not verified" and a wrong one "Invalid credentials" |
| `Scenarios.MissThenHit` | main.py:186-216 | a second resolution of the same token agrees with the first on id and email |
| `Scenarios.EndToEnd` | tests/conftest.py:69-94 | register, verify, log in and create a contact; another owner gets 404; after the delete the owner gets 404 too |
| `Scenarios.UpdateThenRead` | tests/test_contacts.py:79-110 | an update keeps the id, replaces the fields, and a read returns the same |
| `Scenarios.VerifyTwice` | main.py:454-462 | verifying twice gives the same answer, and the second call changes nothing |
| `Scenarios.DeleteThenRead` | tests/test_contacts.py:112-143 | the delete returns the contact, and a read of the same id then gets 404 |
| `Scenarios.ResetTokenAccepted` | main.py:182-184 | a reset token is accepted by the resolver and by email verification |
| `Scenarios.VerificationTokenIsBearer` | main.py:433 | before verifying, a new user is resolved with the verification token |
| `Scenarios.LoginTokenRefusedByReset` | main.py:626-629 | a login token is refused by the reset redeem with "Invalid token type", and the password is unchanged |
| `Scenarios.ResetThenLogin` | main.py:636 | after a reset, the new password logs in and the old one does not |
| `Scenarios.AdminRefusedAfterLogin` | main.py:190-195 | an ADMIN resolved right after login is refused by the role gate and by the avatar update |
| `Scenarios.AvatarNotReadBack` | main.py:494-506 | after the intended avatar update, the next resolution has neither role nor avatar URL |
| `Scenarios.AvatarFailsAsWritten` | main.py:487-510 | as written, an ADMIN resolved from the store gets 500, no user row changes, and the cache keeps the four-field snapshot |

## Left out

- JWT signing, HS256 and the signing-key and algorithm configuration. A token is its claim set and expiry. Its signature is modelled by membership in `issued`.
- App.Backend.Decode: treats a token as expired from the instant `now` reaches `exp` (RFC 7519, section 4.1.4). It does not model the decoding library's own comparison at that exact second. The clock counts whole seconds, so the sub-second part of `utcnow` is dropped.
- Passwords.Hash: claims that every other plaintext is rejected. Real bcrypt only reads the first 72 bytes of a password, so longer passwords that share those bytes also verify. The salt is an input, and hash schemes other than bcrypt are not modelled.
- Redis is a map from email to snapshot plus expiry time. JSON serialisation, eviction and connection errors are not modelled. The real key is `CacheKey(email)`, and `CacheKeyInjective` justifies keying the map by the email.
- SMTP is an outbox. Delivery is a boolean input: `false` means the server raised, which the framework answers with 500. The mail text and the link URL are not modelled.
- The Cloudinary upload is an input: the secure URL, or a failure with its message.
- SQLAlchemy sessions, commit and refresh, `get_db`, and database.py. Ids come from counters; SQLite's reuse of the largest deleted rowid is not modelled.
- App.Backend.UpdateAvatar: is the corrected handler, with two corrections: the role is written by its value text, and the URL is stored in an avatar_url column. As written, `.value` at main.py:499 raises on every call that passes the gate, because the loaded role is a str, and the users table has no column for the URL. `App.Backend.UpdateAvatarAsWritten` models that path (see Findings).
- Scenarios.AvatarNotReadBack: runs on the corrected `App.Backend.UpdateAvatar`. As written, the update answers 500 and writes no snapshot (`Scenarios.AvatarFailsAsWritten`).
- App.Backend.ReadContacts: returns the set of the owner's contacts. The order of the list the database returns is not modelled.
- Handlers take the user the resolver produced, because FastAPI's dependency injection supplies it. `App.Backend.CreateContact` and `App.Backend.UpdateAvatar` require `IsResolvedIdentity`, which is what `App.Backend.GetCurrentUser` ensures. The framework's own 401 "Not authenticated" for a missing header is not modelled.
- FastAPI routing, CORS, and the slowapi limit of 5 requests per minute on `/me/`.
- Concurrency. The model is sequential, so the race between the duplicate check and the insert in registration is not modelled.
- Timestamps (`created_at`, `updated_at`), EmailStr validation, and the mismatch between the DateTime birthday column and the string in the request.

## Findings

| source | as written | input that shows it | evidently intended | confidence | as-written member | corrected member |
|---|---|---|---|---|---|---|
| models.py:63-74 | The Contact table has no `additional_info` column, but main.py:256 passes `additional_info` (from `contact.dict()`) to its constructor, and the declarative constructor raises TypeError on an unknown keyword. | any create request, e.g. first_name "John", additional_info None | Contact stores additional_info, so create succeeds and the response echoes it, as tests/test_contacts.py:79-110 expects | not executed; high | `Models.CreateContactRejectedAsWritten` | `Models.CreateContactAcceptedCorrected` |
| main.py:499 | The gate at main.py:484 passes an ADMIN row only because the loaded text "admin" equals `UserRole.ADMIN`. Then `current_user.role.value` raises AttributeError on that str, and `except Exception` answers 500 before the cache is written. | an ADMIN resolved from the store, e.g. with its verification token before logging in, uploads any image | the six-field snapshot is cached and the response carries the new URL | not executed; high | `App.Backend.UpdateAvatarAsWritten` | `App.Backend.UpdateAvatar` |
| models.py:36-44 | The User class has no `avatar_url` column. The assignment at main.py:489 only sets a plain attribute on the loaded object, so the commit at main.py:490 writes nothing and the URL is never stored. | an ADMIN resolved from the store uploads any image: the users table is unchanged afterwards | User has an avatar_url column, and the update stores the URL in the user's row | not executed; high | `App.Backend.UpdateAvatarAsWritten` | `App.Backend.UpdateAvatar` |
