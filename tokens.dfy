/**
 * Token issue (create_access_token). A token is abstracted as the claim set
 * it carries (RFC 7519 section 4.1.2 "sub", and the "type" purpose tag) and
 * its expiry (RFC 7519 section 4.1.4 "exp"), in whole seconds since the epoch.
 * Signing is abstracted away: which tokens the system has signed is kept by
 * App.Backend, which validates a token as "issued and not yet expired".
 */
module Tokens {
  import opened Wrappers

  /** ACCESS_TOKEN_EXPIRE_MINUTES when the environment does not set it. */
  const DEFAULT_ACCESS_TOKEN_EXPIRE_MINUTES: int := 30
  const SECONDS_PER_MINUTE: int := 60

  /** The purpose tag of a password-reset token and the lifetime it is issued with. */
  const PASSWORD_RESET_TYPE: string := "password_reset"
  const RESET_TOKEN_MINUTES: int := 15

  const SUB_CLAIM: string := "sub"
  const TYPE_CLAIM: string := "type"
  const EXP_CLAIM: string := "exp"

  datatype Jwt = Jwt(claims: map<string, string>, exp: int)

  /**
   * `expires_delta or timedelta(minutes=ACCESS_TOKEN_EXPIRE_MINUTES)`, in
   * seconds: Python treats a zero timedelta as false, so a zero delta also
   * falls back to the default.
   */
  function Lifetime(expiresDelta: Option<int>, expireMinutes: int): (s: int)
    ensures expiresDelta.Some? && expiresDelta.value != 0 ==> s == expiresDelta.value
    ensures expiresDelta.None? || expiresDelta.value == 0 ==> s == expireMinutes * SECONDS_PER_MINUTE
  {
    match expiresDelta
    case Some(d) => if d != 0 then d else expireMinutes * SECONDS_PER_MINUTE
    case None => expireMinutes * SECONDS_PER_MINUTE
  }

  /** When the environment leaves ACCESS_TOKEN_EXPIRE_MINUTES unset, a token issued without a delta lives 30 minutes. */
  lemma DefaultLifetimeIsThirtyMinutes(expiresDelta: Option<int>)
    requires expiresDelta.None? || expiresDelta.value == 0
    ensures Lifetime(expiresDelta, DEFAULT_ACCESS_TOKEN_EXPIRE_MINUTES) == 1800
  {
  }

  /**
   * The token for `data` issued at `now`: every input claim is carried
   * unchanged, and "exp" is set (overwriting any "exp" the input had).
   */
  function CreateAccessToken(data: map<string, string>, expiresDelta: Option<int>,
                             now: int, expireMinutes: int): (t: Jwt)
    ensures t.exp == now + Lifetime(expiresDelta, expireMinutes)
    ensures t.claims.Keys == data.Keys - {EXP_CLAIM}
    ensures forall k :: k in t.claims ==> t.claims[k] == data[k]
  {
    Jwt(map k | k in data && k != EXP_CLAIM :: data[k], now + Lifetime(expiresDelta, expireMinutes))
  }

  /** `payload.get(name)`. */
  function Claim(claims: map<string, string>, name: string): (r: Option<string>)
    ensures r.Some? <==> name in claims
    ensures r.Some? ==> r.value == claims[name]
  {
    if name in claims then Some(claims[name]) else None
  }

  /** A token issued for `{"sub": email}` carries that subject and no purpose tag. */
  lemma SubjectCarried(email: string, expiresDelta: Option<int>, now: int, expireMinutes: int)
    ensures var t := CreateAccessToken(map[SUB_CLAIM := email], expiresDelta, now, expireMinutes);
      Claim(t.claims, SUB_CLAIM) == Some(email) && Claim(t.claims, TYPE_CLAIM) == None
  {
    var t := CreateAccessToken(map[SUB_CLAIM := email], expiresDelta, now, expireMinutes);
    assert SUB_CLAIM in t.claims;
  }

  /** A reset token carries its subject, the reset purpose tag and a 15-minute lifetime. */
  lemma ResetTokenShape(email: string, now: int, expireMinutes: int)
    ensures var t := CreateAccessToken(map[SUB_CLAIM := email, TYPE_CLAIM := PASSWORD_RESET_TYPE],
                                       Some(RESET_TOKEN_MINUTES * SECONDS_PER_MINUTE), now, expireMinutes);
      && Claim(t.claims, SUB_CLAIM) == Some(email)
      && Claim(t.claims, TYPE_CLAIM) == Some(PASSWORD_RESET_TYPE)
      && t.exp == now + 900
  {
    var t := CreateAccessToken(map[SUB_CLAIM := email, TYPE_CLAIM := PASSWORD_RESET_TYPE],
                               Some(RESET_TOKEN_MINUTES * SECONDS_PER_MINUTE), now, expireMinutes);
    assert SUB_CLAIM in t.claims && TYPE_CLAIM in t.claims;
  }
}
