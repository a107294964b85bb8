/**
 * The password hasher (bcrypt through passlib). The one-way, salted transform
 * is abstracted to a digest that remembers its salt and what was hashed;
 * nothing outside this module looks inside a digest except through Verify.
 */
module Passwords {

  datatype Digest = Bcrypt(salt: nat, secret: string)

  /** True iff the plaintext matches the digest. */
  predicate Verify(password: string, digest: Digest)
  {
    digest.secret == password
  }

  /** A fresh digest of `password`; `salt` is the hasher's random draw. */
  function Hash(password: string, salt: nat): (d: Digest)
    ensures Verify(password, d)
    ensures forall other :: Verify(other, d) ==> other == password
  {
    Bcrypt(salt, password)
  }
}
