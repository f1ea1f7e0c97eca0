/** bcryptjs as the backend uses it: hash with a salt, compare a plaintext with a stored hash.
    The cryptography is not modelled; a digest is a symbolic value (see Values.Value). */
module Bcrypt {
  import opened Values

  /** `bcrypt.hash(plain, salt)` */
  function Hash(plain: Value, salt: Salt): (h: Value)
    ensures Truthy(h)
    ensures forall p :: Compare(p, h) <==> p == plain
  {
    Digest(salt, plain)
  }

  /** `bcrypt.compare(plain, stored)`: true exactly when `stored` is a digest of `plain`;
      a stored value that is not a digest (empty, plain text) never matches. */
  function Compare(plain: Value, stored: Value): (ok: bool)
    ensures ok ==> Truthy(stored)
  {
    stored.Digest? && stored.of == plain
  }

  /** A hash verifies against the plaintext it came from, whatever the salt. */
  lemma CompareAcceptsOwnHash(p: Value, salt: Salt)
    ensures Compare(p, Hash(p, salt))
  {
  }

  /** A hash never verifies against a different plaintext. */
  lemma CompareRejectsOtherHash(p: Value, q: Value, salt: Salt)
    requires p != q
    ensures !Compare(p, Hash(q, salt))
  {
  }

  /** Salting: two hashes of one plaintext under different salts differ, and both verify. */
  lemma SaltedHashesDiffer(p: Value, s1: Salt, s2: Salt)
    requires s1 != s2
    ensures Hash(p, s1) != Hash(p, s2)
    ensures Compare(p, Hash(p, s1)) && Compare(p, Hash(p, s2))
  {
  }
}
