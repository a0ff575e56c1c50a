/** Stand-ins for bcrypt and for JWT signing. The model needs only that a
    password or code matches exactly the hash made from it, and that a token
    carries its claims. */
module Crypto {

  /** `bcrypt.hash(plain, 10)`: injective and never empty (salting, which
      makes two hashes of one secret differ, is not modelled). */
  function Hash(plain: string): (h: string)
    ensures h != "" && |h| > |plain|
  {
    "$2b$10$" + plain
  }

  /** `bcrypt.compare(plain, hash)`. */
  predicate Compare(plain: string, hash: string) {
    hash == Hash(plain)
  }

  /** A secret matches a hash exactly when the hash was made from it. */
  lemma CompareIsExact(c: string, c': string)
    ensures Compare(c, Hash(c')) <==> c == c'
  {
    if Compare(c, Hash(c')) {
      assert Hash(c)[7..] == c && Hash(c')[7..] == c';
    }
  }

  /** `jwtService.sign(payload)`: an opaque token that carries its claims. */
  datatype Token<C> = Signed(claims: C)
}
