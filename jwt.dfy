/**
 * The JSON Web Token library, taken as an ideal signature scheme: a token
 * decodes under a key and algorithm exactly when it was encoded with them,
 * and only while its `exp` claim lies in the future.
 */
module Jwt {
  import opened Wrappers

  /** A claim value: a JSON string, integer or null. */
  datatype ClaimValue = Str(s: string) | Int(i: int) | Null

  type Claims = map<string, ClaimValue>

  /** A bearer string: either a signed claim set or anything else. */
  datatype Token = Signed(claims: Claims, key: string, algorithm: string) | Garbled(text: string)

  /** Python's `payload.get(name)`: a missing claim reads as `None`. */
  function ClaimGet(claims: Claims, name: string): ClaimValue
  {
    if name in claims then claims[name] else Null
  }

  /** `jwt.encode(claims, key, algorithm=algorithm)`. */
  function Encode(claims: Claims, key: string, algorithm: string): Token
  {
    Signed(claims, key, algorithm)
  }

  /** The expiry check of `jwt.decode`: a token is expired once `exp <= now`; an `exp` that is not an integer is malformed. */
  predicate Unexpired(claims: Claims, now: int)
  {
    "exp" !in claims || (claims["exp"].Int? && now < claims["exp"].i)
  }

  /** `jwt.decode(token, key, algorithms=[algorithm])`; `None` stands for a raised `PyJWTError`. */
  function Decode(token: Token, key: string, algorithm: string, now: int): (r: Option<Claims>)
    ensures r.Some? <==> exists c :: token == Encode(c, key, algorithm) && Unexpired(c, now)
    ensures r.Some? ==> token == Encode(r.value, key, algorithm)
  {
    match token
    case Signed(claims, k, a) =>
      if k == key && a == algorithm && Unexpired(claims, now) then Some(claims) else None
    case Garbled(_) => None
  }
}
