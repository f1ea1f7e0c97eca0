/** jsonwebtoken as the backend uses it: sign a payload with a secret and a lifetime, and
    verify a token against the secret and the clock. Signatures are symbolic: a token
    records the key it was signed with. */
module Jwt {
  import opened Values

  type Secret = string

  /** The payload loginUser signs. */
  datatype Payload = Payload(id: Id, username: Value, role: Value)

  /** The decoded payload: the signed fields plus the issue and expiry times (seconds). */
  datatype Claims = Claims(id: Id, username: Value, role: Value, iat: int, exp: int)

  /** A cookie value: a token signed by jsonwebtoken, or any other text. */
  datatype Token = Signed(claims: Claims, key: Secret) | Text(raw: string)

  datatype TokenError = Malformed | MissingSecret | InvalidSignature | Expired

  /** The token is truthy: a signed token is a non-empty string. */
  predicate Present(t: Token)
  {
    t.Signed? || t.raw != ""
  }

  /** `jwt.sign(payload, key, { expiresIn })` at time `now`, where `ttl` is the number of
      seconds the expiresIn setting stands for. */
  function Sign(p: Payload, key: Secret, now: int, ttl: int): (t: Token)
    ensures Present(t)
    ensures ttl > 0 && key != "" ==> Decode(t, key, now) == Ok(Claims(p.id, p.username, p.role, now, now + ttl))
    ensures forall other :: other != key && other != "" ==> Decode(t, other, now) == Err(InvalidSignature)
  {
    Signed(Claims(p.id, p.username, p.role, now, now + ttl), key)
  }

  /** `jwt.verify(token, key)` at time `now`: malformed input first, then an empty (unset)
      secret, then the signature, then expiry (a token is expired once `now >= exp`). */
  function Decode(t: Token, key: Secret, now: int): (r: Result<Claims, TokenError>)
    ensures r.Ok? <==> t.Signed? && key != "" && t.key == key && now < t.claims.exp
    ensures r.Ok? ==> r.value == t.claims
    ensures key == "" ==> r.Err?
    ensures t.Signed? && key != "" && t.key != key ==> r == Err(InvalidSignature)
  {
    match t
    case Text(_) => Err(Malformed)
    case Signed(c, k) =>
      if key == "" then Err(MissingSecret)
      else if k != key then Err(InvalidSignature)
      else if now >= c.exp then Err(Expired)
      else Ok(c)
  }

  /** A freshly signed token decodes, with the key it was signed with, to exactly the signed
      payload for as long as its lifetime lasts. */
  lemma SignedTokenDecodes(p: Payload, key: Secret, now: int, ttl: int, later: int)
    requires key != "" && now <= later < now + ttl
    ensures Decode(Sign(p, key, now, ttl), key, later) == Ok(Claims(p.id, p.username, p.role, now, now + ttl))
  {
  }

  /** Once its lifetime has elapsed the same token fails with Expired. */
  lemma SignedTokenExpires(p: Payload, key: Secret, now: int, ttl: int, later: int)
    requires key != "" && later >= now + ttl
    ensures Decode(Sign(p, key, now, ttl), key, later) == Err(Expired)
  {
  }
}
