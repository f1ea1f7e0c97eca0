/** Values that flow through requests, tokens and user documents. */
module Values {

  datatype Option<+T> = None | Some(value: T)

  datatype Result<+T, +E> = Ok(value: T) | Err(error: E)

  /** Document ids (MongoDB ObjectIds), abstracted to naturals. */
  type Id = nat

  /** A salt as drawn by bcrypt's genSalt. */
  type Salt = nat

  /** A string field as the backend handles it. A bcrypt digest is a string too, but it is
      kept symbolic here: it records its salt and the value it was computed from, and only
      Bcrypt.Compare looks inside it. */
  datatype Value = Str(s: string) | Digest(salt: Salt, of: Value)

  /** JavaScript truthiness of a string field: only the empty string is falsy, and a bcrypt
      digest is a 60-character string. */
  predicate Truthy(v: Value)
  {
    v.Digest? || v.s != ""
  }

  /** A parsed JSON request body: field name to value; a missing key is `undefined`. */
  type Body = map<string, Value>

  /** `body.k` is truthy, i.e. the negation of the guard `!body.k`. */
  predicate Given(b: Body, k: string)
  {
    k in b && Truthy(b[k])
  }

  /** The two role labels of ROLE_TYPES; only their being distinct and non-empty matters. */
  const ADMIN: Value := Str("ADMIN")
  const VIEWER: Value := Str("VIEWER")
}
