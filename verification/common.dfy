/** Values shared by every handler: optional values, handler replies, the
    decoded token payload attached to a request, and JavaScript truthiness. */
module Common {

  /** `None` stands for JavaScript's `undefined`/`null`. */
  datatype Option<+T> = None | Some(value: T)

  /** What a handler sends back: a success status with a JSON body, or an
      error status with the `{ error: message }` body. */
  datatype Reply<+T> = Ok(status: int, body: T) | Fail(status: int, error: string)

  /** What a middleware does with a request: hand it on with `next()`, or
      answer it with an error status and `{ error: message }`. */
  datatype Gate = Pass | Deny(status: int, error: string)

  /** The decoded token payload (`req.auth`). Customer tokens carry
      `clientId`, staff tokens carry `userId`; both carry `role`. */
  datatype Payload = Payload(clientId: Option<int>, userId: Option<int>, role: string)

  /** The five address fields that addresses store and orders snapshot. */
  datatype Address = Address(rua: string, numero: string, cidade: string, estado: string, cep: string)

  const CLIENT_ROLE := "CLIENT"
  const USER_ROLE := "USER"

  /** `req.auth && req.auth.clientId`: the payload is present and its
      `clientId` is truthy (a number other than 0). */
  predicate HasClientId(auth: Option<Payload>)
  {
    auth.Some? && auth.value.clientId.Some? && auth.value.clientId.value != 0
  }

  /** The caller's `clientId`, once `HasClientId` holds. */
  function CallerId(auth: Option<Payload>): (id: int)
    requires HasClientId(auth)
    ensures auth.value.clientId == Some(id) && id != 0
  {
    auth.value.clientId.value
  }

  /** `req.auth && req.auth.role === "USER"`: a staff token. */
  predicate IsStaff(auth: Option<Payload>)
  {
    auth.Some? && auth.value.role == USER_ROLE
  }

  /** JavaScript truthiness of a string that may be absent: the empty string
      is falsy. */
  predicate Truthy(s: Option<string>)
  {
    s.Some? && s.value != ""
  }
}
