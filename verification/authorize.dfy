/** The `authorize(roles)` middleware: a role-membership gate over the
    payload that the authentication middleware attached to the request. */
module Authorize {
  import opened Common

  /** `roles = []`: the default when `authorize()` is called without roles. */
  const DEFAULT_ROLES: seq<string> := []

  /** `authorize(roles)` applied to a request whose `req.auth` is `auth`. */
  function Authorize(roles: seq<string>, auth: Option<Payload>): (g: Gate)
    ensures g == Pass <==> auth.Some? && auth.value.role in roles
    ensures g != Pass ==> g == Deny(403, "Forbidden")
  {
    if auth.None? || auth.value.role !in roles then Deny(403, "Forbidden") else Pass
  }

  /** With the default empty role list every request is forbidden. */
  lemma DefaultForbidsAll(auth: Option<Payload>)
    ensures Authorize(DEFAULT_ROLES, auth) == Deny(403, "Forbidden")
  {
  }

  /** A request allowed under `roles` is allowed under any list holding at
      least those roles. */
  lemma AuthorizeMonotone(roles: seq<string>, more: seq<string>, auth: Option<Payload>)
    requires forall r :: r in roles ==> r in more
    ensures Authorize(roles, auth) == Pass ==> Authorize(more, auth) == Pass
  {
  }
}
