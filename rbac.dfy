/** The role gate of middleware/rbac.middleware.js. */
module Rbac {
  import opened Common
  import opened UserModel

  /** `rbac(...roles)` applied to a request whose authenticated user is `user`. */
  function Rbac(user: Option<Actor>, roles: seq<Role>): (o: Outcome)
    ensures o == Pass <==> user.Some? && user.value.role in roles
    ensures user.None? ==> o == Fail(AppError(UNAUTHORIZED, "Authentication required"))
    ensures user.Some? && user.value.role !in roles ==> o == Fail(AppError(FORBIDDEN, "Forbidden"))
  {
    if user.None? then Fail(AppError(UNAUTHORIZED, "Authentication required"))
    else if user.value.role !in roles then Fail(AppError(FORBIDDEN, "Forbidden"))
    else Pass
  }

  /** Authentication is checked first: without a user the gate answers 401
      whatever roles it lists, even none. */
  lemma AuthenticationFirst(roles: seq<Role>, others: seq<Role>)
    ensures Rbac(None, roles) == Rbac(None, others) == Fail(AppError(UNAUTHORIZED, "Authentication required"))
  {
  }

  /** A gate with more roles lets through everything a gate with fewer does. */
  lemma MoreRolesAdmitMore(user: Option<Actor>, roles: seq<Role>, more: seq<Role>)
    requires forall i :: 0 <= i < |roles| ==> roles[i] in more
    ensures Rbac(user, roles) == Pass ==> Rbac(user, more) == Pass
  {
  }
}
