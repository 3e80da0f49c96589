/** The `authorize(requiredRoles)` middleware of src/middlewares/authorization.js: a
    request either goes on to the handler or is handed an error for the error handler. */
module Authorization {
  import opened Common

  const NotAuthenticated: string := "Usuário não autenticado"
  const NoPermission: string := "Usuário não possui permissão"
  const AdminRole: string := "admin"

  /** `req.user` as the authentication middleware leaves it; `role` is None when the
      property is missing. */
  datatype AuthUser = AuthUser(role: Option<string>)

  /** What the middleware does: `next()`, or `next(error)`. */
  datatype Decision = Pass | Reject(error: AppError)

  /** JavaScript truthiness of a role: a missing role and the empty string are falsy. */
  predicate HasRole(u: AuthUser)
  {
    u.role.Some? && u.role.value != ""
  }

  function Authorize(requiredRoles: seq<string>, user: Option<AuthUser>): (d: Decision)
    ensures user.None? ==> d == Reject(AppError(Some(401), NotAuthenticated))
    ensures user.Some? && !HasRole(user.value) ==> d == Reject(AppError(Some(403), NoPermission))
    ensures user.Some? && HasRole(user.value) && user.value.role.value !in requiredRoles ==>
              d == Reject(AppError(Some(403), NoPermission))
    ensures d.Pass? <==> user.Some? && HasRole(user.value) && user.value.role.value in requiredRoles
  {
    if user.None? then Reject(AppError(Some(401), NotAuthenticated))
    else if !HasRole(user.value) then Reject(AppError(Some(403), NoPermission))
    else if user.value.role.value !in requiredRoles then Reject(AppError(Some(403), NoPermission))
    else Pass
  }

  /** Every route of src/routes/dashboardRoutes.js is guarded by `authorize(['admin'])`:
      only an authenticated user whose role is exactly "admin" reaches a dashboard
      handler; anyone else gets 401 without a user and 403 with one. */
  function DashboardGuard(user: Option<AuthUser>): (d: Decision)
    ensures d.Pass? <==> user.Some? && user.value.role == Some(AdminRole)
    ensures user.None? ==> d == Reject(AppError(Some(401), NotAuthenticated))
    ensures user.Some? && d.Reject? ==> d == Reject(AppError(Some(403), NoPermission))
  {
    Authorize([AdminRole], user)
  }

  /** The authentication check comes first: whatever roles a route asks for, a request
      without a user is refused with 401, never 403. */
  lemma AuthenticationFirst(requiredRoles: seq<string>, user: Option<AuthUser>)
    ensures user.None? ==> Authorize(requiredRoles, user).error.statusCode == Some(401)
    ensures Authorize(requiredRoles, user).Reject? && user.Some? ==>
              Authorize(requiredRoles, user).error == AppError(Some(403), NoPermission)
  {
  }
}
