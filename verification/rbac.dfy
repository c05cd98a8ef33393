/** lib/rbac.ts: the authentication gate every handler passes first, and the
    role-membership gate on top of it. */
module Rbac {
  import opened Wrappers
  import opened Domain
  import UserRole
  import Api

  /** The session a handler works with: identity from the session, role,
      capabilities and mode from the resolver. */
  datatype AuthedUser = AuthedUser(
    id: string,
    name: string,
    email: string,
    role: Role,
    canLandlord: bool,
    canService: bool,
    activeMode: ProfileMode)

  /** `!session?.user?.id`: no session user, or an absent or empty id. */
  predicate MissingUserId(session: Option<SessionUser>)
  {
    session.None? || session.value.id.None? || session.value.id.value == ""
  }

  /** `requireAuth()`. */
  function RequireAuth(session: Option<SessionUser>, users: seq<User>): (r: Result<AuthedUser, Api.Thrown>)
    ensures MissingUserId(session) ==> r == Failure(Api.Unauthorized)
    ensures r.Failure? ==> r.error == Api.Unauthorized
    ensures r.Success? ==>
      && !MissingUserId(session)
      && session.value.id == Some(r.value.id)
      && r.value.name == session.value.name
      && r.value.email == session.value.email
    ensures !MissingUserId(session) ==>
      (r.Success? <==> UserRole.ResolveUserRole(users, session.value.id.value).Success?)
    ensures r.Success? ==>
      var resolved := UserRole.ResolveUserRole(users, r.value.id).value;
      && r.value.role == resolved.role
      && r.value.canLandlord == resolved.canLandlord
      && r.value.canService == resolved.canService
      && r.value.activeMode == resolved.activeMode
  {
    if MissingUserId(session) then Failure(Api.Unauthorized)
    else
      var s := session.value;
      match UserRole.ResolveUserRole(users, s.id.value)
      case Failure(e) => Failure(e)
      case Success(resolved) =>
        Success(AuthedUser(s.id.value, s.name, s.email, resolved.role,
                           resolved.canLandlord, resolved.canService, resolved.activeMode))
  }

  /** The role the token carries plays no part: two sessions that differ only
      in it authenticate identically. */
  lemma TokenRoleIgnored(s: SessionUser, other: Option<Role>, users: seq<User>)
    ensures RequireAuth(Some(s.(role := other)), users) == RequireAuth(Some(s), users)
  {
  }

  /** A stored admin is an admin for every request, whatever its token says. */
  lemma StoredAdminAuthenticatesAsAdmin(s: SessionUser, users: seq<User>, u: User)
    requires s.id == Some(u.id) && u.id != ""
    requires u in users && UniqueUserIds(users) && u.role == Role.ADMIN
    ensures RequireAuth(Some(s), users).Success?
    ensures RequireAuth(Some(s), users).value.role == Role.ADMIN
  {
  }

  /** `requireRole(roles)`: the session from `requireAuth` when its effective
      role is listed, FORBIDDEN when it is not; authentication errors pass
      through. */
  function RequireRole(roles: seq<Role>, session: Option<SessionUser>, users: seq<User>): (r: Result<AuthedUser, Api.Thrown>)
    ensures RequireAuth(session, users).Failure? ==> r == RequireAuth(session, users)
    ensures RequireAuth(session, users).Success? ==>
      (r.Success? <==> RequireAuth(session, users).value.role in roles)
    ensures r.Success? ==> r == RequireAuth(session, users)
    ensures RequireAuth(session, users).Success? && r.Failure? ==> r.error == Api.Forbidden
  {
    match RequireAuth(session, users)
    case Failure(e) => Failure(e)
    case Success(s) => if s.role in roles then Success(s) else Failure(Api.Forbidden)
  }
}
