/** lib/user-role.ts: the effective role of a stored user. */
module UserRole {
  import opened Wrappers
  import opened Domain
  import Api

  /** The role used to authorise a request, with the capability snapshot
      reported alongside it. */
  datatype Resolved = Resolved(role: Role, canLandlord: bool, canService: bool, activeMode: ProfileMode)

  /** The user holds the capability a mode stands for. */
  predicate HoldsMode(canLandlord: bool, canService: bool, m: ProfileMode)
  {
    match m
    case UTLEIER => canLandlord
    case TJENESTE => canService
  }

  /** An admin is fixed in admin mode with both capabilities; a non-admin's
      valid service choice wins, then landlord capability, then the service
      fallback, and its stored capabilities and mode are reported unchanged. */
  function Effective(u: User): (r: Resolved)
    ensures u.role == Role.ADMIN ==> r == Resolved(Role.ADMIN, true, true, ProfileMode.UTLEIER)
    ensures u.role != Role.ADMIN ==>
      && r.role != Role.ADMIN
      && r.canLandlord == u.canLandlord
      && r.canService == u.canService
      && r.activeMode == u.activeMode
    ensures u.role != Role.ADMIN && u.activeMode == ProfileMode.TJENESTE && u.canService ==> r.role == Role.TJENESTE
    ensures u.role != Role.ADMIN ==> (r.role == Role.UTLEIER <==> u.canLandlord && !(u.activeMode == ProfileMode.TJENESTE && u.canService))
  {
    if u.role == Role.ADMIN then Resolved(Role.ADMIN, true, true, ProfileMode.UTLEIER)
    else if u.activeMode == ProfileMode.TJENESTE && u.canService then
      Resolved(Role.TJENESTE, u.canLandlord, u.canService, u.activeMode)
    else if u.canLandlord then
      Resolved(Role.UTLEIER, u.canLandlord, u.canService, u.activeMode)
    else
      Resolved(Role.TJENESTE, u.canLandlord, u.canService, u.activeMode)
  }

  /** `resolveUserRole(userId)`: UNAUTHORIZED when no user has the id,
      otherwise the effective role of that user. */
  function ResolveUserRole(users: seq<User>, userId: string): (r: Result<Resolved, Api.Thrown>)
    ensures r.Failure? <==> forall i :: 0 <= i < |users| ==> users[i].id != userId
    ensures r.Failure? ==> r.error == Api.Unauthorized
    ensures r.Success? ==> exists u :: u in users && u.id == userId && r.value == Effective(u)
  {
    match FindUser(users, userId)
    case None => Failure(Api.Unauthorized)
    case Some(u) => Success(Effective(u))
  }

  /** The user's stored mode names a capability it holds, and a non-admin
      holds at least one capability. */
  predicate WellFormed(u: User)
  {
    u.role != Role.ADMIN ==> HoldsMode(u.canLandlord, u.canService, u.activeMode)
  }

  /** For a well-formed non-admin the effective role is exactly the stored
      `activeMode`. */
  lemma EffectiveFollowsActiveMode(u: User)
    requires u.role != Role.ADMIN && WellFormed(u)
    ensures Effective(u).role == ModeRole(u.activeMode)
  {
  }

  /** A non-admin with at least one capability is never given a role it lacks. */
  lemma EffectiveRoleIsHeld(u: User)
    requires u.role != Role.ADMIN && (u.canLandlord || u.canService)
    ensures Effective(u).role == Role.UTLEIER ==> u.canLandlord
    ensures Effective(u).role == Role.TJENESTE ==> u.canService
  {
  }

  /** Without either capability the resolver still answers TJENESTE, a role
      the user does not hold. */
  lemma FallbackWithoutCapabilities(u: User)
    requires u.role != Role.ADMIN && !u.canLandlord && !u.canService
    ensures Effective(u).role == Role.TJENESTE
    ensures !HoldsMode(u.canLandlord, u.canService, ProfileMode.TJENESTE)
  {
  }

  /** An admin's stored flags and mode do not influence its resolution. */
  lemma AdminIgnoresStoredCapabilities(u: User, canLandlord: bool, canService: bool, mode: ProfileMode)
    requires u.role == Role.ADMIN
    ensures Effective(u.(canLandlord := canLandlord, canService := canService, activeMode := mode)) == Effective(u)
  {
  }
}
