/** app/api/users/me/mode/route.ts: a non-admin switches the capability it
    presents as. This is the only operation that changes a user's own
    capability state. */
module ModeSwitch {
  import opened Wrappers
  import opened Js
  import opened Domain
  import UserRole
  import Rbac
  import Validators
  import Api

  /** The user fields the handler selects and returns. */
  datatype ProfileView = ProfileView(
    id: string, name: string, email: string,
    canLandlord: bool, canService: bool, activeMode: ProfileMode)

  function View(u: User): ProfileView
  {
    ProfileView(u.id, u.name, u.email, u.canLandlord, u.canService, u.activeMode)
  }

  /** The capability check and the update on one stored user: None when the
      requested mode's capability is not enabled. */
  function SwitchMode(u: User, mode: ProfileMode): (r: Option<User>)
    ensures r.Some? <==> UserRole.HoldsMode(u.canLandlord, u.canService, mode)
    ensures r.Some? ==> r.value.activeMode == mode
    ensures r.Some? ==> r.value.(activeMode := u.activeMode) == u
  {
    if mode == ProfileMode.UTLEIER && !u.canLandlord then None
    else if mode == ProfileMode.TJENESTE && !u.canService then None
    else Some(u.(activeMode := mode))
  }

  /** `update({ where: { id }, data: { activeMode } })` on the users table. */
  function SetActiveMode(users: seq<User>, id: string, mode: ProfileMode): (r: seq<User>)
    ensures |r| == |users|
    ensures forall i :: 0 <= i < |r| ==> r[i] == if users[i].id == id then users[i].(activeMode := mode) else users[i]
  {
    seq(|users|, i requires 0 <= i < |users| => if users[i].id == id then users[i].(activeMode := mode) else users[i])
  }

  /** `PUT /api/users/me/mode`. The capability check is the one of the
      stored row the caller resolved from, so the answer is decided by the
      caller's resolved capabilities. */
  function Put(session: Option<SessionUser>, store: Store, body: RequestBody): (out: Outcome<ProfileView>)
    ensures Rbac.RequireAuth(session, store.users).Failure? ==>
      out == Outcome(Api.HandleApiError(Rbac.RequireAuth(session, store.users).error), store)
    ensures Rbac.RequireAuth(session, store.users).Success? && Rbac.RequireAuth(session, store.users).value.role == Role.ADMIN ==>
      out == Outcome(Api.ApiError(400, "Admin has fixed admin mode"), store)
    ensures Rbac.RequireAuth(session, store.users).Success? && Rbac.RequireAuth(session, store.users).value.role != Role.ADMIN &&
            Validators.ParseModeSwitch(body).Failure? ==>
      out == Outcome(Api.HandleApiError(Validators.ParseModeSwitch(body).error), store)
    ensures Rbac.RequireAuth(session, store.users).Success? && Rbac.RequireAuth(session, store.users).value.role != Role.ADMIN &&
            Validators.ParseModeSwitch(body).Success? ==>
      var caller := Rbac.RequireAuth(session, store.users).value;
      var mode := Validators.ParseModeSwitch(body).value;
      && (UserRole.HoldsMode(caller.canLandlord, caller.canService, mode) <==> out.response.status == 200)
      && (!UserRole.HoldsMode(caller.canLandlord, caller.canService, mode) ==>
            out == Outcome(Api.ApiError(403, if mode == ProfileMode.UTLEIER then "Landlord mode not enabled"
                                             else "Service mode not enabled"), store))
    ensures out.response.status != 200 ==> out.store == store
    ensures out.store.orders == store.orders && out.store.images == store.images
    ensures out.store.comments == store.comments && out.store.notifications == store.notifications
    ensures out.response.status == 200 ==>
      && Rbac.RequireAuth(session, store.users).Success?
      && Rbac.RequireAuth(session, store.users).value.role != Role.ADMIN
      && Validators.ParseModeSwitch(body).Success?
    ensures out.response.status == 200 ==>
      var caller := Rbac.RequireAuth(session, store.users).value;
      var mode := Validators.ParseModeSwitch(body).value;
      && FindUser(store.users, caller.id).Some?
      && SwitchMode(FindUser(store.users, caller.id).value, mode).Some?
      && out.store.users == SetActiveMode(store.users, caller.id, mode)
      && out.response.body == Api.Json(View(SwitchMode(FindUser(store.users, caller.id).value, mode).value))
  {
    match Rbac.RequireAuth(session, store.users)
    case Failure(e) => Outcome(Api.HandleApiError(e), store)
    case Success(caller) =>
      if caller.role == Role.ADMIN then Outcome(Api.ApiError(400, "Admin has fixed admin mode"), store)
      else
        match Validators.ParseModeSwitch(body)
        case Failure(e) => Outcome(Api.HandleApiError(e), store)
        case Success(mode) =>
          match FindUser(store.users, caller.id)
          case None => Outcome(Api.ApiError(404, "User not found"), store)
          case Some(u) =>
            match SwitchMode(u, mode)
            case None =>
              Outcome(Api.ApiError(403, if mode == ProfileMode.UTLEIER then "Landlord mode not enabled"
                                        else "Service mode not enabled"), store)
            case Some(switched) =>
              Outcome(Api.Ok(View(switched)), store.(users := SetActiveMode(store.users, caller.id, mode)))
  }

  /** Switching twice to the same mode leaves the same state as once. */
  lemma SwitchModeIdempotent(u: User, mode: ProfileMode)
    requires SwitchMode(u, mode).Some?
    ensures SwitchMode(SwitchMode(u, mode).value, mode) == SwitchMode(u, mode)
  {
  }

  /** The same for the stored users table. */
  lemma {:induction false} SetActiveModeIdempotent(users: seq<User>, id: string, mode: ProfileMode)
    ensures SetActiveMode(SetActiveMode(users, id, mode), id, mode) == SetActiveMode(users, id, mode)
  {
    var once := SetActiveMode(users, id, mode);
    var twice := SetActiveMode(once, id, mode);
    assert |twice| == |once|;
    forall i | 0 <= i < |once| ensures twice[i] == once[i] {
      assert once[i].id == users[i].id;
    }
  }

  /** After a successful switch the resolver answers with the requested mode. */
  lemma SwitchedModeIsEffective(u: User, mode: ProfileMode)
    requires u.role != Role.ADMIN && SwitchMode(u, mode).Some?
    ensures UserRole.Effective(SwitchMode(u, mode).value).role == ModeRole(mode)
  {
  }

  /** A mode outside the enum, or no mode, is a schema failure and ends as 500. */
  lemma InvalidModeIs500(session: Option<SessionUser>, store: Store, body: RequestBody)
    requires Rbac.RequireAuth(session, store.users).Success?
    requires Rbac.RequireAuth(session, store.users).value.role != Role.ADMIN
    requires Validators.ParseModeSwitch(body).Failure?
    ensures Put(session, store, body).response.status == 500
    ensures Put(session, store, body).store == store
  {
    Validators.ParseErrorIs500<ProfileView>(body);
  }

  /** Requesting a capability the stored user lacks is refused with 403. */
  lemma MissingCapabilityIs403(session: Option<SessionUser>, store: Store, body: RequestBody)
    requires Rbac.RequireAuth(session, store.users).Success?
    requires Rbac.RequireAuth(session, store.users).value.role != Role.ADMIN
    requires Validators.ParseModeSwitch(body).Success?
    requires FindUser(store.users, Rbac.RequireAuth(session, store.users).value.id).Some?
    requires !UserRole.HoldsMode(
      FindUser(store.users, Rbac.RequireAuth(session, store.users).value.id).value.canLandlord,
      FindUser(store.users, Rbac.RequireAuth(session, store.users).value.id).value.canService,
      Validators.ParseModeSwitch(body).value)
    ensures Put(session, store, body).response.status == 403
    ensures Put(session, store, body).store == store
  {
  }

  /** Looking the user up after the update finds the updated row. */
  lemma {:induction false} FindAfterSetActiveMode(users: seq<User>, id: string, mode: ProfileMode)
    ensures FindUser(SetActiveMode(users, id, mode), id).Some? <==> FindUser(users, id).Some?
    ensures FindUser(users, id).Some? ==>
      FindUser(SetActiveMode(users, id, mode), id) == Some(FindUser(users, id).value.(activeMode := mode))
  {
    if users != [] {
      var updated := SetActiveMode(users, id, mode);
      assert updated[1..] == SetActiveMode(users[1..], id, mode);
      FindAfterSetActiveMode(users[1..], id, mode);
    }
  }

  /** After a successful `PUT`, the next request of the same user resolves to
      the mode it asked for. */
  lemma SwitchTakesEffect(session: Option<SessionUser>, store: Store, body: RequestBody)
    requires Put(session, store, body).response.status == 200
    ensures
      var caller := Rbac.RequireAuth(session, store.users).value;
      var after := UserRole.ResolveUserRole(Put(session, store, body).store.users, caller.id);
      after.Success? && after.value.role == ModeRole(Validators.ParseModeSwitch(body).value)
  {
    var caller := Rbac.RequireAuth(session, store.users).value;
    var mode := Validators.ParseModeSwitch(body).value;
    FindAfterSetActiveMode(store.users, caller.id, mode);
    var u := FindUser(store.users, caller.id).value;
    SwitchedModeIsEffective(u, mode);
  }
}
