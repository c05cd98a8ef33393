/** app/api/auth/register/route.ts: self-service sign-up. */
module Register {
  import opened Wrappers
  import opened Js
  import opened Domain
  import UserRole
  import Validators
  import Api

  /** The role, capabilities and mode a sign-up is stored with. */
  datatype Profile = Profile(role: Role, canLandlord: bool, canService: bool, activeMode: ProfileMode)

  /** The profile a requested sign-up role maps to: TJENESTE is service-only,
      BEGGE is a landlord who may also serve, anything else (UTLEIER or no
      role) is landlord-only. */
  function ProfileFor(requested: Option<Validators.SignupRole>): (p: Profile)
    ensures p.role != Role.ADMIN
    ensures p.canLandlord || p.canService
    ensures UserRole.HoldsMode(p.canLandlord, p.canService, p.activeMode)
    ensures p.role == ModeRole(p.activeMode)
    ensures requested == Some(Validators.SignupRole.TJENESTE) ==> p == Profile(Role.TJENESTE, false, true, ProfileMode.TJENESTE)
    ensures requested == Some(Validators.SignupRole.BEGGE) ==> p == Profile(Role.UTLEIER, true, true, ProfileMode.UTLEIER)
    ensures requested.None? || requested == Some(Validators.SignupRole.UTLEIER) ==> p == Profile(Role.UTLEIER, true, false, ProfileMode.UTLEIER)
  {
    if requested == Some(Validators.SignupRole.TJENESTE) then Profile(Role.TJENESTE, false, true, ProfileMode.TJENESTE)
    else if requested == Some(Validators.SignupRole.BEGGE) then Profile(Role.UTLEIER, true, true, ProfileMode.UTLEIER)
    else Profile(Role.UTLEIER, true, false, ProfileMode.UTLEIER)
  }

  /** The fields of the created user the handler returns. */
  datatype Registered = Registered(
    id: string, name: string, email: string, role: Role,
    canLandlord: bool, canService: bool, activeMode: ProfileMode, createdAt: int)

  const DbUnavailableMessages: seq<string> := ["Unable to open the database file", "Can't reach database server"]

  /** The store cannot be reached: a client initialisation error, or an
      `Error` whose message names one of the two connection failures. */
  predicate DatabaseUnavailable(e: Api.Thrown)
  {
    || (e.Error? && e.cls == Api.PrismaInitialization)
    || (e.Error? && (Includes(e.message, DbUnavailableMessages[0]) || Includes(e.message, DbUnavailableMessages[1])))
  }

  /** The answer to an email that is already registered, whether found by the
      lookup or reported by the store on insert. */
  const EmailExists: Api.Response<Registered> :=
    Api.Response(409, Api.CodedErrorBody("EMAIL_EXISTS", "Email already exists"))

  /** The handler's own catch block. */
  function RegisterError(e: Api.Thrown): (r: Api.Response<Registered>)
    ensures r.status in {400, 409, 503, 500}
    ensures r.status == 400 <==> e.Error? && e.cls == Api.ZodError
    ensures r.status == 409 <==> e.Error? && e.cls == Api.PrismaKnownRequest("P2002")
    ensures r.status == 503 <==>
      !(e.Error? && (e.cls == Api.ZodError || e.cls == Api.PrismaKnownRequest("P2002"))) && DatabaseUnavailable(e)
    ensures r.body.CodedErrorBody?
    ensures r.status == 400 ==> r.body == Api.CodedErrorBody("INVALID_PAYLOAD", "Invalid payload")
    ensures r.status == 409 ==> r == EmailExists
    ensures r.status == 503 ==>
      r.body == Api.CodedErrorBody("DB_UNAVAILABLE", "Registration is unavailable because database is not reachable")
    ensures r.status == 500 ==> r.body == Api.CodedErrorBody("REGISTER_FAILED", "Registration failed")
  {
    if e.Error? && e.cls == Api.ZodError then
      Api.Response(400, Api.CodedErrorBody("INVALID_PAYLOAD", "Invalid payload"))
    else if e.Error? && e.cls == Api.PrismaKnownRequest("P2002") then EmailExists
    else if DatabaseUnavailable(e) then
      Api.Response(503, Api.CodedErrorBody("DB_UNAVAILABLE", "Registration is unavailable because database is not reachable"))
    else
      Api.Response(500, Api.CodedErrorBody("REGISTER_FAILED", "Registration failed"))
  }

  /** The row a successful sign-up inserts. New users are active. */
  function NewUser(data: Validators.RegisterData, passwordHash: string, stamp: Stamp): (u: User)
    ensures u.role != Role.ADMIN && u.isActive
    ensures u.id == stamp.id && u.name == data.name && u.email == data.email && u.passwordHash == passwordHash
    ensures UserRole.WellFormed(u)
    ensures var p := ProfileFor(data.role);
      u.role == p.role && u.canLandlord == p.canLandlord && u.canService == p.canService && u.activeMode == p.activeMode
  {
    var p := ProfileFor(data.role);
    User(stamp.id, data.name, data.email, passwordHash, p.role, p.canLandlord, p.canService, p.activeMode, true)
  }

  /** `POST /api/auth/register`. `hash` stands for bcrypt; `fault` is the
      error the store throws on the insert, if it throws (a unique-constraint
      race, a connection failure, ...). */
  function Post(body: RequestBody, store: Store, fmt: Validators.Formats, hash: string -> string,
                stamp: Stamp, fault: Option<Api.Thrown>): (out: Outcome<Registered>)
    ensures Validators.ParseRegister(body, fmt).Failure? ==>
      out == Outcome(RegisterError(Validators.ParseRegister(body, fmt).error), store)
    ensures Validators.ParseRegister(body, fmt).Success? &&
            FindUserByEmail(store.users, Validators.ParseRegister(body, fmt).value.email).Some? ==>
      out == Outcome(EmailExists, store)
    ensures Validators.ParseRegister(body, fmt).Success? &&
            FindUserByEmail(store.users, Validators.ParseRegister(body, fmt).value.email).None? && fault.Some? ==>
      out == Outcome(RegisterError(fault.value), store)
    ensures Validators.ParseRegister(body, fmt).Success? &&
            FindUserByEmail(store.users, Validators.ParseRegister(body, fmt).value.email).None? && fault.None? ==>
      var data := Validators.ParseRegister(body, fmt).value;
      var u := NewUser(data, hash(data.password), stamp);
      out.response == Api.Created(Registered(u.id, u.name, u.email, u.role, u.canLandlord, u.canService, u.activeMode, stamp.at))
    ensures out.response.status != 201 ==> out.store == store
    ensures out.response.status == 201 ==>
      var data := Validators.ParseRegister(body, fmt).value;
      && Validators.ParseRegister(body, fmt).Success?
      && FindUserByEmail(store.users, data.email).None?
      && fault.None?
      && out.store == store.(users := store.users + [NewUser(data, hash(data.password), stamp)])
  {
    match Validators.ParseRegister(body, fmt)
    case Failure(e) => Outcome(RegisterError(e), store)
    case Success(data) =>
      if FindUserByEmail(store.users, data.email).Some? then
        Outcome(EmailExists, store)
      else
        match fault
        case Some(e) => Outcome(RegisterError(e), store)
        case None =>
          var u := NewUser(data, hash(data.password), stamp);
          Outcome(Api.Created(Registered(u.id, u.name, u.email, u.role, u.canLandlord, u.canService, u.activeMode, stamp.at)),
                  store.(users := store.users + [u]))
  }

  /** A freshly registered user resolves to the role its stored mode names,
      and never to ADMIN. */
  lemma RegisteredUserResolvesToItsMode(data: Validators.RegisterData, passwordHash: string, stamp: Stamp)
    ensures UserRole.Effective(NewUser(data, passwordHash, stamp)).role == ModeRole(NewUser(data, passwordHash, stamp).activeMode)
    ensures UserRole.Effective(NewUser(data, passwordHash, stamp)).role != Role.ADMIN
  {
    UserRole.EffectiveFollowsActiveMode(NewUser(data, passwordHash, stamp));
  }

  /** An unparseable payload is 400; a JSON syntax error is not a schema
      error and ends as 500. */
  lemma PayloadErrors(body: RequestBody, store: Store, fmt: Validators.Formats, hash: string -> string,
                      stamp: Stamp, fault: Option<Api.Thrown>)
    requires Validators.ParseRegister(body, fmt).Failure?
    ensures !body.Malformed? ==> Post(body, store, fmt, hash, stamp, fault).response.status == 400
    ensures body.Malformed? ==> Post(body, store, fmt, hash, stamp, fault).response.status == 500
  {
    if body.Malformed? {
      var m := Validators.JsonSyntaxError.message;
      assert !Includes(m, DbUnavailableMessages[0]) by { NotIncludedWhenShorter(m, DbUnavailableMessages[0]); }
      assert !Includes(m, DbUnavailableMessages[1]) by { NotIncludedWhenShorter(m, DbUnavailableMessages[1]); }
    }
  }

  lemma {:induction false} NotIncludedWhenShorter(s: string, sub: string)
    requires |s| < |sub|
    ensures !Includes(s, sub)
    decreases |s|
  {
    if s != [] {
      NotIncludedWhenShorter(s[1..], sub);
    }
  }

  /** A unique-constraint race on the insert is reported like an existing email. */
  lemma InsertRaceIs409(body: RequestBody, store: Store, fmt: Validators.Formats, hash: string -> string,
                        stamp: Stamp, message: string)
    requires Validators.ParseRegister(body, fmt).Success?
    requires FindUserByEmail(store.users, Validators.ParseRegister(body, fmt).value.email).None?
    ensures Post(body, store, fmt, hash, stamp, Some(Api.Error(Api.PrismaKnownRequest("P2002"), message)))
            == Outcome(EmailExists, store)
  {
  }

  /** A store that cannot be reached when the row is inserted makes sign-up
      answer 503, and nothing is stored. */
  lemma UnreachableStoreIs503(body: RequestBody, store: Store, fmt: Validators.Formats, hash: string -> string,
                              stamp: Stamp, message: string)
    requires Validators.ParseRegister(body, fmt).Success?
    requires FindUserByEmail(store.users, Validators.ParseRegister(body, fmt).value.email).None?
    ensures Post(body, store, fmt, hash, stamp, Some(Api.Error(Api.PrismaInitialization, message))).response.status == 503
    ensures Post(body, store, fmt, hash, stamp, Some(Api.Error(Api.PrismaInitialization, message))).store == store
  {
  }
}
